/**
  The CLUSTER_JOIN and CLUSTER_LEAVE events of one clustering pass, as
  functions of the room before and after the pass.
*/
module Events {
  import opened Optional
  import opened Player
  import opened Protocol

  /** The ids of the players in cluster c, in list order (the member-collecting stream). */
  function Members(vs: seq<PlayerView>, c: nat): seq<string>
    decreases |vs|
  {
    if vs == [] then []
    else Members(vs[..|vs| - 1], c) + (if vs[|vs| - 1].clusterId == Some(c) then [vs[|vs| - 1].id] else [])
  }

  /** One CLUSTER_JOIN per cluster 1..k with more than one member, in cluster order. */
  function JoinEvents(vs: seq<PlayerView>, k: nat): seq<Msg>
  {
    if k == 0 then []
    else JoinEvents(vs, k - 1) + (if |Members(vs, k)| > 1 then [ClusterJoin(k, Members(vs, k))] else [])
  }

  /** The CLUSTER_LEAVE, if any, for one player: its old id, when it had one and lost it. */
  function LeaveEvent(before: PlayerView, after: PlayerView): seq<Msg>
  {
    if before.clusterId.Some? && before.clusterId != after.clusterId
    then [ClusterLeave(before.clusterId.value, after.id)]
    else []
  }

  /** The CLUSTER_LEAVE events of a pass, in list order. */
  function LeaveEvents(before: seq<PlayerView>, after: seq<PlayerView>): seq<Msg>
    requires |before| == |after|
    decreases |before|
  {
    if before == [] then []
    else
      var n := |before| - 1;
      LeaveEvents(before[..n], after[..n]) + LeaveEvent(before[n], after[n])
  }

  /** Extending both rooms by one player adds that player's LEAVE, if any, at the end. */
  lemma LeaveEventsPrefix(before: seq<PlayerView>, after: seq<PlayerView>, i: int)
    requires |before| == |after| && 0 <= i < |before|
    ensures LeaveEvents(before[..i + 1], after[..i + 1]) == LeaveEvents(before[..i], after[..i]) + LeaveEvent(before[i], after[i])
  {
    assert before[..i + 1][..i] == before[..i] && after[..i + 1][..i] == after[..i];
  }

  /** Everything a pass sends: all JOINs, then all LEAVEs. */
  function ClusterEvents(before: seq<PlayerView>, after: seq<PlayerView>, k: nat): seq<Msg>
    requires |before| == |after|
  {
    JoinEvents(after, k) + LeaveEvents(before, after)
  }

  /** A player id is listed in cluster c exactly when a player with that id is in c. */
  lemma {:induction false} MembersSpec(vs: seq<PlayerView>, c: nat, x: string)
    ensures x in Members(vs, c) <==> exists i :: 0 <= i < |vs| && vs[i].id == x && vs[i].clusterId == Some(c)
    decreases |vs|
  {
    if vs != [] {
      var n := |vs| - 1;
      MembersSpec(vs[..n], c, x);
      if x in Members(vs[..n], c) {
        var i :| 0 <= i < n && vs[..n][i].id == x && vs[..n][i].clusterId == Some(c);
        assert vs[i] == vs[..n][i];
      }
      if exists i :: 0 <= i < |vs| && vs[i].id == x && vs[i].clusterId == Some(c) {
        var i :| 0 <= i < |vs| && vs[i].id == x && vs[i].clusterId == Some(c);
        if i < n {
          assert vs[..n][i] == vs[i];
        }
      }
    }
  }

  /** Members only looks at ids and at who is in cluster c. */
  lemma {:induction false} MembersFrame(a: seq<PlayerView>, b: seq<PlayerView>, c: nat)
    requires |a| == |b|
    requires forall i :: 0 <= i < |a| ==> a[i].id == b[i].id && (a[i].clusterId == Some(c) <==> b[i].clusterId == Some(c))
    ensures Members(a, c) == Members(b, c)
    decreases |a|
  {
    if a != [] {
      var n := |a| - 1;
      MembersFrame(a[..n], b[..n], c);
    }
  }

  /** The JOINs up to cluster k only depend on the member lists of clusters 1..k. */
  lemma {:induction false} JoinEventsFrame(a: seq<PlayerView>, b: seq<PlayerView>, k: nat)
    requires forall c :: 1 <= c <= k ==> Members(a, c) == Members(b, c)
    ensures JoinEvents(a, k) == JoinEvents(b, k)
  {
    if k > 0 {
      JoinEventsFrame(a, b, k - 1);
      assert Members(a, k) == Members(b, k);
    }
  }

  /** A JOIN is sent for cluster c exactly when 1 <= c <= k and c has more than one member, and it lists them. */
  lemma {:induction false} JoinEventsSpec(vs: seq<PlayerView>, k: nat, m: Msg)
    ensures m in JoinEvents(vs, k) <==>
      m.ClusterJoin? && 1 <= m.cluster <= k && |Members(vs, m.cluster)| > 1 && m.members == Members(vs, m.cluster)
  {
    if k > 0 {
      JoinEventsSpec(vs, k - 1, m);
      var ms := Members(vs, k);
      var tail := if |ms| > 1 then [ClusterJoin(k, ms)] else [];
      assert JoinEvents(vs, k) == JoinEvents(vs, k - 1) + tail;
      assert m in JoinEvents(vs, k) <==> m in JoinEvents(vs, k - 1) || m in tail;
    }
  }

  /** The JOINs are announced in increasing cluster order, each for a cluster in 1..k. */
  lemma {:induction false} JoinEventsIncreasing(vs: seq<PlayerView>, k: nat)
    ensures forall a :: 0 <= a < |JoinEvents(vs, k)| ==>
      JoinEvents(vs, k)[a].ClusterJoin? && 1 <= JoinEvents(vs, k)[a].cluster <= k
    ensures forall a, b :: 0 <= a < b < |JoinEvents(vs, k)| ==> JoinEvents(vs, k)[a].cluster < JoinEvents(vs, k)[b].cluster
  {
    if k > 0 {
      JoinEventsIncreasing(vs, k - 1);
    }
  }

  /** Player i of the room had cluster id c before the pass and lost it, and m is its LEAVE. */
  ghost predicate LeftCluster(before: seq<PlayerView>, after: seq<PlayerView>, i: int, m: Msg)
    requires |before| == |after|
  {
    && 0 <= i < |before| && before[i].clusterId.Some? && before[i].clusterId != after[i].clusterId
    && m == ClusterLeave(before[i].clusterId.value, after[i].id)
  }

  /**
    A LEAVE naming cluster c and player p is sent exactly when some player with
    id p had the old id c and now has another one (or none).
  */
  lemma {:induction false} LeaveEventsSpec(before: seq<PlayerView>, after: seq<PlayerView>, m: Msg)
    requires |before| == |after|
    ensures m in LeaveEvents(before, after) <==> exists i :: LeftCluster(before, after, i, m)
    decreases |before|
  {
    if before != [] {
      var n := |before| - 1;
      var b, a := before[..n], after[..n];
      LeaveEventsSpec(b, a, m);
      assert LeaveEvents(before, after) == LeaveEvents(b, a) + LeaveEvent(before[n], after[n]);
      if m in LeaveEvents(b, a) {
        var i :| LeftCluster(b, a, i, m);
        assert b[i] == before[i] && a[i] == after[i];
        assert LeftCluster(before, after, i, m);
      }
      if m in LeaveEvent(before[n], after[n]) {
        assert LeftCluster(before, after, n, m);
      }
      if exists i :: LeftCluster(before, after, i, m) {
        var i :| LeftCluster(before, after, i, m);
        if i < n {
          assert b[i] == before[i] && a[i] == after[i];
          assert LeftCluster(b, a, i, m);
        } else {
          assert m in LeaveEvent(before[n], after[n]);
        }
      }
    }
  }

  /** A pass that changes no cluster id sends no LEAVE. */
  lemma {:induction false} LeaveEventsNone(vs: seq<PlayerView>)
    ensures LeaveEvents(vs, vs) == []
    decreases |vs|
  {
    if vs != [] {
      LeaveEventsNone(vs[..|vs| - 1]);
    }
  }

  /** The positions below k of the players that lost their cluster id in the pass. */
  function LostBelow(before: seq<PlayerView>, after: seq<PlayerView>, k: int): set<int>
    requires |before| == |after|
  {
    set i | 0 <= i < k && i < |before| && before[i].clusterId.Some? && before[i].clusterId != after[i].clusterId
  }

  lemma {:induction false} LeaveEventsCountBelow(before: seq<PlayerView>, after: seq<PlayerView>, k: int)
    requires |before| == |after| && 0 <= k <= |before|
    ensures |LeaveEvents(before[..k], after[..k])| == |LostBelow(before, after, k)|
  {
    if k > 0 {
      LeaveEventsCountBelow(before, after, k - 1);
      assert before[..k][..k - 1] == before[..k - 1] && after[..k][..k - 1] == after[..k - 1];
      assert |LeaveEvents(before[..k], after[..k])| == |LeaveEvents(before[..k - 1], after[..k - 1])| + |LeaveEvent(before[k - 1], after[k - 1])|;
      if before[k - 1].clusterId.Some? && before[k - 1].clusterId != after[k - 1].clusterId {
        assert LostBelow(before, after, k) == LostBelow(before, after, k - 1) + {k - 1};
      } else {
        assert LostBelow(before, after, k) == LostBelow(before, after, k - 1);
      }
    }
  }

  /** There is exactly one LEAVE per player that lost its id; players without an old id never get one. */
  lemma LeaveEventsCount(before: seq<PlayerView>, after: seq<PlayerView>)
    requires |before| == |after|
    ensures |LeaveEvents(before, after)| == |LostBelow(before, after, |before|)|
  {
    LeaveEventsCountBelow(before, after, |before|);
    assert before[..|before|] == before && after[..|after|] == after;
  }
}
