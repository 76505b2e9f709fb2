/**
  The main loop of computeClusters as pure steps: the state after each
  player, and the step a root or a skipped player makes.
*/
module Pass {
  import opened Optional
  import opened Proximity
  import opened Player
  import opened Protocol
  import opened Clustering
  import opened Events

  /** The JOINs of clusters 1..idx-1 survive the labelling of component idx, whose own JOIN comes last. */
  lemma JoinEventsGrow(vs: seq<PlayerView>, vs': seq<PlayerView>, idx: nat)
    requires idx >= 1 && |vs'| == |vs|
    requires forall j :: 0 <= j < |vs| ==> vs'[j].id == vs[j].id
    requires OnlyNewLabels(ClusterIds(vs), ClusterIds(vs'), idx)
    ensures JoinEvents(vs', idx) ==
      JoinEvents(vs, idx - 1) + (if |Members(vs', idx)| > 1 then [ClusterJoin(idx, Members(vs', idx))] else [])
  {
    forall c | 1 <= c <= idx - 1
      ensures Members(vs', c) == Members(vs, c)
    {
      forall j | 0 <= j < |vs|
        ensures vs'[j].id == vs[j].id && (vs'[j].clusterId == Some(c) <==> vs[j].clusterId == Some(c))
      {
        assert ClusterIds(vs')[j] == ClusterIds(vs)[j] || (ClusterIds(vs)[j].None? && ClusterIds(vs')[j] == Some(idx));
      }
      MembersFrame(vs', vs, c);
    }
    JoinEventsFrame(vs', vs, idx - 1);
  }

  /**
    The state of computeClusters' main loop after the first i players: the
    pass invariant holds, and the outbox has gained the JOINs of the clusters
    numbered so far.
  */
  ghost predicate AssignState(outbox: seq<Send>, log: seq<Send>, aud: set<string>, pts: seq<Point>, vs: seq<PlayerView>, i: int)
  {
    && 0 <= i <= |pts|
    && PassInvariant(pts, ClusterIds(vs), i, RootsBelow(pts, i) + 1)
    && outbox == log + Broadcast(aud, JoinEvents(vs, RootsBelow(pts, i)))
  }

  /** A player that already has an id is skipped: nothing is sent and the state carries over. */
  lemma SkipPlayer(pts: seq<Point>, vs: seq<PlayerView>, i: int, outbox: seq<Send>, log: seq<Send>, aud: set<string>)
    requires AssignState(outbox, log, aud, pts, vs, i) && i < |pts| && vs[i].clusterId.Some?
    ensures AssignState(outbox, log, aud, pts, vs, i + 1)
  {
    PassSkip(pts, ClusterIds(vs), i, RootsBelow(pts, i) + 1);
  }

  /**
    After the BFS from root i has labelled component cid, and its JOIN has
    been sent when it has more than one member, the loop state holds for i + 1.
  */
  lemma RootStep(outbox0: seq<Send>, outbox: seq<Send>, log: seq<Send>, aud: set<string>, pts: seq<Point>,
                 vs: seq<PlayerView>, vs': seq<PlayerView>, i: int, cid: nat)
    requires AssignState(outbox0, log, aud, pts, vs, i) && i < |pts| && vs[i].clusterId.None?
    requires cid == RootsBelow(pts, i) + 1
    requires |vs'| == |vs| && forall j :: 0 <= j < |vs| ==> vs'[j].id == vs[j].id
    requires AssignedComponent(pts, ClusterIds(vs), ClusterIds(vs'), i, cid)
    requires OnlyNewLabels(ClusterIds(vs), ClusterIds(vs'), cid)
    requires outbox == outbox0 + if |Members(vs', cid)| > 1 then [Send(aud, ClusterJoin(cid, Members(vs', cid)))] else []
    ensures cid == RootsBelow(pts, i + 1)
    ensures AssignState(outbox, log, aud, pts, vs', i + 1)
  {
    PassRoot(pts, ClusterIds(vs), ClusterIds(vs'), i, cid);
    JoinEventsGrow(vs, vs', cid);
    var sent := JoinEvents(vs, cid - 1);
    if |Members(vs', cid)| > 1 {
      BroadcastSnoc(log, aud, sent, ClusterJoin(cid, Members(vs', cid)));
    } else {
      assert JoinEvents(vs', cid) == sent;
    }
  }

  /** When the main loop has visited every player, the ids form the clustering and every JOIN has been sent. */
  lemma AssignEnd(outbox: seq<Send>, log: seq<Send>, aud: set<string>, pts: seq<Point>, vs: seq<PlayerView>)
    requires AssignState(outbox, log, aud, pts, vs, |pts|)
    ensures IsClustering(pts, ClusterIds(vs))
    ensures outbox == log + Broadcast(aud, JoinEvents(vs, RootsBelow(pts, |pts|)))
  {
    PassEnd(pts, ClusterIds(vs), RootsBelow(pts, |pts|) + 1);
  }

  /**
    What one clustering pass promises about a room: only cluster ids change,
    they form the clustering of the players' positions, and the room is told
    the JOINs and then the LEAVEs of the pass.
  */
  ghost predicate Reclusters(before: seq<PlayerView>, after: seq<PlayerView>, log: seq<Send>, outbox: seq<Send>, aud: set<string>)
  {
    && |after| == |before|
    && after == Reclustered(before, ClusterIds(after))
    && IsClustering(Positions(before), ClusterIds(after))
    && outbox == log + Broadcast(aud, ClusterEvents(before, after, RootsBelow(Positions(before), |before|)))
  }

  /** The steps of computeClusters, put together. */
  lemma PassOutcome(placed: seq<PlayerView>, before: seq<PlayerView>, after: seq<PlayerView>, pts: seq<Point>,
                    log: seq<Send>, mid: seq<Send>, outbox: seq<Send>, aud: set<string>)
    requires |before| == |placed| && |after| == |placed|
    requires before == Reclustered(placed, ClusterIds(before)) && after == Reclustered(placed, ClusterIds(after))
    requires pts == Positions(before) && IsClustering(pts, ClusterIds(after))
    requires mid == log + Broadcast(aud, JoinEvents(after, RootsBelow(pts, |before|)))
    requires outbox == mid + Broadcast(aud, LeaveEvents(before, after))
    ensures Reclusters(before, after, log, outbox, aud)
  {
    ReclusteredTwice(placed, ClusterIds(before), ClusterIds(after));
    BroadcastAppend(aud, JoinEvents(after, RootsBelow(pts, |before|)), LeaveEvents(before, after));
  }

  /** computeClusters is deterministic: the room before the pass fixes the ids after it and everything it sends. */
  lemma ReclustersUnique(before: seq<PlayerView>, a1: seq<PlayerView>, a2: seq<PlayerView>, log: seq<Send>,
                         o1: seq<Send>, o2: seq<Send>, aud: set<string>)
    requires Reclusters(before, a1, log, o1, aud) && Reclusters(before, a2, log, o2, aud)
    ensures a1 == a2 && o1 == o2
  {
    ClusteringUnique(Positions(before), ClusterIds(a1), ClusterIds(a2));
  }

  /**
    A second pass over a room where nobody moved keeps every id, sends no
    LEAVE, and only repeats the JOINs of the clusters with several members.
  */
  lemma ReclustersStable(before: seq<PlayerView>, after: seq<PlayerView>, again: seq<PlayerView>, log: seq<Send>,
                         mid: seq<Send>, outbox: seq<Send>, aud: set<string>)
    requires Reclusters(before, after, log, mid, aud) && Reclusters(after, again, mid, outbox, aud)
    ensures again == after
    ensures outbox == mid + Broadcast(aud, JoinEvents(after, RootsBelow(Positions(after), |after|)))
  {
    assert Positions(after) == Positions(before);
    ClusteringUnique(Positions(before), ClusterIds(after), ClusterIds(again));
    assert again == Reclustered(after, ClusterIds(after));
    LeaveEventsNone(after);
    assert ClusterEvents(after, again, RootsBelow(Positions(after), |after|)) == JoinEvents(after, RootsBelow(Positions(after), |after|));
  }

  /**
    What handleMove does to a room whose player `id` exists: that player moves
    to (x, y), the room is re-clustered with its events sent, and then one
    PLAYERS message carries the room as it now is.
  */
  ghost predicate MoveOutcome(before: seq<PlayerView>, id: string, x: real, y: real, after: seq<PlayerView>,
                              log: seq<Send>, outbox: seq<Send>, aud: set<string>)
  {
    && |outbox| > |log|
    && Reclusters(MoveTo(before, id, x, y), after, log, outbox[..|outbox| - 1], aud)
    && outbox[|outbox| - 1] == Send(aud, Players(after))
  }

  lemma LastSplit<T>(s: seq<T>)
    requires |s| > 0
    ensures s == s[..|s| - 1] + [s[|s| - 1]]
  {
  }

  /** The steps of handleMove, put together. */
  lemma MoveStep(before: seq<PlayerView>, id: string, x: real, y: real, moved: seq<PlayerView>, after: seq<PlayerView>,
                 log: seq<Send>, mid: seq<Send>, outbox: seq<Send>, aud: set<string>)
    requires moved == MoveTo(before, id, x, y) && Reclusters(moved, after, log, mid, aud)
    requires outbox == mid + [Send(aud, Players(after))]
    ensures MoveOutcome(before, id, x, y, after, log, outbox, aud)
  {
    assert outbox[..|outbox| - 1] == mid;
  }

  /** A move has exactly one outcome. */
  lemma MoveOutcomeUnique(before: seq<PlayerView>, id: string, x: real, y: real, a1: seq<PlayerView>, a2: seq<PlayerView>,
                          log: seq<Send>, o1: seq<Send>, o2: seq<Send>, aud: set<string>)
    requires MoveOutcome(before, id, x, y, a1, log, o1, aud) && MoveOutcome(before, id, x, y, a2, log, o2, aud)
    ensures a1 == a2 && o1 == o2
  {
    var moved, p1, p2 := MoveTo(before, id, x, y), o1[..|o1| - 1], o2[..|o2| - 1];
    ReclustersUnique(moved, a1, a2, log, p1, p2, aud);
    LastSplit(o1);
    LastSplit(o2);
  }

  /**
    After a move only the mover's position has changed, every player has a
    cluster id, and the last message sent is the room's PLAYERS list.
  */
  lemma MovePlaces(before: seq<PlayerView>, id: string, x: real, y: real, after: seq<PlayerView>,
                   log: seq<Send>, outbox: seq<Send>, aud: set<string>)
    requires MoveOutcome(before, id, x, y, after, log, outbox, aud)
    ensures |after| == |before|
    ensures forall i :: 0 <= i < |before| ==>
      && after[i].id == before[i].id && after[i].name == before[i].name && after[i].room == before[i].room
      && (after[i].x, after[i].y) == (if before[i].id == id then (x, y) else (before[i].x, before[i].y))
      && after[i].clusterId.Some?
    ensures outbox[|outbox| - 1] == Send(aud, Players(after))
  {
    var moved := MoveTo(before, id, x, y);
    forall i | 0 <= i < |before|
      ensures after[i].clusterId.Some?
    {
      assert ClusterIds(after)[i] == after[i].clusterId;
    }
  }
}
