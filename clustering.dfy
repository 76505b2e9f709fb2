/**
  What one clustering pass (computeClusters) computes, stated independently of
  the breadth-first search that computes it: the clusters are the connected
  components of the proximity graph, numbered 1, 2, ... in list order of each
  component's first player; then the JOIN and LEAVE events it emits.
*/
module Clustering {
  import opened Optional
  import opened Proximity
  import opened Player
  import opened Protocol

  /** r is the first player of its component in list order. */
  ghost predicate IsRoot(pts: seq<Point>, r: int)
  {
    0 <= r < |pts| && forall j :: 0 <= j < r ==> !Connected(pts, j, r)
  }

  /** The number of components whose first player lies before position m. */
  ghost function RootsBelow(pts: seq<Point>, m: int): nat
    requires 0 <= m <= |pts|
    decreases m
  {
    if m == 0 then 0 else RootsBelow(pts, m - 1) + (if IsRoot(pts, m - 1) then 1 else 0)
  }

  /**
    The outcome of a pass: every player has a cluster number, two players share
    one exactly when they are connected, and the component first met at r is
    numbered by how many components were first met up to r.
  */
  ghost predicate IsClustering(pts: seq<Point>, cids: seq<Option<nat>>)
  {
    && |cids| == |pts|
    && (forall i :: 0 <= i < |cids| ==> cids[i].Some?)
    && (forall i, j :: 0 <= i < |cids| && 0 <= j < |cids| ==> (cids[i] == cids[j] <==> Connected(pts, i, j)))
    && (forall r :: 0 <= r < |cids| && IsRoot(pts, r) ==> cids[r] == Some(RootsBelow(pts, r) + 1))
  }

  /** Some player before position i is connected to j. */
  ghost predicate Covered(pts: seq<Point>, i: int, j: int)
  {
    exists r :: 0 <= r < i && Connected(pts, r, j)
  }

  /** The clustered players are exactly those connected to one of the first i. */
  ghost predicate ClusteredExactly(pts: seq<Point>, cids: seq<Option<nat>>, i: int)
    requires |cids| == |pts|
  {
    forall j :: 0 <= j < |pts| ==> (cids[j].Some? <==> Covered(pts, i, j))
  }

  /** Two clustered players share an id exactly when they are connected. */
  ghost predicate SameIdIffConnected(pts: seq<Point>, cids: seq<Option<nat>>)
    requires |cids| == |pts|
  {
    forall j, t :: 0 <= j < |pts| && 0 <= t < |pts| && cids[j].Some? && cids[t].Some? ==>
      (cids[j] == cids[t] <==> Connected(pts, j, t))
  }

  /** Every id handed out so far lies in 1..idx-1. */
  ghost predicate IdsBelow(cids: seq<Option<nat>>, idx: nat)
  {
    forall j :: 0 <= j < |cids| && cids[j].Some? ==> 1 <= cids[j].value < idx
  }

  /** The roots among the first i players carry their rank. */
  ghost predicate RootsNumbered(pts: seq<Point>, cids: seq<Option<nat>>, i: int)
    requires |cids| == |pts| && 0 <= i <= |pts|
  {
    forall r :: 0 <= r < i && IsRoot(pts, r) ==> cids[r] == Some(RootsBelow(pts, r) + 1)
  }

  /**
    The state of a pass once the players before position i have been visited
    and the next id to mint is idx.
  */
  ghost predicate PassInvariant(pts: seq<Point>, cids: seq<Option<nat>>, i: int, idx: nat)
  {
    && |cids| == |pts|
    && 0 <= i <= |pts|
    && idx == RootsBelow(pts, i) + 1
    && ClusteredExactly(pts, cids, i)
    && SameIdIffConnected(pts, cids)
    && IdsBelow(cids, idx)
    && RootsNumbered(pts, cids, i)
  }

  /** The cluster numbers after the BFS from root i has labelled its component idx. */
  ghost predicate AssignedComponent(pts: seq<Point>, cids: seq<Option<nat>>, cids': seq<Option<nat>>, i: int, idx: nat)
  {
    && |cids'| == |cids|
    && forall j :: 0 <= j < |cids| ==> cids'[j] == if Connected(pts, i, j) then Some(idx) else cids[j]
  }

  lemma PassStart(pts: seq<Point>)
    ensures PassInvariant(pts, seq(|pts|, _ => None), 0, 1)
  {
  }

  /** No proximity edge leaves the clustered players. */
  ghost predicate ComponentsClosed(pts: seq<Point>, cids: seq<Option<nat>>)
    requires |cids| == |pts|
  {
    forall j, t :: 0 <= j < |pts| && 0 <= t < |pts| && cids[j].Some? && Near(pts[j], pts[t]) ==> cids[t].Some?
  }

  ghost predicate IdUnused(cids: seq<Option<nat>>, cid: nat)
  {
    forall j :: 0 <= j < |cids| ==> cids[j] != Some(cid)
  }

  /** No proximity edge leaves the clustered players, and idx is not in use yet. */
  lemma {:induction false} PassClosed(pts: seq<Point>, cids: seq<Option<nat>>, i: int, idx: nat)
    requires PassInvariant(pts, cids, i, idx)
    ensures ComponentsClosed(pts, cids)
    ensures IdUnused(cids, idx)
  {
    forall j, t | 0 <= j < |pts| && 0 <= t < |pts| && cids[j].Some? && Near(pts[j], pts[t])
      ensures cids[t].Some?
    {
      assert Covered(pts, i, j);
      var r :| 0 <= r < i && Connected(pts, r, j);
      ConnectedExtend(pts, r, j, t);
      assert Covered(pts, i, t);
    }
  }

  /** Visiting an already clustered player mints nothing: it is not a root. */
  lemma {:induction false} PassSkip(pts: seq<Point>, cids: seq<Option<nat>>, i: int, idx: nat)
    requires PassInvariant(pts, cids, i, idx)
    requires i < |pts| && cids[i].Some?
    ensures PassInvariant(pts, cids, i + 1, idx)
  {
    assert Covered(pts, i, i);
    var r0 :| 0 <= r0 < i && Connected(pts, r0, i);
    assert !IsRoot(pts, i);
    assert RootsBelow(pts, i + 1) == RootsBelow(pts, i);
    forall j | 0 <= j < |pts|
      ensures cids[j].Some? <==> Covered(pts, i + 1, j)
    {
      if Covered(pts, i + 1, j) {
        var r :| 0 <= r < i + 1 && Connected(pts, r, j);
        if r == i {
          ConnectedTransitive(pts, r0, i, j);
        }
        assert Covered(pts, i, j);
      }
    }
  }

  lemma {:induction false} RootIsUnclustered(pts: seq<Point>, cids: seq<Option<nat>>, i: int, idx: nat)
    requires PassInvariant(pts, cids, i, idx)
    requires i < |pts| && cids[i].None?
    ensures IsRoot(pts, i)
    ensures RootsBelow(pts, i + 1) == idx
  {
    forall j | 0 <= j < i
      ensures !Connected(pts, j, i)
    {
      if Connected(pts, j, i) {
        assert Covered(pts, i, i);
      }
    }
  }

  lemma {:induction false} RootClusteredExactly(pts: seq<Point>, cids: seq<Option<nat>>, cids': seq<Option<nat>>, i: int, idx: nat)
    requires PassInvariant(pts, cids, i, idx)
    requires i < |pts| && cids[i].None?
    requires AssignedComponent(pts, cids, cids', i, idx)
    ensures ClusteredExactly(pts, cids', i + 1)
  {
    forall j | 0 <= j < |pts|
      ensures cids'[j].Some? <==> Covered(pts, i + 1, j)
    {
      if Connected(pts, i, j) {
        assert Covered(pts, i + 1, j);
      } else {
        assert cids'[j] == cids[j];
        if Covered(pts, i + 1, j) {
          var r :| 0 <= r < i + 1 && Connected(pts, r, j);
          assert Covered(pts, i, j);
        }
      }
    }
  }

  lemma {:induction false} RootSameIdIffConnected(pts: seq<Point>, cids: seq<Option<nat>>, cids': seq<Option<nat>>, i: int, idx: nat)
    requires PassInvariant(pts, cids, i, idx)
    requires i < |pts| && cids[i].None?
    requires AssignedComponent(pts, cids, cids', i, idx)
    ensures SameIdIffConnected(pts, cids')
  {
    forall j, t | 0 <= j < |pts| && 0 <= t < |pts| && cids'[j].Some? && cids'[t].Some?
      ensures cids'[j] == cids'[t] <==> Connected(pts, j, t)
    {
      var cj, ct := Connected(pts, i, j), Connected(pts, i, t);
      if cj && ct {
        ConnectedSymmetric(pts, i, j);
        ConnectedTransitive(pts, j, i, t);
      } else if cj {
        assert cids'[t] == cids[t];
        if Connected(pts, j, t) {
          ConnectedTransitive(pts, i, j, t);
        }
      } else if ct {
        assert cids'[j] == cids[j];
        if Connected(pts, j, t) {
          ConnectedSymmetric(pts, j, t);
          ConnectedTransitive(pts, i, t, j);
        }
      } else {
        assert cids'[j] == cids[j] && cids'[t] == cids[t];
      }
    }
  }

  lemma {:induction false} RootIdsBelow(pts: seq<Point>, cids: seq<Option<nat>>, cids': seq<Option<nat>>, i: int, idx: nat)
    requires |cids| == |pts| && IdsBelow(cids, idx) && idx >= 1
    requires AssignedComponent(pts, cids, cids', i, idx)
    ensures IdsBelow(cids', idx + 1)
  {
    forall j | 0 <= j < |pts| && cids'[j].Some?
      ensures 1 <= cids'[j].value < idx + 1
    {
      if !Connected(pts, i, j) {
        assert cids'[j] == cids[j];
      }
    }
  }

  lemma {:induction false} RootRootsNumbered(pts: seq<Point>, cids: seq<Option<nat>>, cids': seq<Option<nat>>, i: int, idx: nat)
    requires |cids| == |pts| && 0 <= i < |pts|
    requires ClusteredExactly(pts, cids, i) && RootsNumbered(pts, cids, i)
    requires cids[i].None? && RootsBelow(pts, i) + 1 == idx
    requires AssignedComponent(pts, cids, cids', i, idx)
    ensures RootsNumbered(pts, cids', i + 1)
  {
    ConnectedRefl(pts, i);
    assert cids'[i] == Some(idx);
    forall r | 0 <= r < i + 1 && IsRoot(pts, r)
      ensures cids'[r] == Some(RootsBelow(pts, r) + 1)
    {
      if r < i {
        if Connected(pts, i, r) {
          ConnectedSymmetric(pts, i, r);
          assert Covered(pts, i, i);
        }
        assert cids'[r] == cids[r];
      }
    }
  }

  /** Visiting an unclustered player: it is a root, and its component gets the id idx. */
  lemma {:induction false} PassRoot(pts: seq<Point>, cids: seq<Option<nat>>, cids': seq<Option<nat>>, i: int, idx: nat)
    requires PassInvariant(pts, cids, i, idx)
    requires i < |pts| && cids[i].None?
    requires AssignedComponent(pts, cids, cids', i, idx)
    ensures PassInvariant(pts, cids', i + 1, idx + 1)
  {
    RootIsUnclustered(pts, cids, i, idx);
    RootClusteredExactly(pts, cids, cids', i, idx);
    RootSameIdIffConnected(pts, cids, cids', i, idx);
    RootIdsBelow(pts, cids, cids', i, idx);
    RootRootsNumbered(pts, cids, cids', i, idx);
  }

  /** cids' keeps every id of cids and only gives cid to players that had none. */
  ghost predicate OnlyNewLabels(cids: seq<Option<nat>>, cids': seq<Option<nat>>, cid: nat)
  {
    |cids'| == |cids| && forall j :: 0 <= j < |cids| ==> cids'[j] == cids[j] || (cids[j].None? && cids'[j] == Some(cid))
  }

  /** One scan of bfsAssign from the dequeued player ia: unclustered players near it get cid. */
  function Scanned(cids: seq<Option<nat>>, pts: seq<Point>, ia: int, cid: nat): seq<Option<nat>>
    requires |cids| == |pts| && 0 <= ia < |pts|
  {
    ScannedUpTo(cids, pts, ia, cid, |cids|)
  }

  /** The scan from ia after it has looked at the players before position k. */
  function ScannedUpTo(cids: seq<Option<nat>>, pts: seq<Point>, ia: int, cid: nat, k: int): seq<Option<nat>>
    requires |cids| == |pts| && 0 <= ia < |pts|
  {
    seq(|cids|, j requires 0 <= j < |cids| => if j < k && cids[j].None? && Near(pts[ia], pts[j]) then Some(cid) else cids[j])
  }

  function Unmarked(cids: seq<Option<nat>>): set<int>
  {
    set j | 0 <= j < |cids| && cids[j].None?
  }

  /**
    The state of a breadth-first search from ri labelling players cid, with
    queue qi: labels were only added, the labelled players are connected to
    ri, the queue holds labelled players, and every labelled player that has
    left the queue has all its neighbours clustered.
  */
  ghost predicate SearchInvariant(pts: seq<Point>, before: seq<Option<nat>>, cur: seq<Option<nat>>, qi: seq<int>, ri: int, cid: nat)
  {
    && |before| == |pts| && |cur| == |pts| && 0 <= ri < |pts|
    && (forall k :: 0 <= k < |qi| ==> 0 <= qi[k] < |pts| && cur[qi[k]] == Some(cid))
    && (forall j :: 0 <= j < |pts| ==> if before[j].Some? then cur[j] == before[j] else cur[j].None? || cur[j] == Some(cid))
    && cur[ri] == Some(cid)
    && (forall j :: 0 <= j < |pts| && cur[j] == Some(cid) ==> Connected(pts, ri, j))
    && (forall j, t :: 0 <= j < |pts| && 0 <= t < |pts| && cur[j] == Some(cid) && j !in qi && Near(pts[j], pts[t]) ==> cur[t].Some?)
  }

  lemma SearchStart(pts: seq<Point>, before: seq<Option<nat>>, ri: int, cid: nat)
    requires |before| == |pts| && 0 <= ri < |pts| && before[ri].None?
    requires IdUnused(before, cid)
    ensures SearchInvariant(pts, before, before[ri := Some(cid)], [ri], ri, cid)
  {
    ConnectedRefl(pts, ri);
  }

  /** added lists exactly the players a scan from ia labels. */
  ghost predicate NewlyMarked(pts: seq<Point>, cur: seq<Option<nat>>, ia: int, added: seq<int>)
    requires |cur| == |pts| && 0 <= ia < |pts|
  {
    NewlyMarkedUpTo(pts, cur, ia, added, |pts|)
  }

  ghost predicate NewlyMarkedUpTo(pts: seq<Point>, cur: seq<Option<nat>>, ia: int, added: seq<int>, k: int)
    requires |cur| == |pts| && 0 <= ia < |pts|
  {
    forall j :: j in added <==> 0 <= j < k && j < |pts| && cur[j].None? && Near(pts[ia], pts[j])
  }

  /** Looking at position k extends the scan by one step. */
  lemma ScanAdvance(cids: seq<Option<nat>>, pts: seq<Point>, ia: int, cid: nat, k: int, added: seq<int>)
    requires |cids| == |pts| && 0 <= ia < |pts| && 0 <= k < |pts|
    requires NewlyMarkedUpTo(pts, cids, ia, added, k)
    ensures cids[k].None? && Near(pts[ia], pts[k]) ==>
      ScannedUpTo(cids, pts, ia, cid, k + 1) == ScannedUpTo(cids, pts, ia, cid, k)[k := Some(cid)]
      && NewlyMarkedUpTo(pts, cids, ia, added + [k], k + 1)
    ensures !(cids[k].None? && Near(pts[ia], pts[k])) ==>
      ScannedUpTo(cids, pts, ia, cid, k + 1) == ScannedUpTo(cids, pts, ia, cid, k)
      && NewlyMarkedUpTo(pts, cids, ia, added, k + 1)
  {
  }

  /** Dequeuing qi[0], scanning it and queueing the players it labelled keeps the invariant, and makes progress. */
  lemma {:induction false} SearchStep(pts: seq<Point>, before: seq<Option<nat>>, cur: seq<Option<nat>>, qi: seq<int>, ri: int, cid: nat, added: seq<int>)
    requires SearchInvariant(pts, before, cur, qi, ri, cid) && qi != []
    requires NewlyMarked(pts, cur, qi[0], added)
    ensures SearchInvariant(pts, before, Scanned(cur, pts, qi[0], cid), qi[1..] + added, ri, cid)
    ensures Unmarked(Scanned(cur, pts, qi[0], cid)) < Unmarked(cur)
         || (Unmarked(Scanned(cur, pts, qi[0], cid)) == Unmarked(cur) && added == [])
  {
    var ia := qi[0];
    var next := Scanned(cur, pts, ia, cid);
    var qi' := qi[1..] + added;
    forall k | 0 <= k < |qi'|
      ensures 0 <= qi'[k] < |pts| && next[qi'[k]] == Some(cid)
    {
      if k < |qi| - 1 {
        assert qi'[k] == qi[k + 1];
      } else {
        assert qi'[k] in added;
      }
    }
    forall j | 0 <= j < |pts| && next[j] == Some(cid)
      ensures Connected(pts, ri, j)
    {
      if cur[j].None? {
        ConnectedExtend(pts, ri, ia, j);
      }
    }
    forall j, t | 0 <= j < |pts| && 0 <= t < |pts| && next[j] == Some(cid) && j !in qi' && Near(pts[j], pts[t])
      ensures next[t].Some?
    {
      if j != ia {
        assert j !in qi[1..] && j !in added;
        assert j !in qi by {
          assert forall x :: x in qi ==> x == ia || x in qi[1..];
        }
      }
    }
    assert Unmarked(next) <= Unmarked(cur);
    if added != [] {
      assert added[0] in added;
      assert added[0] in Unmarked(cur) && added[0] !in Unmarked(next);
    }
  }

  /**
    The end of a search: with the queue empty, and with the players clustered
    before forming whole components, the search has labelled exactly the
    component of ri.
  */
  lemma {:induction false} SearchLabelsComponent(pts: seq<Point>, before: seq<Option<nat>>, cur: seq<Option<nat>>, ri: int, cid: nat)
    requires SearchInvariant(pts, before, cur, [], ri, cid)
    requires ComponentsClosed(pts, before) && IdUnused(before, cid)
    ensures AssignedComponent(pts, before, cur, ri, cid)
    ensures OnlyNewLabels(before, cur, cid)
  {
    var comp := set j | 0 <= j < |pts| && cur[j] == Some(cid);
    forall a, b | a in comp && 0 <= a < |pts| && 0 <= b < |pts| && Near(pts[a], pts[b])
      ensures b in comp
    {
      NearSymmetric(pts[a], pts[b]);
    }
    forall j | 0 <= j < |pts| && Connected(pts, ri, j)
      ensures j in comp
    {
      ClosedSetContainsComponent(pts, comp, ri, j);
    }
  }

  /** After the last player the pass has produced a clustering with idx - 1 clusters. */
  lemma {:induction false} PassEnd(pts: seq<Point>, cids: seq<Option<nat>>, idx: nat)
    requires PassInvariant(pts, cids, |pts|, idx)
    ensures IsClustering(pts, cids)
    ensures idx == RootsBelow(pts, |pts|) + 1
  {
    forall j | 0 <= j < |pts|
      ensures cids[j].Some?
    {
      ConnectedRefl(pts, j);
    }
  }

  /** Every player is connected to the root of its component, which comes no later. */
  lemma {:induction false} HasRoot(pts: seq<Point>, i: int)
    requires 0 <= i < |pts|
    ensures exists r :: 0 <= r <= i && IsRoot(pts, r) && Connected(pts, r, i)
    decreases i
  {
    if IsRoot(pts, i) {
      ConnectedRefl(pts, i);
    } else {
      var j :| 0 <= j < i && Connected(pts, j, i);
      HasRoot(pts, j);
      var r :| 0 <= r <= j && IsRoot(pts, r) && Connected(pts, r, j);
      ConnectedTransitive(pts, r, j, i);
    }
  }

  /** In a clustering, a root carries its rank. */
  lemma RootId(pts: seq<Point>, cids: seq<Option<nat>>, r: int)
    requires IsClustering(pts, cids) && IsRoot(pts, r)
    ensures cids[r] == Some(RootsBelow(pts, r) + 1)
  {
  }

  /** In a clustering, connected players share their id. */
  lemma SameCluster(pts: seq<Point>, cids: seq<Option<nat>>, i: int, j: int)
    requires IsClustering(pts, cids) && 0 <= i < |pts| && 0 <= j < |pts| && Connected(pts, i, j)
    ensures cids[i] == cids[j]
  {
  }

  /** A clustering is determined by the positions alone. */
  lemma {:induction false} ClusteringUnique(pts: seq<Point>, a: seq<Option<nat>>, b: seq<Option<nat>>)
    requires IsClustering(pts, a) && IsClustering(pts, b)
    ensures a == b
  {
    forall i | 0 <= i < |pts|
      ensures a[i] == b[i]
    {
      HasRoot(pts, i);
      var r :| 0 <= r <= i && IsRoot(pts, r) && Connected(pts, r, i);
      assert a[r] == a[i] && b[r] == b[i];
    }
  }

  lemma {:induction false} RootsBelowMonotone(pts: seq<Point>, m: int, m': int)
    requires 0 <= m <= m' <= |pts|
    ensures RootsBelow(pts, m) <= RootsBelow(pts, m')
    decreases m' - m
  {
    if m < m' {
      RootsBelowMonotone(pts, m, m' - 1);
    }
  }

  lemma {:induction false} RootOfRank(pts: seq<Point>, m: int, c: nat)
    requires 0 <= m <= |pts| && 1 <= c <= RootsBelow(pts, m)
    ensures exists r :: 0 <= r < m && IsRoot(pts, r) && RootsBelow(pts, r) + 1 == c
    decreases m
  {
    if c <= RootsBelow(pts, m - 1) {
      RootOfRank(pts, m - 1, c);
    } else {
      assert IsRoot(pts, m - 1);
    }
  }

  /** Every id a pass hands out lies in 1..k, k being the number of components (BFS roots). */
  lemma {:induction false} ClusterIdsInRange(pts: seq<Point>, cids: seq<Option<nat>>, i: int)
    requires IsClustering(pts, cids) && 0 <= i < |cids|
    ensures 1 <= cids[i].value <= RootsBelow(pts, |pts|)
  {
    HasRoot(pts, i);
    var r :| 0 <= r <= i && IsRoot(pts, r) && Connected(pts, r, i);
    SameCluster(pts, cids, r, i);
    RootId(pts, cids, r);
    assert RootsBelow(pts, r + 1) == RootsBelow(pts, r) + 1;
    RootsBelowMonotone(pts, r + 1, |pts|);
  }

  /** Every number in 1..k is the id of some cluster. */
  lemma {:induction false} ClusterIdsAllUsed(pts: seq<Point>, cids: seq<Option<nat>>, c: nat)
    requires IsClustering(pts, cids) && 1 <= c <= RootsBelow(pts, |pts|)
    ensures exists i :: 0 <= i < |cids| && cids[i] == Some(c)
  {
    RootOfRank(pts, |pts|, c);
    var r :| 0 <= r < |pts| && IsRoot(pts, r) && RootsBelow(pts, r) + 1 == c;
    assert cids[r] == Some(c);
  }
}
