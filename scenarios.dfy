/**
  Worked cases of the clustering pass and of message addressing, on two
  players "A" (listed first) and "B" of room "r".
*/
module Scenarios {
  import opened Optional
  import opened Proximity
  import opened Player
  import opened Protocol
  import opened Clustering
  import opened Events
  import opened Pass

  function Pair(bx: real, ca: Option<nat>, cb: Option<nat>): seq<PlayerView>
  {
    [PlayerView("A", "a", "r", 0.0, 0.0, ca), PlayerView("B", "b", "r", bx, 0.0, cb)]
  }

  /** Where the pair stands: A at the origin, B at distance bx along the x axis. */
  function PairAt(bx: real): seq<Point>
  {
    [Point(0.0, 0.0), Point(bx, 0.0)]
  }

  lemma PairPositions(bx: real, ca: Option<nat>, cb: Option<nat>)
    ensures Positions(Pair(bx, ca, cb)) == PairAt(bx)
  {
  }

  /** Two players closer than EXIT_RADIUS form one cluster, numbered 1. */
  lemma {:induction false} NearPairClusters(bx: real)
    requires 0.0 <= bx < 160.0
    ensures Connected(PairAt(bx), 0, 1)
    ensures IsClustering(PairAt(bx), [Some(1), Some(1)])
  {
    var pts := PairAt(bx);
    assert bx * bx < 160.0 * 160.0 by {
      assert bx * bx <= 160.0 * bx;
    }
    assert SqDist(pts[0], pts[1]) == bx * bx && SqDist(pts[1], pts[0]) == bx * bx;
    assert IsChain(pts, [0, 1]) && IsChain(pts, [1, 0]);
    assert Connected(pts, 0, 1) && Connected(pts, 1, 0);
    ConnectedRefl(pts, 0);
    ConnectedRefl(pts, 1);
    assert !IsRoot(pts, 1);
  }

  /** Two players at least EXIT_RADIUS apart are two clusters, numbered 1 and 2 in list order. */
  lemma {:induction false} FarPairSeparate(bx: real)
    requires bx >= 160.0
    ensures !Connected(PairAt(bx), 0, 1)
    ensures IsClustering(PairAt(bx), [Some(1), Some(2)])
  {
    var pts := PairAt(bx);
    assert bx * bx >= 160.0 * 160.0 by {
      assert bx * bx >= 160.0 * bx;
    }
    assert SqDist(pts[0], pts[1]) == bx * bx && SqDist(pts[1], pts[0]) == bx * bx;
    assert !Near(pts[0], pts[1]) && !Near(pts[1], pts[0]);
    forall a, b | a in {0} && 0 <= a < |pts| && 0 <= b < |pts| && Near(pts[a], pts[b])
      ensures b in {0}
    {
    }
    if Connected(pts, 0, 1) {
      ClosedSetContainsComponent(pts, {0}, 0, 1);
    }
    if Connected(pts, 1, 0) {
      ConnectedSymmetric(pts, 1, 0);
      ClosedSetContainsComponent(pts, {0}, 0, 1);
    }
    ConnectedRefl(pts, 0);
    ConnectedRefl(pts, 1);
    assert IsRoot(pts, 1);
  }

  /**
    Two separate players that come within 150 of each other (past
    PROX_RADIUS, inside EXIT_RADIUS) are merged: one JOIN listing both, then
    B's LEAVE of its old cluster 2.
  */
  lemma MergeAt150(after: seq<PlayerView>, log: seq<Send>, outbox: seq<Send>, aud: set<string>)
    requires Reclusters(Pair(150.0, Some(1), Some(2)), after, log, outbox, aud)
    ensures after == Pair(150.0, Some(1), Some(1))
    ensures outbox == log + [Send(aud, ClusterJoin(1, ["A", "B"])), Send(aud, ClusterLeave(2, "B"))]
  {
    var before := Pair(150.0, Some(1), Some(2));
    var pts := PairAt(150.0);
    PairPositions(150.0, Some(1), Some(2));
    NearPairClusters(150.0);
    ClusteringUnique(pts, ClusterIds(after), [Some(1), Some(1)]);
    assert after == Pair(150.0, Some(1), Some(1));
    assert IsRoot(pts, 0) && !IsRoot(pts, 1);
    assert RootsBelow(pts, 2) == 1;
    MergeEvents();
  }

  /** The events of the merge: the JOIN of both, then B's LEAVE of cluster 2. */
  lemma MergeEvents()
    ensures ClusterEvents(Pair(150.0, Some(1), Some(2)), Pair(150.0, Some(1), Some(1)), 1)
         == [ClusterJoin(1, ["A", "B"]), ClusterLeave(2, "B")]
  {
    var before, after := Pair(150.0, Some(1), Some(2)), Pair(150.0, Some(1), Some(1));
    assert Members(after, 1) == ["A", "B"];
    assert JoinEvents(after, 1) == [ClusterJoin(1, ["A", "B"])];
    assert before[..1] == [before[0]] && after[..1] == [after[0]];
    assert LeaveEvents(before, after) == [ClusterLeave(2, "B")];
  }

  /**
    When B moves 170 away from A, they split: no JOIN (both clusters are
    singletons) and B leaves cluster 1; A keeps id 1 and gets no LEAVE.
  */
  lemma SplitAt170(after: seq<PlayerView>, log: seq<Send>, outbox: seq<Send>, aud: set<string>)
    requires Reclusters(Pair(170.0, Some(1), Some(1)), after, log, outbox, aud)
    ensures after == Pair(170.0, Some(1), Some(2))
    ensures outbox == log + [Send(aud, ClusterLeave(1, "B"))]
  {
    var before := Pair(170.0, Some(1), Some(1));
    var pts := PairAt(170.0);
    PairPositions(170.0, Some(1), Some(1));
    FarPairSeparate(170.0);
    ClusteringUnique(pts, ClusterIds(after), [Some(1), Some(2)]);
    assert after == Pair(170.0, Some(1), Some(2));
    assert IsRoot(pts, 0) && IsRoot(pts, 1);
    assert RootsBelow(pts, 2) == 2;
    SplitEvents();
  }

  /** The events of the split: two singletons (no JOIN), and B's LEAVE of cluster 1. */
  lemma SplitEvents()
    ensures ClusterEvents(Pair(170.0, Some(1), Some(1)), Pair(170.0, Some(1), Some(2)), 2) == [ClusterLeave(1, "B")]
  {
    var before, after := Pair(170.0, Some(1), Some(1)), Pair(170.0, Some(1), Some(2));
    assert Members(after, 1) == ["A"] && Members(after, 2) == ["B"];
    assert JoinEvents(after, 2) == [];
    assert before[..1] == [before[0]] && after[..1] == [after[0]];
    assert LeaveEvents(before, after) == [ClusterLeave(1, "B")];
  }

  /**
    handleMove of B from 100 to 170 away from A: the room hears B's LEAVE
    and then the PLAYERS list with the new positions and ids.
  */
  lemma MoveApart(after: seq<PlayerView>, log: seq<Send>, outbox: seq<Send>, aud: set<string>)
    requires MoveOutcome(Pair(100.0, Some(1), Some(1)), "B", 170.0, 0.0, after, log, outbox, aud)
    ensures outbox == log + [Send(aud, ClusterLeave(1, "B")), Send(aud, Players(Pair(170.0, Some(1), Some(2))))]
  {
    assert MoveTo(Pair(100.0, Some(1), Some(1)), "B", 170.0, 0.0) == Pair(170.0, Some(1), Some(1));
    SplitAt170(after, log, outbox[..|outbox| - 1], aud);
    LastSplit(outbox);
  }

  /**
    Addressing: a relay to "B" reaches both open sessions of player B, even
    the one in another room, but not B's closed session; a broadcast to room
    "r" reaches the open sessions that joined "r" and not the one that never
    joined.
  */
  lemma Addressing()
    ensures var s := map[
        "s1" := Session(true, Some("B"), Some("r")),
        "s2" := Session(true, Some("B"), Some("q")),
        "s3" := Session(false, Some("B"), Some("r")),
        "s4" := Session(true, Some("A"), Some("r")),
        "s5" := NewSession];
      PlayerAudience(s, "B") == {"s1", "s2"} && RoomAudience(s, "r") == {"s1", "s4"}
  {
    var s := map[
        "s1" := Session(true, Some("B"), Some("r")),
        "s2" := Session(true, Some("B"), Some("q")),
        "s3" := Session(false, Some("B"), Some("r")),
        "s4" := Session(true, Some("A"), Some("r")),
        "s5" := NewSession];
    assert s.Keys == {"s1", "s2", "s3", "s4", "s5"};
    assert "s1" != "s2" && "s1" != "s3" && "s1" != "s4" && "s1" != "s5";
  }
}
