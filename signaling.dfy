/**
  SignalingHandler.java: the room store, the session registry, the clustering
  pass and the two ways of addressing messages. Every message the handler
  sends is appended to `outbox`, together with the sessions it reached.
*/
module Signaling {
  import opened Optional
  import opened Proximity
  import opened Player
  import opened Protocol
  import opened Clustering
  import opened Events
  import opened Pass

  /**
    The inner loop of bfsAssign for the dequeued player a = all[ia]: every
    still unclustered player within reach of a gets the id cid and is queued.
    `addedIdx` gives the room positions of the queued players.
  */
  method ScanNeighbours(a: PlayerState, cid: nat, all: seq<PlayerState>, ghost ia: int, ghost pts: seq<Point>)
    returns (added: seq<PlayerState>, ghost addedIdx: seq<int>)
    requires 0 <= ia < |all| && all[ia] == a && At(all, pts) && UniqueIds(all)
    requires a.clusterId == Some(cid)
    modifies all`clusterId
    ensures ClusterIds(Snapshot(all)) == Scanned(ClusterIds(old(Snapshot(all))), pts, ia, cid)
    ensures Indexes(all, added, addedIdx)
    ensures NewlyMarked(pts, ClusterIds(old(Snapshot(all))), ia, addedIdx)
  {
    ghost var before := ClusterIds(Snapshot(all));
    added, addedIdx := [], [];
    var k := 0;
    while k < |all|
      invariant 0 <= k <= |all|
      invariant ClusterIds(Snapshot(all)) == ScannedUpTo(before, pts, ia, cid, k)
      invariant a.clusterId == Some(cid)
      invariant Indexes(all, added, addedIdx)
      invariant NewlyMarkedUpTo(pts, before, ia, addedIdx, k)
    {
      added, addedIdx := ScanOne(a, cid, all, k, added, ia, pts, before, addedIdx);
      k := k + 1;
    }
  }

  /** One turn of the inner loop: the k-th player of the room, seen from the polled player a = all[ia]. */
  method ScanOne(a: PlayerState, cid: nat, all: seq<PlayerState>, k: int, added: seq<PlayerState>, ghost ia: int,
                 ghost pts: seq<Point>, ghost before: seq<Option<nat>>, ghost addedIdx: seq<int>)
    returns (added': seq<PlayerState>, ghost addedIdx': seq<int>)
    requires 0 <= ia < |all| && all[ia] == a && At(all, pts) && UniqueIds(all) && 0 <= k < |all| && |before| == |all|
    requires a.clusterId == Some(cid)
    requires ClusterIds(Snapshot(all)) == ScannedUpTo(before, pts, ia, cid, k)
    requires Indexes(all, added, addedIdx) && NewlyMarkedUpTo(pts, before, ia, addedIdx, k)
    modifies all`clusterId
    ensures ClusterIds(Snapshot(all)) == ScannedUpTo(before, pts, ia, cid, k + 1)
    ensures a.clusterId == Some(cid)
    ensures Indexes(all, added', addedIdx') && NewlyMarkedUpTo(pts, before, ia, addedIdx', k + 1)
  {
    var b := all[k];
    assert Snapshot(all)[k] == b.View();
    assert b.clusterId == ClusterIds(Snapshot(all))[k] == before[k];
    ScanAdvance(before, pts, ia, cid, k, addedIdx);
    added', addedIdx' := added, addedIdx;
    if b.clusterId.None? {
      // `a` always carries an id here, so only the EXIT_RADIUS test can decide
      var d2 := SqDist(a.Position(), b.Position());
      var join := (a.clusterId.None? && d2 < ProxRadius * ProxRadius)
               || (a.clusterId.Some? && d2 < ExitRadius * ExitRadius);
      if join {
        SetCluster(b, Some(cid), all, k);
        added', addedIdx' := added + [b], addedIdx + [k];
      }
    }
  }

  /** Sets the cluster id of the player at position i of the room list. */
  method SetCluster(p: PlayerState, c: Option<nat>, all: seq<PlayerState>, ghost i: int)
    requires 0 <= i < |all| && all[i] == p && UniqueIds(all)
    modifies p`clusterId
    ensures ClusterIds(Snapshot(all)) == old(ClusterIds(Snapshot(all)))[i := c]
  {
    p.clusterId := c;
  }

  /** qi gives, for each player of q, its position in all. */
  ghost predicate Indexes(all: seq<PlayerState>, q: seq<PlayerState>, qi: seq<int>)
  {
    |q| == |qi| && forall k :: 0 <= k < |q| ==> 0 <= qi[k] < |all| && q[k] == all[qi[k]]
  }

  lemma IndexesConcat(all: seq<PlayerState>, q: seq<PlayerState>, qi: seq<int>, q': seq<PlayerState>, qi': seq<int>)
    requires Indexes(all, q, qi) && Indexes(all, q', qi')
    ensures Indexes(all, q + q', qi + qi')
  {
  }

  /**
    One turn of bfsAssign's queue loop: dequeue the head, label its
    unclustered neighbours and queue them behind the rest.
  */
  method VisitHead(q: seq<PlayerState>, cid: nat, all: seq<PlayerState>, ghost qi: seq<int>,
                   ghost ri: int, ghost pts: seq<Point>, ghost before: seq<Option<nat>>)
    returns (q': seq<PlayerState>, ghost qi': seq<int>)
    requires q != [] && Indexes(all, q, qi) && At(all, pts) && UniqueIds(all)
    requires SearchInvariant(pts, before, ClusterIds(Snapshot(all)), qi, ri, cid)
    modifies all`clusterId
    ensures Indexes(all, q', qi')
    ensures SearchInvariant(pts, before, ClusterIds(Snapshot(all)), qi', ri, cid)
    ensures Unmarked(ClusterIds(Snapshot(all))) < Unmarked(old(ClusterIds(Snapshot(all))))
         || (Unmarked(ClusterIds(Snapshot(all))) == Unmarked(old(ClusterIds(Snapshot(all)))) && |q'| < |q|)
  {
    var a := q[0];
    ghost var cur := ClusterIds(Snapshot(all));
    assert a.clusterId == cur[qi[0]];
    var added;
    ghost var addedIdx;
    added, addedIdx := ScanNeighbours(a, cid, all, qi[0], pts);
    SearchStep(pts, before, cur, qi, ri, cid, addedIdx);
    IndexesConcat(all, q[1..], qi[1..], added, addedIdx);
    q', qi' := q[1..] + added, qi[1..] + addedIdx;
  }

  /**
    bfsAssign: a breadth-first search from `root` over the whole room list
    that gives every still unclustered player it reaches the id `cid`. The
    room's already clustered players must form whole components (no edge
    leaves them); then the search labels exactly the component of the root.
  */
  method BfsAssign(root: PlayerState, cid: nat, all: seq<PlayerState>, ghost ri: int, ghost pts: seq<Point>)
    requires 0 <= ri < |all| && all[ri] == root && At(all, pts) && UniqueIds(all)
    requires ClusterIds(Snapshot(all))[ri].None?
    requires ComponentsClosed(pts, ClusterIds(Snapshot(all))) && IdUnused(ClusterIds(Snapshot(all)), cid)
    modifies all`clusterId
    ensures AssignedComponent(pts, ClusterIds(old(Snapshot(all))), ClusterIds(Snapshot(all)), ri, cid)
    ensures OnlyNewLabels(ClusterIds(old(Snapshot(all))), ClusterIds(Snapshot(all)), cid)
  {
    ghost var before := ClusterIds(Snapshot(all));
    SetCluster(root, Some(cid), all, ri);
    SearchStart(pts, before, ri, cid);
    var q := [root];
    ghost var qi := [ri];
    while q != []
      invariant Indexes(all, q, qi)
      invariant SearchInvariant(pts, before, ClusterIds(Snapshot(all)), qi, ri, cid)
      decreases Unmarked(ClusterIds(Snapshot(all))), |q|
    {
      q, qi := VisitHead(q, cid, all, qi, ri, pts, before);
    }
    SearchLabelsComponent(pts, before, ClusterIds(Snapshot(all)), ri, cid);
  }

  /** sendRoom's loop over the registry: the open sessions whose room attribute is `room`. */
  method RoomTargets(sessions: map<string, Session>, room: string) returns (to: set<string>)
    ensures to == RoomAudience(sessions, room)
  {
    to := {};
    var rest := sessions.Keys;
    while rest != {}
      invariant rest <= sessions.Keys
      invariant to == set sid | sid in sessions.Keys - rest && sessions[sid].room == Some(room) && sessions[sid].open
      decreases rest
    {
      var sid :| sid in rest;
      if sessions[sid].room == Some(room) && sessions[sid].open {
        to := to + {sid};
      }
      rest := rest - {sid};
    }
  }

  /** relaySignal's loop over the registry: the open sessions whose playerId attribute is `to`, in any room. */
  method PlayerTargets(sessions: map<string, Session>, to: string) returns (reached: set<string>)
    ensures reached == PlayerAudience(sessions, to)
  {
    reached := {};
    var rest := sessions.Keys;
    while rest != {}
      invariant rest <= sessions.Keys
      invariant reached == set sid | sid in sessions.Keys - rest && sessions[sid].playerId == Some(to) && sessions[sid].open
      decreases rest
    {
      var sid :| sid in rest;
      if sessions[sid].playerId == Some(to) && sessions[sid].open {
        reached := reached + {sid};
      }
      rest := rest - {sid};
    }
  }

  /** The `previous` map of computeClusters: each player's cluster id before the pass, by player id. */
  method RememberClusters(list: seq<PlayerState>) returns (previous: map<string, Option<nat>>)
    requires UniqueIds(list)
    ensures forall j :: 0 <= j < |list| ==> list[j].id in previous && previous[list[j].id] == Snapshot(list)[j].clusterId
  {
    previous := map[];
    for i := 0 to |list|
      invariant forall j :: 0 <= j < i ==> list[j].id in previous && previous[list[j].id] == list[j].clusterId
    {
      previous := previous[list[i].id := list[i].clusterId];
    }
  }

  /** computeClusters' second loop: every player of the room loses its cluster id. */
  method ClearClusters(list: seq<PlayerState>)
    requires UniqueIds(list)
    modifies list`clusterId
    ensures ClusterIds(Snapshot(list)) == seq(|list|, _ => None)
  {
    for i := 0 to |list|
      invariant ClusterIds(Snapshot(list)) == seq(|list|, j requires 0 <= j < |list| => if j < i then None else old(list[j].clusterId))
    {
      SetCluster(list[i], None, list, i);
    }
  }

  /** bfsAssign from the i-th player of a pass, as the pass's state sees it. */
  method LabelComponent(p: PlayerState, cid: nat, list: seq<PlayerState>, ghost i: int, ghost pts: seq<Point>, ghost vs: seq<PlayerView>)
    returns (ghost vs': seq<PlayerView>)
    requires UniqueIds(list) && 0 <= i < |list| && list[i] == p && At(list, pts) && vs == Snapshot(list)
    requires PassInvariant(pts, ClusterIds(vs), i, cid) && vs[i].clusterId.None?
    modifies list`clusterId
    ensures vs' == Snapshot(list) && At(list, pts)
    ensures |vs'| == |vs| && forall j :: 0 <= j < |vs| ==> vs'[j].id == vs[j].id
    ensures AssignedComponent(pts, ClusterIds(vs), ClusterIds(vs'), i, cid)
    ensures OnlyNewLabels(ClusterIds(vs), ClusterIds(vs'), cid)
  {
    PassClosed(pts, ClusterIds(vs), i, cid);
    BfsAssign(p, cid, list, i, pts);
    vs' := Snapshot(list);
  }

  /** handleMove's `p.x = x; p.y = y` on the player p of the room list. */
  method Place(p: PlayerState, x: real, y: real, list: seq<PlayerState>)
    requires p in list && UniqueIds(list)
    modifies p`x, p`y
    ensures Snapshot(list) == MoveTo(old(Snapshot(list)), p.id, x, y)
  {
    p.x, p.y := x, y;
    forall j | 0 <= j < |list|
      ensures Snapshot(list)[j] == MoveTo(old(Snapshot(list)), p.id, x, y)[j]
    {
      if list[j] != p {
        var k :| 0 <= k < |list| && list[k] == p;
        assert list[j].id != p.id by {
          if j < k { assert list[j].id != list[k].id; } else { assert list[k].id != list[j].id; }
        }
      }
    }
  }

  /**
    The handler: the rooms with their players, the session registry, and
    everything sent so far. A room's list stands for its map's values(); the
    model fixes that order as join order, a re-join replacing the old entry
    where it stood (a HashMap orders by hash instead, see README).
  */
  class SignalingHandler {
    var rooms: map<string, seq<PlayerState>>
    var sessions: map<string, Session>
    var outbox: seq<Send>

    /** Each room's players have distinct ids and belong to that room. */
    ghost predicate Valid()
      reads this
    {
      forall r :: r in rooms ==> UniqueIds(rooms[r]) && forall p :: p in rooms[r] ==> p.room == r
    }

    /** `rooms.get(room).values()`, or no players. */
    function PlayersIn(room: string): seq<PlayerState>
      reads this
    {
      if room in rooms then rooms[room] else []
    }

    constructor ()
      ensures rooms == map[] && sessions == map[] && outbox == []
      ensures Valid()
    {
      rooms, sessions, outbox := map[], map[], [];
    }

    /** afterConnectionEstablished: the session is registered, with no attributes yet. */
    method AfterConnectionEstablished(sid: string)
      modifies this`sessions
      ensures sessions == old(sessions)[sid := NewSession]
    {
      sessions := sessions[sid := NewSession];
    }

    /** afterConnectionClosed: the session is dropped from the registry; its player stays in its room. */
    method AfterConnectionClosed(sid: string)
      modifies this`sessions
      ensures sessions == old(sessions) - {sid}
    {
      sessions := sessions - {sid};
    }

    /** The transport's view of a registered session (WebSocketSession.isOpen), which the handler only reads. */
    method SetOpen(sid: string, open: bool)
      modifies this`sessions
      ensures sessions == if sid in old(sessions) then old(sessions)[sid := old(sessions)[sid].(open := open)] else old(sessions)
    {
      if sid in sessions {
        sessions := sessions[sid := sessions[sid].(open := open)];
      }
    }

    /** sendRoom: one serialised message, delivered to every open session of the room. */
    method SendRoom(room: string, msg: Msg)
      modifies this`outbox
      ensures outbox == old(outbox) + [Send(RoomAudience(sessions, room), msg)]
    {
      var to := RoomTargets(sessions, room);
      outbox := outbox + [Send(to, msg)];
    }

    /** broadcastPlayers: the room's players as they are now. */
    method BroadcastPlayers(room: string)
      requires room in rooms
      modifies this`outbox
      ensures outbox == old(outbox) + [Send(RoomAudience(sessions, room), Players(Snapshot(rooms[room])))]
    {
      var players := rooms[room];
      SendRoom(room, Players(Snapshot(players)));
    }

    method SendClusterJoin(room: string, cid: nat, members: seq<string>)
      modifies this`outbox
      ensures outbox == old(outbox) + [Send(RoomAudience(sessions, room), ClusterJoin(cid, members))]
    {
      SendRoom(room, ClusterJoin(cid, members));
    }

    /** A component becomes a cluster worth announcing only when it has more than one member. */
    method AnnounceJoin(room: string, cid: nat, members: seq<string>)
      modifies this`outbox
      ensures outbox == old(outbox) + if |members| > 1 then [Send(RoomAudience(sessions, room), ClusterJoin(cid, members))] else []
    {
      if |members| > 1 {
        SendClusterJoin(room, cid, members);
      }
    }

    method SendClusterLeave(room: string, cid: nat, playerId: string)
      modifies this`outbox
      ensures outbox == old(outbox) + [Send(RoomAudience(sessions, room), ClusterLeave(cid, playerId))]
    {
      SendRoom(room, ClusterLeave(cid, playerId));
    }

    /** relaySignal: the signal goes, unchanged, to every open session whose player id is its `to`. */
    method RelaySignal(signal: Signal)
      modifies this`outbox
      ensures outbox == old(outbox) + [Send(PlayerAudience(sessions, signal.to), Relayed(signal))]
    {
      var reached := PlayerTargets(sessions, signal.to);
      outbox := outbox + [Send(reached, Relayed(signal))];
    }

    /**
      computeClusters' main loop: every player still without an id roots a
      new cluster, labelled by breadth-first search, and each cluster with
      more than one member is announced as soon as it is labelled.
    */
    method AssignClusters(room: string, list: seq<PlayerState>, ghost pts: seq<Point>)
      requires UniqueIds(list) && At(list, pts)
      requires ClusterIds(Snapshot(list)) == seq(|list|, _ => None)
      modifies this`outbox, list`clusterId
      ensures At(list, pts) && IsClustering(pts, ClusterIds(Snapshot(list)))
      ensures outbox == old(outbox) + Broadcast(RoomAudience(sessions, room), JoinEvents(Snapshot(list), RootsBelow(pts, |list|)))
    {
      var idx: nat := 1;
      ghost var aud := RoomAudience(sessions, room);
      ghost var vs := Snapshot(list);
      PassStart(pts);
      var i := 0;
      while i < |list|
        invariant 0 <= i <= |list|
        invariant At(list, pts) && idx == RootsBelow(pts, i) + 1 && vs == Snapshot(list)
        invariant AssignState(outbox, old(outbox), aud, pts, vs, i)
      {
        idx, vs := VisitPlayer(room, list, i, idx, pts, old(outbox), aud, vs);
        i := i + 1;
      }
      AssignEnd(outbox, old(outbox), aud, pts, vs);
    }

    /** One turn of computeClusters' main loop: a player that already has an id is skipped, any other starts a cluster. */
    method VisitPlayer(room: string, list: seq<PlayerState>, i: int, idx: nat, ghost pts: seq<Point>, ghost log: seq<Send>,
                       ghost aud: set<string>, ghost vs: seq<PlayerView>)
      returns (idx': nat, ghost vs': seq<PlayerView>)
      requires UniqueIds(list) && 0 <= i < |list| && At(list, pts) && idx == RootsBelow(pts, i) + 1
      requires aud == RoomAudience(sessions, room) && vs == Snapshot(list)
      requires AssignState(outbox, log, aud, pts, vs, i)
      modifies this`outbox, list`clusterId
      ensures At(list, pts) && idx' == RootsBelow(pts, i + 1) + 1 && vs' == Snapshot(list)
      ensures AssignState(outbox, log, aud, pts, vs', i + 1)
    {
      var p := list[i];
      assert p.clusterId == ClusterIds(vs)[i];
      if p.clusterId.Some? {
        SkipPlayer(pts, vs, i, outbox, log, aud);
        idx', vs' := idx, vs;
      } else {
        vs' := StartCluster(room, list, p, i, idx, pts, log, aud, vs);
        idx' := idx + 1;
      }
    }

    /**
      One root of computeClusters' main loop: p, still without an id, gets the
      next number cid; bfsAssign labels its component; a JOIN follows when the
      component has more than one member.
    */
    method StartCluster(room: string, list: seq<PlayerState>, p: PlayerState, ghost i: int, cid: nat, ghost pts: seq<Point>,
                        ghost log: seq<Send>, ghost aud: set<string>, ghost vs: seq<PlayerView>)
      returns (ghost vs': seq<PlayerView>)
      requires UniqueIds(list) && 0 <= i < |list| && list[i] == p && At(list, pts) && cid == RootsBelow(pts, i) + 1
      requires aud == RoomAudience(sessions, room) && vs == Snapshot(list)
      requires AssignState(outbox, log, aud, pts, vs, i) && vs[i].clusterId.None?
      modifies this`outbox, list`clusterId
      ensures At(list, pts) && cid == RootsBelow(pts, i + 1) && vs' == Snapshot(list)
      ensures AssignState(outbox, log, aud, pts, vs', i + 1)
    {
      ghost var outbox0 := outbox;
      vs' := LabelComponent(p, cid, list, i, pts, vs);
      var members := Members(Snapshot(list), cid);
      AnnounceJoin(room, cid, members);
      RootStep(outbox0, outbox, log, aud, pts, vs, vs', i, cid);
    }

    /**
      computeClusters: the room's players are clustered afresh; the JOINs of
      the new clusters go out first, then a LEAVE for every player whose
      cluster id changed. Nothing happens in a room nobody has joined.
    */
    method ComputeClusters(room: string)
      requires Valid()
      modifies this`outbox, PlayersIn(room)`clusterId
      ensures room !in rooms ==> outbox == old(outbox)
      ensures room in rooms ==>
        Reclusters(old(Snapshot(rooms[room])), Snapshot(rooms[room]), old(outbox), outbox, RoomAudience(sessions, room))
    {
      if room in rooms {
        Recluster(room, rooms[room], RoomAudience(sessions, room));
      }
    }

    /** computeClusters once the room's players are known. */
    method Recluster(room: string, list: seq<PlayerState>, ghost aud: set<string>)
      requires UniqueIds(list) && aud == RoomAudience(sessions, room)
      modifies this`outbox, list`clusterId
      ensures Reclusters(old(Snapshot(list)), Snapshot(list), old(outbox), outbox, aud)
    {
      ghost var before := Snapshot(list);
      ghost var pts := Positions(before);
      ghost var log := outbox;
      assert At(list, pts);
      SnapshotPlaced(list, pts);
      var previous := RememberClusters(list);
      ClearClusters(list);
      AssignClusters(room, list, pts);
      ghost var mid := outbox;
      ghost var after := Snapshot(list);
      SnapshotPlaced(list, pts);
      AnnounceLeaves(room, list, previous, before, after, aud);
      PassOutcome(Placed(list, pts), before, after, pts, log, mid, outbox, aud);
    }

    /** computeClusters' last loop: a LEAVE for every player whose previous id is set and differs from its new one. */
    method AnnounceLeaves(room: string, list: seq<PlayerState>, previous: map<string, Option<nat>>, ghost before: seq<PlayerView>,
                          ghost after: seq<PlayerView>, ghost aud: set<string>)
      requires |before| == |list| && after == Snapshot(list) && aud == RoomAudience(sessions, room)
      requires forall j :: 0 <= j < |list| ==> list[j].id in previous && previous[list[j].id] == before[j].clusterId
      modifies this`outbox
      ensures Snapshot(list) == after
      ensures outbox == old(outbox) + Broadcast(aud, LeaveEvents(before, after))
    {
      var i := 0;
      while i < |list|
        invariant 0 <= i <= |list| && after == Snapshot(list) && aud == RoomAudience(sessions, room)
        invariant outbox == old(outbox) + Broadcast(aud, LeaveEvents(before[..i], after[..i]))
      {
        AnnounceLeave(room, list, i, previous, before, after, aud);
        LeaveEventsPrefix(before, after, i);
        BroadcastAppend(aud, LeaveEvents(before[..i], after[..i]), LeaveEvent(before[i], after[i]));
        i := i + 1;
      }
      assert before[..|list|] == before && after[..|list|] == after;
    }

    /** One turn of the last loop: player i's LEAVE, if its previous id is set and differs from its new one. */
    method AnnounceLeave(room: string, list: seq<PlayerState>, i: int, previous: map<string, Option<nat>>,
                         ghost before: seq<PlayerView>, ghost after: seq<PlayerView>, ghost aud: set<string>)
      requires 0 <= i < |list| && |before| == |list| && after == Snapshot(list) && aud == RoomAudience(sessions, room)
      requires list[i].id in previous && previous[list[i].id] == before[i].clusterId
      modifies this`outbox
      ensures outbox == old(outbox) + Broadcast(aud, LeaveEvent(before[i], after[i]))
    {
      var p := list[i];
      var oldC := if p.id in previous then previous[p.id] else None;
      assert p.View() == after[i];
      if oldC.Some? && oldC != p.clusterId {
        SendClusterLeave(room, oldC.value, p.id);
      }
    }

    /**
      handleJoin: the room is created if absent, a fresh player replaces any
      entry with the same id, the session learns its player id and room, and
      the room is sent its PLAYERS list. No clustering pass runs.
    */
    method HandleJoin(sid: string, room: string, id: string, name: string)
      requires Valid()
      modifies this`rooms, this`sessions, this`outbox
      ensures Valid()
      ensures room in rooms && rooms == old(rooms)[room := rooms[room]]
      ensures Lookup(rooms[room], id).Some?
      ensures var p := Lookup(rooms[room], id).value;
        fresh(p) && p.View() == Spawned(id, name, room) && rooms[room] == Put(old(PlayersIn(room)), p)
      ensures Snapshot(old(PlayersIn(room))) == old(Snapshot(PlayersIn(room)))
      ensures sessions == Joined(old(sessions), sid, id, room)
      ensures outbox == old(outbox) + [Send(RoomAudience(sessions, room), Players(Snapshot(rooms[room])))]
    {
      var p := AddPlayer(room, id, name);
      ghost var added := rooms[room];
      assert Lookup(added, id) == Some(p);
      JoinSession(sid, id, room);
      assert rooms[room] == added;
      BroadcastPlayers(room);
    }

    /** `rooms.putIfAbsent(room, ...)` followed by `put(id, new PlayerState(id, name, room))`. */
    method AddPlayer(room: string, id: string, name: string) returns (p: PlayerState)
      requires Valid()
      modifies this`rooms
      ensures Valid()
      ensures fresh(p) && p.View() == Spawned(id, name, room)
      ensures rooms == old(rooms)[room := Put(old(PlayersIn(room)), p)]
      ensures Lookup(rooms[room], id) == Some(p)
    {
      if room !in rooms {
        rooms := rooms[room := []];
      }
      p := new PlayerState(id, name, room);
      rooms := rooms[room := Put(rooms[room], p)];
      PutLookup(old(PlayersIn(room)), p, id);
    }

    /** The joining session's `playerId` and `room` attributes. */
    method JoinSession(sid: string, id: string, room: string)
      modifies this`sessions
      ensures sessions == Joined(old(sessions), sid, id, room)
    {
      if sid in sessions {
        sessions := sessions[sid := sessions[sid].(playerId := Some(id), room := Some(room))];
      }
    }

    /**
      handleMove: nothing happens for an unknown room or player; otherwise
      the player moves, the room is re-clustered, and its PLAYERS list follows.
    */
    method HandleMove(room: string, id: string, x: real, y: real)
      requires Valid()
      modifies this`outbox, PlayersIn(room)`x, PlayersIn(room)`y, PlayersIn(room)`clusterId
      ensures Valid()
      ensures Lookup(PlayersIn(room), id).None? ==>
        outbox == old(outbox) && Snapshot(PlayersIn(room)) == old(Snapshot(PlayersIn(room)))
      ensures Lookup(PlayersIn(room), id).Some? ==>
        MoveOutcome(old(Snapshot(PlayersIn(room))), id, x, y, Snapshot(PlayersIn(room)), old(outbox), outbox, RoomAudience(sessions, room))
    {
      if room !in rooms {
        return;
      }
      var players := rooms[room];
      var found := Lookup(players, id);
      if found.None? {
        return;
      }
      ghost var before, log := Snapshot(players), outbox;
      Place(found.value, x, y, players);
      ghost var moved := Snapshot(players);
      ComputeClusters(room);
      ghost var mid, after := outbox, Snapshot(players);
      SendRoom(room, Players(Snapshot(players)));
      assert Snapshot(players) == after;
      MoveStep(before, id, x, y, moved, after, log, mid, outbox, RoomAudience(sessions, room));
    }

    /** The players a message may move: those of the room a `move` names. */
    function MoveTargets(msg: Inbound): seq<PlayerState>
      reads this
    {
      if msg.Move? then PlayersIn(msg.room) else []
    }

    /** handleTextMessage: the switch on the message type; any other type is dropped. */
    method HandleTextMessage(sid: string, msg: Inbound)
      requires Valid()
      modifies this`rooms, this`sessions, this`outbox, MoveTargets(msg)`x, MoveTargets(msg)`y, MoveTargets(msg)`clusterId
      ensures Valid()
      ensures !msg.Join? ==> rooms == old(rooms) && sessions == old(sessions)
      ensures msg.Ignored? ==> outbox == old(outbox)
      ensures msg.Relay? ==> outbox == old(outbox) + [Send(PlayerAudience(sessions, msg.signal.to), Relayed(msg.signal))]
      ensures msg.Join? ==>
        && msg.room in rooms && rooms == old(rooms)[msg.room := rooms[msg.room]]
        && Lookup(rooms[msg.room], msg.playerId).Some?
        && (var p := Lookup(rooms[msg.room], msg.playerId).value;
            fresh(p) && p.View() == Spawned(msg.playerId, msg.name, msg.room) && rooms[msg.room] == Put(old(PlayersIn(msg.room)), p))
        && sessions == Joined(old(sessions), sid, msg.playerId, msg.room)
        && outbox == old(outbox) + [Send(RoomAudience(sessions, msg.room), Players(Snapshot(rooms[msg.room])))]
      ensures msg.Move? && Lookup(PlayersIn(msg.room), msg.playerId).None? ==>
        outbox == old(outbox) && Snapshot(PlayersIn(msg.room)) == old(Snapshot(PlayersIn(msg.room)))
      ensures msg.Move? && Lookup(PlayersIn(msg.room), msg.playerId).Some? ==>
        MoveOutcome(old(Snapshot(PlayersIn(msg.room))), msg.playerId, msg.x, msg.y, Snapshot(PlayersIn(msg.room)),
                    old(outbox), outbox, RoomAudience(sessions, msg.room))
    {
      match msg
      case Join(room, playerId, name) => HandleJoin(sid, room, playerId, name);
      case Move(room, playerId, x, y) => HandleMove(room, playerId, x, y);
      case Relay(signal) => RelaySignal(signal);
      case Ignored =>
    }
  }
}
