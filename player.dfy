/**
  PlayerState.java: one player of one room. `id`, `name` and `room` are fixed
  by the constructor (modelled as `const`); `x`, `y` and `clusterId` are the
  mutable fields the handler overwrites in place. A cluster id "c<n>" is kept
  as its number n (see Labels.LabelInjective for why that loses nothing).
*/
module Player {
  import opened Optional
  import opened Proximity

  /** The spawn point every new player starts at. */
  const SpawnX: real := 200.0
  const SpawnY: real := 200.0

  /** The value of a PlayerState, as the PLAYERS message serialises it. */
  datatype PlayerView = PlayerView(id: string, name: string, room: string, x: real, y: real, clusterId: Option<nat>)

  class PlayerState {
    const id: string
    const name: string
    const room: string
    var x: real
    var y: real
    var clusterId: Option<nat>

    constructor (id: string, name: string, room: string)
      ensures this.id == id && this.name == name && this.room == room
      ensures x == SpawnX && y == SpawnY
      ensures clusterId == None
    {
      this.id := id;
      this.name := name;
      this.room := room;
      x := SpawnX;
      y := SpawnY;
      clusterId := None;
    }

    function View(): PlayerView
      reads this
    {
      PlayerView(id, name, room, x, y, clusterId)
    }

    function Position(): Point
      reads this`x, this`y
    {
      Point(x, y)
    }
  }

  /** A freshly constructed player, as a value. */
  function Spawned(id: string, name: string, room: string): PlayerView
  {
    PlayerView(id, name, room, SpawnX, SpawnY, None)
  }

  /** The current values of a list of players, in list order. */
  function Snapshot(list: seq<PlayerState>): seq<PlayerView>
    reads list
  {
    seq(|list|, i requires 0 <= i < |list| reads list => list[i].View())
  }

  function Positions(vs: seq<PlayerView>): seq<Point>
  {
    seq(|vs|, i requires 0 <= i < |vs| => Point(vs[i].x, vs[i].y))
  }

  function ClusterIds(vs: seq<PlayerView>): seq<Option<nat>>
  {
    seq(|vs|, i requires 0 <= i < |vs| => vs[i].clusterId)
  }

  /** The players of list stand at pts, position by position. */
  ghost predicate At(list: seq<PlayerState>, pts: seq<Point>)
    reads list`x, list`y
  {
    |list| == |pts| && forall j :: 0 <= j < |list| ==> list[j].Position() == pts[j]
  }

  /** No two players of one room share an id (the keys of the room's map). */
  predicate UniqueIds(list: seq<PlayerState>)
  {
    forall i, j :: 0 <= i < j < |list| ==> list[i].id != list[j].id
  }

  /** `players.get(id)` on a room's map. */
  function Lookup(list: seq<PlayerState>, id: string): (r: Option<PlayerState>)
    ensures r.Some? ==> r.value in list && r.value.id == id
    ensures r.None? <==> forall p :: p in list ==> p.id != id
  {
    if list == [] then None
    else if list[0].id == id then Some(list[0])
    else Lookup(list[1..], id)
  }

  /**
    `players.put(p.id, p)` on a room's map, in the order the model chooses
    for values(): an existing entry with the same id is replaced where it
    stands, otherwise p is added at the end.
  */
  function Put(list: seq<PlayerState>, p: PlayerState): (r: seq<PlayerState>)
    ensures p in r
    ensures forall q :: q in list && q.id != p.id ==> q in r
    ensures forall q :: q in r ==> q == p || q in list
    ensures |r| == if Lookup(list, p.id).Some? then |list| else |list| + 1
    ensures UniqueIds(list) ==> UniqueIds(r)
  {
    if list == [] then [p]
    else if list[0].id == p.id then [p] + list[1..]
    else [list[0]] + Put(list[1..], p)
  }

  /** In a room whose ids are unique, looking up a player's id finds that very player. */
  lemma {:induction false} LookupUnique(list: seq<PlayerState>, p: PlayerState)
    requires UniqueIds(list) && p in list
    ensures Lookup(list, p.id) == Some(p)
  {
    if list[0] != p {
      assert list[0].id != p.id by {
        var j :| 0 <= j < |list| && list[j] == p;
      }
      assert UniqueIds(list[1..]);
      LookupUnique(list[1..], p);
    }
  }

  /** After `players.put(p.id, p)` the id finds p (last join wins) and every other id finds what it found before. */
  lemma {:induction false} PutLookup(list: seq<PlayerState>, p: PlayerState, id: string)
    ensures Lookup(Put(list, p), id) == if id == p.id then Some(p) else Lookup(list, id)
  {
    if list != [] && list[0].id != p.id {
      PutLookup(list[1..], p, id);
    }
  }

  /** The same players with the cluster ids cids and nothing else changed. */
  function Reclustered(vs: seq<PlayerView>, cids: seq<Option<nat>>): seq<PlayerView>
    requires |vs| == |cids|
  {
    seq(|vs|, i requires 0 <= i < |vs| => vs[i].(clusterId := cids[i]))
  }

  /** The players of list standing at pts without a cluster id: all a clustering pass leaves alone. */
  function Placed(list: seq<PlayerState>, pts: seq<Point>): seq<PlayerView>
    requires |pts| == |list|
  {
    seq(|list|, i requires 0 <= i < |list| => PlayerView(list[i].id, list[i].name, list[i].room, pts[i].x, pts[i].y, None))
  }

  /** Players standing at pts differ from their placement only in their cluster ids. */
  lemma SnapshotPlaced(list: seq<PlayerState>, pts: seq<Point>)
    requires At(list, pts)
    ensures Snapshot(list) == Reclustered(Placed(list, pts), ClusterIds(Snapshot(list)))
  {
    forall j | 0 <= j < |list|
      ensures Snapshot(list)[j] == Reclustered(Placed(list, pts), ClusterIds(Snapshot(list)))[j]
    {
      assert list[j].Position() == pts[j];
    }
  }

  /** Re-clustering twice is re-clustering with the second ids. */
  lemma ReclusteredTwice(vs: seq<PlayerView>, c0: seq<Option<nat>>, c1: seq<Option<nat>>)
    requires |c0| == |vs| && |c1| == |vs|
    ensures Reclustered(Reclustered(vs, c0), c1) == Reclustered(vs, c1)
  {
  }

  /** The room after `p.x = x; p.y = y` on the player with that id. */
  function MoveTo(vs: seq<PlayerView>, id: string, x: real, y: real): seq<PlayerView>
  {
    seq(|vs|, i requires 0 <= i < |vs| => if vs[i].id == id then vs[i].(x := x, y := y) else vs[i])
  }
}
