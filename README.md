# Proximity signaling hub, modelled in Dafny

This project models the signaling server of proximity-webrtc-video-chat: the
Spring WebSocket handler `SignalingHandler` and its player record
`PlayerState`. The handler has three parts, all modelled here.

- **Room store and session registry.** The handler keeps a map from room
  to players and a map from session id to open WebSocket sessions.
  - A `join` creates the room if needed and puts a fresh player at the
    spawn point (200, 200). A re-join with the same id replaces the old
    entry.
  - `join` also records the player id and room on the session and sends
    the room a PLAYERS list. It does not run a clustering pass.
  - A `move` sets the player's position, re-clusters the room and then
    sends PLAYERS. A move for an unknown room or player does nothing.
  - Connecting and disconnecting only add or remove the session. Players
    stay in their room.
- **Clustering pass.** `computeClusters` runs a breadth-first search
  (`bfsAssign`) from every player that has no cluster yet, in list order.
  Each search mints the next id `c1`, `c2`, …
  - It announces a CLUSTER_JOIN for each cluster with more than one
    member, as soon as that cluster is labelled.
  - It then sends a CLUSTER_LEAVE for every player whose previous id was
    set and has changed.
- **Addressing.**
  - `sendRoom` reaches the open sessions whose `room` attribute is the
    room.
  - A relayed offer, answer or candidate reaches every open session whose
    `playerId` attribute is the signal's `to`, in any room.

The model proves what each operation does, in terms of independent
specifications:

- The clusters are exactly the connected components of the graph "distance
  below 160" (`Clustering.IsClustering`). Each component is numbered by
  the rank of its first player in list order. That clustering is unique
  (`Clustering.ClusteringUnique`), so a pass is deterministic
  (`Pass.ReclustersUnique`).
- The JOIN and LEAVE events of a pass are characterised member by member,
  and all JOINs come before all LEAVEs (module `Events`).
- The recipients of each send are exactly the open sessions of the room,
  or of the player (module `Protocol`).
- The imperative handler (`Signaling.SignalingHandler`) is proved against
  these specifications.

Layout, one module per file:

- `optional.dfy`: the `Option` type.
- `proximity.dfy`: distance and the proximity graph.
- `labels.dfy`: the textual cluster ids.
- `player.dfy`: `PlayerState` and the room list.
- `protocol.dfy`: messages, sessions and audiences.
- `clustering.dfy`: what a pass computes.
- `events.dfy`: the JOIN and LEAVE events.
- `pass.dfy`: how the pass's steps compose.
- `signaling.dfy`: the handler.
- `scenarios.dfy`: worked cases.

Representation choices:

- A room's `HashMap` is a `seq<PlayerState>` standing for its `values()`.
  The model chooses join order for that sequence: a `put` of a new id
  appends the player, and a `put` of an existing id replaces the entry
  where it stands. Java's `HashMap` orders by hash instead (see
  `Player.Put` under "## Left out"). Everything proved about a pass is
  stated relative to the list order, whatever that order is.
- A cluster id `"c" + n` is kept as the number `n`. `Labels.LabelInjective`
  shows that comparing labels is the same as comparing numbers.
- Every `sendRoom` or relay call is one `Send(to, msg)` entry, appended to
  the handler's `outbox`. `to` is the set of sessions the call delivered
  to. An entry whose `to` is empty stands for a call that delivered
  nothing; the source makes no send at all in that case.
- A session is its `isOpen` flag and its two attributes.
- Coordinates are exact reals. `hypot(dx, dy) < r` is modelled as
  `dx*dx + dy*dy < r*r`.

Where the code and its design description differ, the model follows the code:

- **There is no hysteresis in effect.** `bfsAssign` sets the root's
  cluster id (line 172) before queueing it. Every player taken off the
  queue therefore already has an id, so the `PROX_RADIUS` (140) branch at
  line 186 never fires. Clusters are the components of "distance below
  EXIT_RADIUS (160)", both when a cluster forms and when it holds together.
  `Signaling.ScanNeighbours` keeps the dead test as written. Its
  specification `Clustering.Scanned` uses only the 160 edge.
  `Scenarios.NearPairClusters` shows that a new pair at distance 150
  clusters at once.
- **Players are not removed on disconnect.** `afterConnectionClosed` only
  drops the session (lines 34-36). The player stays in `rooms` and keeps
  appearing in PLAYERS lists.
- **Ids are re-minted on every pass.** A cluster whose membership did not
  change can still get a new number and re-announce its JOIN.
  `Pass.ReclustersStable` shows that a second pass with no move in between
  keeps the ids and sends no LEAVE, but it does repeat every JOIN.

## Model

| member | source | states |
|---|---|---|
| Player.PlayerState.constructor | src/main/java/com/example/demo/PlayerState.java:14-21 | a new player has the given id, name and room, stands at (200, 200) and has no cluster id |
| Signaling.SignalingHandler.constructor | src/main/java/com/example/demo/SignalingHandler.java:17-20 | the handler starts with no rooms, no sessions and nothing sent |
| Signaling.SignalingHandler.AfterConnectionEstablished | src/main/java/com/example/demo/SignalingHandler.java:29-31 | the session is registered with no attributes; rooms and outbox are untouched |
| Signaling.SignalingHandler.AfterConnectionClosed | src/main/java/com/example/demo/SignalingHandler.java:34-36 | only the session's registry entry is removed; its player stays in its room |
| Signaling.SignalingHandler.SetOpen | src/main/java/com/example/demo/SignalingHandler.java:224 | the transport's isOpen flag of a registered session changes and nothing else does |
| Signaling.SignalingHandler.HandleTextMessage | src/main/java/com/example/demo/SignalingHandler.java:39-50 | join, move and the three signal kinds dispatch to their handlers with each one's full outcome; any other message changes nothing and sends nothing |
| Signaling.SignalingHandler.HandleJoin | src/main/java/com/example/demo/SignalingHandler.java:54-67 | only the joined room's entry changes; the id now finds a fresh player at the spawn point with no cluster, put over any old entry (the other players are kept); the session gets the playerId and room attributes; exactly one PLAYERS message of the new room list goes to the room; no clustering pass runs |
| Signaling.SignalingHandler.AddPlayer | src/main/java/com/example/demo/SignalingHandler.java:60-61 | the room is created only when absent, and the fresh player replaces or joins the room's entries by id |
| Signaling.SignalingHandler.JoinSession | src/main/java/com/example/demo/SignalingHandler.java:63-64 | the joining session's playerId and room attributes are set; no other session changes |
| Protocol.Joined | src/main/java/com/example/demo/SignalingHandler.java:63-64 | setting attributes registers and drops no session |
| Protocol.JoinedRoomAudience | src/main/java/com/example/demo/SignalingHandler.java:63-64 | after a join the joining session, if open, is reached by its new room and by no other room; other sessions keep their rooms |
| Protocol.JoinedPlayerAudience | src/main/java/com/example/demo/SignalingHandler.java:63-64 | after a join, relays to the joined id reach the joining session if open; relays to any other id no longer reach it |
| Protocol.ClosedAudience | src/main/java/com/example/demo/SignalingHandler.java:34-36 | a closed connection is no longer reached by room sends or relays; every other session is reached as before |
| Protocol.NewSessionUnreached | src/main/java/com/example/demo/SignalingHandler.java:29-31 | a session that never joined is reached neither by a room send nor by a relay |
| Signaling.SignalingHandler.HandleMove | src/main/java/com/example/demo/SignalingHandler.java:71-94 | an unknown room or player id changes no player and sends nothing; otherwise the room ends as the moved room re-clustered, the pass's events are sent and then one PLAYERS message of the room as it now is |
| Signaling.Place | src/main/java/com/example/demo/SignalingHandler.java:82-83 | the player with that id gets the new coordinates and every other player of the room is unchanged |
| Player.Lookup | src/main/java/com/example/demo/SignalingHandler.java:79-80 | a found player is in the room and has the id; nothing is found exactly when no player has that id |
| Player.LookupUnique | src/main/java/com/example/demo/SignalingHandler.java:79 | in a room with distinct ids, looking up a player's id finds that player |
| Player.Put | src/main/java/com/example/demo/SignalingHandler.java:61 | the new player is in the room; every player with another id is kept; nothing else enters; the room grows by one exactly when the id was absent; ids stay distinct |
| Player.PutLookup | src/main/java/com/example/demo/SignalingHandler.java:61 | after the put the id finds the new player and every other id finds what it found before |
| Pass.MoveStep | src/main/java/com/example/demo/SignalingHandler.java:82-93 | moving, then a clustering pass, then one PLAYERS send make up a move's outcome |
| Pass.MoveOutcomeUnique | src/main/java/com/example/demo/SignalingHandler.java:71-94 | a move from a given room has exactly one resulting room and exactly one sequence of sends |
| Pass.MovePlaces | src/main/java/com/example/demo/SignalingHandler.java:82-93 | after a move only the moved player's coordinates change; names, ids and rooms are kept; every player has a cluster id; the last send is PLAYERS of the new room |
| Signaling.SignalingHandler.RelaySignal | src/main/java/com/example/demo/SignalingHandler.java:99-112 | the signal is sent unchanged to exactly the open sessions whose playerId is its target, in any room; no other state changes |
| Signaling.PlayerTargets | src/main/java/com/example/demo/SignalingHandler.java:104-111 | the loop over the registry collects exactly the open sessions with that playerId attribute |
| Signaling.SignalingHandler.BroadcastPlayers | src/main/java/com/example/demo/SignalingHandler.java:116-125 | one PLAYERS message listing the room's players as they are now goes to the room |
| Signaling.SignalingHandler.ComputeClusters | src/main/java/com/example/demo/SignalingHandler.java:129-167 | an unknown room sends nothing; otherwise only cluster ids change, they form the clustering of the positions, and the room hears the JOINs of the pass followed by its LEAVEs |
| Signaling.SignalingHandler.Recluster | src/main/java/com/example/demo/SignalingHandler.java:134-166 | the snapshot, clear, label and diff steps together satisfy the pass specification |
| Signaling.RememberClusters | src/main/java/com/example/demo/SignalingHandler.java:136-137 | the map records every player's cluster id before the pass, by player id |
| Signaling.ClearClusters | src/main/java/com/example/demo/SignalingHandler.java:139 | every player of the room is left without a cluster id |
| Signaling.SignalingHandler.AssignClusters | src/main/java/com/example/demo/SignalingHandler.java:141-157 | the main loop leaves the ids as the clustering of the positions, and sends the JOIN of every multi-member cluster in cluster order |
| Signaling.SignalingHandler.VisitPlayer | src/main/java/com/example/demo/SignalingHandler.java:143-157 | one turn of the main loop keeps the pass invariant and advances idx exactly when the player roots a new cluster |
| Signaling.SignalingHandler.StartCluster | src/main/java/com/example/demo/SignalingHandler.java:147-156 | an unclustered player roots the next cluster number, its component is labelled, and its JOIN is sent if it has more than one member |
| Signaling.LabelComponent | src/main/java/com/example/demo/SignalingHandler.java:148 | bfsAssign, as seen from the main loop, labels exactly the root's component with the new id and changes no other id or position |
| Signaling.SignalingHandler.AnnounceJoin | src/main/java/com/example/demo/SignalingHandler.java:155-156 | a JOIN is sent exactly when the member list has more than one id |
| Signaling.SignalingHandler.AnnounceLeaves | src/main/java/com/example/demo/SignalingHandler.java:159-166 | the last loop sends, in list order, one LEAVE naming the old id for each player whose previous id was set and differs from its new one |
| Signaling.SignalingHandler.AnnounceLeave | src/main/java/com/example/demo/SignalingHandler.java:161-165 | one player's LEAVE is sent exactly under the previous-id condition |
| Signaling.BfsAssign | src/main/java/com/example/demo/SignalingHandler.java:169-195 | starting from an unclustered root with unused id cid, cid goes exactly to the root's component, and no other id changes |
| Signaling.VisitHead | src/main/java/com/example/demo/SignalingHandler.java:175-193 | one poll of the queue keeps the search invariant and either labels someone or shortens the queue |
| Signaling.ScanNeighbours | src/main/java/com/example/demo/SignalingHandler.java:179-193 | the scan from the polled player gives cid to exactly the unclustered players closer than 160, and queues exactly those |
| Signaling.ScanOne | src/main/java/com/example/demo/SignalingHandler.java:181-192 | looking at one more player extends the scan: it gets cid and is queued exactly when it was unclustered and closer than 160 to the polled player |
| Signaling.SetCluster | src/main/java/com/example/demo/SignalingHandler.java:190 | exactly the addressed player's cluster id changes |
| Signaling.SignalingHandler.SendClusterJoin | src/main/java/com/example/demo/SignalingHandler.java:199-207 | one CLUSTER_JOIN with the id and member list goes to the room |
| Signaling.SignalingHandler.SendClusterLeave | src/main/java/com/example/demo/SignalingHandler.java:209-217 | one CLUSTER_LEAVE with the id and player goes to the room |
| Signaling.SignalingHandler.SendRoom | src/main/java/com/example/demo/SignalingHandler.java:233-243 | one message goes to exactly the open sessions whose room attribute is the room |
| Signaling.RoomTargets | src/main/java/com/example/demo/SignalingHandler.java:237-242 | the loop over the registry collects exactly the open sessions with that room attribute |
| Proximity.NearSymmetric | src/main/java/com/example/demo/SignalingHandler.java:183 | the distance test does not depend on which player is polled |
| Proximity.ConnectedSymmetric | src/main/java/com/example/demo/SignalingHandler.java:179-193 | a chain of near players can be walked backwards |
| Proximity.ConnectedTransitive | src/main/java/com/example/demo/SignalingHandler.java:179-193 | two chains joined end to end form a chain |
| Proximity.ClosedSetContainsComponent | src/main/java/com/example/demo/SignalingHandler.java:175-194 | a set of players no proximity edge leaves contains the whole component of each of its members |
| Labels.DecimalRoundTrip | src/main/java/com/example/demo/SignalingHandler.java:147 | the decimal rendering of a number reads back as that number |
| Labels.LabelRoundTrip | src/main/java/com/example/demo/SignalingHandler.java:147 | "c" followed by the number reads back as the number |
| Labels.LabelInjective | src/main/java/com/example/demo/SignalingHandler.java:147 | two labels are equal exactly when their numbers are |
| Clustering.PassStart | src/main/java/com/example/demo/SignalingHandler.java:139-141 | with every id cleared and idx = 1, the pass invariant holds before the main loop |
| Clustering.PassClosed | src/main/java/com/example/demo/SignalingHandler.java:143-148 | during the main loop the clustered players form whole components and the next number is unused |
| Clustering.PassSkip | src/main/java/com/example/demo/SignalingHandler.java:145 | skipping an already clustered player keeps the invariant |
| Clustering.RootIsUnclustered | src/main/java/com/example/demo/SignalingHandler.java:145-147 | a player still unclustered when the loop reaches it is the first of its component, and idx is its component's rank |
| Clustering.PassRoot | src/main/java/com/example/demo/SignalingHandler.java:147-148 | labelling the root's component with idx keeps the invariant for idx + 1 |
| Clustering.SearchStart | src/main/java/com/example/demo/SignalingHandler.java:171-173 | after labelling and queueing the root the search invariant holds |
| Clustering.SearchStep | src/main/java/com/example/demo/SignalingHandler.java:175-193 | polling and scanning keeps the search invariant and makes progress |
| Clustering.SearchLabelsComponent | src/main/java/com/example/demo/SignalingHandler.java:175-195 | when the queue is empty, exactly the root's component carries cid and no earlier id changed |
| Clustering.PassEnd | src/main/java/com/example/demo/SignalingHandler.java:141-157 | after the main loop every player has an id, ids agree exactly on connected players, and idx - 1 is the number of components |
| Clustering.HasRoot | src/main/java/com/example/demo/SignalingHandler.java:143-148 | every player is connected to the first player of its component, which comes no later in the list |
| Clustering.ClusteringUnique | src/main/java/com/example/demo/SignalingHandler.java:129-167 | the positions alone determine the cluster ids of a pass |
| Clustering.ClusterIdsInRange | src/main/java/com/example/demo/SignalingHandler.java:141-147 | every id handed out lies in c1..ck, k being the number of BFS roots |
| Clustering.ClusterIdsAllUsed | src/main/java/com/example/demo/SignalingHandler.java:141-148 | every id in c1..ck belongs to some player |
| Events.MembersSpec | src/main/java/com/example/demo/SignalingHandler.java:150-153 | a player id is listed for cluster c exactly when a player with that id is in c |
| Events.MembersFrame | src/main/java/com/example/demo/SignalingHandler.java:150-153 | the member list depends only on ids and on who is in the cluster |
| Events.JoinEventsSpec | src/main/java/com/example/demo/SignalingHandler.java:150-156 | a JOIN is sent for cluster c exactly when c is in 1..k and has more than one member, and it lists exactly c's members in list order |
| Events.JoinEventsIncreasing | src/main/java/com/example/demo/SignalingHandler.java:143-157 | the JOINs go out in increasing cluster order |
| Events.LeaveEventsSpec | src/main/java/com/example/demo/SignalingHandler.java:159-166 | a LEAVE(c, p) is sent exactly when player p had id c before the pass and has a different id after it |
| Events.LeaveEventsCount | src/main/java/com/example/demo/SignalingHandler.java:159-166 | there is one LEAVE per player that lost its old id, and none for a player that had no id |
| Events.LeaveEventsNone | src/main/java/com/example/demo/SignalingHandler.java:159-166 | a pass that changes no id sends no LEAVE |
| Pass.JoinEventsGrow | src/main/java/com/example/demo/SignalingHandler.java:147-156 | labelling a later component leaves the member lists of earlier clusters unchanged, so each JOIN sent mid-loop equals the one for the final ids |
| Pass.SkipPlayer | src/main/java/com/example/demo/SignalingHandler.java:145 | a skipped player sends nothing and keeps the state of the main loop |
| Pass.RootStep | src/main/java/com/example/demo/SignalingHandler.java:147-156 | a root's labelling and JOIN extend the main loop's state by one cluster |
| Pass.AssignEnd | src/main/java/com/example/demo/SignalingHandler.java:141-157 | after the main loop the ids are the clustering and every JOIN has been sent |
| Pass.PassOutcome | src/main/java/com/example/demo/SignalingHandler.java:129-167 | clearing, labelling and the two send loops compose into the pass specification |
| Pass.ReclustersUnique | src/main/java/com/example/demo/SignalingHandler.java:129-167 | computeClusters is deterministic: the room fixes the new ids and every send |
| Pass.ReclustersStable | src/main/java/com/example/demo/SignalingHandler.java:129-167 | a second pass without a move keeps every id and sends no LEAVE, but repeats every JOIN |
| Scenarios.NearPairClusters | src/main/java/com/example/demo/SignalingHandler.java:183-187 | two players closer than 160, even at 150 (beyond PROX_RADIUS), form one cluster c1 |
| Scenarios.FarPairSeparate | src/main/java/com/example/demo/SignalingHandler.java:183-187 | two players 160 or more apart are two clusters, c1 and c2 in list order |
| Scenarios.MergeAt150 | src/main/java/com/example/demo/SignalingHandler.java:129-167 | two separate players brought to distance 150 merge: one JOIN of both, then the second player's LEAVE of its old cluster |
| Scenarios.MergeEvents | src/main/java/com/example/demo/SignalingHandler.java:150-166 | the events of that merge, in order |
| Scenarios.SplitAt170 | src/main/java/com/example/demo/SignalingHandler.java:129-167 | a clustered pair that drifts to 170 splits into two unannounced singletons, and only the second player gets a LEAVE |
| Scenarios.SplitEvents | src/main/java/com/example/demo/SignalingHandler.java:150-166 | the events of that split |
| Scenarios.MoveApart | src/main/java/com/example/demo/SignalingHandler.java:71-94 | a move that splits a pair sends the LEAVE and then the PLAYERS list with the new positions and ids |
| Scenarios.Addressing | src/main/java/com/example/demo/SignalingHandler.java:99-112 | a relay reaches every open session of the target player in any room, and not a closed one; a room send reaches only open sessions that joined it |

## Left out

- JSON: Jackson parsing and serialisation are not modelled. An inbound
  message is a `Protocol.Inbound` value, and an outbound one is a
  `Protocol.Msg`.
  - A message whose `type` matches no case, or that lacks a field the
    handler reads, is `Inbound.Ignored`. No state changes for it.
  - A `move` with a valid `x` but no `y` has a partial effect in the source:
    `x` is set before the exception. The model does not capture that.
- The Spring transport is not modelled: `TextWebSocketHandler`,
  `sendMessage` and `CloseStatus`. `isOpen` is a flag of the session record
  that the transport sets, modelled by `SetOpen`.
- Signaling.SignalingHandler.SendRoom: a send that throws is logged and
  skipped in the source. The model counts every open session of the
  audience as reached.
- `sendLock` and all concurrency are not modelled. The model is
  single-threaded, and each handler call runs to completion.
- Doubles are not modelled. Coordinates are exact reals, and `Math.hypot`
  rounding is not modelled.
- Player.Put: the model appends a new id at the end of the room list,
  and keeps the other players in their order. In Java's `HashMap` the
  position of a new id in `values()` depends on its hash. A resize (at the
  13th player, and at each doubling after) can also reorder the players
  already there. So after a join, the model's PLAYERS order and the
  numbering c1, c2, … of later passes can differ from the program's. For
  example, if B joins before A and they stand 160 or more apart, the model
  numbers B c1, while the program, which lists "A" first, numbers A c1.
  The clustering results hold for whatever order the list has.
- The session registry's iteration order does not matter, because a send
  is a set of recipients.
- Signaling.SignalingHandler.AssignClusters: `idx` is a Java `int`. Its
  overflow after 2^31 clusters in one room is not modelled.
- Signaling.SignalingHandler.JoinSession: the source writes the attributes
  on the session object even when the registry does not hold it. The model
  records them only for registered sessions. No send can reach an
  unregistered session, so nothing observable differs.
- `PlayerState`'s `id`, `name` and `room` fields are public and non-final
  in the source. The handler never assigns them after construction, so
  they are `const` in the model.
