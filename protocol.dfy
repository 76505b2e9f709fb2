/**
  The messages the handler reads and writes, the session records of the
  registry, and who a room broadcast or a relay reaches. JSON encoding is not
  modelled: a message is its datatype value.
*/
module Protocol {
  import opened Optional
  import opened Player

  datatype SignalKind = Offer | Answer | Candidate

  /** An offer/answer/candidate message; `fields` stands for everything else it carries. */
  datatype Signal = Signal(kind: SignalKind, to: string, fields: string)

  /** An inbound message after decoding; `Ignored` is any message the switch drops. */
  datatype Inbound =
    | Join(room: string, playerId: string, name: string)
    | Move(room: string, playerId: string, x: real, y: real)
    | Relay(signal: Signal)
    | Ignored

  /** An outbound message. */
  datatype Msg =
    | Players(players: seq<PlayerView>)
    | ClusterJoin(cluster: nat, members: seq<string>)
    | ClusterLeave(cluster: nat, playerId: string)
    | Relayed(signal: Signal)

  /** A registered WebSocket session: whether the transport still has it open, and its attributes. */
  datatype Session = Session(open: bool, playerId: Option<string>, room: Option<string>)

  /** A fresh connection, before any join. */
  const NewSession: Session := Session(true, None, None)

  /** One call of sendRoom or relaySignal: the message and the sessions that received it. */
  datatype Send = Send(to: set<string>, msg: Msg)

  /** The sessions sendRoom(room, _) delivers to: open, with attribute room == room. */
  function RoomAudience(sessions: map<string, Session>, room: string): set<string>
  {
    set sid | sid in sessions && sessions[sid].room == Some(room) && sessions[sid].open
  }

  /** The sessions a relay to player `to` reaches: open, with attribute playerId == to, in any room. */
  function PlayerAudience(sessions: map<string, Session>, to: string): set<string>
  {
    set sid | sid in sessions && sessions[sid].playerId == Some(to) && sessions[sid].open
  }

  /** handleJoin's attribute writes on the joining session, when the registry holds it. */
  function Joined(sessions: map<string, Session>, sid: string, playerId: string, room: string): (r: map<string, Session>)
    ensures r.Keys == sessions.Keys
  {
    if sid in sessions then sessions[sid := sessions[sid].(playerId := Some(playerId), room := Some(room))] else sessions
  }

  /**
    After a join the joining session, if open, hears its new room and no other;
    every other session keeps its audiences.
  */
  lemma JoinedRoomAudience(sessions: map<string, Session>, sid: string, playerId: string, room: string, r: string)
    ensures RoomAudience(Joined(sessions, sid, playerId, room), r) ==
      if r == room && sid in sessions && sessions[sid].open then RoomAudience(sessions, r) + {sid}
      else RoomAudience(sessions, r) - {sid}
  {
  }

  /** After a join, relays to the joined player id reach the joining session if it is open; other ids lose it. */
  lemma JoinedPlayerAudience(sessions: map<string, Session>, sid: string, playerId: string, room: string, to: string)
    ensures PlayerAudience(Joined(sessions, sid, playerId, room), to) ==
      if to == playerId && sid in sessions && sessions[sid].open then PlayerAudience(sessions, to) + {sid}
      else PlayerAudience(sessions, to) - {sid}
  {
  }

  /** A closed connection is no longer reached by anything; everyone else is still reached as before. */
  lemma ClosedAudience(sessions: map<string, Session>, sid: string, room: string, to: string)
    ensures RoomAudience(sessions - {sid}, room) == RoomAudience(sessions, room) - {sid}
    ensures PlayerAudience(sessions - {sid}, to) == PlayerAudience(sessions, to) - {sid}
  {
  }

  /** A session that never joined has no attributes, so neither a room broadcast nor a relay reaches it. */
  lemma NewSessionUnreached(sessions: map<string, Session>, sid: string, room: string, to: string)
    requires sid in sessions && sessions[sid] == NewSession
    ensures sid !in RoomAudience(sessions, room) && sid !in PlayerAudience(sessions, to)
  {
  }

  /** The same message sent, in turn, to the same audience. */
  function Broadcast(to: set<string>, msgs: seq<Msg>): (r: seq<Send>)
  {
    seq(|msgs|, i requires 0 <= i < |msgs| => Send(to, msgs[i]))
  }

  /** Broadcasting two runs of messages one after the other is broadcasting their concatenation. */
  lemma BroadcastAppend(to: set<string>, a: seq<Msg>, b: seq<Msg>)
    ensures Broadcast(to, a + b) == Broadcast(to, a) + Broadcast(to, b)
  {
  }

  /** Sending one more message to the same audience extends the log by exactly that delivery. */
  lemma BroadcastSnoc(log: seq<Send>, to: set<string>, msgs: seq<Msg>, m: Msg)
    ensures log + Broadcast(to, msgs + [m]) == (log + Broadcast(to, msgs)) + [Send(to, m)]
  {
    assert Broadcast(to, msgs + [m]) == Broadcast(to, msgs) + [Send(to, m)];
  }
}
