// Frames the hub sends and the bounded outbound queue each connection drains.
module Protocol {
  import opened Wrappers

  type ClientId = nat

  // Opaque application bytes: shared by reference, never looked into.
  datatype Payload = Payload(raw: string)

  datatype MemberInfo = MemberInfo(slot: nat, id: string)

  datatype ServerMsg =
    | Message(channel: string, from: Option<string>, payload: Payload)
    | Joined(channel: string, who: string)
    | Left(channel: string, who: string)
    | Presence(channel: string, members: seq<string>)
    | Error(message: string)
    | SessionStart(session: string, slot: nat, coordinator: bool, roster: seq<MemberInfo>)
    | MemberJoined(session: string, slot: nat, id: string)
    | MemberLeft(session: string, slot: nat, id: string)
    | CoordinatorChanged(session: string, slot: nat, id: string)
    | SessionClosed(session: string, reason: string)
    | FromMember(session: string, sender: string, slot: nat, payload: Payload)
    | FromCoordinator(session: string, payload: Payload)

  const DEFAULT_OUTBOUND_CAPACITY: nat := 256

  datatype Delivery = Sent | Dropped | Closed

  // sent is every frame ever queued, in order; drained counts those the transport took off.
  datatype Outbound = Outbound(sent: seq<ServerMsg>, drained: nat, closed: bool, shed: seq<ServerMsg>)

  const FRESH := Outbound([], 0, false, [])

  // What the other end may do to a queue between two sends: take frames, or hang up for good.
  datatype Move = Move(drain: nat, hangUp: bool)

  function Disturb(out: Outbound, move: Move): Outbound {
    out.(drained := if out.drained + move.drain <= |out.sent| then out.drained + move.drain else |out.sent|,
         closed := out.closed || move.hangUp)
  }

  // Never blocks: a full queue sheds the new frame, a closed one reports that the client is gone.
  function TryDeliver(out: Outbound, msg: ServerMsg): (Outbound, Delivery) {
    if out.closed then (out, Closed)
    else if |out.sent| - out.drained >= DEFAULT_OUTBOUND_CAPACITY then (out.(shed := out.shed + [msg]), Dropped)
    else (out.(sent := out.sent + [msg]), Sent)
  }

  // A queue never holds more than its capacity, however sends and the other end interleave.
  lemma QueueBounded(out: Outbound, move: Move, msg: ServerMsg)
    requires out.drained <= |out.sent| <= out.drained + DEFAULT_OUTBOUND_CAPACITY
    ensures var after := TryDeliver(Disturb(out, move), msg).0;
            after.drained <= |after.sent| <= after.drained + DEFAULT_OUTBOUND_CAPACITY
  {
  }

  // A frame finds its client gone exactly when the other end has hung up; else it is shed exactly when 256
  // frames are waiting to be taken off, and queued last otherwise.
  lemma ShedOnlyWhenFull(out: Outbound, move: Move, msg: ServerMsg)
    requires out.drained <= |out.sent|
    ensures var taken := if out.drained + move.drain <= |out.sent| then out.drained + move.drain else |out.sent|;
            var (after, outcome) := TryDeliver(Disturb(out, move), msg);
            (outcome == Closed <==> out.closed || move.hangUp) &&
            (outcome != Closed ==>
               (outcome == Dropped <==> |out.sent| - taken >= 256) &&
               after.sent == out.sent + (if outcome == Sent then [msg] else []) &&
               after.shed == out.shed + (if outcome == Dropped then [msg] else []))
  {
  }
}
