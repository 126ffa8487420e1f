// The client library's connection: subscriptions outlive sockets, frames wait for the next open one,
// and a channel's members are folded from the frames received.
module RealtimeSdk {
  import opened Wrappers
  import opened Protocol
  import opened Listing

  datatype ClientFrame =
    | SubscribeTo(channel: string)
    | UnsubscribeFrom(channel: string)
    | PublishOn(channel: string, payload: Payload)
    | PresenceOf(channel: string)

  const CONNECTING: nat := 0
  const OPEN: nat := 1
  const CLOSING: nat := 2
  const CLOSED: nat := 3

  const MAX_DELAY_MS: nat := 10000

  class Socket {
    var readyState: nat
    var sent: seq<ClientFrame>

    constructor ()
      ensures readyState == CONNECTING && sent == []
    {
      readyState := CONNECTING;
      sent := [];
    }

    method Send(frame: ClientFrame)
      requires readyState == OPEN
      modifies this`sent
      ensures sent == old(sent) + [frame]
    {
      sent := sent + [frame];
    }

    method SendAll(frames: seq<ClientFrame>)
      requires readyState == OPEN
      modifies this`sent
      ensures sent == old(sent) + frames
    {
      for i := 0 to |frames|
        invariant sent == old(sent) + frames[..i]
      {
        Send(frames[i]);
      }
      assert frames[..|frames|] == frames;
    }

    method Close()
      modifies this`readyState
      ensures readyState == if old(readyState) <= OPEN then CLOSING else old(readyState)
    {
      if readyState <= OPEN { readyState := CLOSING; }
    }
  }

  predicate IsTracking(frame: ClientFrame) { frame.SubscribeTo? || frame.UnsubscribeFrom? }

  function Track(channels: set<string>, frame: ClientFrame): set<string> {
    match frame
    case SubscribeTo(channel) => channels + {channel}
    case UnsubscribeFrom(channel) => channels - {channel}
    case _ => channels
  }

  // The channels a peer that received these frames has subscribed the sender to.
  function Net(sent: seq<ClientFrame>): set<string> {
    if sent == [] then {} else Track(Net(sent[..|sent| - 1]), sent[|sent| - 1])
  }

  lemma NetAppend(sent: seq<ClientFrame>, frame: ClientFrame)
    ensures Net(sent + [frame]) == Track(Net(sent), frame)
  {
    assert (sent + [frame])[..|sent|] == sent;
  }

  lemma NetOfNothing()
    ensures Net([]) == {}
  {
  }

  lemma {:induction false} NetOfOthers(sent: seq<ClientFrame>, others: seq<ClientFrame>)
    requires forall f <- others :: !IsTracking(f)
    ensures Net(sent + others) == Net(sent)
  {
    if others == [] {
      assert sent + others == sent;
    } else {
      var front, last := others[..|others| - 1], others[|others| - 1];
      assert last in others && forall f <- front :: f in others;
      NetOfOthers(sent, front);
      assert sent + others == (sent + front) + [last];
      NetAppend(sent + front, last);
    }
  }

  function Subscriptions(channels: seq<string>): (frames: seq<ClientFrame>)
    ensures |frames| == |channels| && forall i :: 0 <= i < |channels| ==> frames[i] == SubscribeTo(channels[i])
  {
    if channels == [] then [] else Subscriptions(channels[..|channels| - 1]) + [SubscribeTo(channels[|channels| - 1])]
  }

  // Resubscribing is idempotent: it adds the channels and no more.
  lemma {:induction false} NetOfSubscriptions(sent: seq<ClientFrame>, channels: seq<string>)
    ensures Net(sent + Subscriptions(channels)) == Net(sent) + set c | c in channels
  {
    hide Net;
    if channels == [] {
      assert sent + Subscriptions(channels) == sent;
    } else {
      var front, last := channels[..|channels| - 1], channels[|channels| - 1];
      NetOfSubscriptions(sent, front);
      assert sent + Subscriptions(channels) == (sent + Subscriptions(front)) + [SubscribeTo(last)];
      NetAppend(sent + Subscriptions(front), SubscribeTo(last));
      ListedFront(channels, front, last);
    }
  }

  lemma ListedFront(channels: seq<string>, front: seq<string>, last: string)
    requires channels == front + [last]
    ensures (set c | c in channels) == (set c | c in front) + {last}
  {
  }

  lemma ListedOnce(order: seq<string>, channels: set<string>)
    requires IsListing(order, channels)
    ensures (set c | c in order) == channels
  {
  }

  function Power2(n: nat): nat { if n == 0 then 1 else 2 * Power2(n - 1) }

  // The wait before the next attempt: doubling, up to a ceiling.
  function Delay(base: nat, attempts: nat): (ms: nat)
    ensures ms <= MAX_DELAY_MS
  {
    if base * Power2(attempts) <= MAX_DELAY_MS then base * Power2(attempts) else MAX_DELAY_MS
  }

  lemma DelayDoubles(base: nat, attempts: nat)
    ensures var twice := 2 * Delay(base, attempts); Delay(base, attempts + 1) == if twice <= 10000 then twice else 10000
  {
    assert base * Power2(attempts + 1) == 2 * (base * Power2(attempts));
  }

  // The first waits are the base, twice it, four times it and so on, while under ten seconds.
  lemma WaitsFromBase(base: nat, attempts: nat)
    ensures base <= 10000 ==> Delay(base, 0) == base && (base <= 5000 ==> Delay(base, 1) == 2 * base)
    ensures base > 10000 ==> Delay(base, attempts) == 10000
  {
    assert Power2(0) == 1 && Power2(1) == 2 * Power2(0);
    PowerIsPositive(base, attempts);
  }

  lemma {:induction false} PowerIsPositive(base: nat, n: nat)
    ensures base * Power2(n) >= base
  {
    if n > 0 {
      PowerIsPositive(base, n - 1);
      assert base * Power2(n) == 2 * (base * Power2(n - 1));
    }
  }

  // --- Members ---

  type Members = map<string, set<string>>

  function MembersOf(members: Members, channel: string): set<string> {
    if channel in members then members[channel] else {}
  }

  // What one received frame does to the members of every channel.
  function Dispatched(members: Members, frame: ServerMsg): Members {
    match frame
    case Joined(channel, who) => members[channel := MembersOf(members, channel) + {who}]
    case Left(channel, who) => members[channel := MembersOf(members, channel) - {who}]
    case Presence(channel, present) => members[channel := set m | m in present]
    case _ => members
  }

  // --- The machine ---

  // One socket the library has made: its state and every frame written to it.
  datatype Link = Link(readyState: nat, sent: seq<ClientFrame>)

  // Sockets are numbered in the order they were made; `ws` is the one the library holds on to.
  datatype Client = Client(
    reconnect: bool,
    ws: Option<nat>,
    sockets: seq<Link>,
    closedByUser: bool,
    attempts: nat,
    outbox: seq<ClientFrame>,
    handlers: map<string, set<nat>>,
    members: Members)

  // Calls of the application, and what happens to a socket whether or not it is still the current one.
  datatype Event =
    | Connecting
    | Subscribing(channel: string, handler: nat)
    | Unsubscribing(channel: string, handler: nat)
    | Publishing(channel: string, payload: Payload)
    | Asking(channel: string)
    | Closing
    | Opening(socket: nat, order: seq<string>)
    | Ending(socket: nat)
    | Ended(socket: nat)
    | Receiving(frame: ServerMsg)

  function Start(reconnect: bool): Client { Client(reconnect, None, [], false, 0, [], map[], map[]) }

  function ReadyState(c: Client, n: nat): nat { if n < |c.sockets| then c.sockets[n].readyState else CLOSED }

  predicate IsLive(c: Client) { c.ws.Some? && ReadyState(c, c.ws.value) <= OPEN }

  predicate CanSend(c: Client) { c.ws.Some? && ReadyState(c, c.ws.value) == OPEN }

  function Turned(c: Client, n: nat, readyState: nat): Client {
    if n < |c.sockets| then c.(sockets := c.sockets[n := c.sockets[n].(readyState := readyState)]) else c
  }

  function Written(c: Client, n: nat, frames: seq<ClientFrame>): Client {
    if n < |c.sockets| then c.(sockets := c.sockets[n := c.sockets[n].(sent := c.sockets[n].sent + frames)]) else c
  }

  // Sends now if open, otherwise at the next open.
  function Emitted(c: Client, frames: seq<ClientFrame>): Client {
    if CanSend(c) then Written(c, c.ws.value, frames) else c.(outbox := c.outbox + frames)
  }

  // A no-op while a socket is live.
  function Connected(c: Client): Client {
    if IsLive(c) then c
    else c.(ws := Some(|c.sockets|), sockets := c.sockets + [Link(CONNECTING, [])], closedByUser := false)
  }

  function HandlersOf(c: Client, channel: string): set<nat> {
    if channel in c.handlers then c.handlers[channel] else {}
  }

  // Every channel with handlers is subscribed again through the current socket, then the frames that waited
  // go out on the one that opened.
  function Opened(c: Client, n: nat, order: seq<string>): Client {
    var up := Turned(c, n, OPEN).(attempts := 0);
    var again := Emitted(up, Subscriptions(order));
    Written(again, n, again.outbox).(outbox := [])
  }

  function Subscribed(c: Client, channel: string, handler: nat): Client {
    var d := Connected(c.(handlers := c.handlers[channel := HandlersOf(c, channel) + {handler}]));
    if channel !in c.handlers && CanSend(d) then Emitted(d, [SubscribeTo(channel)]) else d
  }

  // The last handler of a channel forgets its members and tells the peer.
  function Unsubscribed(c: Client, channel: string, handler: nat): Client {
    var rest := HandlersOf(c, channel) - {handler};
    if channel !in c.handlers then c
    else if rest != {} then c.(handlers := c.handlers[channel := rest])
    else
      var d := c.(handlers := c.handlers - {channel}, members := c.members - {channel});
      if CanSend(d) then Emitted(d, [UnsubscribeFrom(channel)]) else d
  }

  predicate Retries(c: Client) { !c.closedByUser && c.reconnect }

  function After(c: Client, event: Event): Client {
    match event
    case Connecting => Connected(c)
    case Subscribing(channel, handler) => Subscribed(c, channel, handler)
    case Unsubscribing(channel, handler) => Unsubscribed(c, channel, handler)
    case Publishing(channel, payload) => Emitted(Connected(c), [PublishOn(channel, payload)])
    case Asking(channel) => Emitted(Connected(c), [PresenceOf(channel)])
    case Closing => (if IsLive(c) then Turned(c, c.ws.value, CLOSING) else c).(ws := None, closedByUser := true)
    case Opening(n, order) => Opened(c, n, order)
    case Ending(n) => Turned(c, n, CLOSING)
    case Ended(n) => Turned(c, n, CLOSED).(ws := None, attempts := c.attempts + if Retries(c) then 1 else 0)
    case Receiving(frame) => c.(members := Dispatched(c.members, frame))
  }

  // A socket opens once, while connecting; it starts to end only while alive, and ends once.
  predicate Can(c: Client, event: Event) {
    match event
    case Opening(n, order) => n < |c.sockets| && ReadyState(c, n) == CONNECTING && IsListing(order, c.handlers.Keys)
    case Ending(n) => ReadyState(c, n) <= OPEN
    case Ended(n) => ReadyState(c, n) <= CLOSING
    case _ => true
  }

  // Nothing that tracks subscriptions waits in the outbox, no handler set is empty, nothing is written
  // before a socket opens, and the current socket, while open, has told its peer exactly the channels that
  // have handlers.
  ghost predicate Sound(c: Client) {
    (forall f <- c.outbox :: !IsTracking(f)) &&
    (forall channel <- c.handlers :: c.handlers[channel] != {}) &&
    (forall n :: 0 <= n < |c.sockets| && c.sockets[n].readyState == CONNECTING ==> c.sockets[n].sent == []) &&
    (c.ws.Some? ==> c.ws.value < |c.sockets|) &&
    (CanSend(c) ==> Net(c.sockets[c.ws.value].sent) == c.handlers.Keys)
  }

  lemma WrittenShape(c: Client, n: nat, frames: seq<ClientFrame>)
    ensures var d := Written(c, n, frames);
            d == c.(sockets := d.sockets) && |d.sockets| == |c.sockets| &&
            forall m :: 0 <= m < |c.sockets| ==>
              d.sockets[m].readyState == c.sockets[m].readyState &&
              d.sockets[m].sent == c.sockets[m].sent + if m == n then frames else []
  {
  }

  lemma EmittedShape(c: Client, frames: seq<ClientFrame>)
    ensures var d := Emitted(c, frames);
            d == c.(sockets := d.sockets, outbox := c.outbox + if CanSend(c) then [] else frames) &&
            |d.sockets| == |c.sockets| &&
            forall m :: 0 <= m < |c.sockets| ==>
              d.sockets[m].readyState == c.sockets[m].readyState &&
              d.sockets[m].sent == c.sockets[m].sent + if CanSend(c) && c.ws == Some(m) then frames else []
  {
    hide Written;
    if CanSend(c) { WrittenShape(c, c.ws.value, frames); }
  }

  // What the opening of a socket writes, and where.
  lemma OpenedShape(c: Client, n: nat, order: seq<string>)
    requires n < |c.sockets|
    ensures var d := Opened(c, n, order);
            var through := ReadyState(d, if c.ws.Some? then c.ws.value else |c.sockets|) == OPEN;
            d == c.(sockets := d.sockets, attempts := 0, outbox := []) && |d.sockets| == |c.sockets| &&
            forall m :: 0 <= m < |c.sockets| ==>
              d.sockets[m].readyState == (if m == n then OPEN else c.sockets[m].readyState) &&
              d.sockets[m].sent == c.sockets[m].sent
                + (if through && c.ws == Some(m) then Subscriptions(order) else [])
                + (if m != n then [] else if through then c.outbox else c.outbox + Subscriptions(order))
  {
    hide Written, Emitted, Subscriptions;
    var up := Turned(c, n, OPEN).(attempts := 0);
    var again := Emitted(up, Subscriptions(order));
    EmittedShape(up, Subscriptions(order));
    WrittenShape(again, n, again.outbox);
  }

  lemma OpenedIsSound(c: Client, n: nat, order: seq<string>)
    requires Sound(c) && Can(c, Opening(n, order))
    ensures Sound(Opened(c, n, order))
  {
    hide Net, Subscriptions, Opened;
    ListedOnce(order, c.handlers.Keys);
    OpenedShape(c, n, order);
    var d := Opened(c, n, order);
    if CanSend(d) {
      var before := c.sockets[c.ws.value].sent;
      NetOfSubscriptions(before, order);
      NetOfNothing();
      if c.ws.value == n {
        NetOfOthers(before + Subscriptions(order), c.outbox);
      } else {
        assert before + Subscriptions(order) + [] == before + Subscriptions(order);
      }
    }
  }

  lemma EmittedNothing(c: Client)
    ensures Emitted(c, []) == c
  {
    if CanSend(c) {
      var link := c.sockets[c.ws.value];
      assert link.(sent := link.sent + []) == link;
    }
  }

  lemma EmittedTwice(c: Client, first: seq<ClientFrame>, rest: seq<ClientFrame>)
    ensures Emitted(Emitted(c, first), rest) == Emitted(c, first + rest)
  {
    hide Emitted, CanSend;
    EmittedShape(c, first);
    EmittedShape(Emitted(c, first), rest);
    EmittedShape(c, first + rest);
    assert CanSend(Emitted(c, first)) == CanSend(c) by { OpenDepends(c, Emitted(c, first)); }
    var d, e := Emitted(Emitted(c, first), rest), Emitted(c, first + rest);
    forall m | 0 <= m < |c.sockets| ensures d.sockets[m] == e.sockets[m] {
    }
    assert d.sockets == e.sockets;
  }

  lemma OpenDepends(c: Client, d: Client)
    requires c.ws == d.ws && |c.sockets| == |d.sockets|
    requires forall m :: 0 <= m < |c.sockets| ==> c.sockets[m].readyState == d.sockets[m].readyState
    ensures CanSend(c) == CanSend(d) && IsLive(c) == IsLive(d)
  {
  }

  lemma EmittedIsSound(c: Client, frame: ClientFrame)
    requires Sound(c) && !IsTracking(frame)
    ensures Sound(Emitted(c, [frame]))
  {
    hide Net, Emitted;
    EmittedShape(c, [frame]);
    if CanSend(c) { NetAppend(c.sockets[c.ws.value].sent, frame); }
  }

  lemma ConnectedIsSound(c: Client)
    requires Sound(c)
    ensures Sound(Connected(c))
  {
    hide Net;
  }

  lemma SubscribedShape(c: Client, channel: string, handler: nat)
    ensures var d, e := Subscribed(c, channel, handler), Connected(c);
            d.ws == e.ws && |d.sockets| == |e.sockets| &&
            forall m :: 0 <= m < |e.sockets| ==>
              d.sockets[m].readyState == e.sockets[m].readyState &&
              (d.ws != Some(m) ==> d.sockets[m].sent == e.sockets[m].sent)
  {
    hide Emitted;
    EmittedShape(Connected(c.(handlers := c.handlers[channel := HandlersOf(c, channel) + {handler}])), [SubscribeTo(channel)]);
  }

  lemma UnsubscribedShape(c: Client, channel: string, handler: nat)
    ensures var d := Unsubscribed(c, channel, handler);
            d.ws == c.ws && |d.sockets| == |c.sockets| &&
            forall m :: 0 <= m < |c.sockets| ==>
              d.sockets[m].readyState == c.sockets[m].readyState &&
              (d.ws != Some(m) ==> d.sockets[m].sent == c.sockets[m].sent)
  {
    hide Emitted;
    EmittedShape(c.(handlers := c.handlers - {channel}, members := c.members - {channel}), [UnsubscribeFrom(channel)]);
  }

  lemma SubscribedIsSound(c: Client, channel: string, handler: nat)
    requires Sound(c)
    ensures Sound(Subscribed(c, channel, handler))
  {
    hide Net, Emitted;
    var more := c.(handlers := c.handlers[channel := HandlersOf(c, channel) + {handler}]);
    if CanSend(c) {
      var sent := c.sockets[c.ws.value].sent;
      NetAppend(sent, SubscribeTo(channel));
      EmittedShape(more, [SubscribeTo(channel)]);
    }
  }

  lemma UnsubscribedIsSound(c: Client, channel: string, handler: nat)
    requires Sound(c)
    ensures Sound(Unsubscribed(c, channel, handler))
  {
    hide Net, Emitted;
    var fewer := c.(handlers := c.handlers - {channel}, members := c.members - {channel});
    if CanSend(c) {
      var sent := c.sockets[c.ws.value].sent;
      NetAppend(sent, UnsubscribeFrom(channel));
      EmittedShape(fewer, [UnsubscribeFrom(channel)]);
    }
  }

  // Every event, of whatever socket, keeps what the library promises of its current one.
  lemma AfterIsSound(c: Client, event: Event)
    requires Sound(c) && Can(c, event)
    ensures Sound(After(c, event))
  {
    hide Net, Subscriptions, Opened, Emitted, Connected, Subscribed, Unsubscribed;
    match event
    case Opening(n, order) => OpenedIsSound(c, n, order);
    case Connecting => ConnectedIsSound(c);
    case Publishing(channel, payload) =>
      ConnectedIsSound(c);
      EmittedIsSound(Connected(c), PublishOn(channel, payload));
    case Asking(channel) =>
      ConnectedIsSound(c);
      EmittedIsSound(Connected(c), PresenceOf(channel));
    case Subscribing(channel, handler) => SubscribedIsSound(c, channel, handler);
    case Unsubscribing(channel, handler) => UnsubscribedIsSound(c, channel, handler);
    case _ =>
  }

  // --- Sockets the library has forgotten ---

  // Alive, and not the one the library holds on to.
  function Orphans(c: Client): set<nat> {
    set n | 0 <= n < |c.sockets| && c.sockets[n].readyState <= OPEN && c.ws != Some(n)
  }

  // The end of another socket arrives while the current one is alive.
  predicate LateEnd(c: Client, event: Event) {
    event.Ended? && IsLive(c) && c.ws != Some(event.socket)
  }

  lemma SameOrphans(c: Client, d: Client)
    requires d.ws == c.ws && |d.sockets| == |c.sockets|
    requires forall m :: 0 <= m < |c.sockets| ==> (d.sockets[m].readyState <= OPEN <==> c.sockets[m].readyState <= OPEN)
    ensures Orphans(d) == Orphans(c)
  {
  }

  lemma ConnectedOrphans(c: Client)
    requires Sound(c)
    ensures Orphans(Connected(c)) == Orphans(c)
  {
    hide Net, CanSend;
  }

  lemma ClosedOrphans(c: Client)
    requires Sound(c)
    ensures Orphans(After(c, Closing)) == Orphans(c)
  {
    hide Net, CanSend;
  }

  // Exactly a late end makes an orphan, and it is the current socket; an orphan is one until it ends.
  lemma OrphansAfter(c: Client, event: Event)
    requires Sound(c) && Can(c, event)
    ensures Orphans(After(c, event)) ==
            Orphans(c) - (if event.Ending? || event.Ended? then {event.socket} else {})
            + if LateEnd(c, event) then {c.ws.value} else {}
  {
    hide Net, Opened, Emitted, CanSend, Subscribed, Unsubscribed, Connected, Sound, IsListing;
    var d := After(c, event);
    if event.Ended? || event.Ending? {
      hide Orphans, ReadyState;
      EndOrphans(c, event);
    } else {
      hide Orphans;
      match event
      case Opening(n, order) =>
        OpenedShape(c, n, order);
        SameOrphans(c, d);
      case Connecting => ConnectedOrphans(c);
      case Publishing(channel, payload) =>
        ConnectedOrphans(c);
        EmittedShape(Connected(c), [PublishOn(channel, payload)]);
        SameOrphans(Connected(c), d);
      case Asking(channel) =>
        ConnectedOrphans(c);
        EmittedShape(Connected(c), [PresenceOf(channel)]);
        SameOrphans(Connected(c), d);
      case Subscribing(channel, handler) =>
        ConnectedOrphans(c);
        SubscribedShape(c, channel, handler);
        SameOrphans(Connected(c), d);
      case Unsubscribing(channel, handler) =>
        UnsubscribedShape(c, channel, handler);
        SameOrphans(c, d);
      case Closing => ClosedOrphans(c);
      case Receiving(_) => SameOrphans(c, d);
    }
  }

  lemma EndOrphans(c: Client, event: Event)
    requires Sound(c) && Can(c, event) && (event.Ending? || event.Ended?)
    ensures Orphans(After(c, event)) == Orphans(c) - {event.socket} + if LateEnd(c, event) then {c.ws.value} else {}
  {
    hide Net, CanSend;
    var d := After(c, event);
    forall m
      ensures m in Orphans(d) <==> (m in Orphans(c) && m != event.socket) || (LateEnd(c, event) && c.ws == Some(m)) {
    }
  }

  // What an orphan is still told: it never becomes current again, and is told nothing but the frames that
  // waited for it to open, none of which takes a subscription back.
  lemma OrphanAfter(c: Client, event: Event, n: nat)
    requires Sound(c) && Can(c, event) && n < |c.sockets| && c.ws != Some(n)
    ensures var d := After(c, event);
            n < |d.sockets| && d.ws != Some(n) && c.sockets[n].sent <= d.sockets[n].sent &&
            forall f <- d.sockets[n].sent[|c.sockets[n].sent|..] :: !f.UnsubscribeFrom?
  {
    hide After, Can, Sound, Net;
    if event.Opening? {
      OpeningTells(c, event.socket, event.order, n);
    } else {
      OtherFramesGoElsewhere(c, event, n);
    }
  }

  lemma OpeningTells(c: Client, m: nat, order: seq<string>, n: nat)
    requires Sound(c) && Can(c, Opening(m, order)) && n < |c.sockets| && c.ws != Some(n)
    ensures var d := After(c, Opening(m, order));
            n < |d.sockets| && d.ws != Some(n) && c.sockets[n].sent <= d.sockets[n].sent &&
            forall f <- d.sockets[n].sent[|c.sockets[n].sent|..] :: !f.UnsubscribeFrom?
  {
    hide Net, Subscriptions, Opened, CanSend;
    OpenedShape(c, m, order);
    var former, latter := c.sockets[n].sent, After(c, Opening(m, order)).sockets[n].sent;
    if m != n {
      assert latter == former;
    } else {
      var more := latter[|former|..];
      assert more == c.outbox || more == c.outbox + Subscriptions(order);
      forall f | f in more ensures !f.UnsubscribeFrom? {
        assert f in c.outbox || f in Subscriptions(order);
      }
    }
  }

  lemma OtherFramesGoElsewhere(c: Client, event: Event, n: nat)
    requires Sound(c) && Can(c, event) && n < |c.sockets| && c.ws != Some(n) && !event.Opening?
    ensures var d := After(c, event); n < |d.sockets| && d.ws != Some(n) && d.sockets[n].sent == c.sockets[n].sent
  {
    hide Net, Emitted, CanSend, Subscribed, Unsubscribed;
    match event
    case Publishing(channel, payload) => EmittedShape(Connected(c), [PublishOn(channel, payload)]);
    case Asking(channel) => EmittedShape(Connected(c), [PresenceOf(channel)]);
    case Subscribing(channel, handler) => SubscribedShape(c, channel, handler);
    case Unsubscribing(channel, handler) => UnsubscribedShape(c, channel, handler);
    case _ =>
  }

  function Runs(c: Client, events: seq<Event>): Client {
    if events == [] then c else After(Runs(c, events[..|events| - 1]), events[|events| - 1])
  }

  ghost predicate CanAll(c: Client, events: seq<Event>) {
    forall i :: 0 <= i < |events| ==> Can(Runs(c, events[..i]), events[i])
  }

  lemma Prefixes(c: Client, events: seq<Event>)
    requires CanAll(c, events) && events != []
    ensures CanAll(c, events[..|events| - 1]) && Can(Runs(c, events[..|events| - 1]), events[|events| - 1])
    ensures forall i :: 0 <= i < |events| ==> events[..|events| - 1][..i] == events[..i]
  {
    var front := events[..|events| - 1];
    assert forall i :: 0 <= i < |events| ==> front[..i] == events[..i];
  }

  lemma {:induction false} RunIsSound(c: Client, events: seq<Event>)
    requires Sound(c) && CanAll(c, events)
    ensures Sound(Runs(c, events))
  {
    hide Sound, After, Can;
    if events != [] {
      Prefixes(c, events);
      RunIsSound(c, events[..|events| - 1]);
      AfterIsSound(Runs(c, events[..|events| - 1]), events[|events| - 1]);
    }
  }

  lemma {:induction false} NetKeeps(sent: seq<ClientFrame>, more: seq<ClientFrame>)
    requires forall f <- more :: !f.UnsubscribeFrom?
    ensures Net(sent) <= Net(sent + more)
  {
    if more == [] {
      assert sent + more == sent;
    } else {
      var front, last := more[..|more| - 1], more[|more| - 1];
      assert last in more && forall f <- front :: f in more;
      NetKeeps(sent, front);
      assert sent + more == (sent + front) + [last];
      NetAppend(sent + front, last);
    }
  }

  // For good: however long the run goes on, a socket the library has let go of stays let go of, and whatever
  // its peer has been told to subscribe it stays subscribed to.
  lemma {:induction false} OrphansAreForGood(c: Client, events: seq<Event>, n: nat)
    requires Sound(c) && CanAll(c, events) && n < |c.sockets| && c.ws != Some(n)
    ensures var d := Runs(c, events);
            n < |d.sockets| && d.ws != Some(n) && c.sockets[n].sent <= d.sockets[n].sent &&
            Net(c.sockets[n].sent) <= Net(d.sockets[n].sent)
  {
    hide Sound, After, Can, Net;
    if events != [] {
      var front, last := events[..|events| - 1], events[|events| - 1];
      Prefixes(c, events);
      OrphansAreForGood(c, front, n);
      RunIsSound(c, front);
      var d := Runs(c, front);
      OrphanAfter(d, last, n);
      var former, latter := d.sockets[n].sent, After(d, last).sockets[n].sent;
      assert latter == former + latter[|former|..];
      NetKeeps(former, latter[|former|..]);
    }
  }

  ghost predicate NoLateEnd(c: Client, events: seq<Event>) {
    forall i :: 0 <= i < |events| ==> !LateEnd(Runs(c, events[..i]), events[i])
  }

  ghost predicate NeverOrphans(c: Client, events: seq<Event>) {
    forall i :: 0 <= i <= |events| ==> Orphans(Runs(c, events[..i])) == {}
  }

  // Over every run: no socket is ever orphaned if and only if every end is that of the current socket or
  // comes while none is alive.
  lemma {:induction false} NoOrphansIff(c: Client, events: seq<Event>)
    requires Sound(c) && CanAll(c, events) && Orphans(c) == {}
    ensures NeverOrphans(c, events) <==> NoLateEnd(c, events)
  {
    hide Sound, After, Can, Orphans, LateEnd;
    if events == [] {
      assert NeverOrphans(c, events);
    } else {
      var front, last := events[..|events| - 1], events[|events| - 1];
      Prefixes(c, events);
      NoOrphansIff(c, front);
      RunIsSound(c, front);
      OrphansAfter(Runs(c, front), last);
      assert events[..|events|] == events;
      assert NeverOrphans(c, events) <==> NeverOrphans(c, front) && Orphans(Runs(c, events)) == {};
      assert NoLateEnd(c, events) <==> NoLateEnd(c, front) && !LateEnd(Runs(c, front), last);
      if NeverOrphans(c, front) { assert Orphans(Runs(c, front[..|front|])) == {} && front[..|front|] == front; }
    }
  }

  // Then every socket that is open has told its peer exactly the channels with handlers.
  lemma OpenSocketsAreKnown(reconnect: bool, events: seq<Event>, n: nat)
    requires CanAll(Start(reconnect), events) && NoLateEnd(Start(reconnect), events)
    requires ReadyState(Runs(Start(reconnect), events), n) == OPEN
    ensures var d := Runs(Start(reconnect), events);
            d.ws == Some(n) && Net(d.sockets[n].sent) == d.handlers.Keys
  {
    hide Runs, Net, CanAll, NoLateEnd;
    NoOrphansIff(Start(reconnect), events);
    RunIsSound(Start(reconnect), events);
    assert events[..|events|] == events;
    assert n !in Orphans(Runs(Start(reconnect), events));
  }

  // --- No frame is lost, none is sent twice ---

  predicate IsRequest(frame: ClientFrame) { frame.PublishOn? || frame.PresenceOf? }

  // How often a frame has been written to any socket.
  function WrittenTimes(sockets: seq<Link>, frame: ClientFrame): nat {
    if sockets == [] then 0
    else WrittenTimes(sockets[..|sockets| - 1], frame) + multiset(sockets[|sockets| - 1].sent)[frame]
  }

  // ... or is still waiting to be.
  function Held(c: Client, frame: ClientFrame): nat { WrittenTimes(c.sockets, frame) + multiset(c.outbox)[frame] }

  lemma {:induction false} TimesDepend(a: seq<Link>, b: seq<Link>, frame: ClientFrame)
    requires |a| == |b| && forall m :: 0 <= m < |a| ==> multiset(a[m].sent)[frame] == multiset(b[m].sent)[frame]
    ensures WrittenTimes(a, frame) == WrittenTimes(b, frame)
  {
    if a != [] {
      assert forall m :: 0 <= m < |a| - 1 ==> a[..|a| - 1][m] == a[m] && b[..|b| - 1][m] == b[m];
      TimesDepend(a[..|a| - 1], b[..|b| - 1], frame);
    }
  }

  lemma FrontsAgree(a: seq<Link>, b: seq<Link>, n: nat, frame: ClientFrame)
    requires n < |a| == |b| && forall m :: 0 <= m < |a| && m != n ==> multiset(a[m].sent)[frame] == multiset(b[m].sent)[frame]
    ensures var last := |a| - 1;
            forall m :: 0 <= m < last && m != n ==> multiset(a[..last][m].sent)[frame] == multiset(b[..last][m].sent)[frame]
  {
  }

  lemma {:induction false} TimesOneMore(a: seq<Link>, b: seq<Link>, n: nat, more: nat, frame: ClientFrame)
    requires n < |a| == |b| && multiset(b[n].sent)[frame] == multiset(a[n].sent)[frame] + more
    requires forall m :: 0 <= m < |a| && m != n ==> multiset(a[m].sent)[frame] == multiset(b[m].sent)[frame]
    ensures WrittenTimes(b, frame) == WrittenTimes(a, frame) + more
  {
    var last := |a| - 1;
    FrontsAgree(a, b, n, frame);
    if n < last {
      assert a[..last][n] == a[n] && b[..last][n] == b[n];
      TimesOneMore(a[..last], b[..last], n, more, frame);
    } else {
      TimesDepend(a[..last], b[..last], frame);
    }
  }

  lemma {:induction false} NoRequestIn(frames: seq<ClientFrame>, frame: ClientFrame)
    requires IsRequest(frame) && forall f <- frames :: IsTracking(f)
    ensures multiset(frames)[frame] == 0
  {
    assert frame in multiset(frames) ==> frame in frames;
  }

  lemma SubscriptionsTrack(channels: seq<string>)
    ensures forall f <- Subscriptions(channels) :: IsTracking(f)
  {
  }

  // One frame is written or put in line once.
  lemma EmittedHolds(c: Client, one: ClientFrame, frame: ClientFrame)
    requires c.ws.Some? ==> c.ws.value < |c.sockets|
    ensures Held(Emitted(c, [one]), frame) == Held(c, frame) + if one == frame then 1 else 0
  {
    hide Emitted;
    EmittedShape(c, [one]);
    var d := Emitted(c, [one]);
    var more := if one == frame then 1 else 0;
    assert multiset([one])[frame] == more;
    if CanSend(c) {
      TimesOneMore(c.sockets, d.sockets, c.ws.value, more, frame);
    } else {
      TimesDepend(c.sockets, d.sockets, frame);
    }
  }

  // What waited is written once to the socket that opens, and waits no longer.
  lemma OpenedHolds(c: Client, n: nat, order: seq<string>, frame: ClientFrame)
    requires n < |c.sockets| && IsRequest(frame) && (c.ws.Some? ==> c.ws.value < |c.sockets|)
    ensures Held(Opened(c, n, order), frame) == Held(c, frame)
  {
    hide Opened, Subscriptions;
    OpenedShape(c, n, order);
    SubscriptionsTrack(order);
    NoRequestIn(Subscriptions(order), frame);
    TimesOneMore(c.sockets, Opened(c, n, order).sockets, n, multiset(c.outbox)[frame], frame);
  }

  lemma ConnectedHolds(c: Client, frame: ClientFrame)
    ensures Held(Connected(c), frame) == Held(c, frame)
  {
    if !IsLive(c) { assert Connected(c).sockets[..|c.sockets|] == c.sockets; }
  }

  lemma AfterHolds(c: Client, event: Event, frame: ClientFrame)
    requires Sound(c) && Can(c, event) && IsRequest(frame)
    ensures Held(After(c, event), frame) == Held(c, frame)
              + if event.Publishing? && frame == PublishOn(event.channel, event.payload) then 1
                else if event.Asking? && frame == PresenceOf(event.channel) then 1 else 0
  {
    hide Net, Opened, Emitted, Subscribed, Unsubscribed, Connected, Held;
    match event
    case Opening(n, order) => OpenedHolds(c, n, order, frame);
    case Connecting => ConnectedHolds(c, frame);
    case Publishing(channel, payload) =>
      ConnectedHolds(c, frame);
      ConnectedIsSound(c);
      EmittedHolds(Connected(c), PublishOn(channel, payload), frame);
    case Asking(channel) =>
      ConnectedHolds(c, frame);
      ConnectedIsSound(c);
      EmittedHolds(Connected(c), PresenceOf(channel), frame);
    case Subscribing(channel, handler) => SubscribedHolds(c, channel, handler, frame);
    case Unsubscribing(channel, handler) => UnsubscribedHolds(c, channel, handler, frame);
    case Receiving(_) => SameFramesHeld(c, After(c, event), frame);
    case Closing => SameFramesHeld(c, After(c, event), frame);
    case Ending(_) => SameFramesHeld(c, After(c, event), frame);
    case Ended(_) => SameFramesHeld(c, After(c, event), frame);
  }

  lemma SameFramesHeld(c: Client, d: Client, frame: ClientFrame)
    requires d.outbox == c.outbox && |d.sockets| == |c.sockets| && forall m :: 0 <= m < |c.sockets| ==> d.sockets[m].sent == c.sockets[m].sent
    ensures Held(d, frame) == Held(c, frame)
  {
    TimesDepend(c.sockets, d.sockets, frame);
  }

  lemma SubscribedHolds(c: Client, channel: string, handler: nat, frame: ClientFrame)
    requires Sound(c) && IsRequest(frame)
    ensures Held(Subscribed(c, channel, handler), frame) == Held(c, frame)
  {
    hide Net, Emitted, Connected, Held;
    var more := c.(handlers := c.handlers[channel := HandlersOf(c, channel) + {handler}]);
    SameFramesHeld(c, more, frame);
    ConnectedHolds(more, frame);
    ConnectedInRange(more);
    if CanSend(Connected(more)) { EmittedHolds(Connected(more), SubscribeTo(channel), frame); }
  }

  lemma ConnectedInRange(c: Client)
    requires c.ws.Some? ==> c.ws.value < |c.sockets|
    ensures Connected(c).ws.Some? ==> Connected(c).ws.value < |Connected(c).sockets|
  {
  }

  lemma UnsubscribedHolds(c: Client, channel: string, handler: nat, frame: ClientFrame)
    requires Sound(c) && IsRequest(frame)
    ensures Held(Unsubscribed(c, channel, handler), frame) == Held(c, frame)
  {
    hide Net, Emitted, Held;
    var fewer := c.(handlers := c.handlers - {channel}, members := c.members - {channel});
    SameFramesHeld(c, fewer, frame);
    if CanSend(fewer) { EmittedHolds(fewer, UnsubscribeFrom(channel), frame); }
    var rest := HandlersOf(c, channel) - {handler};
    SameFramesHeld(c, c.(handlers := c.handlers[channel := rest]), frame);
  }

  function Requests(events: seq<Event>, frame: ClientFrame): nat {
    if events == [] then 0
    else
      var last := events[|events| - 1];
      Requests(events[..|events| - 1], frame) +
      if last.Publishing? && frame == PublishOn(last.channel, last.payload) then 1
      else if last.Asking? && frame == PresenceOf(last.channel) then 1 else 0
  }

  // Over every run, through whatever openings, ends and reconnections: each publication and each request is
  // written to a socket exactly once, or still waits for one to open.
  lemma {:induction false} RequestsAreKept(reconnect: bool, events: seq<Event>, frame: ClientFrame)
    requires CanAll(Start(reconnect), events) && IsRequest(frame)
    ensures Held(Runs(Start(reconnect), events), frame) == Requests(events, frame)
  {
    hide Sound, After, Can, Held;
    if events == [] {
      NothingHeld(reconnect, frame);
    } else {
      var front, last := events[..|events| - 1], events[|events| - 1];
      Prefixes(Start(reconnect), events);
      RequestsAreKept(reconnect, front, frame);
      StartIsSound(reconnect);
      RunIsSound(Start(reconnect), front);
      AfterHolds(Runs(Start(reconnect), front), last, frame);
    }
  }

  lemma NothingHeld(reconnect: bool, frame: ClientFrame)
    ensures Held(Start(reconnect), frame) == 0
  {
  }

  lemma StartIsSound(reconnect: bool)
    ensures Sound(Start(reconnect))
  {
  }

  // --- Retries ---

  // How many ends have been answered with a retry since a socket last opened.
  function RetriesSince(reconnect: bool, events: seq<Event>): nat {
    if events == [] then 0
    else
      var front, last := events[..|events| - 1], events[|events| - 1];
      if last.Opening? then 0
      else RetriesSince(reconnect, front) + if last.Ended? && reconnect && !ClosedLast(reconnect, front) then 1 else 0
  }

  // The application closed, and nothing has made a socket since.
  predicate ClosedLast(reconnect: bool, events: seq<Event>) {
    events != [] &&
    var front, last := events[..|events| - 1], events[|events| - 1];
    last.Closing? || (ClosedLast(reconnect, front) && |Runs(Start(reconnect), events).sockets| == |Runs(Start(reconnect), front).sockets|)
  }

  // The delay of the next retry is by the number of those since a socket last opened; after a close there is
  // none until a socket is asked for again.
  lemma {:induction false} AttemptsAreRetries(reconnect: bool, events: seq<Event>)
    ensures var c := Runs(Start(reconnect), events);
            c.reconnect == reconnect && c.attempts == RetriesSince(reconnect, events) && (c.closedByUser <==> ClosedLast(reconnect, events))
  {
    hide After;
    if events != [] {
      var front, last := events[..|events| - 1], events[|events| - 1];
      AttemptsAreRetries(reconnect, front);
      AttemptsAfter(Runs(Start(reconnect), front), last);
    }
  }

  lemma AttemptsAfter(c: Client, event: Event)
    ensures var d := After(c, event);
            d.reconnect == c.reconnect &&
            d.attempts == (if event.Opening? then 0 else c.attempts + if event.Ended? && c.reconnect && !c.closedByUser then 1 else 0) &&
            (d.closedByUser <==> event.Closing? || (c.closedByUser && |d.sockets| == |c.sockets|))
  {
    hide Emitted, Opened, Net;
    match event
    case Opening(n, order) => OpenedPlain(c, n, order);
    case Publishing(ch, payload) => EmittedShape(Connected(c), [PublishOn(ch, payload)]);
    case Asking(ch) => EmittedShape(Connected(c), [PresenceOf(ch)]);
    case Subscribing(ch, h) =>
      EmittedShape(Connected(c.(handlers := c.handlers[ch := HandlersOf(c, ch) + {h}])), [SubscribeTo(ch)]);
    case Unsubscribing(ch, h) =>
      EmittedShape(c.(handlers := c.handlers - {ch}, members := c.members - {ch}), [UnsubscribeFrom(ch)]);
    case _ =>
  }

  lemma OpenedPlain(c: Client, n: nat, order: seq<string>)
    ensures var d := Opened(c, n, order);
            d.reconnect == c.reconnect && d.attempts == 0 && d.closedByUser == c.closedByUser && |d.sockets| == |c.sockets| &&
            d.handlers == c.handlers && d.members == c.members
  {
    hide Emitted;
    EmittedShape(Turned(c, n, OPEN).(attempts := 0), Subscriptions(order));
  }

  // --- Handlers ---

  // The last thing done with this handler was to subscribe it.
  predicate Active(events: seq<Event>, channel: string, handler: nat) {
    events != [] &&
    (events[|events| - 1] == Subscribing(channel, handler) ||
     (events[|events| - 1] != Unsubscribing(channel, handler) && Active(events[..|events| - 1], channel, handler)))
  }

  lemma {:induction false} HandlersAreActive(reconnect: bool, events: seq<Event>, channel: string, handler: nat)
    ensures handler in HandlersOf(Runs(Start(reconnect), events), channel) <==> Active(events, channel, handler)
  {
    hide After, HandlersOf;
    if events == [] {
      NoHandlers(reconnect, channel);
    } else {
      HandlersAreActive(reconnect, events[..|events| - 1], channel, handler);
      HandlersAfter(Runs(Start(reconnect), events[..|events| - 1]), events[|events| - 1], channel, handler);
    }
  }

  lemma NoHandlers(reconnect: bool, channel: string)
    ensures HandlersOf(Start(reconnect), channel) == {}
  {
  }

  // Handlers come and go by subscribing and unsubscribing alone; with the last one of a channel goes what was
  // believed of who is there.
  lemma HandlersAfter(c: Client, event: Event, channel: string, handler: nat)
    ensures handler in HandlersOf(After(c, event), channel) <==>
              event == Subscribing(channel, handler) || (handler in HandlersOf(c, channel) && event != Unsubscribing(channel, handler))
    ensures event == Unsubscribing(channel, handler) && channel in c.handlers && HandlersOf(c, channel) <= {handler} ==>
              MembersOf(After(c, event).members, channel) == {}
  {
    hide Emitted, Opened, Net;
    match event
    case Opening(n, order) => OpenedPlain(c, n, order);
    case Publishing(ch, payload) => EmittedShape(Connected(c), [PublishOn(ch, payload)]);
    case Asking(ch) => EmittedShape(Connected(c), [PresenceOf(ch)]);
    case Subscribing(ch, h) =>
      EmittedShape(Connected(c.(handlers := c.handlers[ch := HandlersOf(c, ch) + {h}])), [SubscribeTo(ch)]);
    case Unsubscribing(ch, h) =>
      EmittedShape(c.(handlers := c.handlers - {ch}, members := c.members - {ch}), [UnsubscribeFrom(ch)]);
    case _ =>
  }

  // --- When a late end can happen ---

  // A new socket is made before an earlier one has ended.
  ghost predicate Hasty(c: Client, event: Event) {
    (event.Connecting? || event.Subscribing? || event.Publishing? || event.Asking?) && !IsLive(c) &&
    exists n :: 0 <= n < |c.sockets| && c.sockets[n].readyState <= CLOSING
  }

  // While the current socket is alive, every other one has ended.
  ghost predicate Alone(c: Client) {
    IsLive(c) ==> forall n :: 0 <= n < |c.sockets| && c.sockets[n].readyState <= CLOSING ==> c.ws == Some(n)
  }

  lemma PatientStaysAlone(c: Client, event: Event)
    requires Sound(c) && Can(c, event) && Alone(c) && !Hasty(c, event)
    ensures Alone(After(c, event)) && !LateEnd(c, event)
  {
    hide Net, Subscriptions, Opened, Emitted, CanSend, Subscribed, Unsubscribed;
    match event
    case Opening(n, order) => OpenedShape(c, n, order);
    case Publishing(channel, payload) => EmittedShape(Connected(c), [PublishOn(channel, payload)]);
    case Asking(channel) => EmittedShape(Connected(c), [PresenceOf(channel)]);
    case Subscribing(channel, handler) => SubscribedShape(c, channel, handler);
    case Unsubscribing(channel, handler) => UnsubscribedShape(c, channel, handler);
    case _ =>
  }

  ghost predicate Patient(c: Client, events: seq<Event>) {
    forall i :: 0 <= i < |events| ==> !Hasty(Runs(c, events[..i]), events[i])
  }

  // An application that lets each socket end before it asks for the next one never orphans any.
  lemma {:induction false} PatientRuns(c: Client, events: seq<Event>)
    requires Sound(c) && CanAll(c, events) && Alone(c) && Patient(c, events)
    ensures Alone(Runs(c, events)) && NoLateEnd(c, events)
  {
    hide Sound, After, Can, Alone, Hasty, LateEnd;
    if events != [] {
      var front, last := events[..|events| - 1], events[|events| - 1];
      Prefixes(c, events);
      assert forall i :: 0 <= i < |front| ==> front[i] == events[i];
      PatientRuns(c, front);
      RunIsSound(c, front);
      PatientStaysAlone(Runs(c, front), last);
    }
  }

  // One that does not, does: the earlier socket's end is then a late one.
  lemma HasteOrphans(c: Client, event: Event)
    requires Sound(c) && Can(c, event) && Hasty(c, event)
    ensures exists n :: Can(After(c, event), Ended(n)) && LateEnd(After(c, event), Ended(n))
  {
    hide Net, Subscriptions, Emitted, CanSend, Subscribed;
    var n :| 0 <= n < |c.sockets| && c.sockets[n].readyState <= CLOSING;
    var d := After(c, event);
    match event {
      case Publishing(channel, payload) => EmittedShape(Connected(c), [PublishOn(channel, payload)]);
      case Asking(channel) => EmittedShape(Connected(c), [PresenceOf(channel)]);
      case Subscribing(channel, handler) => SubscribedShape(c, channel, handler);
      case _ =>
    }
    assert Can(d, Ended(n)) && LateEnd(d, Ended(n));
  }

  // Closed and used again at once: two sockets, of which the first has not ended.
  lemma TwoSockets(payload: Payload)
    ensures var c1 := After(Start(true), Subscribing("c", 0));
            var c2 := After(c1, Closing);
            Hasty(c2, Publishing("x", payload)) &&
            After(c2, Publishing("x", payload)) ==
            Client(true, Some(1), [Link(CLOSING, []), Link(CONNECTING, [])], false, 0, [PublishOn("x", payload)], map["c" := {0}], map[])
  {
    var c1 := After(Start(true), Subscribing("c", 0));
    assert {} + {0} == {0};
    assert c1 == Client(true, Some(0), [Link(CONNECTING, [])], false, 0, [], map["c" := {0}], map[]);
    var c2 := After(c1, Closing);
    assert c2 == Client(true, None, [Link(CLOSING, [])], true, 0, [], map["c" := {0}], map[]);
    assert c2.sockets[0].readyState == CLOSING;
  }

  // When the old one's end arrives late, the client forgets the new one, which stays open with subscriptions
  // nobody will ever take back.
  lemma LateEndOrphans(payload: Payload)
    ensures var c2 := After(After(Start(true), Subscribing("c", 0)), Closing);
            var c3 := After(c2, Publishing("x", payload));
            var c4 := After(c3, Opening(1, ["c"]));
            var c5 := After(c4, Ended(0));
            var c6 := After(c5, Unsubscribing("c", 0));
            Hasty(c2, Publishing("x", payload)) && Can(c3, Opening(1, ["c"])) && Can(c4, Ended(0)) && LateEnd(c4, Ended(0)) &&
            c6.handlers == map[] && Orphans(c6) == {1} && Net(c6.sockets[1].sent) == {"c"}
  {
    TwoSockets(payload);
    LateEndFrom(payload);
  }

  lemma LateEndFrom(payload: Payload)
    ensures var c3 := Client(true, Some(1), [Link(CLOSING, []), Link(CONNECTING, [])], false, 0, [PublishOn("x", payload)], map["c" := {0}], map[]);
            var c4 := After(c3, Opening(1, ["c"]));
            var c5 := After(c4, Ended(0));
            var c6 := After(c5, Unsubscribing("c", 0));
            Can(c3, Opening(1, ["c"])) && Can(c4, Ended(0)) && LateEnd(c4, Ended(0)) &&
            c6.handlers == map[] && Orphans(c6) == {1} && Net(c6.sockets[1].sent) == {"c"}
  {
    hide Net, Subscriptions;
    var waiting := [PublishOn("x", payload)];
    var c3 := Client(true, Some(1), [Link(CLOSING, []), Link(CONNECTING, [])], false, 0, waiting, map["c" := {0}], map[]);
    var c4 := After(c3, Opening(1, ["c"]));
    OpenedShape(c3, 1, ["c"]);
    OneSubscription("c", waiting);
    var sent := Subscriptions(["c"]) + waiting;
    assert [] + Subscriptions(["c"]) + waiting == sent;
    assert c4 == Client(true, Some(1), [Link(CLOSING, []), Link(OPEN, sent)], false, 0, [], map["c" := {0}], map[]);
    var c5 := After(c4, Ended(0));
    assert c5 == Client(true, None, [Link(CLOSED, []), Link(OPEN, sent)], false, 1, [], map["c" := {0}], map[]);
    var c6 := After(c5, Unsubscribing("c", 0));
    assert c6.handlers == map[] && c6.sockets == c5.sockets;
  }

  lemma OneSubscription(channel: string, others: seq<ClientFrame>)
    requires forall f <- others :: !IsTracking(f)
    ensures Net(Subscriptions([channel]) + others) == {channel}
  {
    NetOfSubscriptions([], [channel]);
    assert [] + Subscriptions([channel]) == Subscriptions([channel]);
    NetOfOthers(Subscriptions([channel]), others);
  }

  lemma OneMoreMade(made: seq<Socket>, s: Socket)
    requires NoDup(made) && s !in made
    ensures NoDup(made + [s])
  {
  }

  lemma LiveStays(c: Client)
    requires IsLive(c)
    ensures Connected(c) == c
  {
  }

  lemma NewSocket(c: Client)
    requires !IsLive(c)
    ensures Connected(c) ==
            c.(ws := Some(|c.sockets|), sockets := c.sockets + [Link(CONNECTING, [])], closedByUser := false)
  {
  }

  // --- The class ---

  function LinksOf(made: seq<Socket>): (links: seq<Link>)
    reads made
    ensures |links| == |made|
    ensures forall i :: 0 <= i < |made| ==> links[i] == Link(made[i].readyState, made[i].sent)
  {
    if made == [] then []
    else LinksOf(made[..|made| - 1]) + [Link(made[|made| - 1].readyState, made[|made| - 1].sent)]
  }

  class RealtimeClient {
    const reconnect: bool
    const reconnectBaseMs: nat
    var ws: Socket?
    var closedByUser: bool
    var reconnectAttempts: nat
    var outbox: seq<ClientFrame>
    var handlers: map<string, set<nat>>
    var members: Members
    // Every socket made so far, oldest first, and which of them is the current one.
    ghost var made: seq<Socket>
    ghost var current: Option<nat>

    ghost predicate Coherent()
      reads `ws, `made, `current
    {
      NoDup(made) &&
      (if ws == null then current == None else current.Some? && current.value < |made| && made[current.value] == ws)
    }

    ghost function State(): (c: Client)
      reads this, made
    {
      Client(reconnect, current, LinksOf(made), closedByUser, reconnectAttempts, outbox, handlers, members)
    }

    ghost predicate Valid()
      reads this, made
    {
      Coherent() && Sound(State())
    }

    constructor (reconnect: bool, reconnectBaseMs: nat)
      ensures Valid() && made == [] && State() == Start(reconnect) && this.reconnectBaseMs == reconnectBaseMs
    {
      this.reconnect := reconnect;
      this.reconnectBaseMs := reconnectBaseMs;
      ws := null;
      closedByUser := false;
      reconnectAttempts := 0;
      outbox := [];
      handlers := map[];
      members := map[];
      made := [];
      current := None;
    }

    predicate IsOpen()
      reads this, ws
    {
      ws != null && ws.readyState == OPEN
    }

    lemma OpenMeansCanSend()
      requires Coherent()
      ensures IsOpen() == CanSend(State())
    {
      hide LinksOf;
    }

    lemma LiveMeansLive()
      requires Coherent()
      ensures IsLive(State()) <==> ws != null && ws.readyState <= OPEN
    {
      hide LinksOf;
    }

    method Connect()
      requires Coherent()
      modifies this`ws, this`closedByUser, this`made, this`current
      ensures Coherent() && State() == Connected(old(State()))
      ensures old(Valid()) ==> Valid()
      ensures made == old(made) || (ws != null && fresh(ws) && made == old(made) + [ws])
      ensures ws == old(ws) || (ws != null && fresh(ws))
    {
      hide Sound, LinksOf, Connected, CanSend, NoDup, IsLive;
      ghost var c := State();
      if Sound(c) { ConnectedIsSound(c); }
      LiveMeansLive();
      if ws != null && ws.readyState <= OPEN {
        LiveStays(c);
        return;
      }
      NewSocket(c);
      closedByUser := false;
      ws := new Socket();
      OneMoreMade(made, ws);
      made := made + [ws];
      current := Some(|made| - 1);
      assert State().sockets == c.sockets + [Link(CONNECTING, [])];
    }

    method Raw(frame: ClientFrame)
      requires Coherent()
      modifies this`outbox, ws
      ensures Coherent() && State() == Emitted(old(State()), [frame])
    {
      if IsOpen() {
        ws.Send(frame);
      } else {
        outbox := outbox + [frame];
      }
      assert State().sockets == Emitted(old(State()), [frame]).sockets;
    }

    // A socket, current or not, opens.
    method Opened(ghost n: nat, s: Socket, order: seq<string>)
      requires Valid() && n < |made| && made[n] == s && Can(State(), Opening(n, order))
      modifies this`reconnectAttempts, this`outbox, ws, s
      ensures Valid() && State() == After(old(State()), Opening(n, order))
    {
      hide Sound, LinksOf, Emitted, Subscriptions, Written;
      ghost var c := State();
      AfterIsSound(c, Opening(n, order));
      s.readyState := OPEN;
      reconnectAttempts := 0;
      assert State().sockets == Turned(c, n, OPEN).sockets;
      EmittedShape(State(), Subscriptions(order));
      Resubscribe(order);
      assert s.readyState == State().sockets[n].readyState;
      Flush(n, s);
    }

    method Flush(ghost n: nat, s: Socket)
      requires Coherent() && n < |made| && made[n] == s && s.readyState == OPEN
      modifies this`outbox, s
      ensures Coherent() && State() == Written(old(State()), n, old(outbox)).(outbox := [])
    {
      hide LinksOf;
      var pending := outbox;
      outbox := [];
      s.SendAll(pending);
      assert State().sockets == Written(old(State()), n, pending).sockets;
    }

    method Resubscribe(order: seq<string>)
      requires Coherent()
      modifies this`outbox, ws
      ensures Coherent() && State() == Emitted(old(State()), Subscriptions(order))
    {
      hide Emitted, LinksOf, Coherent;
      EmittedNothing(State());
      for i := 0 to |order|
        invariant Coherent() && State() == Emitted(old(State()), Subscriptions(order[..i]))
      {
        assert order[..i + 1][..i] == order[..i];
        EmittedTwice(old(State()), Subscriptions(order[..i]), [SubscribeTo(order[i])]);
        Raw(SubscribeTo(order[i]));
      }
      assert order[..|order|] == order;
    }

    // The peer or the network starts to end a socket; the library is not told yet.
    method Fade(ghost n: nat, s: Socket)
      requires Valid() && n < |made| && made[n] == s && Can(State(), Ending(n))
      modifies s
      ensures Valid() && State() == After(old(State()), Ending(n))
    {
      hide Sound, LinksOf;
      AfterIsSound(State(), Ending(n));
      s.Close();
      assert State().sockets == Turned(old(State()), n, CLOSING).sockets;
    }

    // A socket, current or not, is gone: the client forgets the current one, and plans the next attempt
    // unless the user closed it.
    method Gone(ghost n: nat, s: Socket) returns (retryIn: Option<nat>)
      requires Valid() && n < |made| && made[n] == s && Can(State(), Ended(n))
      modifies this`ws, this`current, this`reconnectAttempts, s
      ensures Valid() && State() == After(old(State()), Ended(n))
      ensures ws == null && s.readyState == CLOSED
      ensures retryIn == if closedByUser || !reconnect then None else Some(Delay(reconnectBaseMs, old(reconnectAttempts)))
    {
      hide Sound, LinksOf;
      AfterIsSound(State(), Ended(n));
      s.readyState := CLOSED;
      ws := null;
      current := None;
      assert State().sockets == Turned(old(State()), n, CLOSED).sockets;
      if closedByUser || !reconnect {
        return None;
      }
      retryIn := Some(Delay(reconnectBaseMs, reconnectAttempts));
      reconnectAttempts := reconnectAttempts + 1;
      assert State().sockets == Turned(old(State()), n, CLOSED).sockets;
    }

    method Subscribe(channel: string, handler: nat)
      requires Valid()
      modifies this`ws, this`closedByUser, this`outbox, this`handlers, this`made, this`current, ws
      ensures Valid() && State() == After(old(State()), Subscribing(channel, handler))
    {
      hide Sound, LinksOf, Emitted, Connected, Coherent, CanSend, IsOpen;
      ghost var c := State();
      AfterIsSound(c, Subscribing(channel, handler));
      var first := channel !in handlers;
      if first {
        handlers := handlers[channel := {}];
      }
      handlers := handlers[channel := handlers[channel] + {handler}];
      assert State() == c.(handlers := c.handlers[channel := HandlersOf(c, channel) + {handler}]);
      Connect();
      OpenMeansCanSend();
      if first && IsOpen() {
        Raw(SubscribeTo(channel));
      }
    }

    // Undoes one subscription.
    method Unsubscribe(channel: string, handler: nat)
      requires Valid()
      modifies this`outbox, this`handlers, this`members, ws
      ensures Valid() && State() == After(old(State()), Unsubscribing(channel, handler))
    {
      hide Sound, LinksOf, Emitted;
      AfterIsSound(State(), Unsubscribing(channel, handler));
      if channel !in handlers {
        return;
      }
      var remaining := handlers[channel] - {handler};
      if remaining == {} {
        handlers := handlers - {channel};
        members := members - {channel};
        if IsOpen() {
          Raw(UnsubscribeFrom(channel));
        }
      } else {
        handlers := handlers[channel := remaining];
      }
    }

    method Publish(channel: string, payload: Payload)
      requires Valid()
      modifies this`ws, this`closedByUser, this`outbox, this`made, this`current, ws
      ensures Valid() && State() == After(old(State()), Publishing(channel, payload))
    {
      hide Sound, LinksOf, Emitted;
      AfterIsSound(State(), Publishing(channel, payload));
      Connect();
      Raw(PublishOn(channel, payload));
    }

    method RequestPresence(channel: string)
      requires Valid()
      modifies this`ws, this`closedByUser, this`outbox, this`made, this`current, ws
      ensures Valid() && State() == After(old(State()), Asking(channel))
    {
      hide Sound, LinksOf, Emitted;
      AfterIsSound(State(), Asking(channel));
      Connect();
      Raw(PresenceOf(channel));
    }

    method Close()
      requires Valid()
      modifies this`ws, this`closedByUser, this`current, ws
      ensures Valid() && State() == After(old(State()), Closing)
      ensures ws == null && closedByUser
    {
      hide Sound, LinksOf;
      ghost var c := State();
      AfterIsSound(c, Closing);
      closedByUser := true;
      if ws != null {
        ws.Close();
        assert State().sockets == (if IsLive(c) then Turned(c, c.ws.value, CLOSING) else c).sockets;
      }
      ws := null;
      current := None;
    }

    method Dispatch(frame: ServerMsg)
      requires Valid()
      modifies this`members
      ensures Valid() && State() == After(old(State()), Receiving(frame))
    {
      hide Sound, LinksOf;
      AfterIsSound(State(), Receiving(frame));
      match frame {
        case Joined(channel, who) =>
          var s := MembersOf(members, channel);
          members := members[channel := s + {who}];
        case Left(channel, who) =>
          var s := MembersOf(members, channel);
          members := members[channel := s - {who}];
        case Presence(channel, present) =>
          members := members[channel := set m | m in present];
        case _ =>
      }
    }
  }
}
