// What one hub command does, as a function of the hub's whole state.
//
// Delivering a frame can find a hung-up queue, and reaping that client broadcasts, which
// delivers again. The work still owed at any moment of such a cascade is an agenda of tasks:
// performing the first task may put new ones in front of the rest, exactly as a nested call
// runs before its caller goes on. HubWorker holds the program's own recursive form.
module HubMachine {
  import opened Wrappers
  import opened Protocol
  import opened Listing
  import P = ChannelPresence
  import S = CoordinatorSessions
  import R = RateLimit

  datatype Client = Client(out: Outbound, principal: string, subscriptions: set<string>,
                           sessions: set<string>, limiter: Option<R.Bucket>)

  datatype Stats = Stats(published: nat, delivered: nat, dropped: nat, connectionsOpened: nat, connectionsClosed: nat,
                         activeClients: nat, activeChannels: nat, activeSessions: nat)

  const NO_STATS := Stats(0, 0, 0, 0, 0, 0, 0, 0)

  // tick counts delivery attempts; it is the clock by which the outside world moves.
  datatype Hub = Hub(clients: map<ClientId, Client>, channels: P.Channels, rooms: S.Rooms, stats: Stats, tick: nat)

  const EMPTY_HUB := Hub(map[], map[], map[], NO_STATS, 0)

  // Configuration, plus everything the hub does not control: what each connection's other end
  // does to its queue before an attempt, and the order in which hash maps are iterated.
  datatype World = World(policy: S.LeavePolicy, joinRate: Option<R.Limit>, move: nat -> Move,
                         clientOrder: IdOrder, channelOrder: NameOrder, sessionOrder: NameOrder)

  datatype Task =
    | Send(id: ClientId, msg: ServerMsg)
    | Announce(channel: string, except: ClientId, msg: ServerMsg)
    | LeaveChannel(id: ClientId, who: Option<string>, channel: string)
    | QuitSession(id: ClientId, session: string)
    | Evict(id: ClientId, session: string)
    | Closing
    | ChannelGauge
    | SessionGauge

  // --- Agendas ---

  function Sends(ids: seq<ClientId>, except: ClientId, msg: ServerMsg): seq<Task> {
    if ids == [] then []
    else (if ids[0] == except then [] else [Send(ids[0], msg)]) + Sends(ids[1..], except, msg)
  }

  function SendSeats(seats: seq<S.Seat>, msg: ServerMsg): seq<Task> {
    if seats == [] then [] else [Send(seats[0].clientId, msg)] + SendSeats(seats[1..], msg)
  }

  function SendElection(seats: seq<S.Seat>, left: ServerMsg, changed: ServerMsg): seq<Task> {
    if seats == [] then []
    else [Send(seats[0].clientId, left), Send(seats[0].clientId, changed)] + SendElection(seats[1..], left, changed)
  }

  function Evictions(seats: seq<S.Seat>, session: string): seq<Task> {
    if seats == [] then [] else [Evict(seats[0].clientId, session)] + Evictions(seats[1..], session)
  }

  function Departures(id: ClientId, who: string, channels: seq<string>): seq<Task> {
    if channels == [] then [] else [LeaveChannel(id, Some(who), channels[0])] + Departures(id, who, channels[1..])
  }

  function Quits(id: ClientId, sessions: seq<string>): seq<Task> {
    if sessions == [] then [] else [QuitSession(id, sessions[0])] + Quits(id, sessions[1..])
  }

  function Subscribers(w: World, h: Hub, channel: string): (ids: seq<ClientId>)
    ensures IsListing(ids, P.Members(h.channels, channel).Keys)
  {
    w.clientOrder(h.tick, P.Members(h.channels, channel).Keys)
  }

  // Everything a departing client still owes: its channels, its sessions, its counters.
  function Farewell(w: World, h: Hub, id: ClientId, c: Client): seq<Task> {
    Departures(id, c.principal, w.channelOrder(h.tick, c.subscriptions))
    + Quits(id, w.sessionOrder(h.tick, c.sessions))
    + [Closing]
  }

  // --- One task ---

  datatype Effect = Effect(hub: Hub, todo: seq<Task>)

  function DropSession(clients: map<ClientId, Client>, id: ClientId, session: string): map<ClientId, Client> {
    if id in clients then clients[id := clients[id].(sessions := clients[id].sessions - {session})] else clients
  }

  function Deliver(w: World, h: Hub, id: ClientId, msg: ServerMsg): Effect {
    if id !in h.clients then Effect(h, [])
    else
      var c := h.clients[id];
      var (out, outcome) := TryDeliver(Disturb(c.out, w.move(h.tick)), msg);
      var later := h.(tick := h.tick + 1);
      match outcome
      case Sent =>
        Effect(later.(clients := h.clients[id := c.(out := out)],
                      stats := h.stats.(delivered := h.stats.delivered + 1)), [])
      case Dropped =>
        Effect(later.(clients := h.clients[id := c.(out := out)],
                      stats := h.stats.(dropped := h.stats.dropped + 1)), [])
      case Closed =>
        Effect(later.(clients := h.clients - {id}), Farewell(w, later, id, c))
  }

  // What those who stay in a session are told of a leave.
  function Told(session: string, outcome: S.LeaveOutcome): seq<Task> {
    var left := MemberLeft(session, outcome.member.slot, outcome.member.principal);
    match outcome.change
    case RoomClosed => Evictions(outcome.remaining, session)
    case Reelected(seat) => SendElection(outcome.remaining, left, CoordinatorChanged(session, seat.slot, seat.principal))
    case NoChange => SendSeats(outcome.remaining, left)
  }

  function Quit(w: World, h: Hub, id: ClientId, session: string): Effect {
    var report := S.LeaveReport(h.rooms, session, id, w.policy);
    if report.None? then Effect(h, [])
    else
      Effect(h.(rooms := S.AfterLeave(h.rooms, session, id, w.policy), clients := DropSession(h.clients, id, session)),
             Told(session, report.value) + [SessionGauge])
  }

  function Perform(w: World, h: Hub, task: Task): Effect {
    match task
    case Send(id, msg) => Deliver(w, h, id, msg)
    case Announce(channel, except, msg) => Effect(h, Sends(Subscribers(w, h, channel), except, msg))
    case LeaveChannel(id, who, channel) =>
      var after := h.(channels := P.Leave(h.channels, channel, id));
      if id in P.Members(h.channels, channel) && who.Some?
      then Effect(after, Sends(Subscribers(w, after, channel), id, Left(channel, who.value)))
      else Effect(after, [])
    case QuitSession(id, session) => Quit(w, h, id, session)
    case Evict(id, session) =>
      Deliver(w, h.(clients := DropSession(h.clients, id, session)), id, SessionClosed(session, "coordinator_left"))
    case Closing =>
      Effect(h.(stats := h.stats.(connectionsClosed := h.stats.connectionsClosed + 1, activeClients := |h.clients|, activeChannels := |h.channels|)), [])
    case ChannelGauge => Effect(h.(stats := h.stats.(activeChannels := |h.channels|)), [])
    case SessionGauge => Effect(h.(stats := h.stats.(activeSessions := |h.rooms|)), [])
  }

  // --- Running an agenda to its end ---

  predicate Expands(task: Task) { task.Announce? || task.LeaveChannel? || task.QuitSession? }

  function Expanding(agenda: seq<Task>): nat {
    if agenda == [] then 0 else (if Expands(agenda[0]) then 1 else 0) + Expanding(agenda[1..])
  }

  lemma {:induction false} ExpandingConcat(a: seq<Task>, b: seq<Task>)
    ensures Expanding(a + b) == Expanding(a) + Expanding(b)
  {
    if a == [] {
      assert a + b == b;
    } else {
      ExpandingConcat(a[1..], b);
      assert (a + b)[1..] == a[1..] + b;
    }
  }

  lemma {:induction false} FrontierTasksDoNotExpand(ids: seq<ClientId>, except: ClientId, msg: ServerMsg)
    ensures Expanding(Sends(ids, except, msg)) == 0
  {
    if ids != [] {
      FrontierTasksDoNotExpand(ids[1..], except, msg);
      if ids[0] != except { assert Sends(ids, except, msg)[1..] == Sends(ids[1..], except, msg); }
      else { assert Sends(ids, except, msg) == Sends(ids[1..], except, msg); }
    }
  }

  lemma {:induction false} SeatTasksDoNotExpand(seats: seq<S.Seat>, left: ServerMsg, changed: ServerMsg, session: string)
    ensures Expanding(SendSeats(seats, left)) == 0
    ensures Expanding(SendElection(seats, left, changed)) == 0
    ensures Expanding(Evictions(seats, session)) == 0
  {
    if seats != [] {
      SeatTasksDoNotExpand(seats[1..], left, changed, session);
      assert SendSeats(seats, left)[1..] == SendSeats(seats[1..], left);
      assert Evictions(seats, session)[1..] == Evictions(seats[1..], session);
      var pair := [Send(seats[0].clientId, left), Send(seats[0].clientId, changed)];
      ExpandingConcat(pair, SendElection(seats[1..], left, changed));
      assert pair[1..][1..] == [];
    }
  }

  lemma ToldDoesNotExpand(session: string, outcome: S.LeaveOutcome)
    ensures Expanding(Told(session, outcome)) == 0
  {
    var left := MemberLeft(session, outcome.member.slot, outcome.member.principal);
    match outcome.change
    case RoomClosed => SeatTasksDoNotExpand(outcome.remaining, left, left, session);
    case Reelected(seat) => SeatTasksDoNotExpand(outcome.remaining, left, CoordinatorChanged(session, seat.slot, seat.principal), session);
    case NoChange => SeatTasksDoNotExpand(outcome.remaining, left, left, session);
  }

  lemma QuitProgress(w: World, h: Hub, id: ClientId, session: string)
    ensures var e := Quit(w, h, id, session); e.hub.clients.Keys == h.clients.Keys && Expanding(e.todo) == 0
  {
    var report := S.LeaveReport(h.rooms, session, id, w.policy);
    assert DropSession(h.clients, id, session).Keys == h.clients.Keys;
    if report.Some? {
      ToldDoesNotExpand(session, report.value);
      ExpandingConcat(Told(session, report.value), [SessionGauge]);
      assert [SessionGauge][1..] == [];
    }
  }

  // Each task either loses a client, or is the only expanding one among itself and what it adds.
  lemma PerformProgress(w: World, h: Hub, task: Task)
    ensures var e := Perform(w, h, task);
            e.hub.clients.Keys < h.clients.Keys ||
            (e.hub.clients.Keys == h.clients.Keys && Expanding(e.todo) == 0 && (Expands(task) || e.todo == []))
  {
    match task
    case Announce(channel, except, msg) => FrontierTasksDoNotExpand(Subscribers(w, h, channel), except, msg);
    case LeaveChannel(id, who, channel) =>
      if who.Some? {
        var after := h.(channels := P.Leave(h.channels, channel, id));
        FrontierTasksDoNotExpand(Subscribers(w, after, channel), id, Left(channel, who.value));
      }
    case QuitSession(id, session) => QuitProgress(w, h, id, session);
    case Evict(id, session) =>
      assert DropSession(h.clients, id, session).Keys == h.clients.Keys;
      DeliverProgress(w, h.(clients := DropSession(h.clients, id, session)), id, SessionClosed(session, "coordinator_left"));
    case Send(id, msg) => DeliverProgress(w, h, id, msg);
    case Closing =>
    case ChannelGauge =>
    case SessionGauge =>
  }

  lemma DeliverProgress(w: World, h: Hub, id: ClientId, msg: ServerMsg)
    ensures var e := Deliver(w, h, id, msg);
            e.hub.clients.Keys < h.clients.Keys || (e.hub.clients.Keys == h.clients.Keys && e.todo == [])
  {
    if id in h.clients {
      assert id !in (h.clients - {id}).Keys;
      var out := TryDeliver(Disturb(h.clients[id].out, w.move(h.tick)), msg).0;
      assert h.clients[id := h.clients[id].(out := out)].Keys == h.clients.Keys;
    }
  }

  // Terminates whatever pattern of queues is hung up: clients only leave, and between two
  // departures the expanding tasks run out.
  function Run(w: World, h: Hub, agenda: seq<Task>): (r: Hub)
    ensures r.clients.Keys <= h.clients.Keys
    decreases h.clients.Keys, Expanding(agenda), |agenda|
  {
    if agenda == [] then h
    else
      var e := Perform(w, h, agenda[0]);
      PerformProgress(w, h, agenda[0]);
      ExpandingConcat(e.todo, agenda[1..]);
      Run(w, e.hub, e.todo + agenda[1..])
  }

  lemma RunFirst(w: World, h: Hub, first: Task, rest: seq<Task>)
    ensures var e := Perform(w, h, first);
            Run(w, h, [first] + rest) == Run(w, e.hub, e.todo + rest)
  {
    assert ([first] + rest)[1..] == rest;
  }

  lemma Reassociate<T>(a: seq<T>, b: seq<T>, c: seq<T>)
    ensures (a + b) + c == a + (b + c)
  {
  }

  lemma RunConcatStep(w: World, h: Hub, e: Effect, task: Task, tail: seq<Task>, rest: seq<Task>)
    requires e == Perform(w, h, task)
    requires Run(w, e.hub, (e.todo + tail) + rest) == Run(w, Run(w, e.hub, e.todo + tail), rest)
    ensures Run(w, h, ([task] + tail) + rest) == Run(w, Run(w, h, [task] + tail), rest)
  {
    Reassociate([task], tail, rest);
    Reassociate(e.todo, tail, rest);
    RunFirst(w, h, task, tail + rest);
    RunFirst(w, h, task, tail);
  }

  // Finishing a first part before going on is what a nested call does.
  lemma {:induction false} RunConcat(w: World, h: Hub, first: seq<Task>, rest: seq<Task>)
    ensures Run(w, h, first + rest) == Run(w, Run(w, h, first), rest)
    decreases h.clients.Keys, Expanding(first), |first|
  {
    if first == [] {
      assert first + rest == rest;
    } else {
      var e := Perform(w, h, first[0]);
      PerformProgress(w, h, first[0]);
      ExpandingConcat(e.todo, first[1..]);
      RunConcat(w, e.hub, e.todo + first[1..], rest);
      RunConcatStep(w, h, e, first[0], first[1..], rest);
      assert first == [first[0]] + first[1..];
    }
  }

  // --- Commands ---

  datatype Command =
    | Connect(id: ClientId, principal: string)
    | Subscribe(id: ClientId, channel: string)
    | Unsubscribe(id: ClientId, channel: string)
    | Publish(id: ClientId, channel: string, payload: Payload)
    | AskPresence(id: ClientId, channel: string)
    | SessionJoin(id: ClientId, session: string)
    | SessionLeave(id: ClientId, session: string)
    | ToCoordinator(id: ClientId, session: string, payload: Payload)
    | ToMembers(id: ClientId, session: string, payload: Payload)
    | Disconnect(id: ClientId)

  function Snapshot(channels: P.Channels, channel: string): seq<string> {
    SortedNames(P.Principals(channels, channel))
  }

  // Charges one join token; unknown clients are refused.
  function Charge(h: Hub, id: ClientId, now: real): (Hub, bool) {
    if id !in h.clients then (h, false)
    else if h.clients[id].limiter.None? then (h, true)
    else
      var (bucket, granted) := R.TryAcquire(h.clients[id].limiter.value, now);
      (h.(clients := h.clients[id := h.clients[id].(limiter := Some(bucket))]), granted)
  }

  const RATE_ERROR := Error("join rate limit exceeded")

  function Infos(seats: seq<S.Seat>): seq<MemberInfo> {
    if seats == [] then [] else [MemberInfo(seats[0].slot, seats[0].principal)] + Infos(seats[1..])
  }

  function SendOthers(seats: seq<S.Seat>, except: ClientId, msg: ServerMsg): seq<Task> {
    if seats == [] then []
    else (if seats[0].clientId == except then [] else [Send(seats[0].clientId, msg)]) + SendOthers(seats[1..], except, msg)
  }

  function PrincipalOf(h: Hub, id: ClientId): Option<string> {
    if id in h.clients then Some(h.clients[id].principal) else None
  }

  // A client already charged enters a channel: snapshot to it, then the news to the others.
  function Admit(h: Hub, id: ClientId, channel: string): Effect
    requires id in h.clients
  {
    var c := h.clients[id];
    var newly := id !in P.Members(h.channels, channel);
    var channels := P.Join(h.channels, channel, id, c.principal);
    Effect(h.(channels := channels, clients := h.clients[id := c.(subscriptions := c.subscriptions + {channel})]),
           [Send(id, Presence(channel, Snapshot(channels, channel)))] + News(newly, channel, id, c.principal))
  }

  function News(newly: bool, channel: string, id: ClientId, principal: string): seq<Task> {
    if newly then [Announce(channel, id, Joined(channel, principal)), ChannelGauge] else [ChannelGauge]
  }

  // A client already charged enters a session.
  function Enroll(h: Hub, id: ClientId, session: string): Effect
    requires id in h.clients
  {
    var c := h.clients[id];
    var report := S.JoinReport(h.rooms, session, id, c.principal);
    Effect(h.(rooms := S.AfterJoin(h.rooms, session, id, c.principal),
              clients := h.clients[id := c.(sessions := c.sessions + {session})]),
           [Send(id, SessionStart(session, report.slot, report.isCoordinator, Infos(report.roster)))]
           + SendOthers(report.roster, id, MemberJoined(session, report.slot, c.principal))
           + [SessionGauge])
  }

  // --- Each command: the state change it makes at once, and the agenda it then runs ---

  function OnConnect(w: World, h: Hub, id: ClientId, principal: string, now: real): Effect {
    var limiter := if w.joinRate.Some? then Some(R.Full(w.joinRate.value, now)) else None;
    var clients := h.clients[id := Client(FRESH, principal, {}, {}, limiter)];
    Effect(h.(clients := clients,
              stats := h.stats.(connectionsOpened := h.stats.connectionsOpened + 1, activeClients := |clients|)), [])
  }

  function OnSubscribe(h: Hub, id: ClientId, channel: string, now: real): Effect {
    var (charged, allowed) := Charge(h, id, now);
    if id !in h.clients then Effect(h, [])
    else if !allowed then Effect(charged, [Send(id, RATE_ERROR)])
    else Admit(charged, id, channel)
  }

  function DropSubscription(clients: map<ClientId, Client>, id: ClientId, channel: string): map<ClientId, Client> {
    if id in clients then clients[id := clients[id].(subscriptions := clients[id].subscriptions - {channel})] else clients
  }

  function OnUnsubscribe(h: Hub, id: ClientId, channel: string): Effect {
    Effect(h.(clients := DropSubscription(h.clients, id, channel)),
           [LeaveChannel(id, PrincipalOf(h, id), channel), ChannelGauge])
  }

  function Published(h: Hub): Hub {
    h.(stats := h.stats.(published := h.stats.published + 1))
  }

  function OnPublish(h: Hub, id: ClientId, channel: string, payload: Payload): Effect {
    Effect(Published(h), [Announce(channel, id, Message(channel, PrincipalOf(h, id), payload))])
  }

  function OnAskPresence(h: Hub, id: ClientId, channel: string): Effect {
    Effect(h, [Send(id, Presence(channel, Snapshot(h.channels, channel)))])
  }

  function OnSessionJoin(h: Hub, id: ClientId, session: string, now: real): Effect {
    var (charged, allowed) := Charge(h, id, now);
    if id !in h.clients then Effect(h, [])
    else if !allowed then Effect(charged, [Send(id, RATE_ERROR)])
    else Enroll(charged, id, session)
  }

  function OnToCoordinator(h: Hub, id: ClientId, session: string, payload: Payload): Effect {
    if !S.IsMember(h.rooms, session, id) then Effect(h, [])
    else
      var seat := h.rooms[session].members[id];
      Effect(Published(h), [Send(h.rooms[session].coordinator, FromMember(session, seat.principal, seat.slot, payload))])
  }

  function OnToMembers(h: Hub, id: ClientId, session: string, payload: Payload): Effect {
    if session !in h.rooms || h.rooms[session].coordinator != id
    then Effect(h, [Send(id, NotCoordinator(session))])
    else Effect(Published(h), SendOthers(S.Roster(h.rooms[session].members), id, FromCoordinator(session, payload)))
  }

  function NotCoordinator(session: string): ServerMsg {
    Error("not the coordinator of session '" + session + "'")
  }

  function OnDisconnect(w: World, h: Hub, id: ClientId): Effect {
    if id !in h.clients then Effect(h, [])
    else Effect(h.(clients := h.clients - {id}), Farewell(w, h, id, h.clients[id]))
  }

  function Begin(w: World, h: Hub, cmd: Command, now: real): Effect {
    match cmd
    case Connect(id, principal) => OnConnect(w, h, id, principal, now)
    case Subscribe(id, channel) => OnSubscribe(h, id, channel, now)
    case Unsubscribe(id, channel) => OnUnsubscribe(h, id, channel)
    case Publish(id, channel, payload) => OnPublish(h, id, channel, payload)
    case AskPresence(id, channel) => OnAskPresence(h, id, channel)
    case SessionJoin(id, session) => OnSessionJoin(h, id, session, now)
    case SessionLeave(id, session) => Effect(h, [QuitSession(id, session)])
    case ToCoordinator(id, session, payload) => OnToCoordinator(h, id, session, payload)
    case ToMembers(id, session, payload) => OnToMembers(h, id, session, payload)
    case Disconnect(id) => OnDisconnect(w, h, id)
  }

  function Step(w: World, h: Hub, cmd: Command, now: real): Hub {
    var e := Begin(w, h, cmd, now);
    Run(w, e.hub, e.todo)
  }
}
