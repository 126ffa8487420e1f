// The hub's worker as the program runs it: methods that call each other recursively and update the
// client table, the presence map and the sessions in place, each proved against the agenda machine.
module HubWorker {
  import opened Wrappers
  import opened Protocol
  import opened Listing
  import opened HubMachine
  import P = ChannelPresence
  import S = CoordinatorSessions
  import R = RateLimit

  // --- How a nested call or a loop uses up an agenda ---

  lemma RunOne(w: World, h: Hub, task: Task)
    ensures var e := Perform(w, h, task); Run(w, h, [task]) == Run(w, e.hub, e.todo)
  {
    var e := Perform(w, h, task);
    RunFirst(w, h, task, []);
    assert [task] + [] == [task] && e.todo + [] == e.todo;
  }

  lemma RunNothing(w: World, h: Hub)
    ensures Run(w, h, []) == h
  {
  }

  // Nothing is done about a client that is not registered.
  lemma SendToNobody(w: World, h: Hub, id: ClientId, msg: ServerMsg)
    requires id !in h.clients
    ensures Run(w, h, [Send(id, msg)]) == h
  {
    RunOne(w, h, Send(id, msg));
  }

  lemma RunClosing(w: World, h: Hub)
    ensures Run(w, h, [Closing]) == h.(stats := h.stats.(connectionsClosed := h.stats.connectionsClosed + 1, activeClients := |h.clients|, activeChannels := |h.channels|))
  {
    RunOne(w, h, Closing);
  }

  lemma QuitBegins(w: World, h: Hub, id: ClientId, session: string)
    ensures var report := S.LeaveReport(h.rooms, session, id, w.policy);
            Run(w, h, [QuitSession(id, session)])
              == if report.None? then h
                 else Run(w, h.(rooms := S.AfterLeave(h.rooms, session, id, w.policy), clients := DropSession(h.clients, id, session)),
                          Told(session, report.value) + [SessionGauge])
    ensures S.LeaveReport(h.rooms, session, id, w.policy).None? ==> S.AfterLeave(h.rooms, session, id, w.policy) == h.rooms
  {
    RunOne(w, h, QuitSession(id, session));
  }

  lemma SendsStep(w: World, h: Hub, targets: seq<ClientId>, except: ClientId, msg: ServerMsg)
    requires targets != []
    ensures Run(w, h, Sends(targets, except, msg))
              == Run(w, if targets[0] == except then h else Run(w, h, [Send(targets[0], msg)]), Sends(targets[1..], except, msg))
  {
    if targets[0] != except {
      RunConcat(w, h, [Send(targets[0], msg)], Sends(targets[1..], except, msg));
    } else {
      assert Sends(targets, except, msg) == Sends(targets[1..], except, msg);
    }
  }

  lemma SendOthersStep(w: World, h: Hub, seats: seq<S.Seat>, except: ClientId, msg: ServerMsg, rest: seq<Task>)
    requires seats != []
    ensures Run(w, h, SendOthers(seats, except, msg) + rest)
              == Run(w, if seats[0].clientId == except then h else Run(w, h, [Send(seats[0].clientId, msg)]),
                     SendOthers(seats[1..], except, msg) + rest)
  {
    var later := SendOthers(seats[1..], except, msg);
    if seats[0].clientId != except {
      var first := [Send(seats[0].clientId, msg)];
      Reassociate(first, later, rest);
      RunConcat(w, h, first, later + rest);
    } else {
      assert SendOthers(seats, except, msg) == later;
    }
  }

  lemma SendSeatsStep(w: World, h: Hub, seats: seq<S.Seat>, msg: ServerMsg, rest: seq<Task>)
    requires seats != []
    ensures Run(w, h, SendSeats(seats, msg) + rest)
              == Run(w, Run(w, h, [Send(seats[0].clientId, msg)]), SendSeats(seats[1..], msg) + rest)
  {
    var first, later := [Send(seats[0].clientId, msg)], SendSeats(seats[1..], msg);
    Reassociate(first, later, rest);
    RunConcat(w, h, first, later + rest);
  }

  lemma SendElectionStep(w: World, h: Hub, seats: seq<S.Seat>, left: ServerMsg, changed: ServerMsg, rest: seq<Task>)
    requires seats != []
    ensures var to := seats[0].clientId;
            Run(w, h, SendElection(seats, left, changed) + rest)
              == Run(w, Run(w, Run(w, h, [Send(to, left)]), [Send(to, changed)]), SendElection(seats[1..], left, changed) + rest)
  {
    var a, b, later := [Send(seats[0].clientId, left)], [Send(seats[0].clientId, changed)], SendElection(seats[1..], left, changed);
    assert SendElection(seats, left, changed) + rest == a + (b + (later + rest));
    RunConcat(w, h, a, b + (later + rest));
    RunConcat(w, Run(w, h, a), b, later + rest);
  }

  lemma EvictionsStep(w: World, h: Hub, seats: seq<S.Seat>, session: string, rest: seq<Task>)
    requires seats != []
    ensures var to := seats[0].clientId;
            Run(w, h, Evictions(seats, session) + rest)
              == Run(w, Run(w, h.(clients := DropSession(h.clients, to, session)), [Send(to, SessionClosed(session, "coordinator_left"))]),
                     Evictions(seats[1..], session) + rest)
  {
    var first, later := [Evict(seats[0].clientId, session)], Evictions(seats[1..], session);
    Reassociate(first, later, rest);
    RunConcat(w, h, first, later + rest);
    RunOne(w, h, first[0]);
    RunOne(w, h.(clients := DropSession(h.clients, seats[0].clientId, session)), Send(seats[0].clientId, SessionClosed(session, "coordinator_left")));
  }

  lemma DeparturesStep(w: World, h: Hub, id: ClientId, who: string, channels: seq<string>, rest: seq<Task>)
    requires channels != []
    ensures Run(w, h, Departures(id, who, channels) + rest)
              == Run(w, Run(w, h, [LeaveChannel(id, Some(who), channels[0])]), Departures(id, who, channels[1..]) + rest)
  {
    var first, later := [LeaveChannel(id, Some(who), channels[0])], Departures(id, who, channels[1..]);
    Reassociate(first, later, rest);
    RunConcat(w, h, first, later + rest);
  }

  lemma QuitsStep(w: World, h: Hub, id: ClientId, sessions: seq<string>, rest: seq<Task>)
    requires sessions != []
    ensures Run(w, h, Quits(id, sessions) + rest)
              == Run(w, Run(w, h, [QuitSession(id, sessions[0])]), Quits(id, sessions[1..]) + rest)
  {
    var first, later := [QuitSession(id, sessions[0])], Quits(id, sessions[1..]);
    Reassociate(first, later, rest);
    RunConcat(w, h, first, later + rest);
  }

  // A member's leave is the announcement of it to those still there.
  lemma LeaveIsAnnounce(w: World, h: Hub, id: ClientId, who: Option<string>, channel: string)
    ensures var after := h.(channels := P.Leave(h.channels, channel, id));
            Run(w, h, [LeaveChannel(id, who, channel)])
              == if id in P.Members(h.channels, channel) && who.Some?
                 then Run(w, after, [Announce(channel, id, Left(channel, who.value))]) else after
  {
    RunOne(w, h, LeaveChannel(id, who, channel));
    if who.Some? {
      RunOne(w, h.(channels := P.Leave(h.channels, channel, id)), Announce(channel, id, Left(channel, who.value)));
    }
  }

  // Sorted, the principals present can be listed in only one way.
  lemma SnapshotIsUnique(channels: P.Channels, channel: string, members: seq<string>)
    requires IsListing(members, P.Principals(channels, channel)) && SortedBy(members, NameLe)
    ensures members == Snapshot(channels, channel)
  {
    OrdersAreTotal();
    SortedUnique(members, Snapshot(channels, channel), P.Principals(channels, channel), NameLe);
  }

  lemma AdmitRuns(w: World, h: Hub, id: ClientId, channel: string, newly: bool, who: string)
    ensures var snapshot := Send(id, Presence(channel, Snapshot(h.channels, channel)));
            var greeted := Run(w, h, [snapshot]);
            Run(w, h, [snapshot] + News(newly, channel, id, who))
              == Run(w, if newly then Run(w, greeted, [Announce(channel, id, Joined(channel, who))]) else greeted, [ChannelGauge])
  {
    var snapshot := Send(id, Presence(channel, Snapshot(h.channels, channel)));
    RunConcat(w, h, [snapshot], News(newly, channel, id, who));
    if newly {
      var announce := Announce(channel, id, Joined(channel, who));
      assert News(newly, channel, id, who) == [announce] + [ChannelGauge];
      RunConcat(w, Run(w, h, [snapshot]), [announce], [ChannelGauge]);
    }
  }

  lemma RelayBegins(h: Hub, id: ClientId, session: string, payload: Payload, after: Hub, todo: seq<Task>)
    requires if session in h.rooms && h.rooms[session].coordinator == id
             then after == Published(h) && todo == SendOthers(S.Roster(h.rooms[session].members), id, FromCoordinator(session, payload))
             else after == h && todo == [Send(id, NotCoordinator(session))]
    ensures OnToMembers(h, id, session, payload) == Effect(after, todo)
  {
  }

  // An attempt on a live client queues the frame, sheds it, or finds the client gone.
  lemma QueuedOrShed(w: World, h: Hub, id: ClientId, msg: ServerMsg, after: Hub)
    requires id in h.clients
    requires var c := h.clients[id];
             var (out, outcome) := TryDeliver(Disturb(c.out, w.move(h.tick)), msg);
             !outcome.Closed? && after == Hub(h.clients[id := c.(out := out)], h.channels, h.rooms,
               if outcome.Sent? then h.stats.(delivered := h.stats.delivered + 1) else h.stats.(dropped := h.stats.dropped + 1), h.tick + 1)
    ensures Run(w, h, [Send(id, msg)]) == after
  {
    RunOne(w, h, Send(id, msg));
  }

  lemma FoundGone(w: World, h: Hub, id: ClientId, msg: ServerMsg)
    requires id in h.clients && TryDeliver(Disturb(h.clients[id].out, w.move(h.tick)), msg).1.Closed?
    ensures var e := OnDisconnect(w, h.(tick := h.tick + 1), id); Run(w, h, [Send(id, msg)]) == Run(w, e.hub, e.todo)
  {
    var e := OnDisconnect(w, h.(tick := h.tick + 1), id);
    assert Perform(w, h, Send(id, msg)) == e;
    RunFirst(w, h, Send(id, msg), []);
    assert e.todo + [] == e.todo;
  }

  class Worker {
    const world: World
    const presence: P.Presence
    const sessions: S.Sessions
    var clients: map<ClientId, Client>
    var stats: Stats
    var tick: nat

    // The whole state, as the specification sees it.
    ghost function State(): Hub
      reads this, presence, sessions
    {
      Hub(clients, presence.channels, sessions.rooms, stats, tick)
    }

    ghost predicate Valid()
      reads sessions
    {
      S.RoomsOk(sessions.rooms)
    }

    constructor (w: World)
      ensures world == w && State() == EMPTY_HUB && Valid() && fresh(presence) && fresh(sessions)
    {
      world := w;
      presence := new P.Presence();
      sessions := new S.Sessions();
      clients := map[];
      stats := NO_STATS;
      tick := 0;
    }

    method RefreshChannelGauge()
      modifies this`stats
      ensures State() == Run(world, old(State()), [ChannelGauge])
    {
      RunOne(world, State(), ChannelGauge);
      stats := stats.(activeChannels := presence.ChannelCount());
    }

    method RefreshSessionGauge()
      modifies this`stats
      ensures State() == Run(world, old(State()), [SessionGauge])
    {
      RunOne(world, State(), SessionGauge);
      stats := stats.(activeSessions := |sessions.rooms|);
    }

    // Tries a live client's queue; nothing but the clock moves when the client turns out to be gone.
    method Attempt(id: ClientId, msg: ServerMsg) returns (outcome: Delivery)
      requires id in clients
      modifies this
      ensures outcome == TryDeliver(Disturb(old(clients)[id].out, world.move(old(tick))), msg).1
      ensures State() == if outcome.Closed? then old(State()).(tick := old(tick) + 1) else Run(world, old(State()), [Send(id, msg)])
    {
      ghost var before := State();
      var cs := clients[id];
      var (out, result) := TryDeliver(Disturb(cs.out, world.move(tick)), msg);
      outcome := result;
      tick := tick + 1;
      match outcome {
        case Sent =>
          clients := clients[id := cs.(out := out)];
          stats := stats.(delivered := stats.delivered + 1);
          QueuedOrShed(world, before, id, msg, State());
        case Dropped =>
          clients := clients[id := cs.(out := out)];
          stats := stats.(dropped := stats.dropped + 1);
          QueuedOrShed(world, before, id, msg, State());
        case Closed =>
      }
    }

    // One frame to one client, accounting for the outcome; a client that hung up is reaped here.
    method Deliver(id: ClientId, msg: ServerMsg)
      requires Valid()
      modifies this, presence, sessions
      ensures Valid() && State() == Run(world, old(State()), [Send(id, msg)])
      decreases clients.Keys, 1
    {
      hide Run;
      if id !in clients {
        SendToNobody(world, State(), id, msg);
        return;
      }
      ghost var before := State();
      var outcome := Attempt(id, msg);
      if outcome.Closed? {
        FoundGone(world, before, id, msg);
        Disconnect(id);
      }
    }

    method Disconnect(id: ClientId)
      requires Valid()
      modifies this, presence, sessions
      ensures Valid()
      ensures var e := OnDisconnect(world, old(State()), id); State() == Run(world, e.hub, e.todo)
      decreases clients.Keys, 0
    {
      hide Run;
      if id !in clients {
        RunNothing(world, State());
        return;
      }
      var cs := clients[id];
      ghost var e := OnDisconnect(world, State(), id);
      ghost var final := Run(world, e.hub, e.todo);
      var channels := world.channelOrder(tick, cs.subscriptions);
      var rooms := world.sessionOrder(tick, cs.sessions);
      Reassociate(Departures(id, cs.principal, channels), Quits(id, rooms), [Closing]);
      clients := clients - {id};
      assert id !in clients && clients.Keys < old(clients).Keys;
      LeaveChannels(id, cs.principal, channels, Quits(id, rooms) + [Closing], final);
      LeaveSessions(id, rooms, [Closing], final);
      RunClosing(world, State());
      stats := stats.(connectionsClosed := stats.connectionsClosed + 1);
      stats := stats.(activeClients := |clients|);
      stats := stats.(activeChannels := presence.ChannelCount());
    }

    // Announces a departure on each of the channels.
    method LeaveChannels(id: ClientId, who: string, channels: seq<string>, ghost rest: seq<Task>, ghost final: Hub)
      requires Valid()
      requires final == Run(world, State(), Departures(id, who, channels) + rest)
      modifies this, presence, sessions
      ensures Valid() && clients.Keys <= old(clients.Keys)
      ensures final == Run(world, State(), rest)
      decreases clients.Keys, 4
    {
      hide Run;
      for i := 0 to |channels|
        invariant Valid() && clients.Keys <= old(clients.Keys)
        invariant final == Run(world, State(), Departures(id, who, channels[i..]) + rest)
      {
        DeparturesStep(world, State(), id, who, channels[i..], rest);
        assert channels[i..][1..] == channels[i + 1..];
        Forget(id, Some(who), channels[i]);
      }
      assert Departures(id, who, channels[|channels|..]) + rest == rest;
    }

    method LeaveSessions(id: ClientId, rooms: seq<string>, ghost rest: seq<Task>, ghost final: Hub)
      requires Valid()
      requires final == Run(world, State(), Quits(id, rooms) + rest)
      modifies this, presence, sessions
      ensures Valid() && clients.Keys <= old(clients.Keys)
      ensures final == Run(world, State(), rest)
      decreases clients.Keys, 3
    {
      hide Run;
      for i := 0 to |rooms|
        invariant Valid() && clients.Keys <= old(clients.Keys)
        invariant final == Run(world, State(), Quits(id, rooms[i..]) + rest)
      {
        QuitsStep(world, State(), id, rooms[i..], rest);
        assert rooms[i..][1..] == rooms[i + 1..];
        LeaveSession(id, rooms[i]);
      }
      assert Quits(id, rooms[|rooms|..]) + rest == rest;
    }

    method BroadcastExcept(channel: string, except: ClientId, msg: ServerMsg)
      requires Valid()
      modifies this, presence, sessions
      ensures Valid() && State() == Run(world, old(State()), [Announce(channel, except, msg)])
      decreases clients.Keys, 2
    {
      hide Run;
      RunOne(world, State(), Announce(channel, except, msg));
      var targets := presence.Subscribers(channel, tick, world.clientOrder);
      var i := 0;
      while i < |targets|
        invariant 0 <= i <= |targets|
        invariant Valid() && clients.Keys <= old(clients).Keys
        invariant Run(world, State(), Sends(targets[i..], except, msg)) == Run(world, old(State()), [Announce(channel, except, msg)])
      {
        SendsStep(world, State(), targets[i..], except, msg);
        assert targets[i..][1..] == targets[i + 1..];
        if targets[i] != except {
          Deliver(targets[i], msg);
        }
        i := i + 1;
      }
      assert Sends(targets[i..], except, msg) == [];
      RunNothing(world, State());
    }

    // Removes a client from a channel and, if it had been a member under a known name, tells the rest.
    method Forget(id: ClientId, who: Option<string>, channel: string)
      requires Valid()
      modifies this, presence, sessions
      ensures Valid() && State() == Run(world, old(State()), [LeaveChannel(id, who, channel)])
      decreases clients.Keys, 3
    {
      hide Run;
      LeaveIsAnnounce(world, State(), id, who, channel);
      var removed := presence.LeaveChannel(channel, id);
      if removed && who.Some? {
        BroadcastExcept(channel, id, Left(channel, who.value));
      }
    }

    // The name is that of the live client, if it still is one.
    method Depart(id: ClientId, channel: string)
      requires Valid()
      modifies this, presence, sessions
      ensures Valid() && State() == Run(world, old(State()), [LeaveChannel(id, PrincipalOf(old(State()), id), channel)])
    {
      hide Run;
      Forget(id, if id in clients then Some(clients[id].principal) else None, channel);
    }

    method LeaveSession(id: ClientId, session: string)
      requires Valid()
      modifies this, presence, sessions
      ensures Valid() && State() == Run(world, old(State()), [QuitSession(id, session)])
      decreases clients.Keys, 2
    {
      hide Run, S.AfterLeave, S.LeaveReport;
      ghost var final := Run(world, State(), [QuitSession(id, session)]);
      QuitBegins(world, State(), id, session);
      var report := sessions.LeaveSession(session, id, world.policy);
      if report.None? {
        return;
      }
      var outcome := report.value;
      clients := DropSession(clients, id, session);
      TellSession(session, outcome, final);
      RefreshSessionGauge();
    }

    // Tells those who stay what the leave did: closed, re-elected, or simply one member fewer.
    method TellSession(session: string, outcome: S.LeaveOutcome, ghost final: Hub)
      requires Valid()
      requires final == Run(world, State(), Told(session, outcome) + [SessionGauge])
      modifies this, presence, sessions
      ensures Valid() && clients.Keys <= old(clients.Keys)
      ensures final == Run(world, State(), [SessionGauge])
      decreases clients.Keys, 2, 0
    {
      hide Run;
      var left := MemberLeft(session, outcome.member.slot, outcome.member.principal);
      var others := outcome.remaining;
      match outcome.change {
        case RoomClosed =>
          for i := 0 to |others|
            invariant Valid() && clients.Keys <= old(clients.Keys)
            invariant Run(world, State(), Evictions(others[i..], session) + [SessionGauge]) == final
          {
            EvictionsStep(world, State(), others[i..], session, [SessionGauge]);
            assert others[i..][1..] == others[i + 1..];
            clients := DropSession(clients, others[i].clientId, session);
            Deliver(others[i].clientId, SessionClosed(session, "coordinator_left"));
          }
          assert Evictions(others[|others|..], session) + [SessionGauge] == [SessionGauge];
        case Reelected(seat) =>
          var changed := CoordinatorChanged(session, seat.slot, seat.principal);
          for i := 0 to |others|
            invariant Valid() && clients.Keys <= old(clients.Keys)
            invariant Run(world, State(), SendElection(others[i..], left, changed) + [SessionGauge]) == final
          {
            SendElectionStep(world, State(), others[i..], left, changed, [SessionGauge]);
            assert others[i..][1..] == others[i + 1..];
            Deliver(others[i].clientId, left);
            Deliver(others[i].clientId, changed);
          }
          assert SendElection(others[|others|..], left, changed) + [SessionGauge] == [SessionGauge];
        case NoChange =>
          for i := 0 to |others|
            invariant Valid() && clients.Keys <= old(clients.Keys)
            invariant Run(world, State(), SendSeats(others[i..], left) + [SessionGauge]) == final
          {
            SendSeatsStep(world, State(), others[i..], left, [SessionGauge]);
            assert others[i..][1..] == others[i + 1..];
            Deliver(others[i].clientId, left);
          }
          assert SendSeats(others[|others|..], left) + [SessionGauge] == [SessionGauge];
      }
    }

    // --- Commands ---

    method Connect(id: ClientId, principal: string, now: real)
      modifies this
      ensures State() == OnConnect(world, old(State()), id, principal, now).hub
    {
      var limiter := if world.joinRate.Some? then Some(R.Full(world.joinRate.value, now)) else None;
      clients := clients[id := Client(FRESH, principal, {}, {}, limiter)];
      stats := stats.(connectionsOpened := stats.connectionsOpened + 1);
      stats := stats.(activeClients := |clients|);
    }

    // Charges one join token; a client over its rate is told so, an unknown one is ignored.
    method AllowJoin(id: ClientId, now: real) returns (allowed: bool)
      requires Valid()
      modifies this, presence, sessions
      ensures Valid() && allowed == Charge(old(State()), id, now).1
      ensures var charged := Charge(old(State()), id, now).0;
              State() == if id in charged.clients && !allowed then Run(world, charged, [Send(id, RATE_ERROR)]) else charged
    {
      hide Run;
      if id !in clients {
        return false;
      }
      var cs := clients[id];
      allowed := true;
      if cs.limiter.Some? {
        var (bucket, granted) := R.TryAcquire(cs.limiter.value, now);
        allowed := granted;
        clients := clients[id := cs.(limiter := Some(bucket))];
      }
      if !allowed {
        Deliver(id, RATE_ERROR);
      }
    }

    method SubscribeTo(id: ClientId, channel: string, now: real)
      requires Valid()
      modifies this, presence, sessions
      ensures Valid()
      ensures var e := OnSubscribe(old(State()), id, channel, now); State() == Run(world, e.hub, e.todo)
    {
      hide Run;
      var allowed := AllowJoin(id, now);
      if !allowed {
        RunNothing(world, State());
        return;
      }
      ghost var e := Admit(State(), id, channel);
      var who := clients[id].principal;
      var newly := presence.JoinChannel(channel, id, who);
      var cs := clients[id];
      clients := clients[id := cs.(subscriptions := cs.subscriptions + {channel})];
      ghost var entered := State();
      var snapshot := presence.Snapshot(channel);
      SnapshotIsUnique(presence.channels, channel, snapshot);
      AdmitRuns(world, entered, id, channel, newly, who);
      Deliver(id, Presence(channel, snapshot));
      if newly {
        BroadcastExcept(channel, id, Joined(channel, who));
      }
      RefreshChannelGauge();
    }

    method UnsubscribeFrom(id: ClientId, channel: string)
      requires Valid()
      modifies this, presence, sessions
      ensures Valid()
      ensures var e := OnUnsubscribe(old(State()), id, channel); State() == Run(world, e.hub, e.todo)
    {
      hide Run;
      ghost var e := OnUnsubscribe(State(), id, channel);
      if id in clients {
        var cs := clients[id];
        clients := clients[id := cs.(subscriptions := cs.subscriptions - {channel})];
      }
      assert e.todo == [e.todo[0]] + [ChannelGauge];
      RunConcat(world, State(), [e.todo[0]], [ChannelGauge]);
      Depart(id, channel);
      RefreshChannelGauge();
    }

    method PublishTo(id: ClientId, channel: string, payload: Payload)
      requires Valid()
      modifies this, presence, sessions
      ensures Valid()
      ensures var e := OnPublish(old(State()), id, channel, payload); State() == Run(world, e.hub, e.todo)
    {
      hide Run;
      stats := stats.(published := stats.published + 1);
      var from := if id in clients then Some(clients[id].principal) else None;
      BroadcastExcept(channel, id, Message(channel, from, payload));
    }

    method ShowPresence(id: ClientId, channel: string)
      requires Valid()
      modifies this, presence, sessions
      ensures Valid()
      ensures var e := OnAskPresence(old(State()), id, channel); State() == Run(world, e.hub, e.todo)
    {
      hide Run;
      var members := presence.Snapshot(channel);
      SnapshotIsUnique(presence.channels, channel, members);
      Deliver(id, Presence(channel, members));
    }

    method JoinSession(id: ClientId, session: string, now: real)
      requires Valid()
      modifies this, presence, sessions
      ensures Valid()
      ensures var e := OnSessionJoin(old(State()), id, session, now); State() == Run(world, e.hub, e.todo)
    {
      hide Run;
      var allowed := AllowJoin(id, now);
      if !allowed {
        RunNothing(world, State());
        return;
      }
      ghost var e := Enroll(State(), id, session);
      ghost var final := Run(world, e.hub, e.todo);
      var who := clients[id].principal;
      var outcome := sessions.JoinSession(session, id, who);
      var cs := clients[id];
      clients := clients[id := cs.(sessions := cs.sessions + {session})];
      var start := SessionStart(session, outcome.slot, outcome.isCoordinator, Infos(outcome.roster));
      var news := MemberJoined(session, outcome.slot, who);
      Reassociate([Send(id, start)], SendOthers(outcome.roster, id, news), [SessionGauge]);
      RunConcat(world, State(), [Send(id, start)], SendOthers(outcome.roster, id, news) + [SessionGauge]);
      Deliver(id, start);
      TellOthers(outcome.roster, id, news, [SessionGauge], final);
      RefreshSessionGauge();
    }

    method TellOthers(seats: seq<S.Seat>, except: ClientId, msg: ServerMsg, ghost rest: seq<Task>, ghost final: Hub)
      requires Valid()
      requires final == Run(world, State(), SendOthers(seats, except, msg) + rest)
      modifies this, presence, sessions
      ensures Valid() && final == Run(world, State(), rest)
    {
      hide Run;
      for i := 0 to |seats|
        invariant Valid()
        invariant final == Run(world, State(), SendOthers(seats[i..], except, msg) + rest)
      {
        SendOthersStep(world, State(), seats[i..], except, msg, rest);
        assert seats[i..][1..] == seats[i + 1..];
        if seats[i].clientId != except {
          Deliver(seats[i].clientId, msg);
        }
      }
      assert SendOthers(seats[|seats|..], except, msg) + rest == rest;
    }

    method RelayToCoordinator(id: ClientId, session: string, payload: Payload)
      requires Valid()
      modifies this, presence, sessions
      ensures Valid()
      ensures var e := OnToCoordinator(old(State()), id, session, payload); State() == Run(world, e.hub, e.todo)
    {
      hide Run;
      if !S.IsMember(sessions.rooms, session, id) {
        RunNothing(world, State());
        return;
      }
      var seat := sessions.rooms[session].members[id];
      var coordinator := sessions.rooms[session].coordinator;
      stats := stats.(published := stats.published + 1);
      Deliver(coordinator, FromMember(session, seat.principal, seat.slot, payload));
    }

    method RelayToMembers(id: ClientId, session: string, payload: Payload)
      requires Valid()
      modifies this, presence, sessions
      ensures Valid()
      ensures var e := OnToMembers(old(State()), id, session, payload); State() == Run(world, e.hub, e.todo)
    {
      hide Run;
      ghost var before := State();
      if session !in sessions.rooms || sessions.rooms[session].coordinator != id {
        RelayBegins(before, id, session, payload, before, [Send(id, NotCoordinator(session))]);
        Deliver(id, NotCoordinator(session));
        return;
      }
      ghost var roster := S.Roster(sessions.rooms[session].members);
      stats := stats.(published := stats.published + 1);
      RelayBegins(before, id, session, payload, State(), SendOthers(roster, id, FromCoordinator(session, payload)));
      TellMembers(id, session, FromCoordinator(session, payload));
    }

    method TellMembers(id: ClientId, session: string, msg: ServerMsg)
      requires Valid() && session in sessions.rooms
      modifies this, presence, sessions
      ensures Valid()
      ensures State() == Run(world, old(State()), SendOthers(S.Roster(old(sessions.rooms)[session].members), id, msg))
    {
      hide Run, S.Roster;
      var roster := S.Roster(sessions.rooms[session].members);
      ghost var tasks := SendOthers(roster, id, msg);
      assert tasks + [] == tasks;
      TellOthers(roster, id, msg, [], Run(world, State(), tasks));
      RunNothing(world, State());
    }

    // One turn of the hub's loop: whatever it receives, what it does is the specified step.
    method Handle(cmd: Command, now: real)
      requires Valid()
      modifies this, presence, sessions
      ensures Valid() && State() == Step(world, old(State()), cmd, now)
    {
      hide Run;
      match cmd {
        case Connect(id, principal) =>
          Connect(id, principal, now);
          RunNothing(world, State());
        case Subscribe(id, channel) => SubscribeTo(id, channel, now);
        case Unsubscribe(id, channel) => UnsubscribeFrom(id, channel);
        case Publish(id, channel, payload) => PublishTo(id, channel, payload);
        case AskPresence(id, channel) => ShowPresence(id, channel);
        case SessionJoin(id, session) => JoinSession(id, session, now);
        case SessionLeave(id, session) => LeaveSession(id, session);
        case ToCoordinator(id, session, payload) => RelayToCoordinator(id, session, payload);
        case ToMembers(id, session, payload) => RelayToMembers(id, session, payload);
        case Disconnect(id) => Disconnect(id);
      }
    }
  }
}
