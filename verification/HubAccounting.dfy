// The hub's counters and gauges tell the truth at every command boundary, and in the middle of a
// cascade they are off by exactly the work still on the agenda.
module HubAccounting {
  import opened Wrappers
  import opened Protocol
  import opened Listing
  import opened HubMachine
  import opened HubIndexes
  import P = ChannelPresence
  import S = CoordinatorSessions

  // --- At rest ---

  ghost predicate CountersAgree(h: Hub) {
    h.stats.connectionsOpened == h.stats.connectionsClosed + |h.clients| &&
    h.stats.activeClients == |h.clients| &&
    h.stats.activeChannels == |h.channels| &&
    h.stats.activeSessions == |h.rooms|
  }

  // Delivery attempts settled so far, less attempts made: each attempt is delivered, dropped or
  // closes its client, so this counts the connections closed on request.
  function ClosedOnRequest(h: Hub): int {
    h.stats.delivered + h.stats.dropped + h.stats.connectionsClosed - h.tick
  }

  // --- Mid-cascade ---

  function Closings(agenda: seq<Task>): nat {
    if agenda == [] then 0 else (if agenda[0].Closing? then 1 else 0) + Closings(agenda[1..])
  }

  predicate SetsChannelGauge(task: Task) { task.Closing? || task.ChannelGauge? }

  // Every owed channel leave is followed by something that refreshes the channel gauge.
  ghost predicate Covered(agenda: seq<Task>) {
    agenda != [] ==>
      (agenda[0].LeaveChannel? ==> exists t <- agenda[1..] :: SetsChannelGauge(t)) && Covered(agenda[1..])
  }

  ghost predicate CountersOk(h: Hub, agenda: seq<Task>) {
    h.stats.connectionsOpened == h.stats.connectionsClosed + |h.clients| + Closings(agenda) &&
    (h.stats.activeClients == |h.clients| || Closing in agenda) &&
    (h.stats.activeChannels == |h.channels| || exists t <- agenda :: SetsChannelGauge(t)) &&
    (h.stats.activeSessions == |h.rooms| || SessionGauge in agenda)
  }

  function Ledger(h: Hub, agenda: seq<Task>): int {
    ClosedOnRequest(h) + Closings(agenda)
  }

  lemma {:induction false} ClosingsConcat(a: seq<Task>, b: seq<Task>)
    ensures Closings(a + b) == Closings(a) + Closings(b)
  {
    if a == [] {
      assert a + b == b;
    } else {
      ClosingsConcat(a[1..], b);
      assert (a + b)[1..] == a[1..] + b;
    }
  }

  lemma {:induction false} CoveredConcat(a: seq<Task>, b: seq<Task>)
    requires Covered(a) && Covered(b)
    ensures Covered(a + b)
  {
    if a == [] {
      assert a + b == b;
    } else {
      CoveredConcat(a[1..], b);
      assert (a + b)[1..] == a[1..] + b;
    }
  }

  lemma {:induction false} NoLeavesCovered(agenda: seq<Task>)
    requires forall t <- agenda :: !t.LeaveChannel?
    ensures Covered(agenda)
  {
    if agenda != [] { NoLeavesCovered(agenda[1..]); }
  }

  lemma {:induction false} NoClosings(agenda: seq<Task>)
    requires forall t <- agenda :: !t.Closing?
    ensures Closings(agenda) == 0
  {
    if agenda != [] { NoClosings(agenda[1..]); }
  }

  lemma {:induction false} EndsInClosing(first: seq<Task>)
    requires forall t <- first :: !t.Closing?
    ensures Closings(first + [Closing]) == 1 && Covered(first + [Closing])
  {
    if first == [] {
      assert first + [Closing] == [Closing];
    } else {
      EndsInClosing(first[1..]);
      assert (first + [Closing])[1..] == first[1..] + [Closing];
      assert Closing in first[1..] + [Closing];
    }
  }

  lemma FarewellCloses(w: World, h: Hub, id: ClientId, c: Client)
    ensures var f := Farewell(w, h, id, c); Closings(f) == 1 && Covered(f) && Closing in f
  {
    var channels := w.channelOrder(h.tick, c.subscriptions);
    var sessions := w.sessionOrder(h.tick, c.sessions);
    DeparturesAreOf(id, c.principal, channels, sessions);
    EndsInClosing(Departures(id, c.principal, channels) + Quits(id, sessions));
  }

  // --- One task ---

  // An attempt on a live client is settled once: delivered, dropped, or it costs the client.
  lemma AttemptSettles(w: World, h: Hub, id: ClientId, msg: ServerMsg)
    requires id in h.clients
    ensures var after := Deliver(w, h, id, msg).hub;
            after.tick == h.tick + 1 &&
            (after.stats.delivered - h.stats.delivered) + (after.stats.dropped - h.stats.dropped)
              + (|h.clients| - |after.clients|) == 1 &&
            (id in after.clients <==> |after.clients| == |h.clients|)
  {
    assert (h.clients - {id}).Keys == h.clients.Keys - {id};
  }

  // What a task may do to the figures, for one that adds no closing of its own.
  lemma Carry(h: Hub, after: Hub, task: Task, todo: seq<Task>, rest: seq<Task>)
    requires CountersOk(h, [task] + rest) && Covered([task] + rest)
    requires !task.Closing? && !task.LeaveChannel? && !SetsChannelGauge(task) && !task.SessionGauge?
    requires forall t <- todo :: !t.Closing? && !t.LeaveChannel?
    requires |after.clients| == |h.clients| && after.channels == h.channels
    requires after.rooms == h.rooms || SessionGauge in todo
    requires after.stats == h.stats.(delivered := after.stats.delivered, dropped := after.stats.dropped)
    ensures CountersOk(after, todo + rest) && Covered(todo + rest)
    ensures Closings(todo + rest) == Closings([task] + rest)
  {
    NoClosings(todo);
    ClosingsConcat(todo, rest);
    ClosingsConcat([task], rest);
    NoLeavesCovered(todo);
    assert ([task] + rest)[1..] == rest;
    CoveredConcat(todo, rest);
    assert forall t <- [task] + rest :: t != task ==> t in todo + rest;
  }

  // Reaping a client moves it from the registered ones to the closings still owed.
  lemma CarryReap(h: Hub, after: Hub, task: Task, farewell: seq<Task>, rest: seq<Task>)
    requires CountersOk(h, [task] + rest) && Covered([task] + rest)
    requires !task.Closing? && !SetsChannelGauge(task) && !task.SessionGauge?
    requires Closings(farewell) == 1 && Covered(farewell) && Closing in farewell
    requires |after.clients| + 1 == |h.clients| && after.rooms == h.rooms && after.stats == h.stats
    ensures CountersOk(after, farewell + rest) && Covered(farewell + rest)
    ensures Closings(farewell + rest) == Closings([task] + rest) + 1
  {
    ClosingsConcat(farewell, rest);
    ClosingsConcat([task], rest);
    assert ([task] + rest)[1..] == rest;
    CoveredConcat(farewell, rest);
    assert Closing in farewell + rest;
    assert SessionGauge in [task] + rest ==> SessionGauge in farewell + rest;
  }

  lemma DeliverKeepsCounters(w: World, h: Hub, id: ClientId, msg: ServerMsg, task: Task, rest: seq<Task>)
    requires CountersOk(h, [task] + rest) && Covered([task] + rest)
    requires task.Send? || task.Evict?
    ensures var e := Deliver(w, h, id, msg);
            CountersOk(e.hub, e.todo + rest) && Covered(e.todo + rest) && Ledger(e.hub, e.todo + rest) == Ledger(h, [task] + rest)
  {
    var e := Deliver(w, h, id, msg);
    if id in h.clients { AttemptSettles(w, h, id, msg); }
    if id in h.clients && id !in e.hub.clients {
      FarewellCloses(w, h.(tick := h.tick + 1), id, h.clients[id]);
      CarryReap(h, e.hub, task, e.todo, rest);
    } else {
      Carry(h, e.hub, task, e.todo, rest);
    }
  }

  lemma QuitSendsGauge(w: World, h: Hub, id: ClientId, session: string)
    ensures var e := Quit(w, h, id, session);
            (forall t <- e.todo :: !t.Closing? && !t.LeaveChannel?) && (e.hub.rooms == h.rooms || SessionGauge in e.todo)
  {
    QuitOnlyTells(w, h, id, session);
    var e := Quit(w, h, id, session);
    if e.todo != [] { assert e.todo[|e.todo| - 1] == SessionGauge; }
  }

  lemma SameSize(before: map<ClientId, Client>, after: map<ClientId, Client>)
    requires before.Keys == after.Keys
    ensures |before| == |after|
  {
    assert |before.Keys| == |after.Keys|;
  }

  lemma PerformKeepsCounters(w: World, h: Hub, task: Task, rest: seq<Task>)
    requires CountersOk(h, [task] + rest) && Covered([task] + rest)
    ensures var e := Perform(w, h, task);
            CountersOk(e.hub, e.todo + rest) && Covered(e.todo + rest) && Ledger(e.hub, e.todo + rest) == Ledger(h, [task] + rest)
  {
    var e := Perform(w, h, task);
    match task
    case Send(id, msg) => DeliverKeepsCounters(w, h, id, msg, task, rest);
    case Evict(id, session) =>
      var dropped := h.(clients := DropSession(h.clients, id, session));
      SameSize(h.clients, dropped.clients);
      DeliverKeepsCounters(w, dropped, id, SessionClosed(session, "coordinator_left"), task, rest);
    case Announce(channel, except, msg) =>
      SendsOnly(Subscribers(w, h, channel), except, msg);
      Carry(h, e.hub, task, e.todo, rest);
    case QuitSession(id, session) =>
      QuitSendsGauge(w, h, id, session);
      SameSize(h.clients, e.hub.clients);
      Carry(h, e.hub, task, e.todo, rest);
    case LeaveChannel(id, who, channel) => LeaveKeepsCounters(w, h, task, rest);
    case Closing => GaugeKeepsCounters(w, h, task, rest);
    case ChannelGauge => GaugeKeepsCounters(w, h, task, rest);
    case SessionGauge => GaugeKeepsCounters(w, h, task, rest);
  }

  lemma LeaveKeepsCounters(w: World, h: Hub, task: Task, rest: seq<Task>)
    requires task.LeaveChannel? && CountersOk(h, [task] + rest) && Covered([task] + rest)
    ensures var e := Perform(w, h, task);
            CountersOk(e.hub, e.todo + rest) && Covered(e.todo + rest) && Ledger(e.hub, e.todo + rest) == Ledger(h, [task] + rest)
  {
    var e := Perform(w, h, task);
    if task.who.Some? { SendsOnly(Subscribers(w, e.hub, task.channel), task.id, Left(task.channel, task.who.value)); }
    CarryLeave(h, e.hub, task, e.todo, rest);
  }

  lemma CarryLeave(h: Hub, after: Hub, task: Task, todo: seq<Task>, rest: seq<Task>)
    requires task.LeaveChannel? && CountersOk(h, [task] + rest) && Covered([task] + rest)
    requires forall t <- todo :: t.Send?
    requires after == h.(channels := after.channels)
    ensures CountersOk(after, todo + rest) && Covered(todo + rest)
    ensures Closings(todo + rest) == Closings([task] + rest)
  {
    NoClosings(todo);
    ClosingsConcat(todo, rest);
    ClosingsConcat([task], rest);
    NoLeavesCovered(todo);
    assert ([task] + rest)[0] == task && ([task] + rest)[1..] == rest;
    CoveredConcat(todo, rest);
    var gauge :| gauge in rest && SetsChannelGauge(gauge);
    assert gauge in todo + rest;
    assert forall t <- [task] + rest :: t != task ==> t in todo + rest;
  }

  lemma GaugeKeepsCounters(w: World, h: Hub, task: Task, rest: seq<Task>)
    requires task.Closing? || task.ChannelGauge? || task.SessionGauge?
    requires CountersOk(h, [task] + rest) && Covered([task] + rest)
    ensures var e := Perform(w, h, task);
            CountersOk(e.hub, e.todo + rest) && Covered(e.todo + rest) && Ledger(e.hub, e.todo + rest) == Ledger(h, [task] + rest)
  {
    var e := Perform(w, h, task);
    assert e.todo + rest == rest && ([task] + rest)[1..] == rest;
    ClosingsConcat([task], rest);
    assert forall t <- [task] + rest :: t != task ==> t in rest;
  }

  lemma {:induction false} RunKeepsCounters(w: World, h: Hub, agenda: seq<Task>)
    requires CountersOk(h, agenda) && Covered(agenda)
    ensures CountersAgree(Run(w, h, agenda))
    ensures ClosedOnRequest(Run(w, h, agenda)) == Ledger(h, agenda)
    decreases h.clients.Keys, Expanding(agenda), |agenda|
  {
    if agenda != [] {
      var task, rest := agenda[0], agenda[1..];
      assert agenda == [task] + rest;
      var e := Perform(w, h, task);
      PerformProgress(w, h, task);
      ExpandingConcat(e.todo, rest);
      PerformKeepsCounters(w, h, task, rest);
      RunKeepsCounters(w, e.hub, e.todo + rest);
    }
  }

  // --- Commands ---

  ghost predicate Booked(h: Hub, e: Effect, onRequest: int) {
    CountersOk(e.hub, e.todo) && Covered(e.todo) && Ledger(e.hub, e.todo) == ClosedOnRequest(h) + onRequest
  }

  // A command that moves no figure itself and closes nothing, but refreshes what it changes.
  lemma QuietBegin(h: Hub, e: Effect)
    requires CountersAgree(h)
    requires e.hub.stats == h.stats.(published := e.hub.stats.published)
    requires e.hub.clients.Keys == h.clients.Keys && e.hub.tick == h.tick
    requires forall t <- e.todo :: !t.Closing? && !t.LeaveChannel?
    requires e.hub.channels == h.channels || ChannelGauge in e.todo
    requires e.hub.rooms == h.rooms || SessionGauge in e.todo
    ensures Booked(h, e, 0)
  {
    SameSize(h.clients, e.hub.clients);
    NoClosings(e.todo);
    NoLeavesCovered(e.todo);
  }

  lemma ConnectIsBooked(w: World, h: Hub, id: ClientId, principal: string, now: real)
    requires CountersAgree(h) && id !in h.clients
    ensures Booked(h, OnConnect(w, h, id, principal, now), 0)
  {
    var e := OnConnect(w, h, id, principal, now);
    assert e.hub.clients.Keys == h.clients.Keys + {id};
  }

  lemma DisconnectIsBooked(w: World, h: Hub, id: ClientId)
    requires CountersAgree(h)
    ensures Booked(h, OnDisconnect(w, h, id), if id in h.clients then 1 else 0)
  {
    if id in h.clients {
      FarewellCloses(w, h, id, h.clients[id]);
      assert (h.clients - {id}).Keys == h.clients.Keys - {id};
    }
  }

  lemma UnsubscribeIsBooked(h: Hub, id: ClientId, channel: string)
    requires CountersAgree(h)
    ensures Booked(h, OnUnsubscribe(h, id, channel), 0)
  {
    var e := OnUnsubscribe(h, id, channel);
    SameSize(h.clients, e.hub.clients);
    NoClosings(e.todo);
    assert e.todo[1..] == [ChannelGauge];
    assert ChannelGauge in e.todo[1..] && ChannelGauge in e.todo;
    NoLeavesCovered(e.todo[1..]);
  }

  lemma AdmitShape(h: Hub, id: ClientId, channel: string)
    requires id in h.clients
    ensures var e := Admit(h, id, channel);
            e.hub.stats == h.stats && e.hub.clients.Keys == h.clients.Keys && e.hub.tick == h.tick && e.hub.rooms == h.rooms &&
            ChannelGauge in e.todo && forall t <- e.todo :: !t.Closing? && !t.LeaveChannel?
  {
    var e := Admit(h, id, channel);
    assert e.todo[|e.todo| - 1] == ChannelGauge;
  }

  lemma SubscribeIsBooked(h: Hub, id: ClientId, channel: string, now: real)
    requires CountersAgree(h)
    ensures Booked(h, OnSubscribe(h, id, channel, now), 0)
  {
    ChargeShape(h, id, now);
    var charged := Charge(h, id, now).0;
    if id in charged.clients { AdmitShape(charged, id, channel); }
    QuietBegin(h, OnSubscribe(h, id, channel, now));
  }

  lemma SessionJoinIsBooked(h: Hub, id: ClientId, session: string, now: real)
    requires CountersAgree(h)
    ensures Booked(h, OnSessionJoin(h, id, session, now), 0)
  {
    SessionJoinOnlySends(h, id, session, now);
    SessionJoinShape(h, id, session, now);
    QuietBegin(h, OnSessionJoin(h, id, session, now));
  }

  lemma SessionJoinShape(h: Hub, id: ClientId, session: string, now: real)
    ensures var after := OnSessionJoin(h, id, session, now).hub;
            after.stats == h.stats && after.clients.Keys == h.clients.Keys && after.tick == h.tick && after.channels == h.channels
  {
    ChargeShape(h, id, now);
    var charged := Charge(h, id, now).0;
    if id in charged.clients { EnrollShape(charged, id, session); }
  }

  lemma EnrollShape(h: Hub, id: ClientId, session: string)
    requires id in h.clients
    ensures var after := Enroll(h, id, session).hub;
            after.stats == h.stats && after.clients.Keys == h.clients.Keys && after.tick == h.tick && after.channels == h.channels
  {
  }

  lemma BeginIsBooked(w: World, h: Hub, cmd: Command, now: real)
    requires CountersAgree(h) && FreshConnect(h, cmd)
    ensures Booked(h, Begin(w, h, cmd, now), if cmd.Disconnect? && cmd.id in h.clients then 1 else 0)
  {
    if cmd.Connect? {
      ConnectIsBooked(w, h, cmd.id, cmd.principal, now);
    } else if cmd.Subscribe? {
      SubscribeIsBooked(h, cmd.id, cmd.channel, now);
    } else if cmd.Unsubscribe? {
      UnsubscribeIsBooked(h, cmd.id, cmd.channel);
    } else if cmd.SessionJoin? {
      SessionJoinIsBooked(h, cmd.id, cmd.session, now);
    } else if cmd.Disconnect? {
      DisconnectIsBooked(w, h, cmd.id);
    } else {
      RelayOnlySends(w, h, cmd, now);
      QuietBegin(h, Begin(w, h, cmd, now));
    }
  }

  // At every command boundary: opened = closed + registered, all gauges are exact, and delivery
  // attempts are delivered + dropped + closed, except connections closed on request.
  lemma StepKeepsCounters(w: World, h: Hub, cmd: Command, now: real)
    requires CountersAgree(h) && FreshConnect(h, cmd)
    ensures CountersAgree(Step(w, h, cmd, now))
    ensures ClosedOnRequest(Step(w, h, cmd, now))
              == ClosedOnRequest(h) + (if cmd.Disconnect? && cmd.id in h.clients then 1 else 0)
  {
    BeginIsBooked(w, h, cmd, now);
    var e := Begin(w, h, cmd, now);
    RunKeepsCounters(w, e.hub, e.todo);
  }

  lemma {:induction false} ReachableCountersAgree(w: World, cmds: seq<Timed>)
    requires IdsOnce(cmds)
    ensures CountersAgree(History(w, EMPTY_HUB, cmds)) && ClosedOnRequest(History(w, EMPTY_HUB, cmds)) >= 0
  {
    if cmds != [] {
      hide CountersAgree, IndexesAgree, Step, ClosedOnRequest, IdsOnce;
      var n := |cmds| - 1;
      NextIsFresh(w, cmds);
      ReachableCountersAgree(w, cmds[..n]);
      StepKeepsCounters(w, History(w, EMPTY_HUB, cmds[..n]), cmds[n].cmd, cmds[n].now);
    }
  }

  lemma NextIsFresh(w: World, cmds: seq<Timed>)
    requires IdsOnce(cmds) && cmds != []
    ensures IdsOnce(cmds[..|cmds| - 1]) && FreshConnect(History(w, EMPTY_HUB, cmds[..|cmds| - 1]), cmds[|cmds| - 1].cmd)
  {
    hide IndexesAgree, History;
    ReachableIndexesAgree(w, cmds[..|cmds| - 1]);
  }

  // --- Publications ---

  lemma PerformPublishesNothing(w: World, h: Hub, task: Task)
    ensures Perform(w, h, task).hub.stats.published == h.stats.published
  {
  }

  lemma {:induction false} RunPublishesNothing(w: World, h: Hub, agenda: seq<Task>)
    ensures Run(w, h, agenda).stats.published == h.stats.published
    decreases h.clients.Keys, Expanding(agenda), |agenda|
  {
    hide Perform;
    if agenda != [] {
      var e := Perform(w, h, agenda[0]);
      PerformProgress(w, h, agenda[0]);
      ExpandingConcat(e.todo, agenda[1..]);
      PerformPublishesNothing(w, h, agenda[0]);
      RunPublishesNothing(w, e.hub, e.todo + agenda[1..]);
    }
  }

  // A publication, a member's message to the coordinator, or a coordinator's to the members.
  predicate Publishes(h: Hub, cmd: Command) {
    cmd.Publish? || (cmd.ToCoordinator? && S.IsMember(h.rooms, cmd.session, cmd.id)) ||
    (cmd.ToMembers? && cmd.session in h.rooms && h.rooms[cmd.session].coordinator == cmd.id)
  }

  function Publications(w: World, h: Hub, cmds: seq<Timed>): nat {
    if cmds == [] then 0
    else
      var front := cmds[..|cmds| - 1];
      Publications(w, h, front) + if Publishes(History(w, h, front), cmds[|cmds| - 1].cmd) then 1 else 0
  }

  lemma BeginPublishes(w: World, h: Hub, cmd: Command, now: real)
    ensures Begin(w, h, cmd, now).hub.stats.published == h.stats.published + if Publishes(h, cmd) then 1 else 0
  {
    hide S.AfterJoin, S.JoinReport;
  }

  // Every publication and relay let through is counted once, and nothing else is.
  lemma {:induction false} PublicationsAreCounted(w: World, cmds: seq<Timed>)
    ensures History(w, EMPTY_HUB, cmds).stats.published == Publications(w, EMPTY_HUB, cmds)
  {
    hide Run, Begin;
    if cmds != [] {
      var front, last := cmds[..|cmds| - 1], cmds[|cmds| - 1];
      PublicationsAreCounted(w, front);
      var before := History(w, EMPTY_HUB, front);
      var e := Begin(w, before, last.cmd, last.now);
      BeginPublishes(w, before, last.cmd, last.now);
      RunPublishesNothing(w, e.hub, e.todo);
    }
  }
}
