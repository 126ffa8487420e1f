// A newcomer found hung up on its own snapshot: its departure is announced before its arrival, and
// everybody left in the channel goes on believing it is there.
module HubGhosts {
  import opened Wrappers
  import opened Protocol
  import opened Listing
  import opened HubMachine
  import opened HubIndexes
  import opened HubViews
  import opened HubDelivery
  import P = ChannelPresence
  import S = CoordinatorSessions

  ghost predicate NobodyCalled(h: Hub, who: string) {
    forall d <- h.clients :: h.clients[d].principal != who
  }

  // Nobody else has its name.
  ghost predicate OnlyOneCalled(h: Hub, id: ClientId)
    requires id in h.clients
  {
    forall d <- h.clients :: d != id ==> h.clients[d].principal != h.clients[id].principal
  }

  // The arrival of who is, or is about to become, the last thing d hears about who in the channel.
  ghost predicate Believes(h: Hub, agenda: seq<Task>, id: ClientId, channel: string, who: string, d: ClientId)
    requires d in h.clients
  {
    Knows(h, d, channel, who) || Send(d, Joined(channel, who)) in agenda || Announce(channel, id, Joined(channel, who)) in agenda
  }

  ghost predicate NeverContradicts(agenda: seq<Task>, who: string) {
    forall t <- agenda ::
      (t.Send? ==> !t.msg.Presence? && (t.msg.Left? ==> t.msg.who != who)) &&
      (t.Announce? ==> !t.msg.Presence? && !t.msg.Left?) &&
      (t.LeaveChannel? ==> t.who != Some(who))
  }

  ghost predicate Haunted(h: Hub, agenda: seq<Task>, id: ClientId, channel: string, who: string) {
    id !in h.clients && NobodyCalled(h, who) && NeverContradicts(agenda, who) &&
    forall d :: Subscribed(h, d, channel) && Lossless(h, d) ==> Believes(h, agenda, id, channel, who, d)
  }

  lemma PerformContradictsNothing(w: World, h: Hub, task: Task, who: string)
    requires NobodyCalled(h, who) && NeverContradicts([task], who)
    ensures NeverContradicts(Perform(w, h, task).todo, who)
  {
    assert task in [task];
    var e := Perform(w, h, task);
    match task
    case Send(id, msg) => DeliverContradictsNothing(w, h, id, msg, who);
    case Evict(id, session) =>
      DeliverContradictsNothing(w, h.(clients := DropSession(h.clients, id, session)), id, SessionClosed(session, "coordinator_left"), who);
    case Announce(channel, except, msg) => SendsOnly(Subscribers(w, h, channel), except, msg);
    case LeaveChannel(id, name, channel) =>
      if name.Some? { SendsOnly(Subscribers(w, e.hub, channel), id, Left(channel, name.value)); }
    case QuitSession(id, session) => QuitOnlyTells(w, h, id, session);
    case Closing =>
    case ChannelGauge =>
    case SessionGauge =>
  }

  lemma FarewellContradictsNothing(w: World, h: Hub, id: ClientId, c: Client, who: string)
    requires c.principal != who
    ensures NeverContradicts(Farewell(w, h, id, c), who)
  {
    FarewellIsOf(w, h, id, c);
  }

  lemma DeliverContradictsNothing(w: World, h: Hub, id: ClientId, msg: ServerMsg, who: string)
    requires NobodyCalled(h, who)
    ensures NeverContradicts(Deliver(w, h, id, msg).todo, who)
  {
    OnlyReapingOwes(w, h, id, msg);
    var todo := Deliver(w, h, id, msg).todo;
    if todo != [] { FarewellContradictsNothing(w, h.(tick := h.tick + 1), id, h.clients[id], who); }
  }

  // A frame that neither snapshots nor denies who leaves everybody's belief standing.
  lemma DeliverKeepsBelief(w: World, h: Hub, x: ClientId, msg: ServerMsg, id: ClientId, channel: string, who: string, d: ClientId)
    requires !msg.Presence? && (msg.Left? ==> msg.who != who)
    requires d in h.clients
    ensures var after := Deliver(w, h, x, msg).hub;
            d in after.clients && Lossless(after, d) ==>
              (Lossless(h, d) && (Knows(h, d, channel, who) || (x == d && msg == Joined(channel, who)) ==> Knows(after, d, channel, who)))
  {
    ViewAppend(h.clients[d].out.sent, msg, channel);
  }

  lemma BelieverKeepsBelief(w: World, h: Hub, task: Task, rest: seq<Task>, id: ClientId, channel: string, who: string, d: ClientId)
    requires Haunted(h, [task] + rest, id, channel, who) && ChannelsOk(h, [task] + rest)
    requires var after := Perform(w, h, task).hub; Subscribed(after, d, channel) && Lossless(after, d)
    requires Subscribed(h, d, channel)
    ensures var e := Perform(w, h, task); Believes(e.hub, e.todo + rest, id, channel, who, d)
  {
    var e := Perform(w, h, task);
    assert task in [task] + rest;
    assert forall t <- rest :: t in e.todo + rest;
    match task
    case Send(x, msg) => DeliverKeepsBelief(w, h, x, msg, id, channel, who, d);
    case Evict(x, session) =>
      var dropped := h.(clients := DropSession(h.clients, x, session));
      DeliverKeepsBelief(w, dropped, x, SessionClosed(session, "coordinator_left"), id, channel, who, d);
      assert Knows(h, d, channel, who) <==> Knows(dropped, d, channel, who);
    case Announce(c, except, msg) =>
      SendsOnly(Subscribers(w, h, c), except, msg);
      if task == Announce(channel, id, Joined(channel, who)) {
        assert Listed(h, d, channel);
        assert Send(d, msg) in e.todo;
      }
    case LeaveChannel(_, _, _) =>
    case QuitSession(_, _) =>
    case Closing =>
    case ChannelGauge =>
    case SessionGauge =>
  }

  lemma PerformHaunts(w: World, h: Hub, task: Task, rest: seq<Task>, id: ClientId, channel: string, who: string)
    requires Haunted(h, [task] + rest, id, channel, who) && ChannelsOk(h, [task] + rest)
    ensures var e := Perform(w, h, task); Haunted(e.hub, e.todo + rest, id, channel, who)
  {
    var e := Perform(w, h, task);
    PerformShrinks(w, h, task);
    assert task in [task] + rest && forall t <- rest :: t in [task] + rest;
    PerformContradictsNothing(w, h, task, who);
    forall d | Subscribed(e.hub, d, channel) && Lossless(e.hub, d) ensures Believes(e.hub, e.todo + rest, id, channel, who, d) {
      assert Subscribed(h, d, channel);
      BelieverKeepsBelief(w, h, task, rest, id, channel, who, d);
    }
  }

  lemma {:induction false} RunHaunts(w: World, h: Hub, agenda: seq<Task>, id: ClientId, channel: string, who: string)
    requires Haunted(h, agenda, id, channel, who) && Coherent(h, agenda) && LeavesAreDue(h, agenda)
    ensures Haunted(Run(w, h, agenda), [], id, channel, who)
    decreases h.clients.Keys, Expanding(agenda), |agenda|
  {
    if agenda != [] {
      var task, rest := agenda[0], agenda[1..];
      assert agenda == [task] + rest;
      var e := Perform(w, h, task);
      PerformProgress(w, h, task);
      ExpandingConcat(e.todo, rest);
      PerformHaunts(w, h, task, rest, id, channel, who);
      PerformKeepsCoherent(w, h, task, rest);
      LeavesStayDue(w, h, task, rest);
      RunHaunts(w, e.hub, e.todo + rest, id, channel, who);
    }
  }

  // --- The step ---

  lemma DropTail(h: Hub, agenda: seq<Task>, tail: seq<Task>)
    requires Coherent(h, agenda + tail) && LeavesAreDue(h, agenda + tail)
    requires forall t <- tail :: !t.LeaveChannel? && !t.QuitSession? && !t.Evict?
    ensures Coherent(h, agenda) && LeavesAreDue(h, agenda)
  {
    forall id, channel | OwesLeave(agenda + tail, id, channel) ensures OwesLeave(agenda, id, channel) {
      var who :| LeaveChannel(id, who, channel) in agenda + tail;
      assert LeaveChannel(id, who, channel) in agenda;
    }
    assert forall t <- agenda :: t in agenda + tail;
  }

  lemma AdmitFirst(h: Hub, id: ClientId, channel: string, who: string)
    requires id in h.clients && id !in P.Members(h.channels, channel) && who == h.clients[id].principal
    ensures var e := Admit(h, id, channel);
            e.todo == [Send(id, Presence(channel, Snapshot(e.hub.channels, channel)))] + News(true, channel, id, who) &&
            e.hub.tick == h.tick && e.hub.clients.Keys == h.clients.Keys &&
            forall d <- h.clients :: e.hub.clients[d].out == h.clients[d].out && e.hub.clients[d].principal == h.clients[d].principal
  {
  }

  lemma HungUpIsReaped(w: World, h: Hub, id: ClientId, msg: ServerMsg)
    requires id in h.clients && HungUp(w, h, id) && OnlyOneCalled(h, id)
    ensures var after := Perform(w, h, Send(id, msg)).hub; id !in after.clients && NobodyCalled(after, h.clients[id].principal)
  {
  }

  lemma NobodyCalledStays(w: World, h: Hub, agenda: seq<Task>, id: ClientId, who: string)
    requires id !in h.clients && NobodyCalled(h, who)
    ensures var after := Run(w, h, agenda); id !in after.clients && NobodyCalled(after, who)
  {
    RunShrinks(w, h, agenda);
  }

  lemma FinishFirst(w: World, h: Hub, agenda: seq<Task>, news: seq<Task>)
    requires Coherent(h, agenda + news) && LeavesAreDue(h, agenda + news)
    requires forall t <- news :: !t.LeaveChannel? && !t.QuitSession? && !t.Evict?
    ensures IndexesAgree(Run(w, h, agenda)) && Run(w, h, agenda + news) == Run(w, Run(w, h, agenda), news)
  {
    RunConcat(w, h, agenda, news);
    DropTail(h, agenda, news);
    RunKeepsCoherent(w, h, agenda);
    CoherentAtRest(Run(w, h, agenda));
  }

  // Once the newcomer is reaped and its departure played out, only the stale news is left.
  lemma ReapedFirst(w: World, h: Hub, id: ClientId, msg: ServerMsg, news: seq<Task>) returns (rested: Hub)
    requires id in h.clients && OnlyOneCalled(h, id) && HungUp(w, h, id)
    requires Coherent(h, [Send(id, msg)] + news) && LeavesAreDue(h, [Send(id, msg)] + news)
    requires forall t <- news :: !t.LeaveChannel? && !t.QuitSession? && !t.Evict?
    ensures Run(w, h, [Send(id, msg)] + news) == Run(w, rested, news)
    ensures IndexesAgree(rested) && id !in rested.clients && NobodyCalled(rested, h.clients[id].principal)
  {
    var first := Send(id, msg);
    var reaped := Perform(w, h, first);
    rested := Run(w, reaped.hub, reaped.todo);
    RunFirst(w, h, first, news);
    PerformKeepsCoherent(w, h, first, news);
    LeavesStayDue(w, h, first, news);
    FinishFirst(w, reaped.hub, reaped.todo, news);
    HungUpIsReaped(w, h, id, msg);
    NobodyCalledStays(w, reaped.hub, reaped.todo, id, h.clients[id].principal);
  }

  lemma StaleNewsHaunts(w: World, h: Hub, id: ClientId, channel: string, who: string)
    requires IndexesAgree(h) && id !in h.clients && NobodyCalled(h, who)
    ensures var after := Run(w, h, News(true, channel, id, who));
            Haunted(after, [], id, channel, who) && IndexesAgree(after)
  {
    var news := News(true, channel, id, who);
    assert news[0] in news;
    CoherentPlain(h, news);
    RunHaunts(w, h, news, id, channel, who);
    RunKeepsCoherent(w, h, news);
    CoherentAtRest(Run(w, h, news));
  }

  lemma NobodyCalledIsAbsent(h: Hub, channel: string, who: string)
    requires IndexesAgree(h) && NobodyCalled(h, who)
    ensures !Present(h, channel, who)
  {
    forall c <- P.Members(h.channels, channel) ensures P.Members(h.channels, channel)[c] != who {
      assert Subscribed(h, c, channel);
    }
  }

  // A newcomer that has hung up by its own snapshot is gone and absent afterwards, yet every lossless
  // subscriber left in the channel believes it present: so the views end up right if and only if no
  // such subscriber is left.
  lemma GhostMember(w: World, h: Hub, id: ClientId, channel: string, now: real)
    requires IndexesAgree(h) && Arrives(h, Subscribe(id, channel), now) && OnlyOneCalled(h, id) && HungUp(w, h, id)
    ensures var after := Step(w, h, Subscribe(id, channel), now); var who := h.clients[id].principal;
            id !in after.clients && !Present(after, channel, who) &&
            (forall d :: Subscribed(after, d, channel) && Lossless(after, d) ==> Knows(after, d, channel, who))
    ensures var after := Step(w, h, Subscribe(id, channel), now);
            ViewsAgree(h) && (forall n :: !TornBy(w, h, Subscribe(id, channel), now, n)) ==>
              (ViewsAgree(after) <==> forall d :: !(Subscribed(after, d, channel) && Lossless(after, d)))
  {
    hide Run, ViewsAgree, Admit, TornBy;
    var cmd := Subscribe(id, channel);
    var charged := Charge(h, id, now).0;
    ChargeKeepsAgreement(h, id, now);
    ChargeShape(h, id, now);
    BeginIsCoherent(w, h, cmd, now);
    assert Begin(w, h, cmd, now) == OnSubscribe(h, id, channel, now) == Admit(charged, id, channel);
    AdmitHaunts(w, charged, id, channel);
    if ViewsAgree(h) && forall n :: !TornBy(w, h, cmd, now, n) {
      GhostDecides(w, h, cmd, now, h.clients[id].principal);
    }
  }

  lemma AdmitHaunts(w: World, h: Hub, id: ClientId, channel: string)
    requires id in h.clients && id !in P.Members(h.channels, channel) && HungUp(w, h, id) && OnlyOneCalled(h, id)
    requires var e := Admit(h, id, channel); Coherent(e.hub, e.todo) && LeavesAreDue(e.hub, e.todo)
    ensures var e := Admit(h, id, channel); var who := h.clients[id].principal;
            var after := Run(w, e.hub, e.todo);
            id !in after.clients && !Present(after, channel, who) &&
            forall d :: Subscribed(after, d, channel) && Lossless(after, d) ==> Knows(after, d, channel, who)
  {
    hide Run, Coherent, LeavesAreDue;
    var who := h.clients[id].principal;
    AdmitFirst(h, id, channel, who);
    var e := Admit(h, id, channel);
    var rested := ReapedFirst(w, e.hub, id, Presence(channel, Snapshot(e.hub.channels, channel)), News(true, channel, id, who));
    StaleNewsHaunts(w, rested, id, channel, who);
    NobodyCalledIsAbsent(Run(w, e.hub, e.todo), channel, who);
  }

  lemma GhostDecides(w: World, h: Hub, cmd: Command, now: real, who: string)
    requires IndexesAgree(h) && ViewsAgree(h) && forall n :: !TornBy(w, h, cmd, now, n)
    requires cmd.Subscribe? && Arrives(h, cmd, now) && who == h.clients[cmd.id].principal
    requires var after := Step(w, h, cmd, now);
             !Present(after, cmd.channel, who) &&
             forall d :: Subscribed(after, d, cmd.channel) && Lossless(after, d) ==> Knows(after, d, cmd.channel, who)
    ensures var after := Step(w, h, cmd, now);
            ViewsAgree(after) <==> forall d :: !(Subscribed(after, d, cmd.channel) && Lossless(after, d))
  {
    hide Step, TornBy, Arrives;
    var after := Step(w, h, cmd, now);
    ViewsAtRest(h);
    ViewsAtRest(after);
    StepViewsButUneasy(w, h, cmd, now, iset{});
    if ViewsAgree(after) {
      forall d ensures !(Subscribed(after, d, cmd.channel) && Lossless(after, d)) {
        assert Subscribed(after, d, cmd.channel) && Lossless(after, d) ==> Knows(after, d, cmd.channel, who);
      }
    }
    if forall d :: !(Subscribed(after, d, cmd.channel) && Lossless(after, d)) {
      assert ViewsOk(after, [], iset{});
    }
  }

  // --- Such a run exists ---

  // Two connections: b is in the channel with its snapshot in its queue, a is about to subscribe and
  // hangs up before the next frame.
  function TwoClients(): Hub {
    Hub(map[0 := Client(FRESH, "a", {}, {}, None), 1 := Client(Outbound([Presence("c", ["b"])], 1, false, []), "b", {"c"}, {}, None)],
        map["c" := map[1 := "b"]], map[], Stats(0, 1, 0, 2, 0, 2, 1, 0), 1)
  }

  function HangsUpOnce(): World {
    World(S.Reelect, None, (t: nat) => Move(0, t == 1), (t: nat, ids: set<nat>) => SortedIds(ids),
          (t: nat, names: set<string>) => SortedNames(names), (t: nat, names: set<string>) => SortedNames(names))
  }

  lemma OneView(who: string)
    ensures View([Presence("c", [who])], "c") == {who}
  {
    ViewAppend([], Presence("c", [who]), "c");
    assert [] + [Presence("c", [who])] == [Presence("c", [who])];
  }

  lemma TwoClientsIndexes()
    ensures IndexesAgree(TwoClients())
  {
    var h := TwoClients();
    assert forall id, channel :: Subscribed(h, id, channel) <==> id == 1 && channel == "c";
    assert forall id, channel :: id in P.Members(h.channels, channel) <==> id == 1 && channel == "c";
    assert 1 in h.channels["c"];
  }

  lemma TwoClientsAgree()
    ensures IndexesAgree(TwoClients()) && PrincipalsOnce(TwoClients()) && ViewsAgree(TwoClients())
  {
    TwoClientsIndexes();
    var h := TwoClients();
    OneView("b");
    assert P.Members(h.channels, "c") == map[1 := "b"];
    assert P.Principals(h.channels, "c") == {"b"};
    forall id, channel | Subscribed(h, id, channel) ensures id == 1 && channel == "c" { }
  }

  lemma FarewellIs(w: World, h: Hub, c: Client)
    requires w == HangsUpOnce()
    requires c.principal == "a" && c.subscriptions == {"c"} && c.sessions == {}
    ensures Farewell(w, h, 0, c) == [LeaveChannel(0, Some("a"), "c")] + [Closing]
  {
    var channels := w.channelOrder(h.tick, {"c"});
    assert IsListing(channels, {"c"}) && "c" in channels && channels == ["c"];
    assert IsListing(w.sessionOrder(h.tick, {}), {});
    assert Departures(0, "a", channels) == [LeaveChannel(0, Some("a"), "c")] + Departures(0, "a", []);
  }

  lemma LeaveLeavesB(channels: P.Channels)
    requires channels == map["c" := map[0 := "a", 1 := "b"]]
    ensures P.Leave(channels, "c", 0) == map["c" := map[1 := "b"]]
  {
    assert channels["c"] - {0} == map[1 := "b"];
    assert 1 in channels["c"] - {0};
  }

  lemma EnterAddsA(channels: P.Channels)
    requires channels == map["c" := map[1 := "b"]]
    ensures P.Join(channels, "c", 0, "a") == map["c" := map[0 := "a", 1 := "b"]]
  {
    assert channels["c"][0 := "a"] == map[0 := "a", 1 := "b"];
    assert 0 in channels["c"][0 := "a"];
  }

  lemma RunClosing(w: World, h: Hub)
    ensures var after := Run(w, h, [] + [Closing]);
            after.tick == h.tick && after.channels == h.channels && after.clients == h.clients
  {
    assert [] + [Closing] == [Closing] + [];
    RunFirst(w, h, Closing, []);
  }

  lemma SendPlays(w: World, h: Hub, msg: ServerMsg)
    requires w == HangsUpOnce() && h.tick > 1
    requires 1 in h.clients && h.clients[1].out.shed == [] && !h.clients[1].out.closed && |h.clients[1].out.sent| <= 10
    ensures var e := Perform(w, h, Send(1, msg)); var after := e.hub;
            e.todo == [] && after.tick > 1 && after.channels == h.channels && 1 in after.clients &&
            after.clients[1].subscriptions == h.clients[1].subscriptions &&
            after.clients[1].out.shed == [] && !after.clients[1].out.closed && |after.clients[1].out.sent| == |h.clients[1].out.sent| + 1
  {
  }

  lemma LeavePlays(w: World, h: Hub)
    requires h.channels == map["c" := map[0 := "a", 1 := "b"]]
    ensures var left := h.(channels := map["c" := map[1 := "b"]]);
            Perform(w, h, LeaveChannel(0, Some("a"), "c")) == Effect(left, Sends(Subscribers(w, left, "c"), 0, Left("c", "a")))
  {
    LeaveLeavesB(h.channels);
  }

  // After the farewell of a, b is still there and has taken note of it.
  lemma FarewellPlays(w: World, h: Hub, c: Client)
    requires w == HangsUpOnce() && h.tick > 1 && 0 !in h.clients && h.channels == map["c" := map[0 := "a", 1 := "b"]]
    requires c.principal == "a" && c.subscriptions == {"c"} && c.sessions == {}
    requires 1 in h.clients && h.clients[1].out.shed == [] && !h.clients[1].out.closed && |h.clients[1].out.sent| <= 9
    ensures var after := Run(w, h, Farewell(w, h, 0, c));
            after.tick > 1 && after.channels == map["c" := map[1 := "b"]] && 1 in after.clients &&
            after.clients[1].subscriptions == h.clients[1].subscriptions &&
            after.clients[1].out.shed == [] && !after.clients[1].out.closed && |after.clients[1].out.sent| <= 10
  {
    FarewellIs(w, h, c);
    LeavePlays(w, h);
    var left := h.(channels := map["c" := map[1 := "b"]]);
    RunFirst(w, h, LeaveChannel(0, Some("a"), "c"), [Closing]);
    LeftPlays(w, left);
  }

  lemma LeftPlays(w: World, h: Hub)
    requires w == HangsUpOnce() && h.tick > 1 && h.channels == map["c" := map[1 := "b"]]
    requires 1 in h.clients && h.clients[1].out.shed == [] && !h.clients[1].out.closed && |h.clients[1].out.sent| <= 9
    ensures var after := Run(w, h, Sends(Subscribers(w, h, "c"), 0, Left("c", "a")) + [Closing]);
            after.tick > 1 && after.channels == map["c" := map[1 := "b"]] && 1 in after.clients &&
            after.clients[1].subscriptions == h.clients[1].subscriptions &&
            after.clients[1].out.shed == [] && !after.clients[1].out.closed && |after.clients[1].out.sent| <= 10
  {
    AnnouncePlays(w, h, 0, Left("c", "a"), [Closing]);
    SendPlays(w, h, Left("c", "a"));
    RunClosing(w, Perform(w, h, Send(1, Left("c", "a"))).hub);
  }

  // Telling the channel tells b.
  lemma AnnouncePlays(w: World, h: Hub, except: ClientId, msg: ServerMsg, rest: seq<Task>)
    requires h.channels == map["c" := map[1 := "b"]] && except != 1
    ensures var todo := Sends(Subscribers(w, h, "c"), except, msg);
            todo == [Send(1, msg)] && Run(w, h, todo + rest) == Run(w, Perform(w, h, Send(1, msg)).hub, Perform(w, h, Send(1, msg)).todo + rest)
  {
    var ids := Subscribers(w, h, "c");
    assert P.Members(h.channels, "c").Keys == {1};
    assert 1 in ids && ids == [1];
    assert Sends(ids, except, msg) == [Send(1, msg)] + Sends([], except, msg);
    RunFirst(w, h, Send(1, msg), rest);
  }

  lemma NewsPlays(w: World, h: Hub)
    requires w == HangsUpOnce() && h.tick > 1 && h.channels == map["c" := map[1 := "b"]]
    requires Subscribed(h, 1, "c") && h.clients[1].out.shed == [] && !h.clients[1].out.closed && |h.clients[1].out.sent| <= 10
    ensures var after := Run(w, h, News(true, "c", 0, "a")); Subscribed(after, 1, "c") && Lossless(after, 1)
  {
    var news := News(true, "c", 0, "a");
    assert news == [news[0]] + [ChannelGauge];
    RunFirst(w, h, news[0], [ChannelGauge]);
    AnnouncePlays(w, h, 0, Joined("c", "a"), [ChannelGauge]);
    var told := Perform(w, h, Send(1, Joined("c", "a"))).hub;
    RunFirst(w, told, ChannelGauge, []);
  }

  // a enters the channel...
  lemma EnterPlays(h: Hub, e: Effect)
    requires h == TwoClients() && e == Admit(h, 0, "c")
    ensures e.hub.channels == map["c" := map[0 := "a", 1 := "b"]] && e.hub.tick == 1
    ensures e.hub.clients == map[0 := Client(FRESH, "a", {"c"}, {}, None), 1 := h.clients[1]]
    ensures e.todo == [Send(0, Presence("c", Snapshot(e.hub.channels, "c")))] + News(true, "c", 0, "a")
  {
    EnterAddsA(h.channels);
  }

  // ...and its own snapshot finds it gone.
  lemma SnapshotPlays(h: Hub, msg: ServerMsg)
    requires h.tick == 1 && h.channels == map["c" := map[0 := "a", 1 := "b"]]
    requires h.clients == map[0 := Client(FRESH, "a", {"c"}, {}, None), 1 := TwoClients().clients[1]]
    ensures var reaped := Perform(HangsUpOnce(), h, Send(0, msg));
            reaped.todo == Farewell(HangsUpOnce(), reaped.hub, 0, h.clients[0]) && reaped.hub.channels == h.channels &&
            reaped.hub.tick == 2 && reaped.hub.clients == map[1 := TwoClients().clients[1]]
  {
    assert map[0 := Client(FRESH, "a", {"c"}, {}, None), 1 := TwoClients().clients[1]] - {0} == map[1 := TwoClients().clients[1]];
  }

  lemma ExamplePlays(h: Hub, e: Effect)
    requires h == TwoClients() && e == Admit(h, 0, "c")
    ensures var after := Run(HangsUpOnce(), e.hub, e.todo); Subscribed(after, 1, "c") && Lossless(after, 1)
  {
    hide Run, Perform, Admit, Farewell, Snapshot;
    var w := HangsUpOnce();
    var news := News(true, "c", 0, "a");
    EnterPlays(h, e);
    var first := Send(0, Presence("c", Snapshot(e.hub.channels, "c")));
    SnapshotPlays(e.hub, first.msg);
    RunFirst(w, e.hub, first, news);
    var reaped := Perform(w, e.hub, first);
    FarewellPlays(w, reaped.hub, e.hub.clients[0]);
    RunConcat(w, reaped.hub, reaped.todo, news);
    NewsPlays(w, Run(w, reaped.hub, reaped.todo));
  }

  // From two clients whose views are right, one subscription leaves b believing in a.
  lemma GhostExample()
    ensures var w, h, cmd := HangsUpOnce(), TwoClients(), Subscribe(0, "c");
            IndexesAgree(h) && PrincipalsOnce(h) && ViewsAgree(h) && !ViewsAgree(Step(w, h, cmd, 0.0))
  {
    hide Run;
    var w, h, cmd := HangsUpOnce(), TwoClients(), Subscribe(0, "c");
    TwoClientsAgree();
    ExamplePlays(h, Admit(h, 0, "c"));
    GhostMember(w, h, 0, "c", 0.0);
    assert Step(w, h, cmd, 0.0) == Run(w, Admit(h, 0, "c").hub, Admit(h, 0, "c").todo);
    assert Subscribed(Step(w, h, cmd, 0.0), 1, "c") && Lossless(Step(w, h, cmd, 0.0), 1);
  }
}
