// Names of two connections: when one leaves a channel and the other stays, everybody told of it believes the
// principal absent. What a command does to the views, exactly.
module HubTorn {
  import opened Wrappers
  import opened Protocol
  import opened Listing
  import opened HubMachine
  import opened HubIndexes
  import opened HubViews
  import P = ChannelPresence
  import S = CoordinatorSessions

  // Would bring the name back into some view.
  predicate Affirms(t: Task, n: Name) {
    (t.Send? || t.Announce?) && (t.msg.Presence? || t.msg == Joined(n.channel, n.who))
  }

  ghost predicate NeverAffirms(agenda: seq<Task>, n: Name) { forall t <- agenda :: !Affirms(t, n) }

  // Nobody in the channel believes in the name, or will once all is said.
  ghost predicate Denied(h: Hub, agenda: seq<Task>, n: Name) {
    NeverAffirms(agenda, n) &&
    forall d :: Subscribed(h, d, n.channel) && Lossless(h, d) && Knows(h, d, n.channel, n.who) ==> Send(d, Left(n.channel, n.who)) in agenda
  }

  lemma PerformAffirmsNothing(w: World, h: Hub, task: Task, n: Name)
    requires !Affirms(task, n)
    ensures NeverAffirms(Perform(w, h, task).todo, n)
  {
    hide Quit, Deliver;
    match task
    case Send(id, msg) => DeliverAffirmsNothing(w, h, id, msg, n);
    case Evict(id, session) =>
      DeliverAffirmsNothing(w, h.(clients := DropSession(h.clients, id, session)), id, SessionClosed(session, "coordinator_left"), n);
    case Announce(channel, except, msg) => SendsOnly(Subscribers(w, h, channel), except, msg);
    case LeaveChannel(_, _, _) => LeaveOnlyTells(w, h, task);
    case QuitSession(id, session) => QuitOnlyTells(w, h, id, session);
    case _ =>
  }

  lemma DeliverAffirmsNothing(w: World, h: Hub, id: ClientId, msg: ServerMsg, n: Name)
    ensures NeverAffirms(Deliver(w, h, id, msg).todo, n)
  {
    OnlyReapingOwes(w, h, id, msg);
    if Deliver(w, h, id, msg).todo != [] { FarewellIsOf(w, h.(tick := h.tick + 1), id, h.clients[id]); }
  }

  // A frame that does not affirm the name teaches nobody of it, and its leave is believed.
  lemma DeliverDenies(w: World, h: Hub, id: ClientId, msg: ServerMsg, n: Name, d: ClientId)
    requires !msg.Presence? && msg != Joined(n.channel, n.who)
    requires var after := Deliver(w, h, id, msg).hub;
             Subscribed(after, d, n.channel) && Lossless(after, d) && Knows(after, d, n.channel, n.who)
    ensures Subscribed(h, d, n.channel) && Lossless(h, d) && Knows(h, d, n.channel, n.who) && !(d == id && msg == Left(n.channel, n.who))
  {
    SentFrames(w, h, id, msg, d);
    ViewAppend(h.clients[d].out.sent, msg, n.channel);
  }

  lemma PerformDenies(w: World, h: Hub, task: Task, rest: seq<Task>, n: Name)
    requires Denied(h, [task] + rest, n)
    ensures var e := Perform(w, h, task); Denied(e.hub, e.todo + rest, n)
  {
    var e := Perform(w, h, task);
    assert task in [task] + rest && forall t <- rest :: t in [task] + rest;
    PerformAffirmsNothing(w, h, task, n);
    var left := Left(n.channel, n.who);
    forall d | Subscribed(e.hub, d, n.channel) && Lossless(e.hub, d) && Knows(e.hub, d, n.channel, n.who) ensures Send(d, left) in e.todo + rest {
      KnewBefore(w, h, task, n, d);
      assert Send(d, left) in [task] + rest;
    }
  }

  lemma KnewBefore(w: World, h: Hub, task: Task, n: Name, d: ClientId)
    requires !Affirms(task, n)
    requires var after := Perform(w, h, task).hub;
             Subscribed(after, d, n.channel) && Lossless(after, d) && Knows(after, d, n.channel, n.who)
    ensures Subscribed(h, d, n.channel) && Lossless(h, d) && Knows(h, d, n.channel, n.who) && task != Send(d, Left(n.channel, n.who))
  {
    match task
    case Send(id, msg) => DeliverDenies(w, h, id, msg, n, d);
    case Evict(id, session) =>
      DeliverDenies(w, h.(clients := DropSession(h.clients, id, session)), id, SessionClosed(session, "coordinator_left"), n, d);
    case QuitSession(id, session) =>
      if S.IsMember(h.rooms, session, id) { QuitIsQuitted(w, h, id, session); }
    case _ =>
  }

  lemma {:induction false} RunDenies(w: World, h: Hub, agenda: seq<Task>, n: Name)
    requires Denied(h, agenda, n)
    ensures Denied(Run(w, h, agenda), [], n)
    decreases h.clients.Keys, Expanding(agenda), |agenda|
  {
    hide Denied, Perform;
    if agenda != [] {
      var e := Perform(w, h, agenda[0]);
      PerformProgress(w, h, agenda[0]);
      ExpandingConcat(e.todo, agenda[1..]);
      assert agenda == [agenda[0]] + agenda[1..];
      PerformDenies(w, h, agenda[0], agenda[1..], n);
      RunDenies(w, e.hub, e.todo + agenda[1..], n);
    }
  }

  predicate AnyName(n: Name) { true }

  ghost function AllNames(): iset<Name> { iset n: Name | AnyName(n) }

  // Only its own leave takes a member out of a channel.
  lemma OnlyLeavesTake(w: World, h: Hub, task: Task, channel: string, id: ClientId)
    requires Leaves(h.channels, Perform(w, h, task).hub.channels, channel, id)
    ensures task.LeaveChannel? && task.id == id && task.channel == channel
  {
    hide Deliver, Quit;
    match task
    case Send(x, msg) => DeliverShrinks(w, h, x, msg);
    case Evict(x, session) =>
      DeliverShrinks(w, h.(clients := DropSession(h.clients, x, session)), x, SessionClosed(session, "coordinator_left"));
    case LeaveChannel(x, _, left) => P.LeaveMembers(h.channels, left, x);
    case QuitSession(x, session) => QuitKeepsChannelsAsWere(w, h, x, session);
    case _ =>
  }

  lemma QuitKeepsChannelsAsWere(w: World, h: Hub, id: ClientId, session: string)
    ensures Quit(w, h, id, session).hub.channels == h.channels
  {
  }

  // The leave is announced to everybody left, so that nobody is left believing in the name.
  lemma LeaveDenies(w: World, h: Hub, task: Task, rest: seq<Task>, n: Name)
    requires task.LeaveChannel? && task.channel == n.channel && task.id in P.Members(h.channels, n.channel) && task.who == Some(n.who)
    requires NeverAffirms([task] + rest, n)
    requires var e := Perform(w, h, task); ChannelsOk(e.hub, e.todo + rest)
    ensures var e := Perform(w, h, task); Denied(e.hub, e.todo + rest, n)
  {
    var e := Perform(w, h, task);
    assert task in [task] + rest && forall t <- rest :: t in [task] + rest;
    PerformAffirmsNothing(w, h, task, n);
    P.LeaveMembers(h.channels, n.channel, task.id);
    SendsOnly(Subscribers(w, e.hub, n.channel), task.id, Left(n.channel, n.who));
    forall d | Subscribed(e.hub, d, n.channel) ensures Send(d, Left(n.channel, n.who)) in e.todo + rest {
      assert Listed(e.hub, d, n.channel);
    }
  }

  lemma {:induction false} RunTears(w: World, h: Hub, agenda: seq<Task>, n: Name, id: ClientId)
    requires Truthful(h, agenda, AllNames()) && NeverAffirms(agenda, n) && Coherent(h, agenda) && LeavesAreDue(h, agenda)
    requires Leaves(h.channels, Run(w, h, agenda).channels, n.channel, id) && P.Members(h.channels, n.channel)[id] == n.who
    ensures Denied(Run(w, h, agenda), [], n)
    decreases h.clients.Keys, Expanding(agenda), |agenda|
  {
    hide Perform, SeatsOk, Denied, Affirms, Sole, Subscribed, Listed;
    var task, rest := agenda[0], agenda[1..];
    assert agenda == [task] + rest;
    var e := Perform(w, h, task);
    PerformProgress(w, h, task);
    ExpandingConcat(e.todo, rest);
    RunShrinks(w, e.hub, e.todo + rest);
    AllNamesAreSole(h, Run(w, h, agenda).channels);
    PerformIsTruthful(w, h, task, rest, Run(w, h, agenda).channels, AllNames());
    PerformKeepsCoherent(w, h, task, rest);
    LeavesStayDue(w, h, task, rest);
    PerformAffirmsNothing(w, h, task, n);
    PerformShrinks(w, h, task);
    if id in P.Members(e.hub.channels, n.channel) {
      RunTears(w, e.hub, e.todo + rest, n, id);
    } else {
      OnlyLeavesTake(w, h, task, n.channel, id);
      LeaveDenies(w, h, task, rest, n);
      RunDenies(w, e.hub, e.todo + rest, n);
    }
  }

  lemma AllNamesAreSole(h: Hub, final: P.Channels)
    ensures Sole(h, final, AllNames())
  {
  }

  // The same when a snapshot goes first.
  lemma SnapshotTears(w: World, h: Hub, task: Task, rest: seq<Task>, n: Name, id: ClientId)
    requires task.Send? && task.msg.Presence?
    requires Truthful(h, rest, AllNames()) && NeverAffirms(rest, n) && Coherent(h, [task] + rest) && LeavesAreDue(h, [task] + rest)
    requires Leaves(h.channels, Run(w, h, [task] + rest).channels, n.channel, id) && P.Members(h.channels, n.channel)[id] == n.who
    ensures Denied(Run(w, h, [task] + rest), [], n)
  {
    hide Run, Denied, Coherent, LeavesAreDue, Sole, Affirms;
    var e := Perform(w, h, task);
    RunFirst(w, h, task, rest);
    PerformKeepsCoherent(w, h, task, rest);
    LeavesStayDue(w, h, task, rest);
    SubscribedAreListed(h, [task] + rest);
    FarewellIsTruthful(w, h, task.id, task.msg, AllNames());
    PerformShrinks(w, h, task);
    AllNamesAreSole(h, h.channels);
    ShrinkKeepsTruth(h, e.hub, rest, h.channels, AllNames());
    TruthfulConcat(e.hub, e.todo, rest, AllNames());
    DeliverAffirmsNothing(w, h, task.id, task.msg, n);
    DeliverShrinks(w, h, task.id, task.msg);
    RunTears(w, e.hub, e.todo + rest, n, id);
  }

  lemma SubscribedAreListed(h: Hub, agenda: seq<Task>)
    requires Coherent(h, agenda)
    ensures forall d, channel :: Subscribed(h, d, channel) ==> Listed(h, d, channel)
  {
  }

  // --- Command by command ---

  // The newcomer's own name, which its arrival affirms.
  ghost predicate Own(h: Hub, cmd: Command, now: real, n: Name) {
    Arrives(h, cmd, now) && n == Name(cmd.channel, h.clients[cmd.id].principal)
  }

  // A connection with the name left the channel within the command.
  ghost predicate LostBy(w: World, h: Hub, cmd: Command, now: real, n: Name) {
    exists id :: Leaves(Begin(w, h, cmd, now).hub.channels, Step(w, h, cmd, now).channels, n.channel, id) &&
      P.Members(Begin(w, h, cmd, now).hub.channels, n.channel)[id] == n.who
  }

  // Whenever a connection leaves a channel within a command, no lossless subscriber left there believes in its
  // principal afterwards, whether or not another connection of the principal stays.
  lemma LostNamesAreDenied(w: World, h: Hub, cmd: Command, now: real, n: Name)
    requires IndexesAgree(h) && FreshConnect(h, cmd) && LostBy(w, h, cmd, now, n) && !Own(h, cmd, now, n)
    ensures Denied(Step(w, h, cmd, now), [], n)
  {
    hide Denied, IndexesAgree, Coherent, LeavesAreDue, Truthful, Affirms, Run;
    var e := Begin(w, h, cmd, now);
    var id :| Leaves(e.hub.channels, Step(w, h, cmd, now).channels, n.channel, id) && P.Members(e.hub.channels, n.channel)[id] == n.who;
    BeginIsCoherent(w, h, cmd, now);
    if cmd.AskPresence? {
      NoTasks(e.hub, n);
      assert e.todo == [e.todo[0]] + [];
      SnapshotTears(w, e.hub, e.todo[0], [], n, id);
    } else if cmd.Subscribe? && cmd.id in h.clients && Charge(h, cmd.id, now).1 {
      SubscribeTears(w, h, cmd, now, n, id);
    } else {
      OtherBeginTasks(w, h, cmd, now, AllNames());
      OtherAffirmsNothing(e, n);
      RunTears(w, e.hub, e.todo, n, id);
    }
  }

  lemma NoTasks(h: Hub, n: Name)
    ensures Truthful(h, [], AllNames()) && NeverAffirms([], n)
  {
  }

  lemma OtherAffirmsNothing(e: Effect, n: Name)
    requires TrueAndNoArrivals(e, AllNames())
    ensures NeverAffirms(e.todo, n) && Truthful(e.hub, e.todo, AllNames())
  {
  }

  lemma SubscribeTears(w: World, h: Hub, cmd: Command, now: real, n: Name, id: ClientId)
    requires cmd.Subscribe? && cmd.id in h.clients && Charge(h, cmd.id, now).1 && !Own(h, cmd, now, n)
    requires var e := Begin(w, h, cmd, now); Coherent(e.hub, e.todo) && LeavesAreDue(e.hub, e.todo)
    requires Leaves(Begin(w, h, cmd, now).hub.channels, Step(w, h, cmd, now).channels, n.channel, id)
    requires P.Members(Begin(w, h, cmd, now).hub.channels, n.channel)[id] == n.who
    ensures Denied(Step(w, h, cmd, now), [], n)
  {
    hide Denied, Coherent, LeavesAreDue, Truthful, Run, Charge;
    var charged := Charge(h, cmd.id, now).0;
    ChargeShape(h, cmd.id, now);
    var e := Begin(w, h, cmd, now);
    var newly, who := cmd.id !in P.Members(h.channels, cmd.channel), h.clients[cmd.id].principal;
    var news := News(newly, cmd.channel, cmd.id, who);
    NewsIsTruthful(e.hub, newly, cmd.channel, cmd.id, who, AllNames());
    assert e.todo == [e.todo[0]] + news;
    assert NeverAffirms(news, n);
    SnapshotTears(w, e.hub, e.todo[0], news, n, id);
  }

  // --- Exactly what a command does to the views ---

  lemma TornIsLost(w: World, h: Hub, cmd: Command, now: real, n: Name)
    requires TornBy(w, h, cmd, now, n)
    ensures LostBy(w, h, cmd, now, n)
  {
    hide Begin, Step;
  }

  // Views that were right stay right if and only if no name was torn that is still present and has somebody
  // left to get it wrong. Only a newcomer's own name is left out: reaped in its step (GhostMember), or torn in it.
  lemma StepViewsIff(w: World, h: Hub, cmd: Command, now: real)
    requires IndexesAgree(h) && ViewsAgree(h) && FreshConnect(h, cmd)
    requires forall n :: !Stray(w, h, cmd, now, n) && !(TornBy(w, h, cmd, now, n) && Own(h, cmd, now, n))
    ensures var after := Step(w, h, cmd, now);
            ViewsAgree(after) <==>
            forall n, d :: TornBy(w, h, cmd, now, n) && Present(after, n.channel, n.who) ==> !(Subscribed(after, d, n.channel) && Lossless(after, d))
  {
    hide Step, Begin, TornBy, LostBy, Own, Arrives, IndexesAgree, Stray;
    var after := Step(w, h, cmd, now);
    ViewsAtRest(h);
    ViewsAtRest(after);
    StepViewsButUneasy(w, h, cmd, now, iset{});
    forall n | TornBy(w, h, cmd, now, n) ensures Denied(after, [], n) {
      TornIsLost(w, h, cmd, now, n);
      LostNamesAreDenied(w, h, cmd, now, n);
    }
    forall n, d | TornBy(w, h, cmd, now, n) && Subscribed(after, d, n.channel) && Lossless(after, d) ensures !Knows(after, d, n.channel, n.who) {
      assert Denied(after, [], n);
    }
    assert forall id, channel, who :: !Due([], id, channel, who);
    if ViewsAgree(after) {
      forall n, d | TornBy(w, h, cmd, now, n) && Present(after, n.channel, n.who) ensures !(Subscribed(after, d, n.channel) && Lossless(after, d)) {
        assert Subscribed(after, d, n.channel) && Lossless(after, d) ==> !Knows(after, d, n.channel, n.who);
      }
    }
    if forall n, d :: TornBy(w, h, cmd, now, n) && Present(after, n.channel, n.who) ==> !(Subscribed(after, d, n.channel) && Lossless(after, d)) {
      forall id, channel, who | Subscribed(after, id, channel) && Lossless(after, id)
        ensures Knows(after, id, channel, who) <==> Present(after, channel, who) {
        var n := Name(channel, who);
        if TornBy(w, h, cmd, now, n) { assert !Knows(after, id, n.channel, n.who); }
      }
      assert ViewsOk(after, [], iset{});
    }
  }

  // So it is whenever one of two connections of a principal leaves a channel by itself and the other lives
  // through it: that one, for one, is told its principal has left.
  lemma UnsubscribeTears(w: World, h: Hub, id: ClientId, other: ClientId, channel: string, now: real)
    requires IndexesAgree(h) && Subscribed(h, id, channel) && Subscribed(h, other, channel) && id != other
    requires h.clients[id].principal == h.clients[other].principal
    ensures var after := Step(w, h, Unsubscribe(id, channel), now); var n := Name(channel, h.clients[id].principal);
            other in after.clients ==>
              TornBy(w, h, Unsubscribe(id, channel), now, n) && Present(after, channel, n.who) && Subscribed(after, other, channel) &&
              (Lossless(after, other) ==> !Knows(after, other, channel, n.who) && !ViewsAgree(after))
  {
    hide Run, Denied, Lossless;
    var cmd, n := Unsubscribe(id, channel), Name(channel, h.clients[id].principal);
    var after, e := Step(w, h, cmd, now), Begin(w, h, cmd, now);
    StepKeepsIndexes(w, h, cmd, now);
    RunShrinks(w, e.hub, e.todo);
    if other in after.clients {
      assert Subscribed(after, other, channel);
      assert !Subscribed(after, id, channel);
      assert Leaves(h.channels, after.channels, channel, id) && Shares(h.channels, channel, id);
      TornIsLost(w, h, cmd, now, n);
      LostNamesAreDenied(w, h, cmd, now, n);
      if Lossless(after, other) { DeniedIsUnknown(after, n, other); }
      assert P.Members(after.channels, channel)[other] == n.who;
    }
  }

  lemma DeniedIsUnknown(h: Hub, n: Name, d: ClientId)
    requires Denied(h, [], n) && Subscribed(h, d, n.channel) && Lossless(h, d)
    ensures !Knows(h, d, n.channel, n.who)
  {
  }
}
