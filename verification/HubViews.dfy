// Snapshot plus deltas: what a client folds from its frames is who the hub says is present.
module HubViews {
  import opened Wrappers
  import opened Protocol
  import opened Listing
  import opened HubMachine
  import opened HubIndexes
  import P = ChannelPresence
  import S = CoordinatorSessions

  // --- The membership a receiver folds from the frames it was sent ---

  function Fold(view: set<string>, msg: ServerMsg, channel: string): set<string> {
    match msg
    case Joined(c, who) => if c == channel then view + {who} else view
    case Left(c, who) => if c == channel then view - {who} else view
    case Presence(c, members) => if c == channel then set m | m in members else view
    case _ => view
  }

  function View(frames: seq<ServerMsg>, channel: string): set<string> {
    if frames == [] then {} else Fold(View(frames[..|frames| - 1], channel), frames[|frames| - 1], channel)
  }

  lemma ViewAppend(frames: seq<ServerMsg>, msg: ServerMsg, channel: string)
    ensures View(frames + [msg], channel) == Fold(View(frames, channel), msg, channel)
  {
    assert (frames + [msg])[..|frames|] == frames;
  }

  ghost predicate Lossless(h: Hub, id: ClientId) {
    id in h.clients && h.clients[id].out.shed == []
  }

  // Every lossless subscriber's view is the channel's membership.
  ghost predicate ViewsAgree(h: Hub) {
    forall id, channel :: Subscribed(h, id, channel) && Lossless(h, id) ==>
      View(h.clients[id].out.sent, channel) == P.Principals(h.channels, channel)
  }

  // One connection per principal.
  ghost predicate PrincipalsOnce(h: Hub) {
    forall a <- h.clients, b <- h.clients :: a != b ==> h.clients[a].principal != h.clients[b].principal
  }

  // --- Mid-cascade: the views are right but for the announcements still owed ---

  predicate Settles(t: Task, id: ClientId, channel: string, who: string) {
    t == Send(id, Joined(channel, who)) || t == Send(id, Left(channel, who)) ||
    (t.Announce? && t.channel == channel && t.except != id && t.msg == Joined(channel, who))
  }

  ghost predicate Due(agenda: seq<Task>, id: ClientId, channel: string, who: string) {
    exists t <- agenda :: Settles(t, id, channel, who)
  }

  ghost predicate Present(h: Hub, channel: string, who: string) {
    who in P.Principals(h.channels, channel)
  }

  ghost predicate Knows(h: Hub, id: ClientId, channel: string, who: string)
    requires id in h.clients
  {
    who in View(h.clients[id].out.sent, channel)
  }

  // A principal in a channel.
  datatype Name = Name(channel: string, who: string)

  // The views are right up to the announcements owed, leaving out the names in skip.
  ghost predicate ViewsOk(h: Hub, agenda: seq<Task>, skip: iset<Name>) {
    forall id, channel, who :: Subscribed(h, id, channel) && Lossless(h, id) && Name(channel, who) !in skip && !Due(agenda, id, channel, who) ==>
      (Knows(h, id, channel, who) <==> Present(h, channel, who))
  }

  predicate Leaves(before: P.Channels, after: P.Channels, channel: string, id: ClientId) {
    id in P.Members(before, channel) && id !in P.Members(after, channel)
  }

  // Another member of the channel has the same name.
  ghost predicate Shares(channels: P.Channels, channel: string, id: ClientId)
    requires id in P.Members(channels, channel)
  {
    exists other <- P.Members(channels, channel) :: other != id && P.Members(channels, channel)[other] == P.Members(channels, channel)[id]
  }

  // Of two members with one name neither leaves before the end, but for the names in skip.
  ghost predicate Sole(h: Hub, final: P.Channels, skip: iset<Name>) {
    forall channel, a | Leaves(h.channels, final, channel, a) :: Shares(h.channels, channel, a) ==>
      Name(channel, P.Members(h.channels, channel)[a]) in skip
  }

  // What is still to be announced is true, and leaves name the right principal.
  ghost predicate Truthful(h: Hub, agenda: seq<Task>, skip: iset<Name>) {
    forall t <- agenda ::
      (t.Send? ==> !t.msg.Presence? && (t.msg.Left? ==> Name(t.msg.channel, t.msg.who) in skip || !Present(h, t.msg.channel, t.msg.who))) &&
      (t.Announce? ==> t.msg.Message? || (t.msg.Joined? && t.msg.channel == t.channel)) &&
      (t.LeaveChannel? && t.id in P.Members(h.channels, t.channel) ==> t.who == Some(P.Members(h.channels, t.channel)[t.id]))
  }

  // Announced joiners are present.
  ghost predicate JoinsHold(h: Hub, agenda: seq<Task>, skip: iset<Name>) {
    forall t <- agenda :: (t.Send? || t.Announce?) && t.msg.Joined? && Name(t.msg.channel, t.msg.who) !in skip ==>
      Present(h, t.msg.channel, t.msg.who)
  }

  lemma ViewsAtRest(h: Hub)
    ensures ViewsOk(h, [], iset{}) <==> ViewsAgree(h)
  {
    assert forall id, channel, who :: !Due([], id, channel, who);
    if ViewsOk(h, [], iset{}) {
      forall id, channel | Subscribed(h, id, channel) && Lossless(h, id)
        ensures View(h.clients[id].out.sent, channel) == P.Principals(h.channels, channel) {
        forall who ensures who in View(h.clients[id].out.sent, channel) <==> who in P.Principals(h.channels, channel) {
          assert Knows(h, id, channel, who) <==> Present(h, channel, who);
        }
      }
    }
  }

  // --- One task ---

  // Frames that say nothing about membership settle nothing and change no view.
  lemma SentKeepsViews(h: Hub, after: Hub, id: ClientId, msg: ServerMsg, task: Task, rest: seq<Task>, skip: iset<Name>)
    requires ViewsOk(h, [task] + rest, skip) && JoinsHold(h, [task] + rest, skip) && Truthful(h, [task] + rest, skip)
    requires id in h.clients && !msg.Presence?
    requires task == Send(id, msg) || (!task.Announce? && !task.Send? && !msg.Joined? && !msg.Left?)
    requires after.channels == h.channels && after.clients.Keys == h.clients.Keys
    requires forall d <- h.clients :: after.clients[d].subscriptions == h.clients[d].subscriptions
    requires forall d <- h.clients :: d != id ==> after.clients[d].out == h.clients[d].out
    requires after.clients[id].out.sent == h.clients[id].out.sent + [msg] && after.clients[id].out.shed == h.clients[id].out.shed
    ensures ViewsOk(after, rest, skip)
  {
    var agenda := [task] + rest;
    forall d, channel, who | Subscribed(after, d, channel) && Lossless(after, d) && Name(channel, who) !in skip && !Due(rest, d, channel, who)
      ensures Knows(after, d, channel, who) <==> Present(after, channel, who) {
      assert Subscribed(h, d, channel) && Lossless(h, d);
      ViewAppend(h.clients[id].out.sent, msg, channel);
      if Settles(task, d, channel, who) {
        assert d == id && task in agenda;
      } else {
        assert !Due(agenda, d, channel, who);
        assert Knows(h, d, channel, who) <==> Present(h, channel, who);
      }
    }
  }

  lemma SubsetKeepsViews(h: Hub, after: Hub, agenda: seq<Task>, next: seq<Task>, skip: iset<Name>)
    requires ViewsOk(h, agenda, skip) && after.channels == h.channels
    requires forall id, channel :: Subscribed(after, id, channel) ==> Subscribed(h, id, channel)
    requires forall id, channel :: Subscribed(after, id, channel) && Lossless(after, id) ==>
               Lossless(h, id) && after.clients[id].out.sent == h.clients[id].out.sent
    requires forall id, channel, who :: Subscribed(after, id, channel) && Lossless(after, id) && Due(agenda, id, channel, who) ==> Due(next, id, channel, who)
    ensures ViewsOk(after, next, skip)
  {
  }

  lemma DueInRest(todo: seq<Task>, rest: seq<Task>, id: ClientId, channel: string, who: string)
    ensures Due(rest, id, channel, who) ==> Due(todo + rest, id, channel, who)
  {
    if Due(rest, id, channel, who) {
      var t :| t in rest && Settles(t, id, channel, who);
      assert t in todo + rest;
    }
  }

  lemma DeliverKeepsViews(w: World, h: Hub, id: ClientId, msg: ServerMsg, task: Task, rest: seq<Task>, skip: iset<Name>)
    requires ViewsOk(h, [task] + rest, skip) && JoinsHold(h, [task] + rest, skip) && Truthful(h, [task] + rest, skip)
    requires !msg.Presence?
    requires task == Send(id, msg) || (!task.Announce? && !task.Send? && !msg.Joined? && !msg.Left?)
    ensures var e := Deliver(w, h, id, msg); ViewsOk(e.hub, e.todo + rest, skip)
  {
    var e := Deliver(w, h, id, msg);
    if id in h.clients && TryDeliver(Disturb(h.clients[id].out, w.move(h.tick)), msg).1.Sent? {
      SentKeepsViews(h, e.hub, id, msg, task, rest, skip);
      assert e.todo + rest == rest;
    } else {
      forall d, channel, who | Subscribed(e.hub, d, channel) && Lossless(e.hub, d) && Due([task] + rest, d, channel, who)
        ensures Due(e.todo + rest, d, channel, who) {
        var t :| t in [task] + rest && Settles(t, d, channel, who);
        assert d != id;
        assert t in rest && t in e.todo + rest;
      }
      SubsetKeepsViews(h, e.hub, [task] + rest, e.todo + rest, skip);
    }
  }

  lemma AnnounceKeepsViews(w: World, h: Hub, task: Task, rest: seq<Task>, skip: iset<Name>)
    requires task.Announce? && ViewsOk(h, [task] + rest, skip) && ChannelsOk(h, [task] + rest)
    ensures var e := Perform(w, h, task); ViewsOk(e.hub, e.todo + rest, skip)
  {
    var e := Perform(w, h, task);
    SendsOnly(Subscribers(w, h, task.channel), task.except, task.msg);
    forall d, channel, who | Subscribed(h, d, channel) && Due([task] + rest, d, channel, who)
      ensures Due(e.todo + rest, d, channel, who) {
      var t :| t in [task] + rest && Settles(t, d, channel, who);
      if t == task {
        assert Listed(h, d, channel);
        assert Send(d, task.msg) in e.todo + rest && Settles(Send(d, task.msg), d, channel, who);
      } else {
        assert t in e.todo + rest;
      }
    }
    SubsetKeepsViews(h, e.hub, [task] + rest, e.todo + rest, skip);
  }

  lemma DueWhenKept(agenda: seq<Task>, task: Task, todo: seq<Task>, rest: seq<Task>, id: ClientId, channel: string, who: string)
    requires agenda == [task] + rest && !Settles(task, id, channel, who)
    ensures Due(agenda, id, channel, who) ==> Due(todo + rest, id, channel, who)
  {
    if Due(agenda, id, channel, who) {
      var t :| t in agenda && Settles(t, id, channel, who);
      assert t in rest && t in todo + rest;
    }
  }

  lemma MemberLeavesViews(w: World, h: Hub, task: Task, rest: seq<Task>, d: ClientId, channel: string, who: string, skip: iset<Name>)
    requires task.LeaveChannel? && ViewsOk(h, [task] + rest, skip) && Listed(h, d, channel)
    requires task.id in P.Members(h.channels, task.channel)
    requires task.who == Some(P.Members(h.channels, task.channel)[task.id])
    requires !(d == task.id && channel == task.channel)
    requires Subscribed(h, d, channel) && Lossless(h, d) && Name(channel, who) !in skip
    ensures var e := Perform(w, h, task);
            Due(e.todo + rest, d, channel, who) || (Knows(h, d, channel, who) <==> Present(e.hub, channel, who))
  {
    var e := Perform(w, h, task);
    var gone := P.Members(h.channels, task.channel)[task.id];
    P.LeaveMembers(h.channels, task.channel, task.id);
    SendsOnly(Subscribers(w, e.hub, task.channel), task.id, Left(task.channel, gone));
    if channel == task.channel && who == gone {
      var t := Send(d, Left(channel, gone));
      assert d in P.Members(e.hub.channels, channel);
      assert t in e.todo + rest && Settles(t, d, channel, who);
    } else {
      LeaveKeepsOthers(h, task.channel, task.id, channel, who);
      DueWhenKept([task] + rest, task, e.todo, rest, d, channel, who);
    }
  }

  lemma NonMemberLeavesViews(w: World, h: Hub, task: Task, rest: seq<Task>, d: ClientId, channel: string, who: string, skip: iset<Name>)
    requires task.LeaveChannel? && ViewsOk(h, [task] + rest, skip)
    requires task.id !in P.Members(h.channels, task.channel)
    requires Subscribed(h, d, channel) && Lossless(h, d) && Name(channel, who) !in skip
    ensures var e := Perform(w, h, task);
            Due(e.todo + rest, d, channel, who) || (Knows(h, d, channel, who) <==> Present(e.hub, channel, who))
  {
    var e := Perform(w, h, task);
    P.LeaveMembers(h.channels, task.channel, task.id);
    assert P.Members(h.channels, channel) == P.Members(e.hub.channels, channel);
    DueWhenKept([task] + rest, task, e.todo, rest, d, channel, who);
  }

  lemma LeaveKeepsViews(w: World, h: Hub, task: Task, rest: seq<Task>, skip: iset<Name>)
    requires task.LeaveChannel? && ViewsOk(h, [task] + rest, skip) && ChannelsOk(h, [task] + rest)
    requires Truthful(h, [task] + rest, skip) && !Subscribed(h, task.id, task.channel)
    ensures var e := Perform(w, h, task); ViewsOk(e.hub, e.todo + rest, skip)
  {
    var e := Perform(w, h, task);
    assert task in [task] + rest;
    forall d, channel, who | Subscribed(e.hub, d, channel) && Lossless(e.hub, d) && Name(channel, who) !in skip && !Due(e.todo + rest, d, channel, who)
      ensures Knows(e.hub, d, channel, who) <==> Present(e.hub, channel, who) {
      assert Subscribed(h, d, channel) && Listed(h, d, channel) && Lossless(h, d);
      if task.id in P.Members(h.channels, task.channel) {
        MemberLeavesViews(w, h, task, rest, d, channel, who, skip);
      } else {
        NonMemberLeavesViews(w, h, task, rest, d, channel, who, skip);
      }
    }
  }

  // A leave takes at most the leaver's principal out of the channel...
  lemma LeaveKeepsOthers(h: Hub, left: string, id: ClientId, channel: string, who: string)
    requires id in P.Members(h.channels, left) && !(channel == left && who == P.Members(h.channels, left)[id])
    ensures who in P.Principals(P.Leave(h.channels, left, id), channel) <==> who in P.Principals(h.channels, channel)
  {
    P.LeaveMembers(h.channels, left, id);
    var before, after := P.Members(h.channels, channel), P.Members(P.Leave(h.channels, left, id), channel);
    if who in before.Values {
      var c :| c in before && before[c] == who;
      assert c in after && after[c] == who;
    }
    if who in after.Values {
      var c :| c in after && after[c] == who;
      assert c in before && before[c] == who;
    }
  }

  // ...and does take it, if no other member has it.
  lemma LeaveTakesLast(h: Hub, channel: string, id: ClientId, final: P.Channels, skip: iset<Name>)
    requires id in P.Members(h.channels, channel) && id !in P.Members(final, channel) && Sole(h, final, skip)
    requires Name(channel, P.Members(h.channels, channel)[id]) !in skip
    ensures P.Members(h.channels, channel)[id] !in P.Principals(P.Leave(h.channels, channel, id), channel)
  {
    P.LeaveMembers(h.channels, channel, id);
    var after := P.Members(P.Leave(h.channels, channel, id), channel);
    assert Leaves(h.channels, final, channel, id) && !Shares(h.channels, channel, id);
    forall c | c in after ensures after[c] != P.Members(h.channels, channel)[id] {
      assert c != id && c in P.Members(h.channels, channel);
    }
  }

  lemma QuietKeepsViews(h: Hub, after: Hub, task: Task, todo: seq<Task>, rest: seq<Task>, skip: iset<Name>)
    requires ViewsOk(h, [task] + rest, skip) && !task.Send? && !task.Announce?
    requires after.channels == h.channels && after.clients.Keys == h.clients.Keys
    requires forall d <- h.clients :: after.clients[d].subscriptions == h.clients[d].subscriptions && after.clients[d].out == h.clients[d].out
    ensures ViewsOk(after, todo + rest, skip)
  {
    forall d, channel, who | Due([task] + rest, d, channel, who) ensures Due(todo + rest, d, channel, who) {
      var t :| t in [task] + rest && Settles(t, d, channel, who);
      assert t in todo + rest;
    }
    SubsetKeepsViews(h, after, [task] + rest, todo + rest, skip);
  }

  lemma PerformKeepsViews(w: World, h: Hub, task: Task, rest: seq<Task>, skip: iset<Name>)
    requires ViewsOk(h, [task] + rest, skip) && JoinsHold(h, [task] + rest, skip) && Truthful(h, [task] + rest, skip)
    requires ChannelsOk(h, [task] + rest) && LeavesAreDue(h, [task] + rest)
    ensures var e := Perform(w, h, task); ViewsOk(e.hub, e.todo + rest, skip)
  {
    var e := Perform(w, h, task);
    assert task in [task] + rest;
    match task
    case Send(id, msg) => DeliverKeepsViews(w, h, id, msg, task, rest, skip);
    case Announce(_, _, _) => AnnounceKeepsViews(w, h, task, rest, skip);
    case LeaveChannel(_, _, _) => LeaveKeepsViews(w, h, task, rest, skip);
    case QuitSession(_, _) => QuietKeepsViews(h, e.hub, task, e.todo, rest, skip);
    case Evict(id, session) => EvictKeepsViews(w, h, task, rest, skip);
    case Closing => QuietKeepsViews(h, e.hub, task, e.todo, rest, skip);
    case ChannelGauge => QuietKeepsViews(h, e.hub, task, e.todo, rest, skip);
    case SessionGauge => QuietKeepsViews(h, e.hub, task, e.todo, rest, skip);
  }

  lemma EvictKeepsViews(w: World, h: Hub, task: Task, rest: seq<Task>, skip: iset<Name>)
    requires task.Evict? && ViewsOk(h, [task] + rest, skip) && JoinsHold(h, [task] + rest, skip) && Truthful(h, [task] + rest, skip)
    ensures var e := Perform(w, h, task); ViewsOk(e.hub, e.todo + rest, skip)
  {
    var dropped := h.(clients := DropSession(h.clients, task.id, task.session));
    QuietKeepsViews(h, dropped, task, [task], rest, skip);
    DeliverKeepsViews(w, dropped, task.id, SessionClosed(task.session, "coordinator_left"), task, rest, skip);
  }

  // --- Truthfulness along the way ---

  lemma ShrinkKeepsTruth(h: Hub, after: Hub, agenda: seq<Task>, final: P.Channels, skip: iset<Name>)
    requires Truthful(h, agenda, skip) && Sole(h, final, skip) && ChannelsShrunk(h.channels, after.channels)
    ensures Truthful(after, agenda, skip) && Sole(after, final, skip)
  {
    forall channel, who | Present(after, channel, who) ensures Present(h, channel, who) {
      var c :| c in P.Members(after.channels, channel) && P.Members(after.channels, channel)[c] == who;
      assert c in P.Members(h.channels, channel);
    }
    forall channel, a | Leaves(after.channels, final, channel, a) && Shares(after.channels, channel, a)
      ensures Name(channel, P.Members(after.channels, channel)[a]) in skip {
      assert Leaves(h.channels, final, channel, a) && Shares(h.channels, channel, a);
    }
  }

  lemma PerformIsTruthful(w: World, h: Hub, task: Task, rest: seq<Task>, final: P.Channels, skip: iset<Name>)
    requires Truthful(h, [task] + rest, skip) && Sole(h, final, skip) && ChannelsOk(h, [task] + rest)
    requires ChannelsShrunk(Perform(w, h, task).hub.channels, final)
    ensures var e := Perform(w, h, task); Truthful(e.hub, e.todo + rest, skip) && Sole(e.hub, final, skip)
    ensures forall t <- Perform(w, h, task).todo :: (t.Send? || t.Announce?) && t.msg.Joined? ==> task.Announce? && t.msg == task.msg
  {
    var e := Perform(w, h, task);
    PerformShrinks(w, h, task);
    ShrinkKeepsTruth(h, e.hub, [task] + rest, final, skip);
    assert task in [task] + rest;
    NewTasksAreTruthful(w, h, task, final, skip);
    forall t <- e.todo + rest ensures Truthful(e.hub, [t], skip) {
      if t in rest { assert t in [task] + rest; } else { assert t in e.todo; }
    }
    assert forall t <- e.todo + rest :: t in [t];
  }

  lemma LeaveIsTruthful(w: World, h: Hub, task: Task, final: P.Channels, skip: iset<Name>)
    requires task.LeaveChannel? && Truthful(h, [task], skip) && Sole(h, final, skip) && ChannelsShrunk(Perform(w, h, task).hub.channels, final)
    ensures var e := Perform(w, h, task); Truthful(e.hub, e.todo, skip)
    ensures forall t <- Perform(w, h, task).todo :: t.Send? && t.msg.Left?
  {
    var e := Perform(w, h, task);
    assert task in [task];
    LeaveOnlyTells(w, h, task);
    if e.todo != [] {
      P.LeaveMembers(h.channels, task.channel, task.id);
      if Name(task.channel, task.who.value) !in skip { LeaveTakesLast(h, task.channel, task.id, final, skip); }
    }
  }

  lemma NewTasksAreTruthful(w: World, h: Hub, task: Task, final: P.Channels, skip: iset<Name>)
    requires Truthful(h, [task], skip) && Sole(h, final, skip) && forall id, channel :: Subscribed(h, id, channel) ==> Listed(h, id, channel)
    requires ChannelsShrunk(Perform(w, h, task).hub.channels, final)
    ensures var e := Perform(w, h, task); Truthful(e.hub, e.todo, skip)
    ensures forall t <- Perform(w, h, task).todo :: (t.Send? || t.Announce?) && t.msg.Joined? ==> task.Announce? && t.msg == task.msg
  {
    var e := Perform(w, h, task);
    assert task in [task];
    match task
    case Send(id, msg) => FarewellIsTruthful(w, h, id, msg, skip);
    case Evict(id, session) =>
      var dropped := h.(clients := DropSession(h.clients, id, session));
      forall x, channel | Subscribed(dropped, x, channel) ensures Listed(dropped, x, channel) {
        assert Subscribed(h, x, channel) && Listed(h, x, channel);
      }
      FarewellIsTruthful(w, dropped, id, SessionClosed(session, "coordinator_left"), skip);
    case Announce(channel, except, msg) => SendsOnly(Subscribers(w, h, channel), except, msg);
    case LeaveChannel(id, who, channel) =>
      LeaveIsTruthful(w, h, task, final, skip);
    case QuitSession(id, session) => QuitIsTruthful(w, h, id, session, skip);
    case Closing =>
    case ChannelGauge =>
    case SessionGauge =>
  }

  lemma FarewellTasksAreTruthful(w: World, h: Hub, after: Hub, id: ClientId, skip: iset<Name>)
    requires id in h.clients && after.channels == h.channels
    requires forall channel <- h.clients[id].subscriptions :: Listed(h, id, channel)
    ensures var f := Farewell(w, h, id, h.clients[id]);
            Truthful(after, f, skip) && forall t <- f :: !t.Send? && !t.Announce?
  {
    var c := h.clients[id];
    FarewellIsOf(w, h, id, c);
    forall t <- Farewell(w, h, id, c) | t.LeaveChannel? ensures t.who == Some(c.principal) && Listed(h, id, t.channel) && t.id == id {
    }
  }

  lemma FarewellIsTruthful(w: World, h: Hub, id: ClientId, msg: ServerMsg, skip: iset<Name>)
    requires forall d, channel :: Subscribed(h, d, channel) ==> Listed(h, d, channel)
    ensures var e := Deliver(w, h, id, msg);
            Truthful(e.hub, e.todo, skip) && forall t <- e.todo :: !t.Send? && !t.Announce?
  {
    var e := Deliver(w, h, id, msg);
    if id in h.clients && id !in e.hub.clients {
      var later := h.(tick := h.tick + 1);
      forall channel <- h.clients[id].subscriptions ensures Listed(later, id, channel) {
        assert Subscribed(h, id, channel) && Listed(h, id, channel);
      }
      FarewellTasksAreTruthful(w, later, e.hub, id, skip);
    }
  }

  lemma QuitIsTruthful(w: World, h: Hub, id: ClientId, session: string, skip: iset<Name>)
    ensures var e := Quit(w, h, id, session); Truthful(e.hub, e.todo, skip)
    ensures forall t <- Quit(w, h, id, session).todo :: !t.Announce? && (t.Send? ==> !t.msg.Joined?)
  {
    QuitOnlyTells(w, h, id, session);
  }

  // --- Through a whole cascade ---

  // The views end up right for every name whose announced arrival is still true in the end.
  lemma {:induction false} RunKeepsViews(w: World, h: Hub, agenda: seq<Task>, skip: iset<Name>)
    requires ViewsOk(h, agenda, skip) && Truthful(h, agenda, skip) && Sole(h, Run(w, h, agenda).channels, skip)
    requires Coherent(h, agenda) && LeavesAreDue(h, agenda)
    requires JoinsHold(Run(w, h, agenda), agenda, skip)
    ensures ViewsOk(Run(w, h, agenda), [], skip)
    decreases h.clients.Keys, Expanding(agenda), |agenda|
  {
    if agenda == [] {
      return;
    }
    var task, rest := agenda[0], agenda[1..];
    assert agenda == [task] + rest;
    var e := Perform(w, h, task);
    var final := Run(w, h, agenda);
    PerformProgress(w, h, task);
    ExpandingConcat(e.todo, rest);
    JoinsHeldSoFar(w, h, agenda, skip);
    PerformKeepsViews(w, h, task, rest, skip);
    RunShrinks(w, e.hub, e.todo + rest);
    PerformIsTruthful(w, h, task, rest, final.channels, skip);
    PerformKeepsCoherent(w, h, task, rest);
    LeavesStayDue(w, h, task, rest);
    forall t <- e.todo + rest | (t.Send? || t.Announce?) && t.msg.Joined? && Name(t.msg.channel, t.msg.who) !in skip
      ensures Present(final, t.msg.channel, t.msg.who) {
      if t in rest { assert t in agenda; } else { assert t in e.todo && task in agenda; }
    }
    RunKeepsViews(w, e.hub, e.todo + rest, skip);
  }

  lemma JoinsHeldSoFar(w: World, h: Hub, agenda: seq<Task>, skip: iset<Name>)
    requires JoinsHold(Run(w, h, agenda), agenda, skip)
    ensures JoinsHold(h, agenda, skip)
  {
    RunShrinks(w, h, agenda);
    var final := Run(w, h, agenda);
    forall channel, who | Present(final, channel, who) ensures Present(h, channel, who) {
      var c :| c in P.Members(final.channels, channel) && P.Members(final.channels, channel)[c] == who;
      assert c in P.Members(h.channels, channel);
    }
  }

  // --- Commands ---

  // Which commands announce a new arrival.
  ghost predicate Arrives(h: Hub, cmd: Command, now: real) {
    cmd.Subscribe? && cmd.id in h.clients && Charge(h, cmd.id, now).1 && cmd.id !in P.Members(h.channels, cmd.channel)
  }

  lemma SentFrames(w: World, h: Hub, id: ClientId, msg: ServerMsg, d: ClientId)
    requires d in Deliver(w, h, id, msg).hub.clients && Lossless(Deliver(w, h, id, msg).hub, d)
    ensures var after := Deliver(w, h, id, msg).hub;
            Lossless(h, d) && after.clients[d].subscriptions == h.clients[d].subscriptions && after.channels == h.channels &&
            after.clients[d].out.sent == if d == id then h.clients[d].out.sent + [msg] else h.clients[d].out.sent
  {
  }

  lemma FoldSnapshot(view: set<string>, channels: P.Channels, channel: string, c: string)
    ensures Fold(view, Presence(channel, Snapshot(channels, channel)), c) == if c == channel then P.Principals(channels, channel) else view
  {
    var members := Snapshot(channels, channel);
    assert (set m | m in members) == P.Principals(channels, channel);
  }

  // A membership snapshot puts its receiver's view right in one frame.
  lemma SnapshotKeepsViews(w: World, h: Hub, id: ClientId, channel: string, rest: seq<Task>, skip: iset<Name>)
    requires forall d, c, who :: Subscribed(h, d, c) && Lossless(h, d) && !(d == id && c == channel) && Name(c, who) !in skip && !Due(rest, d, c, who) ==>
               (Knows(h, d, c, who) <==> Present(h, c, who))
    ensures var e := Deliver(w, h, id, Presence(channel, Snapshot(h.channels, channel))); ViewsOk(e.hub, e.todo + rest, skip)
  {
    var msg := Presence(channel, Snapshot(h.channels, channel));
    var e := Deliver(w, h, id, msg);
    forall d, c, who | Subscribed(e.hub, d, c) && Lossless(e.hub, d) && Name(c, who) !in skip && !Due(e.todo + rest, d, c, who)
      ensures Knows(e.hub, d, c, who) <==> Present(e.hub, c, who) {
      DueInRest(e.todo, rest, d, c, who);
      SentFrames(w, h, id, msg, d);
      ViewAppend(h.clients[d].out.sent, msg, c);
      FoldSnapshot(View(h.clients[d].out.sent, c), h.channels, channel, c);
      assert Subscribed(h, d, c);
    }
  }

  lemma SnapshotRun(w: World, h: Hub, id: ClientId, channel: string, rest: seq<Task>, skip: iset<Name>)
    requires forall d, c, who :: Subscribed(h, d, c) && Lossless(h, d) && !(d == id && c == channel) && Name(c, who) !in skip && !Due(rest, d, c, who) ==>
               (Knows(h, d, c, who) <==> Present(h, c, who))
    requires Truthful(h, rest, skip) && LeavesAreDue(h, rest)
    requires Sole(h, Run(w, h, [Send(id, Presence(channel, Snapshot(h.channels, channel)))] + rest).channels, skip)
    requires Coherent(h, [Send(id, Presence(channel, Snapshot(h.channels, channel)))] + rest)
    requires JoinsHold(Run(w, h, [Send(id, Presence(channel, Snapshot(h.channels, channel)))] + rest), rest, skip)
    ensures ViewsOk(Run(w, h, [Send(id, Presence(channel, Snapshot(h.channels, channel)))] + rest), [], skip)
  {
    var task := Send(id, Presence(channel, Snapshot(h.channels, channel)));
    var e := Perform(w, h, task);
    RunFirst(w, h, task, rest);
    SnapshotKeepsViews(w, h, id, channel, rest, skip);
    PerformKeepsCoherent(w, h, task, rest);
    LeavesStayDue(w, h, task, rest);
    FarewellIsTruthful(w, h, id, task.msg, skip);
    PerformShrinks(w, h, task);
    ShrinkKeepsTruth(h, e.hub, rest, Run(w, h, [task] + rest).channels, skip);
    TruthfulConcat(e.hub, e.todo, rest, skip);
    RunKeepsViews(w, e.hub, e.todo + rest, skip);
  }

  lemma TruthfulConcat(h: Hub, a: seq<Task>, b: seq<Task>, skip: iset<Name>)
    requires Truthful(h, a, skip) && Truthful(h, b, skip)
    ensures Truthful(h, a + b, skip)
  {
  }

  lemma NewsIsTruthful(h: Hub, newly: bool, channel: string, id: ClientId, principal: string, skip: iset<Name>)
    ensures Truthful(h, News(newly, channel, id, principal), skip)
  {
  }

  lemma NewsHolds(final: Hub, newly: bool, channel: string, id: ClientId, principal: string, skip: iset<Name>)
    requires newly && Name(channel, principal) !in skip ==> Present(final, channel, principal)
    ensures JoinsHold(final, News(newly, channel, id, principal), skip)
  {
  }

  lemma NewsOwesNothing(h: Hub, newly: bool, channel: string, id: ClientId, principal: string)
    ensures LeavesAreDue(h, News(newly, channel, id, principal))
  {
  }

  // Entering a channel, for a client the rate limiter let through.
  lemma AdmitKeepsViews(w: World, h: Hub, id: ClientId, channel: string, skip: iset<Name>)
    requires IndexesAgree(h) && ViewsOk(h, [], skip) && id in h.clients
    requires var e := Admit(h, id, channel);
             Coherent(e.hub, e.todo) && Sole(e.hub, Run(w, e.hub, e.todo).channels, skip) &&
             (id !in P.Members(h.channels, channel) && Name(channel, h.clients[id].principal) !in skip ==> Present(Run(w, e.hub, e.todo), channel, h.clients[id].principal))
    ensures var e := Admit(h, id, channel); ViewsOk(Run(w, e.hub, e.todo), [], skip)
  {
    AdmitBeginViews(h, id, channel, skip);
    var newly := id !in P.Members(h.channels, channel);
    var e := Admit(h, id, channel);
    AdmitRunViews(w, e.hub, id, channel, newly, h.clients[id].principal, skip);
  }

  lemma AdmitRunViews(w: World, h: Hub, id: ClientId, channel: string, newly: bool, principal: string, skip: iset<Name>)
    requires var rest := News(newly, channel, id, principal);
             forall d, c, who :: Subscribed(h, d, c) && Lossless(h, d) && !(d == id && c == channel) && Name(c, who) !in skip && !Due(rest, d, c, who) ==>
               (Knows(h, d, c, who) <==> Present(h, c, who))
    requires Sole(h, Run(w, h, [Send(id, Presence(channel, Snapshot(h.channels, channel)))] + News(newly, channel, id, principal)).channels, skip)
    requires Coherent(h, [Send(id, Presence(channel, Snapshot(h.channels, channel)))] + News(newly, channel, id, principal))
    requires newly && Name(channel, principal) !in skip ==> Present(Run(w, h, [Send(id, Presence(channel, Snapshot(h.channels, channel)))] + News(newly, channel, id, principal)), channel, principal)
    ensures ViewsOk(Run(w, h, [Send(id, Presence(channel, Snapshot(h.channels, channel)))] + News(newly, channel, id, principal)), [], skip)
  {
    var rest := News(newly, channel, id, principal);
    NewsIsTruthful(h, newly, channel, id, principal, skip);
    NewsOwesNothing(h, newly, channel, id, principal);
    NewsHolds(Run(w, h, [Send(id, Presence(channel, Snapshot(h.channels, channel)))] + rest), newly, channel, id, principal, skip);
    SnapshotRun(w, h, id, channel, rest, skip);
  }

  lemma AdmitBeginViews(h: Hub, id: ClientId, channel: string, skip: iset<Name>)
    requires IndexesAgree(h) && ViewsOk(h, [], skip) && id in h.clients
    ensures var e := Admit(h, id, channel);
            var rest := News(id !in P.Members(h.channels, channel), channel, id, h.clients[id].principal);
            forall d, c, who :: Subscribed(e.hub, d, c) && Lossless(e.hub, d) && !(d == id && c == channel) && Name(c, who) !in skip && !Due(rest, d, c, who) ==>
              (Knows(e.hub, d, c, who) <==> Present(e.hub, c, who))
  {
    var e := Admit(h, id, channel);
    var principal := h.clients[id].principal;
    var newly := id !in P.Members(h.channels, channel);
    var rest := News(newly, channel, id, principal);
    P.JoinMembers(h.channels, channel, id, principal);
    forall d, c, who | Subscribed(e.hub, d, c) && Lossless(e.hub, d) && !(d == id && c == channel) && Name(c, who) !in skip && !Due(rest, d, c, who)
      ensures Knows(e.hub, d, c, who) <==> Present(e.hub, c, who) {
      assert Subscribed(h, d, c) && Lossless(h, d) && !Due([], d, c, who);
      assert Knows(h, d, c, who) <==> Present(h, c, who);
      if c == channel {
        assert !newly ==> Subscribed(h, id, channel);
        JoinAddsOnePrincipal(h, channel, id, principal, who);
        assert newly ==> Settles(rest[0], d, channel, principal) && rest[0] in rest;
      }
    }
  }

  lemma ChargeKeepsViews(h: Hub, id: ClientId, now: real, skip: iset<Name>)
    requires ViewsOk(h, [], skip)
    ensures var charged := Charge(h, id, now).0;
            ViewsOk(charged, [], skip) && charged.channels == h.channels && charged.clients.Keys == h.clients.Keys &&
            (id in h.clients ==> charged.clients[id].principal == h.clients[id].principal)
  {
    var charged := Charge(h, id, now).0;
    assert forall d, c :: Subscribed(charged, d, c) <==> Subscribed(h, d, c);
    assert forall d :: Lossless(charged, d) <==> Lossless(h, d);
  }

  // A newcomer's own name, if the newcomer is reaped before everybody has been told of it.
  ghost predicate Stray(w: World, h: Hub, cmd: Command, now: real, n: Name) {
    Arrives(h, cmd, now) && cmd.id !in Step(w, h, cmd, now).clients && n == Name(cmd.channel, h.clients[cmd.id].principal)
  }

  // A name of two connections in one channel, of which one leaves within the command.
  ghost predicate Torn(before: P.Channels, after: P.Channels, n: Name) {
    exists id :: Leaves(before, after, n.channel, id) && P.Members(before, n.channel)[id] == n.who && Shares(before, n.channel, id)
  }

  ghost predicate TornBy(w: World, h: Hub, cmd: Command, now: real, n: Name) {
    Torn(Begin(w, h, cmd, now).hub.channels, Step(w, h, cmd, now).channels, n)
  }

  // The names a command can leave wrong in somebody's view, when those in bad are wrong already.
  ghost function Uneasy(w: World, h: Hub, cmd: Command, now: real, bad: iset<Name>): iset<Name> {
    bad + (iset n: Name | Stray(w, h, cmd, now, n)) + iset n: Name | TornBy(w, h, cmd, now, n)
  }

  lemma MoreBad(h: Hub, bad: iset<Name>, skip: iset<Name>)
    requires ViewsOk(h, [], bad) && bad <= skip
    ensures ViewsOk(h, [], skip)
  {
  }

  lemma UneasyIsSole(w: World, h: Hub, cmd: Command, now: real, bad: iset<Name>)
    ensures Sole(Begin(w, h, cmd, now).hub, Step(w, h, cmd, now).channels, Uneasy(w, h, cmd, now, bad))
  {
    hide Begin, Step, Stray;
    var before, after := Begin(w, h, cmd, now).hub.channels, Step(w, h, cmd, now).channels;
    forall channel, a | Leaves(before, after, channel, a) && Shares(before, channel, a)
      ensures Name(channel, P.Members(before, channel)[a]) in Uneasy(w, h, cmd, now, bad) {
      assert Torn(before, after, Name(channel, P.Members(before, channel)[a]));
    }
  }

  lemma StrayIsUneasy(w: World, h: Hub, cmd: Command, now: real, bad: iset<Name>, n: Name)
    requires Stray(w, h, cmd, now, n)
    ensures n in Uneasy(w, h, cmd, now, bad)
  {
  }

  lemma BadIsUneasy(w: World, h: Hub, cmd: Command, now: real, bad: iset<Name>)
    ensures bad <= Uneasy(w, h, cmd, now, bad)
  {
  }

  lemma SubscribeKeepsViews(w: World, h: Hub, cmd: Command, now: real, bad: iset<Name>)
    requires IndexesAgree(h) && ViewsOk(h, [], bad)
    requires cmd.Subscribe? && cmd.id in h.clients && Charge(h, cmd.id, now).1
    ensures ViewsOk(Step(w, h, cmd, now), [], Uneasy(w, h, cmd, now, bad))
  {
    var id, channel := cmd.id, cmd.channel;
    var charged := Charge(h, id, now).0;
    var e := Admit(charged, id, channel);
    hide Uneasy, ViewsOk, Sole, Coherent, IndexesAgree, Run;
    var skip := Uneasy(w, h, cmd, now, bad);
    assert Begin(w, h, cmd, now) == OnSubscribe(h, id, channel, now) == e;
    BadIsUneasy(w, h, cmd, now, bad);
    MoreBad(h, bad, skip);
    ChargeKeepsViews(h, id, now, skip);
    ChargeKeepsAgreement(h, id, now);
    BeginIsCoherent(w, h, cmd, now);
    StepKeepsIndexes(w, h, cmd, now);
    UneasyIsSole(w, h, cmd, now, bad);
    if Arrives(h, cmd, now) {
      if id in Step(w, h, cmd, now).clients {
        StillSubscribed(w, e.hub, e.todo, id, channel);
      } else {
        StrayIsUneasy(w, h, cmd, now, bad, Name(channel, h.clients[id].principal));
      }
    }
    AdmitKeepsViews(w, charged, id, channel, skip);
  }

  lemma StillSubscribed(w: World, h: Hub, agenda: seq<Task>, id: ClientId, channel: string)
    requires Subscribed(h, id, channel) && id in Run(w, h, agenda).clients && IndexesAgree(Run(w, h, agenda))
    ensures Present(Run(w, h, agenda), channel, h.clients[id].principal)
  {
    var final := Run(w, h, agenda);
    RunShrinks(w, h, agenda);
    assert Subscribed(final, id, channel);
    assert P.Members(final.channels, channel)[id] == h.clients[id].principal;
  }

  lemma JoinAddsOnePrincipal(h: Hub, channel: string, id: ClientId, principal: string, who: string)
    requires id in P.Members(h.channels, channel) ==> P.Members(h.channels, channel)[id] == principal
    ensures who in P.Principals(P.Join(h.channels, channel, id, principal), channel) <==>
              who in P.Principals(h.channels, channel) || who == principal
  {
    P.JoinMembers(h.channels, channel, id, principal);
    var before, after := P.Members(h.channels, channel), P.Members(P.Join(h.channels, channel, id, principal), channel);
    assert id in after && after[id] == principal;
    if who in before.Values {
      var c :| c in before && before[c] == who;
      assert c in after && after[c] == who;
    }
  }

  // At first a command gives nobody a new name or a new frame, except the one who connects.
  ghost predicate SameIdentities(before: map<ClientId, Client>, after: map<ClientId, Client>) {
    forall d <- after :: d in before && after[d].principal == before[d].principal && after[d].out == before[d].out
  }

  lemma ChargeSameIdentities(h: Hub, id: ClientId, now: real)
    ensures SameIdentities(h.clients, Charge(h, id, now).0.clients)
  {
  }

  // At first a command gives nobody a new name or a new frame, except the one who connects.
  lemma BeginIdentities(w: World, h: Hub, cmd: Command, now: real)
    requires !cmd.Connect?
    ensures SameIdentities(h.clients, Begin(w, h, cmd, now).hub.clients)
  {
    if cmd.Subscribe? {
      ChargeSameIdentities(h, cmd.id, now);
      assert SameIdentities(h.clients, OnSubscribe(h, cmd.id, cmd.channel, now).hub.clients);
    } else if cmd.SessionJoin? {
      ChargeSameIdentities(h, cmd.id, now);
      SessionJoinIdentities(h, cmd.id, cmd.session, now);
    } else if IsRelay(cmd) {
      RelayOnlySends(w, h, cmd, now);
    }
  }

  // Nobody's name, frames or subscriptions change, and no channel does.
  ghost predicate SameMembers(h: Hub, after: Hub) {
    SameIdentities(h.clients, after.clients) && after.channels == h.channels &&
    forall d <- after.clients :: after.clients[d].subscriptions == h.clients[d].subscriptions
  }

  lemma EnrollIdentities(h: Hub, id: ClientId, session: string)
    requires id in h.clients
    ensures SameMembers(h, Enroll(h, id, session).hub)
  {
    hide S.JoinReport, S.AfterJoin;
  }

  lemma ChargeMembers(h: Hub, id: ClientId, now: real)
    ensures SameMembers(h, Charge(h, id, now).0)
  {
  }

  lemma SessionJoinIdentities(h: Hub, id: ClientId, session: string, now: real)
    ensures SameMembers(h, OnSessionJoin(h, id, session, now).hub)
  {
    ChargeMembers(h, id, now);
    var charged := Charge(h, id, now).0;
    if id in charged.clients { EnrollIdentities(charged, id, session); }
  }

  // Commands that announce no arrival.
  lemma OtherBeginViews(w: World, h: Hub, cmd: Command, now: real, skip: iset<Name>)
    requires IndexesAgree(h) && ViewsOk(h, [], skip) && FreshConnect(h, cmd)
    requires !cmd.AskPresence? && !(cmd.Subscribe? && cmd.id in h.clients && Charge(h, cmd.id, now).1)
    ensures var e := Begin(w, h, cmd, now);
            ViewsOk(e.hub, e.todo, skip) && Truthful(e.hub, e.todo, skip) && forall t <- e.todo :: (t.Send? || t.Announce?) ==> !t.msg.Joined?
  {
    var e := Begin(w, h, cmd, now);
    OtherBeginTasks(w, h, cmd, now, skip);
    assert forall id, channel, who :: !Due([], id, channel, who);
    OtherBeginClients(w, h, cmd, now);
    SubsetKeepsViews(h, e.hub, [], e.todo, skip);
  }

  ghost predicate NoNewSubscriber(h: Hub, after: Hub) {
    after.channels == h.channels &&
    (forall d, c :: Subscribed(after, d, c) ==> Subscribed(h, d, c)) &&
    (forall d, c :: Subscribed(after, d, c) && Lossless(after, d) ==>
       Lossless(h, d) && after.clients[d].out.sent == h.clients[d].out.sent)
  }

  lemma OtherBeginClients(w: World, h: Hub, cmd: Command, now: real)
    requires !(cmd.Subscribe? && cmd.id in h.clients && Charge(h, cmd.id, now).1)
    ensures NoNewSubscriber(h, Begin(w, h, cmd, now).hub)
  {
    if cmd.Connect? {
      assert NoNewSubscriber(h, OnConnect(w, h, cmd.id, cmd.principal, now).hub);
    } else if cmd.Subscribe? {
      assert NoNewSubscriber(h, OnSubscribe(h, cmd.id, cmd.channel, now).hub);
    } else if cmd.SessionJoin? {
      SessionJoinIdentities(h, cmd.id, cmd.session, now);
    } else if cmd.Unsubscribe? {
      assert NoNewSubscriber(h, OnUnsubscribe(h, cmd.id, cmd.channel).hub);
    } else if cmd.Disconnect? {
      assert NoNewSubscriber(h, OnDisconnect(w, h, cmd.id).hub);
    } else {
      RelayOnlySends(w, h, cmd, now);
    }
  }

  ghost predicate TrueAndNoArrivals(e: Effect, skip: iset<Name>) {
    Truthful(e.hub, e.todo, skip) && forall t <- e.todo :: (t.Send? || t.Announce?) ==> !t.msg.Joined?
  }

  lemma OtherBeginTasks(w: World, h: Hub, cmd: Command, now: real, skip: iset<Name>)
    requires IndexesAgree(h)
    requires !cmd.AskPresence? && !(cmd.Subscribe? && cmd.id in h.clients && Charge(h, cmd.id, now).1)
    ensures TrueAndNoArrivals(Begin(w, h, cmd, now), skip)
  {
    if cmd.Connect? {
      assert OnConnect(w, h, cmd.id, cmd.principal, now).todo == [];
    } else if cmd.Subscribe? {
      assert TrueAndNoArrivals(OnSubscribe(h, cmd.id, cmd.channel, now), skip);
    } else if cmd.Disconnect? {
      DisconnectIsTruthful(w, h, cmd.id, skip);
    } else if cmd.Unsubscribe? {
      UnsubscribeIsTruthful(h, cmd.id, cmd.channel, skip);
    } else if cmd.SessionJoin? {
      SessionJoinOnlySends(h, cmd.id, cmd.session, now);
    } else {
      RelayOnlySends(w, h, cmd, now);
    }
  }

  lemma UnsubscribeIsTruthful(h: Hub, id: ClientId, channel: string, skip: iset<Name>)
    requires IndexesAgree(h)
    ensures TrueAndNoArrivals(OnUnsubscribe(h, id, channel), skip)
  {
    if id in P.Members(h.channels, channel) { assert Subscribed(h, id, channel); }
  }

  lemma DisconnectIsTruthful(w: World, h: Hub, id: ClientId, skip: iset<Name>)
    requires IndexesAgree(h)
    ensures TrueAndNoArrivals(OnDisconnect(w, h, id), skip)
  {
    if id in h.clients {
      forall channel <- h.clients[id].subscriptions ensures Listed(h, id, channel) {
        assert Subscribed(h, id, channel);
      }
      FarewellTasksAreTruthful(w, h, OnDisconnect(w, h, id).hub, id, skip);
    }
  }

  lemma AskKeepsViews(w: World, h: Hub, id: ClientId, channel: string, skip: iset<Name>)
    requires IndexesAgree(h) && ViewsOk(h, [], skip)
    requires var e := OnAskPresence(h, id, channel); Sole(h, Run(w, e.hub, e.todo).channels, skip)
    ensures var e := OnAskPresence(h, id, channel); ViewsOk(Run(w, e.hub, e.todo), [], skip)
  {
    var e := OnAskPresence(h, id, channel);
    CoherentPlain(h, e.todo);
    assert e.todo == [Send(id, Presence(channel, Snapshot(h.channels, channel)))] + [];
    forall d, c, who | Subscribed(h, d, c) && Lossless(h, d) && Name(c, who) !in skip ensures Knows(h, d, c, who) <==> Present(h, c, who) {
      assert !Due([], d, c, who);
    }
    SnapshotRun(w, h, id, channel, [], skip);
  }

  lemma OtherKeepsViews(w: World, h: Hub, cmd: Command, now: real, skip: iset<Name>)
    requires IndexesAgree(h) && ViewsOk(h, [], skip) && FreshConnect(h, cmd)
    requires !cmd.AskPresence? && !(cmd.Subscribe? && cmd.id in h.clients && Charge(h, cmd.id, now).1)
    requires Sole(Begin(w, h, cmd, now).hub, Step(w, h, cmd, now).channels, skip)
    ensures ViewsOk(Step(w, h, cmd, now), [], skip)
  {
    var e := Begin(w, h, cmd, now);
    BeginIsCoherent(w, h, cmd, now);
    OtherBeginViews(w, h, cmd, now, skip);
    RunKeepsViews(w, e.hub, e.todo, skip);
  }

  // However a command goes, every lossless subscriber's view is right for every name for which it was right,
  // but a newcomer's reaped in its own step and those torn.
  lemma StepViewsButUneasy(w: World, h: Hub, cmd: Command, now: real, bad: iset<Name>)
    requires IndexesAgree(h) && ViewsOk(h, [], bad) && FreshConnect(h, cmd)
    ensures ViewsOk(Step(w, h, cmd, now), [], Uneasy(w, h, cmd, now, bad))
  {
    hide Step, Run, Uneasy, Sole;
    if cmd.Subscribe? && cmd.id in h.clients && Charge(h, cmd.id, now).1 {
      SubscribeKeepsViews(w, h, cmd, now, bad);
    } else {
      OtherViewsButUneasy(w, h, cmd, now, bad);
    }
  }

  lemma OtherViewsButUneasy(w: World, h: Hub, cmd: Command, now: real, bad: iset<Name>)
    requires IndexesAgree(h) && ViewsOk(h, [], bad) && FreshConnect(h, cmd)
    requires !(cmd.Subscribe? && cmd.id in h.clients && Charge(h, cmd.id, now).1)
    ensures ViewsOk(Step(w, h, cmd, now), [], Uneasy(w, h, cmd, now, bad))
  {
    hide Run, Sole, Uneasy, ViewsOk;
    var skip := Uneasy(w, h, cmd, now, bad);
    BadIsUneasy(w, h, cmd, now, bad);
    MoreBad(h, bad, skip);
    UneasyIsSole(w, h, cmd, now, bad);
    if cmd.AskPresence? {
      AskKeepsViews(w, h, cmd.id, cmd.channel, skip);
    } else {
      OtherKeepsViews(w, h, cmd, now, skip);
    }
  }

  // Every command leaves every lossless subscriber's view equal to the channel's membership, provided a
  // client announced as arriving was not itself reaped within it, and no name was torn.
  lemma StepKeepsViews(w: World, h: Hub, cmd: Command, now: real)
    requires IndexesAgree(h) && ViewsAgree(h) && Orderly(w, h, cmd, now)
    ensures ViewsAgree(Step(w, h, cmd, now))
  {
    hide Step, TornBy, Arrives;
    ViewsAtRest(h);
    StepViewsButUneasy(w, h, cmd, now, iset{});
    assert Uneasy(w, h, cmd, now, iset{}) == iset{};
    ViewsAtRest(Step(w, h, cmd, now));
  }

  // --- Every run ---

  // Ids handed out once, no client reaped while its arrival is announced, and no connection leaving a channel
  // in which another of its principal stays.
  ghost predicate Orderly(w: World, h: Hub, cmd: Command, now: real) {
    FreshConnect(h, cmd) && (forall n :: !Stray(w, h, cmd, now, n)) && forall n :: !TornBy(w, h, cmd, now, n)
  }

  lemma {:induction false} ReachableViewsAgree(w: World, cmds: seq<Timed>)
    requires forall i :: 0 <= i < |cmds| ==> Orderly(w, History(w, EMPTY_HUB, cmds[..i]), cmds[i].cmd, cmds[i].now)
    ensures var h := History(w, EMPTY_HUB, cmds); IndexesAgree(h) && ViewsAgree(h)
  {
    if cmds != [] {
      var n := |cmds| - 1;
      var front := cmds[..n];
      forall i | 0 <= i < |front| ensures Orderly(w, History(w, EMPTY_HUB, front[..i]), front[i].cmd, front[i].now) {
        assert front[..i] == cmds[..i];
      }
      ReachableViewsAgree(w, front);
      var before, last := History(w, EMPTY_HUB, front), cmds[n];
      assert Orderly(w, before, last.cmd, last.now);
      StepKeepsIndexes(w, before, last.cmd, last.now);
      StepKeepsViews(w, before, last.cmd, last.now);
    }
  }

  // --- One connection per principal tears nothing ---

  ghost predicate FreshPrincipal(h: Hub, cmd: Command) {
    cmd.Connect? ==> forall id <- h.clients :: h.clients[id].principal != cmd.principal
  }

  lemma OnceAfterBegin(w: World, h: Hub, cmd: Command, now: real)
    requires PrincipalsOnce(h) && FreshPrincipal(h, cmd)
    ensures PrincipalsOnce(Begin(w, h, cmd, now).hub)
  {
    if !cmd.Connect? { BeginIdentities(w, h, cmd, now); }
  }

  lemma OnceAfterStep(w: World, h: Hub, cmd: Command, now: real)
    requires PrincipalsOnce(h) && FreshPrincipal(h, cmd)
    ensures PrincipalsOnce(Step(w, h, cmd, now))
  {
    var e := Begin(w, h, cmd, now);
    OnceAfterBegin(w, h, cmd, now);
    RunShrinks(w, e.hub, e.todo);
  }

  lemma NobodyShares(h: Hub, channel: string, id: ClientId)
    requires IndexesAgree(h) && PrincipalsOnce(h) && id in P.Members(h.channels, channel)
    ensures !Shares(h.channels, channel, id)
  {
    forall other <- P.Members(h.channels, channel) | other != id
      ensures P.Members(h.channels, channel)[other] != P.Members(h.channels, channel)[id] {
      assert Subscribed(h, other, channel) && Subscribed(h, id, channel);
    }
  }

  // With one connection per principal no name is ever torn.
  lemma OnceIsUntorn(w: World, h: Hub, cmd: Command, now: real, n: Name)
    requires IndexesAgree(h) && FreshConnect(h, cmd) && PrincipalsOnce(h) && FreshPrincipal(h, cmd)
    ensures !TornBy(w, h, cmd, now, n)
  {
    hide Run, PrincipalsOnce, Step, IndexesAgree, Shares;
    var e := Begin(w, h, cmd, now);
    var settled := if cmd.Unsubscribe? || cmd.Disconnect? then h else e.hub;
    assert e.hub.channels == settled.channels;
    OnceAfterBegin(w, h, cmd, now);
    if settled != h { BeginAgrees(w, h, cmd, now); }
    forall id | id in P.Members(settled.channels, n.channel) ensures !Shares(settled.channels, n.channel, id) {
      NobodyShares(settled, n.channel, id);
    }
  }
}
