// From the hub to the application: what the client library holds as a channel's members, once it has
// received everything the hub queued for it, is the hub's own snapshot.
module SdkViews {
  import opened Wrappers
  import opened Protocol
  import opened Listing
  import opened HubMachine
  import opened HubIndexes
  import opened HubViews
  import P = ChannelPresence
  import S = CoordinatorSessions
  import C = RealtimeSdk

  // The members after receiving these frames, in order.
  function DispatchAll(members: C.Members, frames: seq<ServerMsg>): C.Members {
    if frames == [] then members else C.Dispatched(DispatchAll(members, frames[..|frames| - 1]), frames[|frames| - 1])
  }

  function FoldFrom(view: set<string>, frames: seq<ServerMsg>, channel: string): set<string> {
    if frames == [] then view else Fold(FoldFrom(view, frames[..|frames| - 1], channel), frames[|frames| - 1], channel)
  }

  lemma DispatchOne(members: C.Members, frame: ServerMsg, channel: string)
    ensures C.MembersOf(C.Dispatched(members, frame), channel) == Fold(C.MembersOf(members, channel), frame, channel)
  {
  }

  // Channel by channel, the library folds exactly the membership frames.
  lemma {:induction false} DispatchFolds(members: C.Members, frames: seq<ServerMsg>, channel: string)
    ensures C.MembersOf(DispatchAll(members, frames), channel) == FoldFrom(C.MembersOf(members, channel), frames, channel)
  {
    if frames != [] {
      var front := frames[..|frames| - 1];
      DispatchFolds(members, front, channel);
      DispatchOne(DispatchAll(members, front), frames[|frames| - 1], channel);
    }
  }

  ghost predicate HasSnapshot(frames: seq<ServerMsg>, channel: string) {
    exists f <- frames :: f.Presence? && f.channel == channel
  }

  // A snapshot makes whatever was believed before it irrelevant.
  lemma {:induction false} SnapshotResets(a: set<string>, b: set<string>, frames: seq<ServerMsg>, channel: string)
    requires HasSnapshot(frames, channel)
    ensures FoldFrom(a, frames, channel) == FoldFrom(b, frames, channel)
  {
    var front, last := frames[..|frames| - 1], frames[|frames| - 1];
    if !(last.Presence? && last.channel == channel) {
      var f :| f in frames && f.Presence? && f.channel == channel;
      assert f in front;
      SnapshotResets(a, b, front, channel);
    }
  }

  lemma {:induction false} ViewIsFold(frames: seq<ServerMsg>, channel: string)
    ensures View(frames, channel) == FoldFrom({}, frames, channel)
  {
    if frames != [] { ViewIsFold(frames[..|frames| - 1], channel); }
  }

  lemma {:induction false} FoldSplit(view: set<string>, first: seq<ServerMsg>, rest: seq<ServerMsg>, channel: string)
    ensures FoldFrom(view, first + rest, channel) == FoldFrom(FoldFrom(view, first, channel), rest, channel)
  {
    if rest == [] {
      assert first + rest == first;
    } else {
      var front, last := rest[..|rest| - 1], rest[|rest| - 1];
      assert (first + rest)[..|first + rest| - 1] == first + front;
      FoldSplit(view, first, front, channel);
    }
  }

  // --- What the application reads, over a run ---

  // The frames received tell who is in a channel; dropping its last handler forgets that.
  ghost function Heard(events: seq<C.Event>, channel: string): set<string> {
    if events == [] then {}
    else
      var front := events[..|events| - 1];
      match events[|events| - 1]
      case Receiving(frame) => Fold(Heard(front, channel), frame, channel)
      case Unsubscribing(ch, handler) => if ch == channel && OnlyActive(front, channel, handler) then {} else Heard(front, channel)
      case _ => Heard(front, channel)
  }

  ghost predicate OnlyActive(events: seq<C.Event>, channel: string, handler: nat) {
    C.Active(events, channel, handler) && forall h :: C.Active(events, channel, h) ==> h == handler
  }

  lemma {:induction false} MembersAreHeard(reconnect: bool, events: seq<C.Event>, channel: string)
    requires C.CanAll(C.Start(reconnect), events)
    ensures C.MembersOf(C.Runs(C.Start(reconnect), events).members, channel) == Heard(events, channel)
  {
    hide C.After, C.Sound, C.Can, C.CanAll, C.Active, C.HandlersOf, C.MembersOf, Fold;
    if events == [] {
      NobodyYet(reconnect, channel);
    } else {
      var front, last := events[..|events| - 1], events[|events| - 1];
      var c := C.Runs(C.Start(reconnect), front);
      C.Prefixes(C.Start(reconnect), events);
      MembersAreHeard(reconnect, front, channel);
      C.StartIsSound(reconnect);
      C.RunIsSound(C.Start(reconnect), front);
      MembersAfter(c, last, channel);
      if last.Unsubscribing? && last.channel == channel {
        forall h ensures h in C.HandlersOf(c, channel) <==> C.Active(front, channel, h) {
          C.HandlersAreActive(reconnect, front, channel, h);
        }
      }
    }
  }

  lemma NobodyYet(reconnect: bool, channel: string)
    ensures C.MembersOf(C.Start(reconnect).members, channel) == {}
  {
  }

  lemma MembersAfter(c: C.Client, event: C.Event, channel: string)
    requires C.Sound(c)
    ensures var was, now := C.MembersOf(c.members, channel), C.MembersOf(C.After(c, event).members, channel);
            match event
            case Receiving(frame) => now == Fold(was, frame, channel)
            case Unsubscribing(ch, handler) => now == if ch == channel && C.HandlersOf(c, channel) == {handler} then {} else was
            case _ => now == was
  {
    hide C.Emitted, C.Opened, C.Net, C.Dispatched, Fold;
    match event
    case Opening(n, order) => C.OpenedPlain(c, n, order);
    case Publishing(ch, payload) => C.EmittedShape(C.Connected(c), [C.PublishOn(ch, payload)]);
    case Asking(ch) => C.EmittedShape(C.Connected(c), [C.PresenceOf(ch)]);
    case Subscribing(ch, h) =>
      C.EmittedShape(C.Connected(c.(handlers := c.handlers[ch := C.HandlersOf(c, ch) + {h}])), [C.SubscribeTo(ch)]);
    case Unsubscribing(ch, h) =>
      C.EmittedShape(c.(handlers := c.handlers - {ch}, members := c.members - {ch}), [C.UnsubscribeFrom(ch)]);
    case Receiving(frame) => DispatchOne(c.members, frame, channel);
    case _ =>
  }

  // --- A subscriber that lost nothing has been sent a snapshot ---

  ghost predicate Snapshotted(h: Hub) {
    forall id, channel :: Subscribed(h, id, channel) && Lossless(h, id) ==> HasSnapshot(h.clients[id].out.sent, channel)
  }

  // Nothing ever leaves the list of what was sent.
  ghost predicate Grows(h: Hub, after: Hub) {
    forall id :: id in after.clients && Lossless(after, id) ==>
      Lossless(h, id) && h.clients[id].out.sent <= after.clients[id].out.sent && after.clients[id].subscriptions == h.clients[id].subscriptions
  }

  lemma DeliverGrows(w: World, h: Hub, id: ClientId, msg: ServerMsg)
    ensures Grows(h, Deliver(w, h, id, msg).hub)
  {
    var after := Deliver(w, h, id, msg).hub;
    forall d | d in after.clients && Lossless(after, d)
      ensures Lossless(h, d) && h.clients[d].out.sent <= after.clients[d].out.sent && after.clients[d].subscriptions == h.clients[d].subscriptions {
      SentFrames(w, h, id, msg, d);
    }
  }

  lemma DropGrows(h: Hub, after: Hub, id: ClientId, session: string)
    requires after.clients == DropSession(h.clients, id, session)
    ensures Grows(h, after)
  {
  }

  lemma GrowsTransitive(a: Hub, b: Hub, c: Hub)
    requires Grows(a, b) && Grows(b, c)
    ensures Grows(a, c)
  {
  }

  lemma PerformGrows(w: World, h: Hub, task: Task)
    ensures Grows(h, Perform(w, h, task).hub)
  {
    hide Deliver, Grows, Quit;
    match task
    case Send(id, msg) => DeliverGrows(w, h, id, msg);
    case Evict(id, session) =>
      var dropped := h.(clients := DropSession(h.clients, id, session));
      DropGrows(h, dropped, id, session);
      DeliverGrows(w, dropped, id, SessionClosed(session, "coordinator_left"));
      GrowsTransitive(h, dropped, Perform(w, h, task).hub);
    case QuitSession(id, session) => QuitGrows(w, h, id, session);
    case Announce(_, _, _) => SameGrows(h, Perform(w, h, task).hub);
    case LeaveChannel(_, _, _) => SameGrows(h, Perform(w, h, task).hub);
    case Closing => SameGrows(h, Perform(w, h, task).hub);
    case ChannelGauge => SameGrows(h, Perform(w, h, task).hub);
    case SessionGauge => SameGrows(h, Perform(w, h, task).hub);
  }

  lemma SameGrows(h: Hub, after: Hub)
    requires after.clients == h.clients
    ensures Grows(h, after)
  {
  }

  lemma QuitGrows(w: World, h: Hub, id: ClientId, session: string)
    ensures Grows(h, Quit(w, h, id, session).hub)
  {
    if S.IsMember(h.rooms, session, id) {
      DropGrows(h, Quit(w, h, id, session).hub, id, session);
    }
  }

  lemma {:induction false} RunGrows(w: World, h: Hub, agenda: seq<Task>)
    ensures Grows(h, Run(w, h, agenda))
    decreases h.clients.Keys, Expanding(agenda), |agenda|
  {
    hide Grows, Perform;
    if agenda == [] {
      SameGrows(h, h);
    } else {
      var e := Perform(w, h, agenda[0]);
      PerformProgress(w, h, agenda[0]);
      ExpandingConcat(e.todo, agenda[1..]);
      PerformGrows(w, h, agenda[0]);
      RunGrows(w, e.hub, e.todo + agenda[1..]);
      GrowsTransitive(h, e.hub, Run(w, h, agenda));
    }
  }

  lemma GrowsKeepsSnapshots(h: Hub, after: Hub)
    requires Snapshotted(h) && Grows(h, after)
    ensures Snapshotted(after)
  {
    forall id, channel | Subscribed(after, id, channel) && Lossless(after, id) ensures HasSnapshot(after.clients[id].out.sent, channel) {
      assert Subscribed(h, id, channel);
      var f :| f in h.clients[id].out.sent && f.Presence? && f.channel == channel;
      assert f in after.clients[id].out.sent;
    }
  }

  // The newcomer's snapshot is the first thing sent.
  lemma AdmitSnapshots(w: World, h: Hub, id: ClientId, channel: string)
    requires Snapshotted(h) && id in h.clients
    ensures var e := Admit(h, id, channel); Snapshotted(Run(w, e.hub, e.todo))
  {
    hide Run, Deliver;
    var e := Admit(h, id, channel);
    var msg := Presence(channel, Snapshot(e.hub.channels, channel));
    var rest := News(id !in P.Members(h.channels, channel), channel, id, h.clients[id].principal);
    assert e.todo == [Send(id, msg)] + rest;
    RunFirst(w, e.hub, Send(id, msg), rest);
    var greeted := Deliver(w, e.hub, id, msg);
    forall d, c | Subscribed(greeted.hub, d, c) && Lossless(greeted.hub, d) ensures HasSnapshot(greeted.hub.clients[d].out.sent, c) {
      SentFrames(w, e.hub, id, msg, d);
      if d == id && c == channel {
        assert msg in greeted.hub.clients[d].out.sent;
      } else {
        assert Subscribed(h, d, c) && Lossless(h, d);
        var f :| f in h.clients[d].out.sent && f.Presence? && f.channel == c;
        assert f in greeted.hub.clients[d].out.sent;
      }
    }
    RunGrows(w, greeted.hub, greeted.todo + rest);
    GrowsKeepsSnapshots(greeted.hub, Run(w, greeted.hub, greeted.todo + rest));
  }

  lemma ChargeSnapshots(h: Hub, id: ClientId, now: real)
    requires Snapshotted(h)
    ensures Snapshotted(Charge(h, id, now).0)
  {
    ChargeShape(h, id, now);
    var after := Charge(h, id, now).0;
    assert forall d, c :: Subscribed(after, d, c) <==> Subscribed(h, d, c);
  }

  lemma StepSnapshots(w: World, h: Hub, cmd: Command, now: real)
    requires Snapshotted(h)
    ensures Snapshotted(Step(w, h, cmd, now))
  {
    hide Run;
    var e := Begin(w, h, cmd, now);
    if cmd.Subscribe? && cmd.id in h.clients && Charge(h, cmd.id, now).1 {
      ChargeSnapshots(h, cmd.id, now);
      AdmitSnapshots(w, Charge(h, cmd.id, now).0, cmd.id, cmd.channel);
    } else {
      OtherBeginClients(w, h, cmd, now);
      assert Snapshotted(e.hub);
      RunGrows(w, e.hub, e.todo);
      GrowsKeepsSnapshots(e.hub, Run(w, e.hub, e.todo));
    }
  }

  lemma {:induction false} ReachableSnapshots(w: World, cmds: seq<Timed>)
    ensures Snapshotted(History(w, EMPTY_HUB, cmds))
  {
    hide Step;
    if cmds != [] {
      var front, last := cmds[..|cmds| - 1], cmds[|cmds| - 1];
      ReachableSnapshots(w, front);
      StepSnapshots(w, History(w, EMPTY_HUB, front), last.cmd, last.now);
    }
  }

  // --- End to end ---

  // Everything queued has been taken off by the transport.
  ghost predicate Drained(h: Hub, id: ClientId)
    requires id in h.clients
  {
    h.clients[id].out.drained == |h.clients[id].out.sent|
  }

  // In every orderly run: a subscriber none of whose frames was shed, once it has received them all,
  // holds exactly the channel's members - whatever it held from an earlier connection, and whatever of
  // the frames before its last snapshot it threw away.
  lemma SdkSeesMembership(w: World, cmds: seq<Timed>, id: ClientId, channel: string,
                          held: C.Members, before: seq<ServerMsg>, after: seq<ServerMsg>)
    requires forall i :: 0 <= i < |cmds| ==> Orderly(w, History(w, EMPTY_HUB, cmds[..i]), cmds[i].cmd, cmds[i].now)
    requires var h := History(w, EMPTY_HUB, cmds);
             Subscribed(h, id, channel) && Lossless(h, id) && Drained(h, id) &&
             h.clients[id].out.sent[..h.clients[id].out.drained] == before + after && (before == [] || HasSnapshot(after, channel))
    ensures var h := History(w, EMPTY_HUB, cmds);
            C.MembersOf(DispatchAll(held, after), channel) == P.Principals(h.channels, channel) == set m | m in Snapshot(h.channels, channel)
  {
    hide History;
    ReachableViewsAgree(w, cmds);
    ReachableSnapshots(w, cmds);
    ReceiverSeesMembership(History(w, EMPTY_HUB, cmds), id, channel, held, before, after);
  }

  lemma ReceiverSeesMembership(h: Hub, id: ClientId, channel: string, held: C.Members, before: seq<ServerMsg>, after: seq<ServerMsg>)
    requires ViewsAgree(h) && Snapshotted(h) && Subscribed(h, id, channel) && Lossless(h, id)
    requires h.clients[id].out.sent == before + after && (before == [] || HasSnapshot(after, channel))
    ensures C.MembersOf(DispatchAll(held, after), channel) == P.Principals(h.channels, channel) == set m | m in Snapshot(h.channels, channel)
  {
    var frames := h.clients[id].out.sent;
    assert before == [] ==> after == frames;
    DispatchFolds(held, after, channel);
    ViewIsFold(frames, channel);
    FoldSplit({}, before, after, channel);
    SnapshotResets(C.MembersOf(held, channel), FoldFrom({}, before, channel), after, channel);
  }
}
