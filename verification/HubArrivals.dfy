// What arrives: of the frames a command sets off, how many each client that lives through the step has in
// its queue, or among those its full queue shed, when the step is over.
module HubArrivals {
  import opened Wrappers
  import opened Protocol
  import opened Listing
  import opened HubMachine
  import opened HubIndexes
  import opened HubDelivery
  import P = ChannelPresence
  import S = CoordinatorSessions

  // How often a frame was ever put to a client: queued, or shed by a full queue.
  function Got(h: Hub, d: ClientId, msg: ServerMsg): nat {
    if d in h.clients then multiset(h.clients[d].out.sent)[msg] + multiset(h.clients[d].out.shed)[msg] else 0
  }

  // The frames a cascade itself can set off.
  predicate OfLeaving(msg: ServerMsg) { msg.Left? || msg.MemberLeft? || msg.CoordinatorChanged? || msg.SessionClosed? }

  ghost predicate Unannounced(agenda: seq<Task>, msg: ServerMsg) {
    forall t <- agenda :: t.Announce? ==> t.msg != msg
  }

  lemma DeliverGot(w: World, h: Hub, id: ClientId, frame: ServerMsg, d: ClientId, msg: ServerMsg)
    requires d in Deliver(w, h, id, frame).hub.clients
    ensures Got(Deliver(w, h, id, frame).hub, d, msg) == Got(h, d, msg) + if id == d && frame == msg then 1 else 0
  {
    if id in h.clients { DeliveryIsConserved(w, h, id, frame); }
  }

  lemma DropGot(h: Hub, after: Hub, id: ClientId, session: string, d: ClientId, msg: ServerMsg)
    requires after.clients == DropSession(h.clients, id, session)
    ensures Got(after, d, msg) == Got(h, d, msg)
  {
  }

  lemma PerformGot(w: World, h: Hub, task: Task, d: ClientId, msg: ServerMsg)
    requires d in Perform(w, h, task).hub.clients
    ensures var got := Got(Perform(w, h, task).hub, d, msg); var due := Got(h, d, msg) + if task == Send(d, msg) then 1 else 0;
            got >= due && (!OfLeaving(msg) ==> got == due)
  {
    hide Deliver, Quit;
    match task
    case Send(id, frame) => DeliverGot(w, h, id, frame, d, msg);
    case Evict(id, session) =>
      var dropped := h.(clients := DropSession(h.clients, id, session));
      DropGot(h, dropped, id, session, d, msg);
      DeliverGot(w, dropped, id, SessionClosed(session, "coordinator_left"), d, msg);
    case QuitSession(id, session) => QuitGot(w, h, id, session, d, msg);
    case _ =>
  }

  lemma QuitGot(w: World, h: Hub, id: ClientId, session: string, d: ClientId, msg: ServerMsg)
    ensures Got(Quit(w, h, id, session).hub, d, msg) == Got(h, d, msg)
  {
    if S.IsMember(h.rooms, session, id) { DropGot(h, Quit(w, h, id, session).hub, id, session, d, msg); }
  }

  lemma {:induction false} TimesNone(agenda: seq<Task>, t: Task)
    requires t !in agenda
    ensures Times(agenda, t) == 0
  {
    if agenda != [] { TimesNone(agenda[1..], t); }
  }

  // A task sets off no frame but its own and those of leaves.
  lemma PerformIsQuiet(w: World, h: Hub, task: Task, d: ClientId, msg: ServerMsg)
    requires !OfLeaving(msg) && (task.Announce? ==> task.msg != msg)
    ensures var todo := Perform(w, h, task).todo; Times(todo, Send(d, msg)) == 0 && Unannounced(todo, msg)
  {
    hide Quit, Deliver;
    var e := Perform(w, h, task);
    match task {
      case Send(id, frame) => DeliverIsQuiet(w, h, id, frame);
      case Announce(channel, except, frame) => SendsOnly(Subscribers(w, h, channel), except, frame);
      case LeaveChannel(_, _, _) => LeaveOnlyTells(w, h, task);
      case QuitSession(id, session) => QuitOnlyTells(w, h, id, session);
      case Evict(id, session) =>
        DeliverIsQuiet(w, h.(clients := DropSession(h.clients, id, session)), id, SessionClosed(session, "coordinator_left"));
      case _ =>
    }
    TimesNone(e.todo, Send(d, msg));
  }

  lemma DeliverIsQuiet(w: World, h: Hub, id: ClientId, frame: ServerMsg)
    ensures forall t <- Deliver(w, h, id, frame).todo :: !t.Send? && !t.Announce?
  {
    OnlyReapingOwes(w, h, id, frame);
    if Deliver(w, h, id, frame).todo != [] { FarewellIsOf(w, h.(tick := h.tick + 1), id, h.clients[id]); }
  }

  // Whatever cascade an agenda sets off, and whoever it loses: a client that lives through it is put every
  // frame the agenda has for it, and no frame but those of leaves besides.
  lemma {:induction false} RunGot(w: World, h: Hub, agenda: seq<Task>, d: ClientId, msg: ServerMsg)
    requires d in Run(w, h, agenda).clients
    ensures Got(Run(w, h, agenda), d, msg) >= Got(h, d, msg) + Times(agenda, Send(d, msg))
    ensures !OfLeaving(msg) && Unannounced(agenda, msg) ==>
              Got(Run(w, h, agenda), d, msg) == Got(h, d, msg) + Times(agenda, Send(d, msg))
    decreases h.clients.Keys, Expanding(agenda), |agenda|
  {
    hide Perform, Got;
    if agenda != [] {
      var task, rest := agenda[0], agenda[1..];
      var e := Perform(w, h, task);
      PerformProgress(w, h, task);
      ExpandingConcat(e.todo, rest);
      RunGot(w, e.hub, e.todo + rest, d, msg);
      TimesConcat(e.todo, rest, Send(d, msg));
      PerformGot(w, h, task, d, msg);
      if !OfLeaving(msg) && Unannounced(agenda, msg) {
        PerformIsQuiet(w, h, task, d, msg);
        assert Unannounced(e.todo + rest, msg);
      }
    }
  }

  lemma NothingIsAnnounced(agenda: seq<Task>, msg: ServerMsg)
    requires forall t <- agenda :: !t.Announce?
    ensures Unannounced(agenda, msg)
  {
  }

  lemma SameQueues(h: Hub, after: Hub, d: ClientId, msg: ServerMsg)
    requires d in h.clients <==> d in after.clients
    requires d in h.clients ==> after.clients[d].out == h.clients[d].out
    ensures Got(after, d, msg) == Got(h, d, msg)
  {
  }

  // --- Command by command ---

  // A publication reaches each other subscriber that lives through the step exactly once.
  lemma PublishArrives(w: World, h: Hub, id: ClientId, channel: string, payload: Payload, now: real, d: ClientId)
    requires ChannelsAgree(h)
    ensures var after := Step(w, h, Publish(id, channel, payload), now); var msg := Message(channel, PrincipalOf(h, id), payload);
            d in after.clients ==> Got(after, d, msg) == Got(h, d, msg) + if Subscribed(h, d, channel) && d != id then 1 else 0
  {
    hide Run, Perform, Got, Times;
    var msg := Message(channel, PrincipalOf(h, id), payload);
    var begun := OnPublish(h, id, channel, payload);
    var todo := Perform(w, begun.hub, begun.todo[0]).todo;
    PublishReachesSubscribers(w, h, id, channel, payload, d);
    AnnounceReachesMembers(w, begun.hub, channel, id, msg, d);
    RunFirst(w, begun.hub, begun.todo[0], []);
    assert [begun.todo[0]] + [] == begun.todo && todo + [] == todo;
    AnnounceChangesNothing(w, begun.hub, channel, id, msg);
    NothingIsAnnounced(todo, msg);
    SameQueues(h, begun.hub, d, msg);
    if d in Run(w, begun.hub, todo).clients { RunGot(w, begun.hub, todo, d, msg); }
  }

  lemma AnnounceChangesNothing(w: World, h: Hub, channel: string, except: ClientId, msg: ServerMsg)
    ensures Perform(w, h, Announce(channel, except, msg)).hub == h
  {
  }

  lemma AdmitArrives(w: World, h: Hub, id: ClientId, channel: string, d: ClientId)
    requires ChannelsAgree(h) && id in h.clients && !Subscribed(h, id, channel) && !HungUp(w, h, id)
    ensures var e := Admit(h, id, channel); var after := Run(w, e.hub, e.todo); var joined := Joined(channel, h.clients[id].principal);
            d in after.clients ==> Got(after, d, joined) == Got(h, d, joined) + if Subscribed(h, d, channel) then 1 else 0
  {
    hide Run, Deliver, Got, Times, ChannelsAgree, Unannounced;
    var e := Admit(h, id, channel);
    var joined := Joined(channel, h.clients[id].principal);
    var snapshot := Presence(channel, Snapshot(e.hub.channels, channel));
    JoinedMembers(h, id, channel, d);
    RunFirst(w, e.hub, Send(id, snapshot), [Announce(channel, id, joined), ChannelGauge]);
    assert e.todo == [Send(id, snapshot)] + [Announce(channel, id, joined), ChannelGauge];
    SurvivesSend(w, h, e.hub, id, snapshot);
    var greeted := Deliver(w, e.hub, id, snapshot).hub;
    assert [] + [Announce(channel, id, joined), ChannelGauge] == [Announce(channel, id, joined)] + [ChannelGauge];
    SameQueues(h, e.hub, d, joined);
    AnnouncementArrives(w, greeted, channel, id, joined, d);
    if d in Run(w, greeted, [Announce(channel, id, joined)] + [ChannelGauge]).clients {
      DeliverGot(w, e.hub, id, snapshot, d, joined);
    }
  }

  // An announcement by itself reaches each member but the one excepted exactly once.
  lemma AnnouncementArrives(w: World, h: Hub, channel: string, except: ClientId, msg: ServerMsg, d: ClientId)
    requires !OfLeaving(msg)
    ensures var after := Run(w, h, [Announce(channel, except, msg)] + [ChannelGauge]);
            d in after.clients ==>
              d in h.clients && Got(after, d, msg) == Got(h, d, msg) + if d in P.Members(h.channels, channel) && d != except then 1 else 0
  {
    hide Run, Got, Times;
    var tasks := Sends(Subscribers(w, h, channel), except, msg);
    RunFirst(w, h, Announce(channel, except, msg), [ChannelGauge]);
    AnnounceReachesMembers(w, h, channel, except, msg, d);
    TimesConcat(tasks, [ChannelGauge], Send(d, msg));
    OneTask(ChannelGauge, Send(d, msg));
    NothingIsAnnounced(tasks + [ChannelGauge], msg);
    if d in Run(w, h, tasks + [ChannelGauge]).clients { RunGot(w, h, tasks + [ChannelGauge], d, msg); }
  }

  // Of a newcomer that takes its snapshot, every other subscriber that lives through the step hears once.
  lemma SubscribeArrives(w: World, h: Hub, id: ClientId, channel: string, now: real, d: ClientId)
    requires ChannelsAgree(h) && id in h.clients && Charge(h, id, now).1 && !Subscribed(h, id, channel) && !HungUp(w, h, id)
    ensures var after := Step(w, h, Subscribe(id, channel), now); var joined := Joined(channel, h.clients[id].principal);
            d in after.clients ==> Got(after, d, joined) == Got(h, d, joined) + if Subscribed(h, d, channel) then 1 else 0
  {
    hide Run, Got, Charge, ChannelsAgree;
    var charged := Charge(h, id, now).0;
    ChargeShape(h, id, now);
    SameAgreement(h, charged);
    AdmitArrives(w, charged, id, channel, d);
    SameQueues(h, charged, d, Joined(channel, h.clients[id].principal));
  }

  lemma JoinedMembers(h: Hub, id: ClientId, channel: string, d: ClientId)
    requires ChannelsAgree(h) && id in h.clients
    ensures id in P.Members(h.channels, channel) <==> Subscribed(h, id, channel)
    ensures d in P.Members(P.Join(h.channels, channel, id, h.clients[id].principal), channel) && d != id <==> Subscribed(h, d, channel) && d != id
  {
  }

  lemma SurvivesSend(w: World, h: Hub, after: Hub, id: ClientId, msg: ServerMsg)
    requires id in h.clients && id in after.clients && after.clients[id].out == h.clients[id].out && after.tick == h.tick && !HungUp(w, h, id)
    ensures var e := Deliver(w, after, id, msg); e.todo == [] && e.hub.clients.Keys == after.clients.Keys && e.hub.channels == after.channels
  {
  }

  // A coordinator's message reaches each other member that lives through the step exactly once.
  lemma BroadcastArrives(w: World, h: Hub, id: ClientId, session: string, payload: Payload, now: real, d: ClientId)
    requires S.RoomsOk(h.rooms) && session in h.rooms && h.rooms[session].coordinator == id
    ensures var after := Step(w, h, ToMembers(id, session, payload), now); var msg := FromCoordinator(session, payload);
            d in after.clients ==> Got(after, d, msg) == Got(h, d, msg) + if S.IsMember(h.rooms, session, d) && d != id then 1 else 0
  {
    hide Run, Got, Times, S.Roster, S.RoomOk;
    var msg := FromCoordinator(session, payload);
    var e := OnToMembers(h, id, session, payload);
    SameQueues(h, e.hub, d, msg);
    BroadcastReachesMembers(h, id, session, payload, d);
    SendOthersOnly(S.Roster(h.rooms[session].members), id, msg);
    if d in Run(w, e.hub, e.todo).clients { RunGot(w, e.hub, e.todo, d, msg); }
  }

  // Anybody else's reaches nobody, and its sender is told.
  lemma BroadcastIsRefused(w: World, h: Hub, id: ClientId, session: string, payload: Payload, now: real, d: ClientId)
    requires session in h.rooms ==> h.rooms[session].coordinator != id
    ensures var after := Step(w, h, ToMembers(id, session, payload), now);
            var msg, refusal := FromCoordinator(session, payload), Error("not the coordinator of session '" + session + "'");
            d in after.clients ==>
              Got(after, d, msg) == Got(h, d, msg) && Got(after, d, refusal) == Got(h, d, refusal) + if d == id then 1 else 0
  {
    hide Run, Got;
    var e := OnToMembers(h, id, session, payload);
    var msg, refusal := FromCoordinator(session, payload), NotCoordinator(session);
    OneTask(Send(id, refusal), Send(d, refusal));
    OneTask(Send(id, refusal), Send(d, msg));
    SameQueues(h, e.hub, d, msg);
    SameQueues(h, e.hub, d, refusal);
    if d in Run(w, e.hub, e.todo).clients {
      RunGot(w, e.hub, e.todo, d, msg);
      RunGot(w, e.hub, e.todo, d, refusal);
    }
  }

  // A member's message reaches the coordinator, the first in join order, exactly once and nobody else.
  lemma RelayArrives(w: World, h: Hub, id: ClientId, session: string, payload: Payload, now: real, d: ClientId)
    requires S.RoomsOk(h.rooms) && S.IsMember(h.rooms, session, id)
    ensures var after := Step(w, h, ToCoordinator(id, session, payload), now); var seat := h.rooms[session].members[id];
            var msg := FromMember(session, seat.principal, seat.slot, payload);
            d in after.clients ==> Got(after, d, msg) == Got(h, d, msg) + if d == h.rooms[session].order[0] then 1 else 0
  {
    hide Run, Got, Times, S.RoomOk;
    var seat := h.rooms[session].members[id];
    var msg := FromMember(session, seat.principal, seat.slot, payload);
    var e := OnToCoordinator(h, id, session, payload);
    SameQueues(h, e.hub, d, msg);
    RelayReachesCoordinator(h, id, session, payload);
    OneTask(e.todo[0], Send(d, msg));
    if d in Run(w, e.hub, e.todo).clients { RunGot(w, e.hub, e.todo, d, msg); }
  }

  lemma EnrollArrives(w: World, h: Hub, id: ClientId, session: string, d: ClientId)
    requires S.RoomsOk(h.rooms) && id in h.clients
    ensures var e := Enroll(h, id, session); var after := Run(w, e.hub, e.todo);
            S.IsMember(e.hub.rooms, session, id) &&
            var room := e.hub.rooms[session]; var slot := room.members[id].slot;
            var start := SessionStart(session, slot, room.coordinator == id, Infos(S.Roster(room.members)));
            var news := MemberJoined(session, slot, h.clients[id].principal);
            d in after.clients ==>
              Got(after, d, start) == Got(h, d, start) + (if d == id then 1 else 0) &&
              Got(after, d, news) == Got(h, d, news) + (if d in room.members && d != id then 1 else 0)
  {
    hide Run, Got, Times, S.Roster, S.RoomsOk, Enroll, S.AfterJoin, Infos;
    var e := Enroll(h, id, session);
    EnrollSays(h, id, session);
    OthersAreTold(h, id, session, d);
    var room := e.hub.rooms[session];
    var slot := room.members[id].slot;
    var start := SessionStart(session, slot, room.coordinator == id, Infos(S.Roster(room.members)));
    var news := MemberJoined(session, slot, h.clients[id].principal);
    var others := SendOthers(S.Roster(room.members), id, news);
    SendOthersOnly(S.Roster(room.members), id, news);
    TimesConcat([Send(id, start)], others + [SessionGauge], Send(d, start));
    TimesNone(others + [SessionGauge], Send(d, start));
    OneTask(Send(id, start), Send(d, start));
    EnrollClients(h, id, session, d, start);
    EnrollClients(h, id, session, d, news);
    NothingIsAnnounced(e.todo, start);
    NothingIsAnnounced(e.todo, news);
    if d in Run(w, e.hub, e.todo).clients {
      RunGot(w, e.hub, e.todo, d, start);
      RunGot(w, e.hub, e.todo, d, news);
    }
  }

  // Joining a session: the joiner has its start frame once, everyone else in the session the news once.
  lemma SessionJoinArrives(w: World, h: Hub, id: ClientId, session: string, now: real, d: ClientId)
    requires S.RoomsOk(h.rooms) && id in h.clients && Charge(h, id, now).1
    ensures var after := Step(w, h, SessionJoin(id, session), now);
            var rooms := S.AfterJoin(h.rooms, session, id, h.clients[id].principal);
            S.IsMember(rooms, session, id) &&
            var room := rooms[session]; var slot := room.members[id].slot;
            var start := SessionStart(session, slot, room.coordinator == id, Infos(S.Roster(room.members)));
            var news := MemberJoined(session, slot, h.clients[id].principal);
            d in after.clients ==>
              Got(after, d, start) == Got(h, d, start) + (if d == id then 1 else 0) &&
              Got(after, d, news) == Got(h, d, news) + (if d in room.members && d != id then 1 else 0)
  {
    hide Run, Got, S.Roster, S.RoomsOk, Enroll, S.AfterJoin, Charge, Infos;
    var charged := Charge(h, id, now).0;
    ChargeShape(h, id, now);
    EnrollSays(charged, id, session);
    EnrollArrives(w, charged, id, session, d);
    var room := S.AfterJoin(h.rooms, session, id, h.clients[id].principal)[session];
    var slot := room.members[id].slot;
    SameQueues(h, charged, d, SessionStart(session, slot, room.coordinator == id, Infos(S.Roster(room.members))));
    SameQueues(h, charged, d, MemberJoined(session, slot, h.clients[id].principal));
  }

  lemma EnrollClients(h: Hub, id: ClientId, session: string, d: ClientId, msg: ServerMsg)
    requires id in h.clients
    ensures Got(Enroll(h, id, session).hub, d, msg) == Got(h, d, msg)
  {
  }

  // Leaving a session that goes on: everyone left that lives through the step is put the news.
  lemma SessionLeaveArrives(w: World, h: Hub, id: ClientId, session: string, now: real, d: ClientId)
    requires S.RoomsOk(h.rooms) && S.IsMember(h.rooms, session, id)
    requires var rooms := S.AfterLeave(h.rooms, session, id, w.policy); session in rooms && d in rooms[session].members
    ensures var after := Step(w, h, SessionLeave(id, session), now); var room := S.AfterLeave(h.rooms, session, id, w.policy)[session];
            var gone := h.rooms[session].members[id]; var left := MemberLeft(session, gone.slot, gone.principal);
            room.coordinator in room.members &&
            var leader := room.members[room.coordinator]; var changed := CoordinatorChanged(session, leader.slot, leader.principal);
            d in after.clients ==>
              Got(after, d, left) >= Got(h, d, left) + 1 &&
              (room.coordinator != h.rooms[session].coordinator ==> Got(after, d, changed) >= Got(h, d, changed) + 1)
  {
    hide Run, Quit, Got, Times, S.AfterLeave, S.RoomOk, S.Roster;
    LeaveGoesOn(w, h, id, session);
    var room := S.AfterLeave(h.rooms, session, id, w.policy)[session];
    S.LeaveKeepsRooms(h.rooms, session, id, w.policy);
    var i := PlaceInOrder(room, d);
    var gone, leader := h.rooms[session].members[id], room.members[room.coordinator];
    var left, changed := MemberLeft(session, gone.slot, gone.principal), CoordinatorChanged(session, leader.slot, leader.principal);
    var e := Quit(w, h, id, session);
    QuitRooms(w, h, id, session);
    RunFirst(w, h, QuitSession(id, session), []);
    assert [QuitSession(id, session)] + [] == [QuitSession(id, session)] && e.todo + [] == e.todo;
    QuitGot(w, h, id, session, d, left);
    QuitGot(w, h, id, session, d, changed);
    if room.coordinator == h.rooms[session].coordinator {
      LeaveTells(w, h, id, session, i);
      TimesSome(e.todo, i);
    } else {
      ElectionTells(w, h, id, session, i);
      TimesSome(e.todo, 2 * i);
      TimesSome(e.todo, 2 * i + 1);
    }
    if d in Run(w, e.hub, e.todo).clients {
      RunGot(w, e.hub, e.todo, d, left);
      RunGot(w, e.hub, e.todo, d, changed);
    }
  }

  lemma QuitRooms(w: World, h: Hub, id: ClientId, session: string)
    requires S.IsMember(h.rooms, session, id)
    ensures Quit(w, h, id, session).hub.rooms == S.AfterLeave(h.rooms, session, id, w.policy)
  {
    QuitIsQuitted(w, h, id, session);
  }

  lemma PlaceInOrder(room: S.Room, d: ClientId) returns (i: nat)
    requires S.RoomOk(room) && d in room.members
    ensures i < |room.order| && room.order[i] == d
  {
    assert d in room.order;
    i :| 0 <= i < |room.order| && room.order[i] == d;
  }

  lemma {:induction false} TimesSome(agenda: seq<Task>, i: nat)
    requires i < |agenda|
    ensures Times(agenda, agenda[i]) >= 1
  {
    if i > 0 { TimesSome(agenda[1..], i - 1); }
  }

  // Whoever asks who is present is put the channel's principals, sorted and each once, whether in the channel
  // or not.
  lemma AskArrives(w: World, h: Hub, id: ClientId, channel: string, now: real) returns (names: seq<string>)
    requires id in h.clients
    ensures IsListing(names, P.Principals(h.channels, channel)) && SortedBy(names, NameLe)
    ensures var after := Step(w, h, AskPresence(id, channel), now); var frame := Presence(channel, names);
            id in after.clients ==> Got(after, id, frame) == Got(h, id, frame) + 1
  {
    hide Run, Got;
    names := Snapshot(h.channels, channel);
    var e := OnAskPresence(h, id, channel);
    var frame := Presence(channel, names);
    OneTask(Send(id, frame), Send(id, frame));
    if id in Run(w, e.hub, e.todo).clients { RunGot(w, e.hub, e.todo, id, frame); }
  }

  // A subscriber let in is put the channel's principals, its own among them.
  lemma SnapshotArrives(w: World, h: Hub, id: ClientId, channel: string, now: real) returns (names: seq<string>)
    requires ChannelsAgree(h) && id in h.clients && Charge(h, id, now).1
    ensures IsListing(names, P.Principals(h.channels, channel) + {h.clients[id].principal}) && SortedBy(names, NameLe)
    ensures var after := Step(w, h, Subscribe(id, channel), now); var frame := Presence(channel, names);
            id in after.clients ==> Subscribed(after, id, channel) && Got(after, id, frame) == Got(h, id, frame) + 1
  {
    hide Run, Got, Charge, Times, ChannelsAgree, Snapshot, P.Join, Unannounced, Subscribed;
    var charged := Charge(h, id, now).0;
    ChargeShape(h, id, now);
    var e := Admit(charged, id, channel);
    names := Snapshot(e.hub.channels, channel);
    var frame := Presence(channel, names);
    SnapshotLists(e.hub.channels, channel);
    NowSubscribed(charged, id, channel);
    JoinedNames(h, id, channel);
    var news := News(id !in P.Members(h.channels, channel), channel, id, h.clients[id].principal);
    assert e.todo == [Send(id, frame)] + news;
    TimesConcat([Send(id, frame)], news, Send(id, frame));
    OneTask(Send(id, frame), Send(id, frame));
    TimesNone(news, Send(id, frame));
    SameQueues(h, e.hub, id, frame);
    NewsAnnouncesNot(id !in P.Members(h.channels, channel), channel, id, h.clients[id].principal, names);
    if id in Run(w, e.hub, e.todo).clients {
      RunGot(w, e.hub, e.todo, id, frame);
      StaysSubscribed(w, e.hub, e.todo, id, channel);
    }
  }

  lemma SnapshotLists(channels: P.Channels, channel: string)
    ensures var names := Snapshot(channels, channel); IsListing(names, P.Principals(channels, channel)) && SortedBy(names, NameLe)
  {
  }

  lemma NowSubscribed(h: Hub, id: ClientId, channel: string)
    requires id in h.clients
    ensures Subscribed(Admit(h, id, channel).hub, id, channel)
  {
  }

  lemma NewsAnnouncesNot(newly: bool, channel: string, id: ClientId, who: string, names: seq<string>)
    ensures Unannounced([Send(id, Presence(channel, names))] + News(newly, channel, id, who), Presence(channel, names))
  {
  }

  lemma StaysSubscribed(w: World, h: Hub, agenda: seq<Task>, id: ClientId, channel: string)
    requires Subscribed(h, id, channel) && id in Run(w, h, agenda).clients
    ensures Subscribed(Run(w, h, agenda), id, channel)
  {
    RunShrinks(w, h, agenda);
  }

  lemma JoinedNames(h: Hub, id: ClientId, channel: string)
    requires ChannelsAgree(h) && id in h.clients
    ensures P.Principals(P.Join(h.channels, channel, id, h.clients[id].principal), channel)
              == P.Principals(h.channels, channel) + {h.clients[id].principal}
  {
    var who := h.clients[id].principal;
    P.JoinMembers(h.channels, channel, id, who);
    var before, after := P.Members(h.channels, channel), P.Members(P.Join(h.channels, channel, id, who), channel);
    assert after[id] == who && id in after;
    forall name | name in before.Values ensures name in after.Values {
      var c :| c in before && before[c] == name;
      assert c in after && after[c] == name;
    }
    assert forall c <- after :: c == id || (c in before && before[c] == after[c]);
  }

  // A join over the rate lets nobody into anything, and its client is told once.
  lemma RefusedJoin(w: World, h: Hub, cmd: Command, now: real)
    requires (cmd.Subscribe? || cmd.SessionJoin?) && cmd.id in h.clients && !Charge(h, cmd.id, now).1
    ensures var after := Step(w, h, cmd, now);
            var refusal := Error("join rate limit exceeded");
            ChannelsShrunk(h.channels, after.channels) && RoomsShrunk(h.rooms, after.rooms) &&
            (cmd.id in after.clients ==> Got(after, cmd.id, refusal) == Got(h, cmd.id, refusal) + 1)
  {
    hide Run, Got, Charge;
    var charged := Charge(h, cmd.id, now).0;
    ChargeShape(h, cmd.id, now);
    var todo := [Send(cmd.id, RATE_ERROR)];
    assert Begin(w, h, cmd, now) == Effect(charged, todo);
    RunShrinks(w, charged, todo);
    OneTask(todo[0], todo[0]);
    SameQueues(h, charged, cmd.id, RATE_ERROR);
    if cmd.id in Run(w, charged, todo).clients { RunGot(w, charged, todo, cmd.id, RATE_ERROR); }
  }

  // --- Closed sessions ---

  lemma PerformEvicts(w: World, h: Hub, task: Task, d: ClientId, session: string)
    requires d in Perform(w, h, task).hub.clients
    ensures var closed := SessionClosed(session, "coordinator_left");
            Got(Perform(w, h, task).hub, d, closed) >= Got(h, d, closed) + if task == Evict(d, session) then 1 else 0
  {
    hide Deliver, Quit, Got;
    PerformGot(w, h, task, d, SessionClosed(session, "coordinator_left"));
    if task == Evict(d, session) {
      var dropped := h.(clients := DropSession(h.clients, d, session));
      DropGot(h, dropped, d, session, d, SessionClosed(session, "coordinator_left"));
      DeliverGot(w, dropped, d, SessionClosed(session, "coordinator_left"), d, SessionClosed(session, "coordinator_left"));
    }
  }

  lemma {:induction false} RunEvicts(w: World, h: Hub, agenda: seq<Task>, d: ClientId, session: string)
    requires d in Run(w, h, agenda).clients
    ensures var closed := SessionClosed(session, "coordinator_left");
            Got(Run(w, h, agenda), d, closed) >= Got(h, d, closed) + Times(agenda, Evict(d, session))
    decreases h.clients.Keys, Expanding(agenda), |agenda|
  {
    hide Perform, Got;
    if agenda != [] {
      var task, rest := agenda[0], agenda[1..];
      var e := Perform(w, h, task);
      PerformProgress(w, h, task);
      ExpandingConcat(e.todo, rest);
      RunEvicts(w, e.hub, e.todo + rest, d, session);
      TimesConcat(e.todo, rest, Evict(d, session));
      PerformEvicts(w, h, task, d, session);
    }
  }

  // When the coordinator leaves a session that closes with it, everyone else in it that lives through the step
  // is put out of it and told why.
  lemma CloseArrives(w: World, h: Hub, id: ClientId, session: string, now: real, d: ClientId)
    requires IndexesAgree(h) && S.IsMember(h.rooms, session, id) && S.IsMember(h.rooms, session, d) && d != id
    requires w.policy == S.Close && h.rooms[session].coordinator == id
    ensures var after := Step(w, h, SessionLeave(id, session), now); var closed := SessionClosed(session, "coordinator_left");
            session !in after.rooms &&
            (d in after.clients ==> !Attends(after, d, session) && Got(after, d, closed) >= Got(h, d, closed) + 1)
  {
    hide Run, Got, Times, Quit, IndexesAgree, S.AfterLeave;
    var e := Quit(w, h, id, session);
    var closed := SessionClosed(session, "coordinator_left");
    var i := EvictionIsDue(w, h, id, session, d);
    TimesSome(e.todo, i);
    RunFirst(w, h, QuitSession(id, session), []);
    assert [QuitSession(id, session)] + [] == [QuitSession(id, session)] && e.todo + [] == e.todo;
    QuitGot(w, h, id, session, d, closed);
    RunShrinks(w, e.hub, e.todo);
    StepKeepsIndexes(w, h, SessionLeave(id, session), now);
    RoomsStayGone(e.hub, Run(w, e.hub, e.todo), session);
    if d in Run(w, e.hub, e.todo).clients { RunEvicts(w, e.hub, e.todo, d, session); }
  }

  lemma EvictionIsDue(w: World, h: Hub, id: ClientId, session: string, d: ClientId) returns (i: nat)
    requires IndexesAgree(h) && S.IsMember(h.rooms, session, id) && S.IsMember(h.rooms, session, d) && d != id
    requires w.policy == S.Close && h.rooms[session].coordinator == id
    ensures var e := Quit(w, h, id, session); session !in e.hub.rooms && i < |e.todo| && e.todo[i] == Evict(d, session)
  {
    hide Quit, S.AfterLeave, ChannelsAgree, SeatsAgree;
    QuitTodo(w, h, id, session);
    QuitRooms(w, h, id, session);
    ClosesWithCoordinator(h, id, session, d);
    i :| 0 <= i < |Quit(w, h, id, session).todo| && Quit(w, h, id, session).todo[i] == Evict(d, session);
  }

  lemma ClosesWithCoordinator(h: Hub, id: ClientId, session: string, d: ClientId)
    requires S.IsMember(h.rooms, session, id) && h.rooms[session].coordinator == id
    ensures session !in S.AfterLeave(h.rooms, session, id, S.Close)
  {
  }

  lemma RoomsStayGone(h: Hub, after: Hub, session: string)
    requires session !in h.rooms && RoomsShrunk(h.rooms, after.rooms) && IndexesAgree(after)
    ensures session !in after.rooms && forall d :: !Attends(after, d, session)
  {
    if session in after.rooms {
      assert S.RoomOk(after.rooms[session]);
      var m :| m in after.rooms[session].members;
      assert S.IsMember(after.rooms, session, m);
    }
  }
}
