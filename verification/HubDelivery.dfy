// Who is told what: fan-out reaches exactly the right clients, each once, and session announcements name
// the right member and the right coordinator, in join order.
module HubDelivery {
  import opened Wrappers
  import opened Protocol
  import opened Listing
  import opened HubMachine
  import opened HubIndexes
  import P = ChannelPresence
  import S = CoordinatorSessions

  function Times(agenda: seq<Task>, t: Task): nat {
    if agenda == [] then 0 else (if agenda[0] == t then 1 else 0) + Times(agenda[1..], t)
  }

  lemma {:induction false} TimesConcat(a: seq<Task>, b: seq<Task>, t: Task)
    ensures Times(a + b, t) == Times(a, t) + Times(b, t)
  {
    if a == [] {
      assert a + b == b;
    } else {
      TimesConcat(a[1..], b, t);
      assert (a + b)[1..] == a[1..] + b;
    }
  }

  lemma {:induction false} SendsOnce(ids: seq<ClientId>, except: ClientId, msg: ServerMsg, d: ClientId)
    requires NoDup(ids)
    ensures Times(Sends(ids, except, msg), Send(d, msg)) == if d in ids && d != except then 1 else 0
  {
    if ids != [] {
      SendsOnce(ids[1..], except, msg, d);
      var first := if ids[0] == except then [] else [Send(ids[0], msg)];
      TimesConcat(first, Sends(ids[1..], except, msg), Send(d, msg));
      assert forall t :: Times([t], Send(d, msg)) == if t == Send(d, msg) then 1 else 0 by {
        forall t: Task ensures Times([t], Send(d, msg)) == if t == Send(d, msg) then 1 else 0 { assert [t][1..] == []; }
      }
      assert ids[0] == d ==> d !in ids[1..];
    }
  }

  // An announcement goes once to each member of the channel but the one excepted, and to nobody else.
  lemma AnnounceReachesMembers(w: World, h: Hub, channel: string, except: ClientId, msg: ServerMsg, d: ClientId)
    ensures var todo := Perform(w, h, Announce(channel, except, msg)).todo;
            (forall t <- todo :: t.Send? && t.msg == msg) &&
            Times(todo, Send(d, msg)) == if d in P.Members(h.channels, channel) && d != except then 1 else 0
  {
    var ids := Subscribers(w, h, channel);
    ListingNoDup(ids, P.Members(h.channels, channel).Keys);
    SendsOnly(ids, except, msg);
    SendsOnce(ids, except, msg, d);
  }

  // A publication goes once to each subscriber but the publisher.
  lemma PublishReachesSubscribers(w: World, h: Hub, id: ClientId, channel: string, payload: Payload, d: ClientId)
    requires ChannelsAgree(h)
    ensures var begun := OnPublish(h, id, channel, payload); var msg := Message(channel, PrincipalOf(h, id), payload);
            begun.todo == [Announce(channel, id, msg)] &&
            Times(Perform(w, begun.hub, begun.todo[0]).todo, Send(d, msg)) == if Subscribed(h, d, channel) && d != id then 1 else 0
  {
    hide Perform;
    AnnounceReachesMembers(w, Published(h), channel, id, Message(channel, PrincipalOf(h, id), payload), d);
    assert Subscribed(h, d, channel) <==> d in P.Members(h.channels, channel);
  }

  // --- Sessions ---

  ghost predicate OneSeatEach(seats: seq<S.Seat>) {
    forall i, j :: 0 <= i < j < |seats| ==> seats[i].clientId != seats[j].clientId
  }

  lemma {:induction false} SendOthersOnce(seats: seq<S.Seat>, except: ClientId, msg: ServerMsg, d: ClientId)
    requires OneSeatEach(seats)
    ensures Times(SendOthers(seats, except, msg), Send(d, msg))
              == if d != except && exists seat <- seats :: seat.clientId == d then 1 else 0
  {
    if seats != [] {
      SendOthersOnce(seats[1..], except, msg, d);
      var first := if seats[0].clientId == except then [] else [Send(seats[0].clientId, msg)];
      TimesConcat(first, SendOthers(seats[1..], except, msg), Send(d, msg));
      OneTask(Send(seats[0].clientId, msg), Send(d, msg));
      assert seats == [seats[0]] + seats[1..];
      assert seats[0].clientId == d ==> forall seat <- seats[1..] :: seat.clientId != d;
      assert (exists seat <- seats :: seat.clientId == d) <==> seats[0].clientId == d || exists seat <- seats[1..] :: seat.clientId == d;
    }
  }

  lemma OneTask(t: Task, u: Task)
    ensures Times([t], u) == if t == u then 1 else 0
  {
    assert [t][1..] == [];
  }

  // The roster seats each member once, in join order.
  lemma RosterSeatsEachOnce(room: S.Room, d: ClientId)
    requires S.RoomOk(room)
    ensures OneSeatEach(S.Roster(room.members))
    ensures (exists seat <- S.Roster(room.members) :: seat.clientId == d) <==> d in room.members
  {
    hide S.Roster, S.RoomOk;
    S.RosterClients(room);
    ClientsOfSeats(S.Roster(room.members), room.order, d);
  }

  lemma ClientsOfSeats(seats: seq<S.Seat>, order: seq<ClientId>, d: ClientId)
    requires |seats| == |order| && NoDup(order) && forall i :: 0 <= i < |order| ==> seats[i].clientId == order[i]
    ensures OneSeatEach(seats) && ((exists seat <- seats :: seat.clientId == d) <==> d in order)
  {
    if d in order {
      var i :| 0 <= i < |order| && order[i] == d;
      assert seats[i] in seats;
    }
    forall seat <- seats ensures seat.clientId in order {
      var i :| 0 <= i < |seats| && seats[i] == seat;
      assert order[i] in order;
    }
  }

  // The coordinator's broadcast goes once to each other member; anybody else's is refused to its sender.
  lemma BroadcastReachesMembers(h: Hub, id: ClientId, session: string, payload: Payload, d: ClientId)
    requires S.RoomsOk(h.rooms)
    ensures var todo := OnToMembers(h, id, session, payload).todo; var msg := FromCoordinator(session, payload);
            if session in h.rooms && h.rooms[session].coordinator == id
            then Times(todo, Send(d, msg)) == if S.IsMember(h.rooms, session, d) && d != id then 1 else 0
            else todo == [Send(id, NotCoordinator(session))]
  {
    if session in h.rooms && h.rooms[session].coordinator == id {
      RosterSeatsEachOnce(h.rooms[session], d);
      SendOthersOnce(S.Roster(h.rooms[session].members), id, FromCoordinator(session, payload), d);
    }
  }

  // A member's message goes to the first member in join order, under the sender's own seat.
  lemma RelayReachesCoordinator(h: Hub, id: ClientId, session: string, payload: Payload)
    requires S.RoomsOk(h.rooms) && S.IsMember(h.rooms, session, id)
    ensures var room := h.rooms[session];
            OnToCoordinator(h, id, session, payload).todo
              == [Send(room.order[0], FromMember(session, room.members[id].principal, room.members[id].slot, payload))] &&
            room.order[0] in room.members
  {
    assert h.rooms[session].order[0] in h.rooms[session].order;
  }

  lemma {:induction false} InfosAre(seats: seq<S.Seat>)
    ensures |Infos(seats)| == |seats| && forall i :: 0 <= i < |seats| ==> Infos(seats)[i] == MemberInfo(seats[i].slot, seats[i].principal)
  {
    if seats != [] { InfosAre(seats[1..]); }
  }

  // What joining makes of the session, and what it sets the hub to say.
  lemma EnrollSays(h: Hub, id: ClientId, session: string)
    requires id in h.clients
    ensures var e := Enroll(h, id, session); var who := h.clients[id].principal;
            e.hub.rooms == S.AfterJoin(h.rooms, session, id, who) && S.IsMember(e.hub.rooms, session, id) &&
            var room := e.hub.rooms[session]; var slot := room.members[id].slot; var roster := S.Roster(room.members);
            e.todo == [Send(id, SessionStart(session, slot, room.coordinator == id, Infos(roster)))]
                      + (SendOthers(roster, id, MemberJoined(session, slot, who)) + [SessionGauge])
  {
    hide S.Roster;
    var e := Enroll(h, id, session);
    var report := S.JoinReport(h.rooms, session, id, h.clients[id].principal);
    Reassociate([e.todo[0]], SendOthers(report.roster, id, MemberJoined(session, report.slot, h.clients[id].principal)), [SessionGauge]);
  }

  // A joiner is told its slot, whether it coordinates, and everyone in join order.
  lemma JoinerIsTold(h: Hub, id: ClientId, session: string)
    requires S.RoomsOk(h.rooms) && id in h.clients
    ensures var e := Enroll(h, id, session);
            session in e.hub.rooms &&
            var room := e.hub.rooms[session];
            id in room.members && |room.order| > 0 && (forall i :: 0 <= i < |room.order| ==> room.order[i] in room.members) &&
            var start := e.todo[0];
            start.Send? && start.id == id && start.msg.SessionStart? && start.msg.slot == room.members[id].slot &&
            (start.msg.coordinator <==> room.order[0] == id) && |start.msg.roster| == |room.order| &&
            forall i :: 0 <= i < |room.order| ==> start.msg.roster[i] == InfoOf(room.members[room.order[i]])
  {
    hide S.Roster, S.RoomOk, Enroll, S.AfterJoin;
    EnrollSays(h, id, session);
    S.JoinKeepsRooms(h.rooms, session, id, h.clients[id].principal);
    var room := Enroll(h, id, session).hub.rooms[session];
    S.RosterClients(room);
    InfosAre(S.Roster(room.members));
  }

  function InfoOf(seat: S.Seat): MemberInfo { MemberInfo(seat.slot, seat.principal) }

  // Everyone else in the session is told of the joiner, once.
  lemma OthersAreTold(h: Hub, id: ClientId, session: string, d: ClientId)
    requires S.RoomsOk(h.rooms) && id in h.clients
    ensures var e := Enroll(h, id, session);
            S.IsMember(e.hub.rooms, session, id) &&
            var room := e.hub.rooms[session]; var news := MemberJoined(session, room.members[id].slot, h.clients[id].principal);
            Times(e.todo, Send(d, news)) == if d in room.members && d != id then 1 else 0
  {
    hide S.Roster, S.RoomOk, Enroll, S.AfterJoin;
    EnrollSays(h, id, session);
    S.JoinKeepsRooms(h.rooms, session, id, h.clients[id].principal);
    var e := Enroll(h, id, session);
    var room := e.hub.rooms[session];
    var news := MemberJoined(session, room.members[id].slot, h.clients[id].principal);
    var others := SendOthers(S.Roster(room.members), id, news);
    RosterSeatsEachOnce(room, d);
    SendOthersOnce(S.Roster(room.members), id, news, d);
    TimesConcat([e.todo[0]], others + [SessionGauge], Send(d, news));
    TimesConcat(others, [SessionGauge], Send(d, news));
    OneTask(e.todo[0], Send(d, news));
    OneTask(SessionGauge, Send(d, news));
  }

  lemma {:induction false} SeatSendsAt(seats: seq<S.Seat>, msg: ServerMsg)
    ensures |SendSeats(seats, msg)| == |seats| && forall i :: 0 <= i < |seats| ==> SendSeats(seats, msg)[i] == Send(seats[i].clientId, msg)
  {
    if seats != [] { SeatSendsAt(seats[1..], msg); }
  }

  lemma {:induction false} ElectionAt(seats: seq<S.Seat>, left: ServerMsg, changed: ServerMsg, i: nat)
    requires i < |seats|
    ensures var all := SendElection(seats, left, changed);
            |all| == 2 * |seats| && all[2 * i] == Send(seats[i].clientId, left) && all[2 * i + 1] == Send(seats[i].clientId, changed)
  {
    ElectionLength(seats, left, changed);
    if i > 0 {
      ElectionAt(seats[1..], left, changed, i - 1);
      var rest := SendElection(seats[1..], left, changed);
      assert SendElection(seats, left, changed)[2..] == rest;
    }
  }

  lemma {:induction false} ElectionLength(seats: seq<S.Seat>, left: ServerMsg, changed: ServerMsg)
    ensures |SendElection(seats, left, changed)| == 2 * |seats|
  {
    if seats != [] { ElectionLength(seats[1..], left, changed); }
  }

  // What a leave reports, of a session that goes on.
  lemma LeaveGoesOn(w: World, h: Hub, id: ClientId, session: string)
    requires S.RoomsOk(h.rooms) && S.IsMember(h.rooms, session, id)
    requires session in S.AfterLeave(h.rooms, session, id, w.policy)
    ensures var report := S.LeaveReport(h.rooms, session, id, w.policy); var room := S.AfterLeave(h.rooms, session, id, w.policy)[session];
            S.RoomOk(room) && room.coordinator in room.members && report.Some? &&
            report.value.member == h.rooms[session].members[id] && report.value.remaining == S.Roster(room.members) &&
            report.value.change == if room.coordinator == h.rooms[session].coordinator then S.NoChange else S.Reelected(room.members[room.coordinator])
  {
    hide S.Roster, S.RoomOk;
    S.LeaveReportIsRight(h.rooms, session, id, w.policy);
    S.LeaveKeepsRooms(h.rooms, session, id, w.policy);
    var room := S.AfterLeave(h.rooms, session, id, w.policy)[session];
    S.RosterClients(room);
    assert room.order[0] in room.members;
  }

  // A leave that does not change the coordinator tells everyone left, in join order, who left.
  lemma LeaveTells(w: World, h: Hub, id: ClientId, session: string, i: nat)
    requires S.RoomsOk(h.rooms) && S.IsMember(h.rooms, session, id)
    requires var after := S.AfterLeave(h.rooms, session, id, w.policy);
             session in after && after[session].coordinator == h.rooms[session].coordinator && i < |after[session].order|
    ensures var e := Quit(w, h, id, session); var gone, room := h.rooms[session].members[id], e.hub.rooms[session];
            |e.todo| == |room.order| + 1 && e.todo[i] == Send(room.order[i], MemberLeft(session, gone.slot, gone.principal))
  {
    hide S.Roster, S.RoomOk, S.AfterLeave, S.LeaveReport;
    LeaveGoesOn(w, h, id, session);
    var room := S.AfterLeave(h.rooms, session, id, w.policy)[session];
    S.RosterClients(room);
    var gone := h.rooms[session].members[id];
    SeatSendsAt(S.Roster(room.members), MemberLeft(session, gone.slot, gone.principal));
  }

  // One that does tells everyone left, in join order, who left and then who coordinates now.
  lemma ElectionTells(w: World, h: Hub, id: ClientId, session: string, i: nat)
    requires S.RoomsOk(h.rooms) && S.IsMember(h.rooms, session, id)
    requires var after := S.AfterLeave(h.rooms, session, id, w.policy);
             session in after && after[session].coordinator != h.rooms[session].coordinator && i < |after[session].order|
    ensures var e := Quit(w, h, id, session); var gone, room := h.rooms[session].members[id], e.hub.rooms[session];
            |e.todo| == 2 * |room.order| + 1 && room.coordinator in room.members &&
            var now := room.members[room.coordinator];
            e.todo[2 * i] == Send(room.order[i], MemberLeft(session, gone.slot, gone.principal)) &&
            e.todo[2 * i + 1] == Send(room.order[i], CoordinatorChanged(session, now.slot, now.principal))
  {
    hide S.Roster, S.RoomOk, S.AfterLeave, S.LeaveReport;
    LeaveGoesOn(w, h, id, session);
    var room := S.AfterLeave(h.rooms, session, id, w.policy)[session];
    S.RosterClients(room);
    var gone, now := h.rooms[session].members[id], room.members[room.coordinator];
    ElectionAt(S.Roster(room.members), MemberLeft(session, gone.slot, gone.principal), CoordinatorChanged(session, now.slot, now.principal), i);
  }

  // The frame a live client is sent is queued after all before it, or shed and remembered as shed; nothing
  // else about anybody's queue changes, and a client found gone takes its queue with it.
  lemma DeliveryIsConserved(w: World, h: Hub, id: ClientId, msg: ServerMsg)
    requires id in h.clients
    ensures var after := Deliver(w, h, id, msg).hub;
            (forall d <- after.clients :: d != id ==> after.clients[d] == h.clients[d]) &&
            (id in after.clients ==>
               var a, b := h.clients[id].out, after.clients[id].out;
               (b.sent == a.sent + [msg] && b.shed == a.shed) || (b.sent == a.sent && b.shed == a.shed + [msg])) &&
            after.clients.Keys == if HungUp(w, h, id) then h.clients.Keys - {id} else h.clients.Keys
  {
  }

  // The delivery counters say which of the two it was; no other counter moves.
  lemma DeliveryIsCounted(w: World, h: Hub, id: ClientId, msg: ServerMsg)
    requires id in h.clients
    ensures var after := Deliver(w, h, id, msg).hub;
            var queued := id in after.clients && |after.clients[id].out.sent| > |h.clients[id].out.sent|;
            var dropped := id in after.clients && |after.clients[id].out.shed| > |h.clients[id].out.shed|;
            after.stats == h.stats.(delivered := h.stats.delivered + if queued then 1 else 0,
                                    dropped := h.stats.dropped + if dropped then 1 else 0)
  {
  }

  // The other end of id's queue is gone by the time the next frame is tried.
  predicate HungUp(w: World, h: Hub, id: ClientId)
    requires id in h.clients
  {
    Disturb(h.clients[id].out, w.move(h.tick)).closed
  }
}
