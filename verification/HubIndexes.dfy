// The hub's three indexes - each client's own sets, the presence map and the sessions - agree
// after every command, through any cascade of reaped clients.
module HubIndexes {
  import opened Wrappers
  import opened Protocol
  import opened Listing
  import opened HubMachine
  import P = ChannelPresence
  import S = CoordinatorSessions

  // --- Agreement at rest ---

  ghost predicate ChannelsAgree(h: Hub) {
    (forall id, channel :: (id in h.clients && channel in h.clients[id].subscriptions) <==> id in P.Members(h.channels, channel)) &&
    (forall id <- h.clients, channel <- h.clients[id].subscriptions :: P.Members(h.channels, channel)[id] == h.clients[id].principal) &&
    (forall channel <- h.channels :: h.channels[channel] != map[])
  }

  ghost predicate SeatsAgree(h: Hub) {
    (forall id, session :: (id in h.clients && session in h.clients[id].sessions) <==> S.IsMember(h.rooms, session, id)) &&
    (forall id <- h.clients, session <- h.clients[id].sessions :: h.rooms[session].members[id].principal == h.clients[id].principal)
  }

  ghost predicate IndexesAgree(h: Hub) {
    ChannelsAgree(h) && SeatsAgree(h) && S.RoomsOk(h.rooms)
  }

  // --- Agreement in the middle of a cascade, up to what the agenda still owes ---

  ghost predicate OwesLeave(agenda: seq<Task>, id: ClientId, channel: string) {
    exists who :: LeaveChannel(id, who, channel) in agenda
  }

  ghost predicate Subscribed(h: Hub, id: ClientId, channel: string) {
    id in h.clients && channel in h.clients[id].subscriptions
  }

  ghost predicate Attends(h: Hub, id: ClientId, session: string) {
    id in h.clients && session in h.clients[id].sessions
  }

  ghost predicate Listed(h: Hub, id: ClientId, channel: string) {
    id in h.clients && id in P.Members(h.channels, channel) && P.Members(h.channels, channel)[id] == h.clients[id].principal
  }

  ghost predicate Seated(h: Hub, id: ClientId, session: string) {
    id in h.clients && S.IsMember(h.rooms, session, id) && h.rooms[session].members[id].principal == h.clients[id].principal
  }

  ghost predicate ChannelsOk(h: Hub, agenda: seq<Task>) {
    (forall id, channel :: Subscribed(h, id, channel) ==> Listed(h, id, channel)) &&
    (forall channel, id :: id in P.Members(h.channels, channel) ==> Subscribed(h, id, channel) || OwesLeave(agenda, id, channel)) &&
    (forall channel <- h.channels :: h.channels[channel] != map[])
  }

  ghost predicate SeatsOk(h: Hub, agenda: seq<Task>) {
    (forall id, session :: Attends(h, id, session) ==> Seated(h, id, session) || Evict(id, session) in agenda) &&
    (forall session, id :: S.IsMember(h.rooms, session, id) ==> Attends(h, id, session) || QuitSession(id, session) in agenda) &&
    (forall id, session :: Evict(id, session) in agenda ==> !S.IsMember(h.rooms, session, id))
  }

  ghost predicate Coherent(h: Hub, agenda: seq<Task>) {
    ChannelsOk(h, agenda) && SeatsOk(h, agenda) && S.RoomsOk(h.rooms)
  }

  lemma ChannelsAtRest(h: Hub)
    ensures ChannelsOk(h, []) <==> ChannelsAgree(h)
  {
    if ChannelsOk(h, []) {
      forall id, channel ensures Subscribed(h, id, channel) <==> id in P.Members(h.channels, channel) {
        assert !OwesLeave([], id, channel);
      }
      forall id <- h.clients, channel <- h.clients[id].subscriptions ensures P.Members(h.channels, channel)[id] == h.clients[id].principal {
        assert Subscribed(h, id, channel);
      }
    }
  }

  lemma SeatsAtRest(h: Hub)
    ensures SeatsOk(h, []) <==> SeatsAgree(h)
  {
    if SeatsOk(h, []) {
      forall id, session ensures Attends(h, id, session) <==> S.IsMember(h.rooms, session, id) {
      }
      forall id, session | id in h.clients && session in h.clients[id].sessions
        ensures S.IsMember(h.rooms, session, id) && h.rooms[session].members[id].principal == h.clients[id].principal {
        assert Attends(h, id, session) && Seated(h, id, session);
      }
    }
  }

  lemma CoherentAtRest(h: Hub)
    ensures Coherent(h, []) <==> IndexesAgree(h)
  {
    ChannelsAtRest(h);
    SeatsAtRest(h);
  }

  // --- What a farewell owes ---

  lemma {:induction false} DeparturesOwe(id: ClientId, who: string, channels: seq<string>)
    ensures forall channel <- channels :: LeaveChannel(id, Some(who), channel) in Departures(id, who, channels)
    ensures forall t <- Departures(id, who, channels) :: t.LeaveChannel?
  {
    if channels != [] { DeparturesOwe(id, who, channels[1..]); }
  }

  lemma {:induction false} QuitsOwe(id: ClientId, sessions: seq<string>)
    ensures forall session <- sessions :: QuitSession(id, session) in Quits(id, sessions)
    ensures forall t <- Quits(id, sessions) :: t.QuitSession?
  {
    if sessions != [] { QuitsOwe(id, sessions[1..]); }
  }

  lemma FarewellOwes(w: World, h: Hub, id: ClientId, c: Client)
    ensures forall channel <- c.subscriptions :: LeaveChannel(id, Some(c.principal), channel) in Farewell(w, h, id, c)
    ensures forall session <- c.sessions :: QuitSession(id, session) in Farewell(w, h, id, c)
    ensures forall t <- Farewell(w, h, id, c) :: !t.Evict?
  {
    DeparturesOwe(id, c.principal, w.channelOrder(h.tick, c.subscriptions));
    QuitsOwe(id, w.sessionOrder(h.tick, c.sessions));
  }

  // Forgetting a client leaves both indexes right up to its farewell.
  lemma ReapKeepsChannels(w: World, h: Hub, after: Hub, id: ClientId, rest: seq<Task>)
    requires id in h.clients && ChannelsOk(h, rest)
    requires after.clients == h.clients - {id} && after.channels == h.channels
    ensures ChannelsOk(after, Farewell(w, h, id, h.clients[id]) + rest)
  {
    var c := h.clients[id];
    FarewellOwes(w, h, id, c);
    var agenda := Farewell(w, h, id, c) + rest;
    forall x, channel | Subscribed(after, x, channel) ensures Listed(after, x, channel) {
      assert Subscribed(h, x, channel);
    }
    forall channel, x | x in P.Members(after.channels, channel)
      ensures Subscribed(after, x, channel) || OwesLeave(agenda, x, channel) {
      if Subscribed(h, x, channel) {
        if x == id { assert LeaveChannel(id, Some(c.principal), channel) in agenda; }
      } else {
        var who :| LeaveChannel(x, who, channel) in rest;
        assert LeaveChannel(x, who, channel) in agenda;
      }
    }
  }

  lemma ReapKeepsSeats(w: World, h: Hub, after: Hub, id: ClientId, rest: seq<Task>)
    requires id in h.clients && SeatsOk(h, rest)
    requires after.clients == h.clients - {id} && after.rooms == h.rooms
    ensures SeatsOk(after, Farewell(w, h, id, h.clients[id]) + rest)
  {
    var c := h.clients[id];
    FarewellOwes(w, h, id, c);
    forall x, session | Attends(after, x, session)
      ensures Seated(after, x, session) || Evict(x, session) in Farewell(w, h, id, c) + rest {
      assert Attends(h, x, session);
    }
    forall session, x | S.IsMember(after.rooms, session, x)
      ensures Attends(after, x, session) || QuitSession(x, session) in Farewell(w, h, id, c) + rest {
      assert Attends(h, x, session) || QuitSession(x, session) in rest;
    }
  }

  // --- One task ---

  // Changing only what a client has been sent changes no index.
  lemma SameIndexes(h: Hub, after: Hub, agenda: seq<Task>)
    requires after.clients.Keys == h.clients.Keys && after.channels == h.channels && after.rooms == h.rooms
    requires forall id <- h.clients :: after.clients[id].subscriptions == h.clients[id].subscriptions
                                     && after.clients[id].sessions == h.clients[id].sessions
                                     && after.clients[id].principal == h.clients[id].principal
    ensures ChannelsOk(h, agenda) ==> ChannelsOk(after, agenda)
    ensures SeatsOk(h, agenda) ==> SeatsOk(after, agenda)
  {
    assert forall id, channel :: Subscribed(h, id, channel) <==> Subscribed(after, id, channel);
    assert forall id, channel :: Listed(h, id, channel) <==> Listed(after, id, channel);
    assert forall id, session :: Attends(h, id, session) <==> Attends(after, id, session);
    assert forall id, session :: Seated(h, id, session) <==> Seated(after, id, session);
  }

  lemma DeliverKeepsIndexes(w: World, h: Hub, id: ClientId, msg: ServerMsg, rest: seq<Task>)
    requires ChannelsOk(h, rest) && SeatsOk(h, rest)
    ensures var e := Deliver(w, h, id, msg); ChannelsOk(e.hub, e.todo + rest) && SeatsOk(e.hub, e.todo + rest)
    ensures Deliver(w, h, id, msg).hub.rooms == h.rooms
  {
    var e := Deliver(w, h, id, msg);
    if id in h.clients && TryDeliver(Disturb(h.clients[id].out, w.move(h.tick)), msg).1.Closed? {
      var later := h.(tick := h.tick + 1);
      assert ChannelsOk(later, rest) && SeatsOk(later, rest) by { SameIndexes(h, later, rest); }
      ReapKeepsChannels(w, later, e.hub, id, rest);
      ReapKeepsSeats(w, later, e.hub, id, rest);
    } else {
      assert e.todo + rest == rest;
      SameIndexes(h, e.hub, rest);
    }
  }

  lemma NoFrontierTask(agenda: seq<Task>, todo: seq<Task>, rest: seq<Task>, task: Task)
    requires agenda == [task] + rest
    requires forall t <- todo :: !t.Evict?
    requires !task.LeaveChannel? && !task.QuitSession? && !task.Evict?
    ensures forall h :: ChannelsOk(h, agenda) ==> ChannelsOk(h, todo + rest)
    ensures forall h :: SeatsOk(h, agenda) ==> SeatsOk(h, todo + rest)
  {
    forall channel, id | OwesLeave(agenda, id, channel) ensures OwesLeave(todo + rest, id, channel) {
      var who :| LeaveChannel(id, who, channel) in agenda;
      assert LeaveChannel(id, who, channel) in rest;
      assert LeaveChannel(id, who, channel) in todo + rest;
    }
  }

  lemma {:induction false} SendsOnly(ids: seq<ClientId>, except: ClientId, msg: ServerMsg)
    ensures forall t <- Sends(ids, except, msg) :: t.Send? && t.id in ids && t.id != except && t.msg == msg
    ensures forall id <- ids :: id != except ==> Send(id, msg) in Sends(ids, except, msg)
  {
    if ids != [] { SendsOnly(ids[1..], except, msg); }
  }

  lemma {:induction false} SeatSendsOnly(seats: seq<S.Seat>, left: ServerMsg, changed: ServerMsg)
    ensures forall t <- SendSeats(seats, left) :: t.Send? && t.msg == left
    ensures forall t <- SendElection(seats, left, changed) :: t.Send? && (t.msg == left || t.msg == changed)
  {
    if seats != [] { SeatSendsOnly(seats[1..], left, changed); }
  }

  lemma {:induction false} EvictionsOwe(seats: seq<S.Seat>, session: string)
    ensures forall seat <- seats :: Evict(seat.clientId, session) in Evictions(seats, session)
    ensures forall t <- Evictions(seats, session) :: t.Evict? && t.session == session && exists seat <- seats :: seat.clientId == t.id
  {
    if seats != [] {
      EvictionsOwe(seats[1..], session);
      forall t <- Evictions(seats, session) ensures t.Evict? && t.session == session && exists seat <- seats :: seat.clientId == t.id {
        if t in Evictions(seats[1..], session) {
          var seat :| seat in seats[1..] && seat.clientId == t.id;
          assert seat in seats;
        } else {
          assert seats[0] in seats;
        }
      }
    }
  }

  lemma ToldOnly(session: string, outcome: S.LeaveOutcome)
    ensures forall t <- Told(session, outcome) ::
              if outcome.change.RoomClosed? then t.Evict? && t.session == session
              else t.Send? && (t.msg.MemberLeft? || t.msg.CoordinatorChanged?)
  {
    var left := MemberLeft(session, outcome.member.slot, outcome.member.principal);
    match outcome.change
    case RoomClosed => EvictionsOwe(outcome.remaining, session);
    case Reelected(seat) => SeatSendsOnly(outcome.remaining, left, CoordinatorChanged(session, seat.slot, seat.principal));
    case NoChange => SeatSendsOnly(outcome.remaining, left, left);
  }

  lemma QuitOnlyTells(w: World, h: Hub, id: ClientId, session: string)
    ensures forall t <- Quit(w, h, id, session).todo ::
              t.SessionGauge? || t.Evict? || (t.Send? && (t.msg.MemberLeft? || t.msg.CoordinatorChanged?))
  {
    var report := S.LeaveReport(h.rooms, session, id, w.policy);
    if report.Some? { ToldOnly(session, report.value); }
  }

  lemma SeatsHaveEveryone(members: map<ClientId, S.Seat>, ids: seq<nat>)
    requires IsListing(ids, members.Keys)
    ensures forall id <- members :: members[id] in S.SeatsOf(members, ids)
  {
    forall id <- members ensures members[id] in S.SeatsOf(members, ids) {
      assert id in members.Keys && id in ids;
      var i :| 0 <= i < |ids| && ids[i] == id;
      assert S.SeatsOf(members, ids)[i] == members[id];
    }
  }

  lemma RosterHasEveryone(members: map<ClientId, S.Seat>)
    ensures forall id <- members :: members[id] in S.Roster(members)
  {
    S.BySlotIsTotal(members);
    SeatsHaveEveryone(members, Sorted(members.Keys, S.BySlot(members)));
  }

  lemma LeaveChannelKeepsChannels(w: World, h: Hub, task: Task, rest: seq<Task>)
    requires task.LeaveChannel? && ChannelsOk(h, [task] + rest)
    requires !Subscribed(h, task.id, task.channel)
    ensures var e := Perform(w, h, task); ChannelsOk(e.hub, e.todo + rest)
  {
    var e := Perform(w, h, task);
    var agenda := [task] + rest;
    P.LeaveMembers(h.channels, task.channel, task.id);
    forall id, channel | Subscribed(e.hub, id, channel) ensures Listed(e.hub, id, channel) {
      assert Subscribed(h, id, channel);
      assert Listed(h, id, channel);
    }
    forall channel, id | id in P.Members(e.hub.channels, channel)
      ensures Subscribed(e.hub, id, channel) || OwesLeave(e.todo + rest, id, channel) {
      assert id in P.Members(h.channels, channel) && !(id == task.id && channel == task.channel);
      if !Subscribed(h, id, channel) {
        var who :| LeaveChannel(id, who, channel) in agenda;
        assert LeaveChannel(id, who, channel) in rest;
        assert LeaveChannel(id, who, channel) in e.todo + rest;
      } else {
        assert Subscribed(e.hub, id, channel);
      }
    }
  }

  lemma SeatsAfterLeaveChannel(w: World, h: Hub, task: Task, rest: seq<Task>)
    requires task.LeaveChannel? && SeatsOk(h, [task] + rest)
    ensures var e := Perform(w, h, task); SeatsOk(e.hub, e.todo + rest)
  {
    var e := Perform(w, h, task);
    LeaveOnlyTells(w, h, task);
    OtherChannelsKeepSeats(h, e.hub, task, e.todo, rest);
  }

  lemma LeaveOnlyTells(w: World, h: Hub, task: Task)
    requires task.LeaveChannel?
    ensures forall t <- Perform(w, h, task).todo :: t.Send? && task.who.Some? && t.id != task.id && t.msg == Left(task.channel, task.who.value)
  {
    var e := Perform(w, h, task);
    if task.who.Some? {
      SendsOnly(Subscribers(w, e.hub, task.channel), task.id, Left(task.channel, task.who.value));
    }
  }

  lemma OtherChannelsKeepSeats(h: Hub, after: Hub, task: Task, todo: seq<Task>, rest: seq<Task>)
    requires SeatsOk(h, [task] + rest) && task.LeaveChannel? && forall t <- todo :: t.Send?
    requires after == h.(channels := after.channels)
    ensures SeatsOk(after, todo + rest)
  {
    assert forall id, session :: Attends(h, id, session) <==> Attends(after, id, session);
    assert forall id, session :: Seated(h, id, session) <==> Seated(after, id, session);
  }

  lemma EveryoneIsEvicted(members: map<ClientId, S.Seat>, session: string)
    requires forall m <- members :: members[m].clientId == m
    ensures forall m <- members :: Evict(m, session) in Evictions(S.Roster(members), session)
  {
    EvictionsOwe(S.Roster(members), session);
    RosterHasEveryone(members);
    forall m <- members ensures Evict(m, session) in Evictions(S.Roster(members), session) {
      assert members[m] in S.Roster(members);
    }
  }

  // Whoever is left when a session ends on a leave is evicted from it.
  lemma ClosedSessionEvicts(w: World, h: Hub, id: ClientId, session: string, m: ClientId)
    requires S.IsMember(h.rooms, session, id) && session !in S.AfterLeave(h.rooms, session, id, w.policy)
    requires forall m <- h.rooms[session].members :: h.rooms[session].members[m].clientId == m
    requires m in h.rooms[session].members && m != id
    ensures Evict(m, session) in Quit(w, h, id, session).todo
  {
    hide S.Roster, S.AfterLeave;
    var rest := h.rooms[session].members - {id};
    assert m in rest;
    S.EndOfSession(h.rooms, session, id, w.policy);
    EveryoneIsEvicted(rest, session);
  }

  // A leave's agenda evicts everyone left in a closed session, and nobody else.
  lemma QuitTodo(w: World, h: Hub, id: ClientId, session: string)
    requires S.RoomsOk(h.rooms)
    ensures var e := Quit(w, h, id, session);
            (forall t <- e.todo :: t.Send? || t.SessionGauge? || (t.Evict? && t.session == session && session !in e.hub.rooms)) &&
            (S.IsMember(h.rooms, session, id) && session !in e.hub.rooms ==>
               forall m <- h.rooms[session].members :: m != id ==> Evict(m, session) in e.todo)
  {
    var report := S.LeaveReport(h.rooms, session, id, w.policy);
    if report.Some? {
      ToldOnly(session, report.value);
      if session !in S.AfterLeave(h.rooms, session, id, w.policy) {
        forall m <- h.rooms[session].members | m != id ensures Evict(m, session) in Quit(w, h, id, session).todo {
          ClosedSessionEvicts(w, h, id, session, m);
        }
      }
    }
  }

  // What a leave does to the indexes, whoever it was and however the session went on.
  ghost predicate Quitted(h: Hub, after: Hub, id: ClientId, session: string) {
    after.clients == DropSession(h.clients, id, session) &&
    (forall s, x :: S.IsMember(after.rooms, s, x) ==>
       S.IsMember(h.rooms, s, x) && !(s == session && x == id) && after.rooms[s].members[x] == h.rooms[s].members[x]) &&
    (forall s, x :: S.IsMember(h.rooms, s, x) && !(s == session && x == id) ==>
       S.IsMember(after.rooms, s, x) || (s == session && session !in after.rooms))
  }

  lemma QuitIsQuitted(w: World, h: Hub, id: ClientId, session: string)
    requires S.IsMember(h.rooms, session, id)
    ensures var after := Quit(w, h, id, session).hub;
            after.rooms == S.AfterLeave(h.rooms, session, id, w.policy) && Quitted(h, after, id, session)
  {
    S.LeaveMembership(h.rooms, session, id, w.policy);
  }

  lemma QuitKeepsIndexes(w: World, h: Hub, id: ClientId, session: string, rest: seq<Task>)
    requires Coherent(h, [QuitSession(id, session)] + rest)
    ensures var e := Quit(w, h, id, session); Coherent(e.hub, e.todo + rest)
  {
    var e := Quit(w, h, id, session);
    S.LeaveKeepsRooms(h.rooms, session, id, w.policy);
    QuitKeepsChannels(w, h, id, session, rest);
    if S.IsMember(h.rooms, session, id) {
      QuitKeepsSeats(w, h, id, session, rest);
    } else {
      NothingToQuit(h, id, session, rest);
      assert e.todo + rest == rest;
    }
  }

  lemma NothingToQuit(h: Hub, id: ClientId, session: string, rest: seq<Task>)
    requires SeatsOk(h, [QuitSession(id, session)] + rest) && !S.IsMember(h.rooms, session, id)
    ensures SeatsOk(h, rest)
  {
    forall s, m | S.IsMember(h.rooms, s, m) ensures Attends(h, m, s) || QuitSession(m, s) in rest {
    }
  }

  lemma QuitKeepsSeats(w: World, h: Hub, id: ClientId, session: string, rest: seq<Task>)
    requires SeatsOk(h, [QuitSession(id, session)] + rest) && S.RoomsOk(h.rooms) && S.IsMember(h.rooms, session, id)
    ensures var e := Quit(w, h, id, session); SeatsOk(e.hub, e.todo + rest)
  {
    hide Quit, S.RoomsOk;
    var e := Quit(w, h, id, session);
    QuitTodo(w, h, id, session);
    QuitIsQuitted(w, h, id, session);
    QuitKeepsAttendance(h, e.hub, id, session, e.todo, rest);
    QuitKeepsMembership(h, e.hub, id, session, e.todo, rest);
  }

  lemma QuitKeepsChannels(w: World, h: Hub, id: ClientId, session: string, rest: seq<Task>)
    requires ChannelsOk(h, [QuitSession(id, session)] + rest)
    ensures var e := Quit(w, h, id, session); ChannelsOk(e.hub, e.todo + rest)
  {
    var e := Quit(w, h, id, session);
    var agenda := [QuitSession(id, session)] + rest;
    assert forall x, channel :: Subscribed(h, x, channel) <==> Subscribed(e.hub, x, channel);
    assert forall x, channel :: Listed(h, x, channel) <==> Listed(e.hub, x, channel);
    forall x, channel | OwesLeave(agenda, x, channel) ensures OwesLeave(e.todo + rest, x, channel) {
      var who :| LeaveChannel(x, who, channel) in agenda;
      assert LeaveChannel(x, who, channel) in rest;
      assert LeaveChannel(x, who, channel) in e.todo + rest;
    }
  }

  lemma QuitKeepsAttendance(h: Hub, after: Hub, id: ClientId, session: string, todo: seq<Task>, rest: seq<Task>)
    requires SeatsOk(h, [QuitSession(id, session)] + rest) && Quitted(h, after, id, session)
    requires session in h.rooms
    requires session !in after.rooms ==> forall m <- h.rooms[session].members :: m != id ==> Evict(m, session) in todo
    ensures forall x, s :: Attends(after, x, s) ==> Seated(after, x, s) || Evict(x, s) in todo + rest
  {
    forall x, s | Attends(after, x, s) ensures Seated(after, x, s) || Evict(x, s) in todo + rest {
      assert Attends(h, x, s) && !(x == id && s == session);
      if Evict(x, s) !in [QuitSession(id, session)] + rest {
        assert Seated(h, x, s);
      } else {
        assert Evict(x, s) in rest;
      }
    }
  }

  lemma QuitKeepsMembership(h: Hub, after: Hub, id: ClientId, session: string, todo: seq<Task>, rest: seq<Task>)
    requires SeatsOk(h, [QuitSession(id, session)] + rest) && Quitted(h, after, id, session)
    requires forall t <- todo :: t.Evict? ==> t.session !in after.rooms
    ensures forall s, x :: S.IsMember(after.rooms, s, x) ==> Attends(after, x, s) || QuitSession(x, s) in todo + rest
    ensures forall x, s :: Evict(x, s) in todo + rest ==> !S.IsMember(after.rooms, s, x)
  {
    forall s, x | S.IsMember(after.rooms, s, x) ensures Attends(after, x, s) || QuitSession(x, s) in todo + rest {
      assert S.IsMember(h.rooms, s, x);
      assert Attends(h, x, s) ==> Attends(after, x, s);
    }
    forall x, s | Evict(x, s) in todo + rest ensures !S.IsMember(after.rooms, s, x) {
      if Evict(x, s) in rest { assert Evict(x, s) in [QuitSession(id, session)] + rest; }
    }
  }

  lemma DropKeepsIndexes(h: Hub, id: ClientId, session: string, rest: seq<Task>)
    requires ChannelsOk(h, [Evict(id, session)] + rest) && SeatsOk(h, [Evict(id, session)] + rest)
    ensures var dropped := h.(clients := DropSession(h.clients, id, session));
            ChannelsOk(dropped, rest) && SeatsOk(dropped, rest)
  {
    var dropped := h.(clients := DropSession(h.clients, id, session));
    var agenda := [Evict(id, session)] + rest;
    assert forall x, channel :: Subscribed(h, x, channel) <==> Subscribed(dropped, x, channel);
    assert forall x, channel :: Listed(h, x, channel) <==> Listed(dropped, x, channel);
    forall x, channel | OwesLeave(agenda, x, channel) ensures OwesLeave(rest, x, channel) {
      var who :| LeaveChannel(x, who, channel) in agenda;
      assert LeaveChannel(x, who, channel) in rest;
    }
    assert Evict(id, session) in agenda;
    forall x, s | Attends(dropped, x, s) ensures Seated(dropped, x, s) || Evict(x, s) in rest {
      assert Attends(h, x, s) && !(x == id && s == session);
      assert Seated(h, x, s) || Evict(x, s) in agenda;
    }
    forall s, x | S.IsMember(dropped.rooms, s, x) ensures Attends(dropped, x, s) || QuitSession(x, s) in rest {
      assert Attends(h, x, s) || QuitSession(x, s) in agenda;
    }
  }

  // A leave is only ever owed by a client that no longer lists the channel itself.
  ghost predicate LeavesAreDue(h: Hub, agenda: seq<Task>) {
    forall t <- agenda :: t.LeaveChannel? ==> !Subscribed(h, t.id, t.channel)
  }

  lemma PerformKeepsCoherent(w: World, h: Hub, task: Task, rest: seq<Task>)
    requires Coherent(h, [task] + rest) && LeavesAreDue(h, [task] + rest)
    ensures var e := Perform(w, h, task); Coherent(e.hub, e.todo + rest)
  {
    var e := Perform(w, h, task);
    match task
    case Send(id, msg) =>
      NoFrontierTask([task] + rest, [], rest, task);
      assert [] + rest == rest;
      DeliverKeepsIndexes(w, h, id, msg, rest);
    case Announce(channel, except, msg) =>
      SendsOnly(Subscribers(w, h, channel), except, msg);
      NoFrontierTask([task] + rest, e.todo, rest, task);
    case LeaveChannel(id, who, channel) =>
      assert task in [task] + rest;
      LeaveChannelKeepsChannels(w, h, task, rest);
      SeatsAfterLeaveChannel(w, h, task, rest);
    case QuitSession(id, session) => QuitKeepsIndexes(w, h, id, session, rest);
    case Evict(id, session) =>
      DropKeepsIndexes(h, id, session, rest);
      DeliverKeepsIndexes(w, h.(clients := DropSession(h.clients, id, session)), id, SessionClosed(session, "coordinator_left"), rest);
    case Closing =>
      NoFrontierTask([task] + rest, [], rest, task);
      SameIndexes(h, e.hub, [] + rest);
    case ChannelGauge =>
      NoFrontierTask([task] + rest, [], rest, task);
      SameIndexes(h, e.hub, [] + rest);
    case SessionGauge =>
      NoFrontierTask([task] + rest, [], rest, task);
      SameIndexes(h, e.hub, [] + rest);
  }

  // --- A cascade only takes away ---

  ghost predicate ClientsShrunk(before: map<ClientId, Client>, after: map<ClientId, Client>) {
    forall id <- after :: id in before && after[id].principal == before[id].principal
       && after[id].limiter == before[id].limiter
       && after[id].subscriptions == before[id].subscriptions
       && after[id].sessions <= before[id].sessions
  }

  ghost predicate ChannelsShrunk(before: P.Channels, after: P.Channels) {
    forall channel, id :: id in P.Members(after, channel) ==>
      id in P.Members(before, channel) && P.Members(after, channel)[id] == P.Members(before, channel)[id]
  }

  ghost predicate RoomsShrunk(before: S.Rooms, after: S.Rooms) {
    forall session, id :: S.IsMember(after, session, id) ==>
      S.IsMember(before, session, id) && after[session].members[id] == before[session].members[id]
  }

  ghost predicate Shrunk(h: Hub, after: Hub) {
    ClientsShrunk(h.clients, after.clients) && ChannelsShrunk(h.channels, after.channels) && RoomsShrunk(h.rooms, after.rooms)
  }

  lemma ShrunkTransitive(a: Hub, b: Hub, c: Hub)
    requires Shrunk(a, b) && Shrunk(b, c)
    ensures Shrunk(a, c)
  {
  }

  lemma DeliverShrinks(w: World, h: Hub, id: ClientId, msg: ServerMsg)
    ensures var after := Deliver(w, h, id, msg).hub;
            ClientsShrunk(h.clients, after.clients) && after.channels == h.channels && after.rooms == h.rooms
  {
  }

  lemma LeaveShrinks(channels: P.Channels, channel: string, id: ClientId)
    ensures ChannelsShrunk(channels, P.Leave(channels, channel, id))
  {
    P.LeaveMembers(channels, channel, id);
  }

  lemma EvictShrinks(w: World, h: Hub, id: ClientId, session: string)
    ensures Shrunk(h, Perform(w, h, Evict(id, session)).hub)
  {
    var dropped := h.(clients := DropSession(h.clients, id, session));
    DeliverShrinks(w, dropped, id, SessionClosed(session, "coordinator_left"));
  }

  lemma PerformShrinks(w: World, h: Hub, task: Task)
    ensures Shrunk(h, Perform(w, h, task).hub)
  {
    match task
    case QuitSession(id, session) => QuitShrinks(w, h, id, session);
    case LeaveChannel(id, who, channel) => LeaveShrinks(h.channels, channel, id);
    case Send(id, msg) => DeliverShrinks(w, h, id, msg);
    case Evict(id, session) => EvictShrinks(w, h, id, session);
    case Announce(_, _, _) =>
    case Closing =>
    case ChannelGauge =>
    case SessionGauge =>
  }

  lemma QuitShrinks(w: World, h: Hub, id: ClientId, session: string)
    ensures Shrunk(h, Quit(w, h, id, session).hub)
  {
    if S.IsMember(h.rooms, session, id) { QuitIsQuitted(w, h, id, session); }
  }

  lemma {:induction false} RunShrinks(w: World, h: Hub, agenda: seq<Task>)
    ensures Shrunk(h, Run(w, h, agenda))
    decreases h.clients.Keys, Expanding(agenda), |agenda|
  {
    if agenda != [] {
      var e := Perform(w, h, agenda[0]);
      PerformProgress(w, h, agenda[0]);
      ExpandingConcat(e.todo, agenda[1..]);
      PerformShrinks(w, h, agenda[0]);
      RunShrinks(w, e.hub, e.todo + agenda[1..]);
      ShrunkTransitive(h, e.hub, Run(w, h, agenda));
    }
  }

  // --- Through a whole cascade ---

  lemma NewLeavesAreDue(w: World, h: Hub, task: Task)
    ensures var e := Perform(w, h, task);
            forall t <- e.todo :: t.LeaveChannel? ==> t.id !in e.hub.clients
  {
    var e := Perform(w, h, task);
    match task
    case Send(id, msg) => DeliverLeaves(w, h, id, msg);
    case Announce(channel, except, msg) => SendsOnly(Subscribers(w, h, channel), except, msg);
    case LeaveChannel(id, who, channel) =>
      if who.Some? { SendsOnly(Subscribers(w, e.hub, channel), id, Left(channel, who.value)); }
    case QuitSession(id, session) => QuitOnlyTells(w, h, id, session);
    case Evict(id, session) =>
      DeliverLeaves(w, h.(clients := DropSession(h.clients, id, session)), id, SessionClosed(session, "coordinator_left"));
    case Closing =>
    case ChannelGauge =>
    case SessionGauge =>
  }

  lemma {:induction false} DeparturesAreOf(id: ClientId, who: string, channels: seq<string>, sessions: seq<string>)
    ensures forall t <- Departures(id, who, channels) :: t.LeaveChannel? && t.id == id && t.who == Some(who) && t.channel in channels
    ensures forall t <- Quits(id, sessions) :: t.QuitSession? && t.id == id
    decreases |channels| + |sessions|
  {
    if channels != [] { DeparturesAreOf(id, who, channels[1..], []); }
    if sessions != [] { DeparturesAreOf(id, who, [], sessions[1..]); }
  }

  lemma FarewellIsOf(w: World, h: Hub, id: ClientId, c: Client)
    ensures forall t <- Farewell(w, h, id, c) ::
              (t.LeaveChannel? && t.id == id && t.who == Some(c.principal) && t.channel in c.subscriptions)
              || (t.QuitSession? && t.id == id) || t.Closing?
  {
    DeparturesAreOf(id, c.principal, w.channelOrder(h.tick, c.subscriptions),
                    w.sessionOrder(h.tick, c.sessions));
  }

  lemma DeliverLeaves(w: World, h: Hub, id: ClientId, msg: ServerMsg)
    ensures var e := Deliver(w, h, id, msg); forall t <- e.todo :: t.LeaveChannel? ==> t.id !in e.hub.clients
  {
    OnlyReapingOwes(w, h, id, msg);
    if Deliver(w, h, id, msg).todo != [] { FarewellIsOf(w, h.(tick := h.tick + 1), id, h.clients[id]); }
  }

  // A delivery owes nothing more, unless it found its client gone.
  lemma OnlyReapingOwes(w: World, h: Hub, id: ClientId, msg: ServerMsg)
    ensures var e := Deliver(w, h, id, msg);
            e.todo == [] || (id in h.clients && id !in e.hub.clients && e.todo == Farewell(w, h.(tick := h.tick + 1), id, h.clients[id]))
  {
  }

  lemma {:induction false} RunKeepsCoherent(w: World, h: Hub, agenda: seq<Task>)
    requires Coherent(h, agenda) && LeavesAreDue(h, agenda)
    ensures Coherent(Run(w, h, agenda), [])
    decreases h.clients.Keys, Expanding(agenda), |agenda|
  {
    if agenda != [] {
      var task, rest := agenda[0], agenda[1..];
      assert agenda == [task] + rest;
      var e := Perform(w, h, task);
      PerformProgress(w, h, task);
      ExpandingConcat(e.todo, rest);
      PerformKeepsCoherent(w, h, task, rest);
      LeavesStayDue(w, h, task, rest);
      RunKeepsCoherent(w, e.hub, e.todo + rest);
    }
  }

  lemma LeavesStayDue(w: World, h: Hub, task: Task, rest: seq<Task>)
    requires LeavesAreDue(h, [task] + rest)
    ensures var e := Perform(w, h, task); LeavesAreDue(e.hub, e.todo + rest)
  {
    var e := Perform(w, h, task);
    NewLeavesAreDue(w, h, task);
    PerformShrinks(w, h, task);
    forall t <- e.todo + rest | t.LeaveChannel? ensures !Subscribed(e.hub, t.id, t.channel) {
      if t in rest { assert t in [task] + rest; }
    }
  }

  // --- Commands ---

  // The hub hands out each connection id once.
  ghost predicate FreshConnect(h: Hub, cmd: Command) {
    cmd.Connect? ==> cmd.id !in h.clients
  }

  lemma {:induction false} SendOthersOnly(seats: seq<S.Seat>, except: ClientId, msg: ServerMsg)
    ensures forall t <- SendOthers(seats, except, msg) :: t.Send? && t.msg == msg && t.id != except
  {
    if seats != [] { SendOthersOnly(seats[1..], except, msg); }
  }

  lemma CoherentPlain(h: Hub, agenda: seq<Task>)
    requires IndexesAgree(h)
    requires forall t <- agenda :: !t.Evict?
    ensures Coherent(h, agenda)
  {
    CoherentAtRest(h);
    assert forall id, channel :: !OwesLeave([], id, channel);
  }

  lemma ChargeKeepsAgreement(h: Hub, id: ClientId, now: real)
    requires IndexesAgree(h)
    ensures IndexesAgree(Charge(h, id, now).0)
  {
    ChargeShape(h, id, now);
    SameAgreement(h, Charge(h, id, now).0);
  }

  lemma ChargeShape(h: Hub, id: ClientId, now: real)
    ensures var after := Charge(h, id, now).0;
            after.stats == h.stats && after.clients.Keys == h.clients.Keys && after.tick == h.tick &&
            after.channels == h.channels && after.rooms == h.rooms &&
            forall d <- h.clients :: after.clients[d] == h.clients[d].(limiter := after.clients[d].limiter)
  {
  }

  lemma SameAgreement(h: Hub, after: Hub)
    requires after.clients.Keys == h.clients.Keys && after.channels == h.channels && after.rooms == h.rooms
    requires forall d <- h.clients :: after.clients[d] == h.clients[d].(limiter := after.clients[d].limiter)
    ensures ChannelsAgree(h) ==> ChannelsAgree(after)
    ensures SeatsAgree(h) ==> SeatsAgree(after)
  {
  }

  lemma SubscribeAgrees(h: Hub, id: ClientId, channel: string, now: real)
    requires IndexesAgree(h)
    ensures IndexesAgree(OnSubscribe(h, id, channel, now).hub)
  {
    var charged := Charge(h, id, now).0;
    ChargeKeepsAgreement(h, id, now);
    if id in charged.clients {
      EnterKeepsAgreement(charged, Admit(charged, id, channel).hub, id, channel);
    }
  }

  lemma EnterKeepsAgreement(h: Hub, after: Hub, id: ClientId, channel: string)
    requires ChannelsAgree(h) && SeatsAgree(h) && id in h.clients
    requires after.clients == h.clients[id := h.clients[id].(subscriptions := h.clients[id].subscriptions + {channel})]
    requires after.rooms == h.rooms
    requires after.channels == P.Join(h.channels, channel, id, h.clients[id].principal)
    ensures ChannelsAgree(after) && SeatsAgree(after)
  {
    P.JoinMembers(h.channels, channel, id, h.clients[id].principal);
    assert forall x, c :: Subscribed(after, x, c) <==> Subscribed(h, x, c) || (x == id && c == channel);
    assert forall x, s :: Attends(after, x, s) <==> Attends(h, x, s);
  }

  lemma SessionJoinAgrees(h: Hub, id: ClientId, session: string, now: real)
    requires IndexesAgree(h)
    ensures IndexesAgree(OnSessionJoin(h, id, session, now).hub)
  {
    var charged := Charge(h, id, now).0;
    ChargeKeepsAgreement(h, id, now);
    if id in charged.clients {
      S.JoinKeepsRooms(charged.rooms, session, id, charged.clients[id].principal);
      JoinKeepsAgreement(charged, Enroll(charged, id, session).hub, id, session);
    }
  }

  lemma EnrollOnlySends(h: Hub, id: ClientId, session: string)
    requires id in h.clients
    ensures forall t <- Enroll(h, id, session).todo ::
              t.SessionGauge? || (t.Send? && (t.msg.SessionStart? || t.msg.MemberJoined?))
    ensures SessionGauge in Enroll(h, id, session).todo
  {
    var report := S.JoinReport(h.rooms, session, id, h.clients[id].principal);
    SendOthersOnly(report.roster, id, MemberJoined(session, report.slot, h.clients[id].principal));
  }

  ghost predicate OnlyGreets(before: Hub, e: Effect) {
    (forall t <- e.todo :: t.SessionGauge? || (t.Send? && (t.msg.SessionStart? || t.msg.MemberJoined? || t.msg.Error?))) &&
    (e.hub.rooms == before.rooms || SessionGauge in e.todo)
  }

  lemma SessionJoinOnlySends(h: Hub, id: ClientId, session: string, now: real)
    ensures OnlyGreets(h, OnSessionJoin(h, id, session, now))
  {
    var (charged, allowed) := Charge(h, id, now);
    var e := OnSessionJoin(h, id, session, now);
    if id in charged.clients && allowed {
      EnrollOnlySends(charged, id, session);
      assert e == Enroll(charged, id, session);
    }
  }

  lemma JoinKeepsAgreement(h: Hub, after: Hub, id: ClientId, session: string)
    requires ChannelsAgree(h) && SeatsAgree(h) && id in h.clients
    requires after.clients == h.clients[id := h.clients[id].(sessions := h.clients[id].sessions + {session})]
    requires after.channels == h.channels
    requires after.rooms == S.AfterJoin(h.rooms, session, id, h.clients[id].principal)
    ensures ChannelsAgree(after) && SeatsAgree(after)
  {
    S.JoinMembership(h.rooms, session, id, h.clients[id].principal);
    assert forall x, s :: Attends(after, x, s) <==> Attends(h, x, s) || (x == id && s == session);
    assert forall x, channel :: Subscribed(after, x, channel) <==> Subscribed(h, x, channel);
  }

  lemma UnsubscribeKeepsChannels(h: Hub, e: Effect, id: ClientId, channel: string)
    requires ChannelsAgree(h) && e == OnUnsubscribe(h, id, channel)
    ensures ChannelsOk(e.hub, e.todo) && LeavesAreDue(e.hub, e.todo)
  {
    assert LeaveChannel(id, PrincipalOf(h, id), channel) in e.todo;
    assert forall x, c :: Subscribed(e.hub, x, c) <==> Subscribed(h, x, c) && !(x == id && c == channel);
    forall c, x | x in P.Members(e.hub.channels, c) ensures Subscribed(e.hub, x, c) || OwesLeave(e.todo, x, c) {
      assert Subscribed(h, x, c);
    }
    forall x, c | Subscribed(e.hub, x, c) ensures Listed(e.hub, x, c) {
      assert Subscribed(h, x, c);
    }
  }

  lemma UnsubscribeKeepsSeats(h: Hub, e: Effect, id: ClientId, channel: string)
    requires SeatsAgree(h) && e == OnUnsubscribe(h, id, channel)
    ensures SeatsOk(e.hub, e.todo)
  {
    assert forall x, session :: Attends(e.hub, x, session) <==> Attends(h, x, session);
    forall x, session | Attends(e.hub, x, session) ensures Seated(e.hub, x, session) {
      assert Attends(h, x, session);
    }
  }

  lemma UnsubscribeIsCoherent(h: Hub, id: ClientId, channel: string)
    requires IndexesAgree(h)
    ensures var e := OnUnsubscribe(h, id, channel); Coherent(e.hub, e.todo) && LeavesAreDue(e.hub, e.todo)
  {
    var e := OnUnsubscribe(h, id, channel);
    UnsubscribeKeepsChannels(h, e, id, channel);
    UnsubscribeKeepsSeats(h, e, id, channel);
  }

  lemma DisconnectIsCoherent(w: World, h: Hub, id: ClientId)
    requires IndexesAgree(h)
    ensures var e := OnDisconnect(w, h, id); Coherent(e.hub, e.todo) && LeavesAreDue(e.hub, e.todo)
  {
    var e := OnDisconnect(w, h, id);
    CoherentAtRest(h);
    if id in h.clients {
      ReapKeepsChannels(w, h, e.hub, id, []);
      ReapKeepsSeats(w, h, e.hub, id, []);
      assert Farewell(w, h, id, h.clients[id]) + [] == e.todo;
      FarewellIsOf(w, h, id, h.clients[id]);
    }
  }

  lemma ConnectAgrees(w: World, h: Hub, id: ClientId, principal: string, now: real)
    requires IndexesAgree(h) && id !in h.clients
    ensures IndexesAgree(OnConnect(w, h, id, principal, now).hub)
  {
    var after := OnConnect(w, h, id, principal, now).hub;
    NewcomerKeepsChannels(h, after, id);
    NewcomerKeepsSeats(h, after, id);
  }

  // A client in no channel and no session is in nobody's index.
  lemma NewcomerKeepsChannels(h: Hub, after: Hub, id: ClientId)
    requires ChannelsAgree(h) && id !in h.clients && id in after.clients && after.clients[id].subscriptions == {}
    requires after.clients == h.clients[id := after.clients[id]] && after.channels == h.channels
    ensures ChannelsAgree(after)
  {
    assert forall x, channel :: Subscribed(after, x, channel) <==> Subscribed(h, x, channel);
  }

  lemma NewcomerKeepsSeats(h: Hub, after: Hub, id: ClientId)
    requires SeatsAgree(h) && id !in h.clients && id in after.clients && after.clients[id].sessions == {}
    requires after.clients == h.clients[id := after.clients[id]] && after.rooms == h.rooms
    ensures SeatsAgree(after)
  {
    assert forall x, session :: Attends(after, x, session) <==> Attends(h, x, session);
  }

  // Relays and queries touch nothing but counters before they send.
  predicate IsRelay(cmd: Command) {
    cmd.Publish? || cmd.AskPresence? || cmd.SessionLeave? || cmd.ToCoordinator? || cmd.ToMembers?
  }

  lemma RelayOnlySends(w: World, h: Hub, cmd: Command, now: real)
    requires IsRelay(cmd)
    ensures var e := Begin(w, h, cmd, now);
            e.hub == h.(stats := h.stats.(published := e.hub.stats.published)) &&
            (forall t <- e.todo :: t.Send? || t.Announce? || t.QuitSession?) &&
            (forall t <- e.todo :: (t.Send? || t.Announce?) ==> !t.msg.Joined? && !t.msg.Left? && (t.msg.Presence? ==> cmd.AskPresence?)) &&
            (forall t <- e.todo :: t.Announce? ==> t.msg.Message?)
  {
    if cmd.ToMembers? && cmd.session in h.rooms {
      SendOthersOnly(S.Roster(h.rooms[cmd.session].members), cmd.id, FromCoordinator(cmd.session, cmd.payload));
    }
  }

  lemma BeginAgrees(w: World, h: Hub, cmd: Command, now: real)
    requires IndexesAgree(h) && FreshConnect(h, cmd) && !cmd.Unsubscribe? && !cmd.Disconnect?
    ensures IndexesAgree(Begin(w, h, cmd, now).hub)
  {
    if cmd.Connect? {
      ConnectAgrees(w, h, cmd.id, cmd.principal, now);
    } else if cmd.Subscribe? {
      SubscribeAgrees(h, cmd.id, cmd.channel, now);
    } else if cmd.SessionJoin? {
      SessionJoinAgrees(h, cmd.id, cmd.session, now);
    } else {
      RelayOnlySends(w, h, cmd, now);
      CoherentAtRest(h);
      SameIndexes(h, Begin(w, h, cmd, now).hub, []);
      CoherentAtRest(Begin(w, h, cmd, now).hub);
    }
  }

  lemma BeginEvictsNobody(w: World, h: Hub, cmd: Command, now: real)
    requires !cmd.Unsubscribe? && !cmd.Disconnect?
    ensures forall t <- Begin(w, h, cmd, now).todo :: !t.Evict? && !t.LeaveChannel?
  {
    if cmd.SessionJoin? {
      SessionJoinOnlySends(h, cmd.id, cmd.session, now);
    } else if IsRelay(cmd) {
      RelayOnlySends(w, h, cmd, now);
    }
  }

  lemma BeginIsCoherent(w: World, h: Hub, cmd: Command, now: real)
    requires IndexesAgree(h) && FreshConnect(h, cmd)
    ensures var e := Begin(w, h, cmd, now); Coherent(e.hub, e.todo) && LeavesAreDue(e.hub, e.todo)
  {
    if cmd.Unsubscribe? {
      UnsubscribeIsCoherent(h, cmd.id, cmd.channel);
    } else if cmd.Disconnect? {
      DisconnectIsCoherent(w, h, cmd.id);
    } else {
      var e := Begin(w, h, cmd, now);
      BeginAgrees(w, h, cmd, now);
      BeginEvictsNobody(w, h, cmd, now);
      CoherentPlain(e.hub, e.todo);
    }
  }

  // The indexes agree after every command, whatever cascade of hung-up clients it reaps.
  lemma StepKeepsIndexes(w: World, h: Hub, cmd: Command, now: real)
    requires IndexesAgree(h) && FreshConnect(h, cmd)
    ensures IndexesAgree(Step(w, h, cmd, now))
  {
    BeginIsCoherent(w, h, cmd, now);
    var e := Begin(w, h, cmd, now);
    RunKeepsCoherent(w, e.hub, e.todo);
    CoherentAtRest(Step(w, h, cmd, now));
  }

  // --- Every run of the hub ---

  datatype Timed = Timed(cmd: Command, now: real)

  function History(w: World, h: Hub, cmds: seq<Timed>): Hub {
    if cmds == [] then h
    else
      var before := History(w, h, cmds[..|cmds| - 1]);
      var last := cmds[|cmds| - 1];
      Step(w, before, last.cmd, last.now)
  }

  // Connection ids are handed out once.
  ghost predicate IdsOnce(cmds: seq<Timed>) {
    forall i, j :: 0 <= i < j < |cmds| && cmds[i].cmd.Connect? && cmds[j].cmd.Connect? ==> cmds[i].cmd.id != cmds[j].cmd.id
  }

  lemma ClientsOnlyConnect(w: World, h: Hub, cmd: Command, now: real)
    ensures forall id <- Step(w, h, cmd, now).clients :: id in h.clients || (cmd.Connect? && id == cmd.id)
  {
    hide Run;
    var e := Begin(w, h, cmd, now);
    RunShrinks(w, e.hub, e.todo);
  }

  lemma {:induction false} ReachableIndexesAgree(w: World, cmds: seq<Timed>)
    requires IdsOnce(cmds)
    ensures IndexesAgree(History(w, EMPTY_HUB, cmds))
    ensures forall id <- History(w, EMPTY_HUB, cmds).clients :: exists i :: 0 <= i < |cmds| && cmds[i].cmd.Connect? && cmds[i].cmd.id == id
  {
    if cmds != [] {
      var n := |cmds| - 1;
      ReachableIndexesAgree(w, cmds[..n]);
      var before := History(w, EMPTY_HUB, cmds[..n]);
      var last := cmds[n];
      StepKeepsIndexes(w, before, last.cmd, last.now);
      ClientsOnlyConnect(w, before, last.cmd, last.now);
    }
  }
}
