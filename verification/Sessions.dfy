// Coordinator sessions: a room with one authoritative member.
module CoordinatorSessions {
  import opened Wrappers
  import opened Protocol
  import opened Listing

  datatype LeavePolicy = Reelect | Close

  datatype Seat = Seat(clientId: ClientId, principal: string, slot: nat)

  datatype Room = Room(order: seq<ClientId>, members: map<ClientId, Seat>, coordinator: ClientId, nextSlot: nat)

  type Rooms = map<string, Room>

  datatype Change = NoChange | Reelected(seat: Seat) | RoomClosed

  datatype JoinOutcome = JoinOutcome(slot: nat, isCoordinator: bool, roster: seq<Seat>)

  datatype LeaveOutcome = LeaveOutcome(member: Seat, change: Change, remaining: seq<Seat>, removed: bool)

  // --- The roster: seats sorted by slot ---

  function SlotOf(members: map<ClientId, Seat>, id: nat): nat {
    if id in members then members[id].slot else 0
  }

  function BySlot(members: map<ClientId, Seat>): (nat, nat) -> bool {
    (a: nat, b: nat) => SlotOf(members, a) < SlotOf(members, b)
                        || (SlotOf(members, a) == SlotOf(members, b) && a <= b)
  }

  function SeatsOf(members: map<ClientId, Seat>, ids: seq<nat>): (seats: seq<Seat>)
    requires forall id <- ids :: id in members
    ensures |seats| == |ids| && forall i :: 0 <= i < |ids| ==> seats[i] == members[ids[i]]
  {
    if ids == [] then [] else [members[ids[0]]] + SeatsOf(members, ids[1..])
  }

  function Roster(members: map<ClientId, Seat>): seq<Seat> {
    SeatsOf(members, Sorted(members.Keys, BySlot(members)))
  }

  function Without(order: seq<ClientId>, id: ClientId): (rest: seq<ClientId>)
    ensures forall c :: c in rest <==> c in order && c != id
    ensures |rest| <= |order|
  {
    if order == [] then []
    else (if order[0] == id then [] else [order[0]]) + Without(order[1..], id)
  }

  // --- The two operations, as functions of all rooms ---

  // A session nobody has joined yet: its first joiner will coordinate it.
  function RoomFor(rooms: Rooms, name: string, id: ClientId): Room {
    if name in rooms then rooms[name] else Room([], map[], id, 0)
  }

  function SeatIn(room: Room, id: ClientId, who: string): Room {
    Room(room.order + [id], room.members[id := Seat(id, who, room.nextSlot)], room.coordinator, room.nextSlot + 1)
  }

  function Unseat(room: Room, id: ClientId): Room {
    room.(members := room.members - {id}, order := Without(room.order, id))
  }

  function AfterJoin(rooms: Rooms, name: string, id: ClientId, who: string): Rooms {
    var room := RoomFor(rooms, name, id);
    if id in room.members then rooms else rooms[name := SeatIn(room, id, who)]
  }

  function JoinReport(rooms: Rooms, name: string, id: ClientId, who: string): JoinOutcome {
    var room := RoomFor(rooms, name, id);
    var seated := if id in room.members then room else SeatIn(room, id, who);
    JoinOutcome(seated.members[id].slot, seated.coordinator == id, Roster(seated.members))
  }

  predicate IsMember(rooms: Rooms, name: string, id: ClientId) {
    name in rooms && id in rooms[name].members
  }

  function AfterLeave(rooms: Rooms, name: string, id: ClientId, policy: LeavePolicy): Rooms {
    if !IsMember(rooms, name, id) then rooms
    else
      var room := rooms[name];
      var rest := Unseat(room, id);
      if rest.members == map[] then rooms - {name}
      else if room.coordinator != id then rooms[name := rest]
      else if policy == Close then rooms - {name}
      else rooms[name := rest.(coordinator := Heir(rest))]
  }

  // Join order decides who is next; a session that keeps its invariant is listed in that order.
  function Heir(rest: Room): ClientId {
    if rest.order != [] then rest.order[0] else rest.coordinator
  }

  function LeaveReport(rooms: Rooms, name: string, id: ClientId, policy: LeavePolicy): Option<LeaveOutcome> {
    if !IsMember(rooms, name, id) then None
    else
      var room := rooms[name];
      var rest := Unseat(room, id);
      var member := room.members[id];
      if rest.members == map[] then Some(LeaveOutcome(member, NoChange, [], true))
      else if room.coordinator != id then Some(LeaveOutcome(member, NoChange, Roster(rest.members), false))
      else if policy == Close then Some(LeaveOutcome(member, RoomClosed, Roster(rest.members), true))
      else
        var heir := Heir(rest);
        var seat := if heir in rest.members then rest.members[heir] else member;
        Some(LeaveOutcome(member, Reelected(seat), Roster(rest.members), false))
  }

  // --- Invariant of a room ---

  ghost predicate SlotsIncrease(order: seq<ClientId>, members: map<ClientId, Seat>) {
    forall i, j :: 0 <= i < j < |order| ==> SlotOf(members, order[i]) < SlotOf(members, order[j])
  }

  ghost predicate RoomOk(room: Room) {
    room.members != map[] &&
    IsListing(room.order, room.members.Keys) &&
    (forall id <- room.members :: room.members[id].clientId == id && room.members[id].slot < room.nextSlot) &&
    SlotsIncrease(room.order, room.members) &&
    room.order != [] && room.coordinator == room.order[0]
  }

  ghost predicate RoomsOk(rooms: Rooms) {
    forall name <- rooms :: RoomOk(rooms[name])
  }

  lemma {:induction false} WithoutListing(order: seq<ClientId>, elements: set<ClientId>, id: ClientId)
    requires IsListing(order, elements) && id in elements
    ensures IsListing(Without(order, id), elements - {id})
  {
    ListingNoDup(order, elements);
    WithoutLength(order, id);
  }

  lemma {:induction false} WithoutLength(order: seq<ClientId>, id: ClientId)
    requires NoDup(order)
    ensures |Without(order, id)| == if id in order then |order| - 1 else |order|
  {
    if order != [] {
      assert order == [order[0]] + order[1..];
      WithoutLength(order[1..], id);
    }
  }

  lemma {:induction false} WithoutSlots(order: seq<ClientId>, members: map<ClientId, Seat>, id: ClientId)
    requires SlotsIncrease(order, members)
    ensures SlotsIncrease(Without(order, id), members - {id})
    ensures order != [] && order[0] != id ==> Without(order, id) != [] && Without(order, id)[0] == order[0]
  {
    if order != [] {
      WithoutSlots(order[1..], members, id);
      var tail := Without(order[1..], id);
      var rest := Without(order, id);
      forall j | 0 <= j < |tail| ensures SlotOf(members, order[0]) < SlotOf(members - {id}, tail[j]) {
        assert tail[j] in order[1..] && tail[j] != id;
        var k :| 0 <= k < |order[1..]| && order[1..][k] == tail[j];
        assert order[1 + k] == tail[j];
      }
    }
  }

  lemma SeatInKeepsListing(room: Room, id: ClientId, who: string)
    requires IsListing(room.order, room.members.Keys) && id !in room.members
    ensures IsListing(SeatIn(room, id, who).order, SeatIn(room, id, who).members.Keys)
  {
    var seated := SeatIn(room, id, who);
    assert seated.members.Keys == room.members.Keys + {id};
    assert seated.order[|room.order|] == id;
    forall x <- seated.members.Keys ensures x in seated.order {
      assert x in room.order || x == id;
    }
  }

  lemma SeatInKeepsSlots(room: Room, id: ClientId, who: string)
    requires IsListing(room.order, room.members.Keys) && id !in room.members
    requires forall c <- room.members :: room.members[c].slot < room.nextSlot
    requires SlotsIncrease(room.order, room.members)
    ensures SlotsIncrease(SeatIn(room, id, who).order, SeatIn(room, id, who).members)
  {
    var seated := SeatIn(room, id, who);
    forall i, j | 0 <= i < j < |seated.order|
      ensures SlotOf(seated.members, seated.order[i]) < SlotOf(seated.members, seated.order[j]) {
      assert room.order[i] in room.members;
      if j < |room.order| {
        assert room.order[j] in room.members;
        assert SlotOf(room.members, room.order[i]) < SlotOf(room.members, room.order[j]);
      }
    }
  }

  lemma SeatInKeepsRoom(room: Room, id: ClientId, who: string)
    requires RoomOk(room) || room == Room([], map[], id, 0)
    requires id !in room.members
    ensures RoomOk(SeatIn(room, id, who))
  {
    assert room == Room([], map[], id, 0) ==> IsListing(room.order, room.members.Keys);
    SeatInKeepsListing(room, id, who);
    SeatInKeepsSlots(room, id, who);
    var seated := SeatIn(room, id, who);
    assert id in seated.members;
    assert seated.order[0] == if room.order == [] then id else room.order[0];
  }

  lemma UnseatKeepsRoom(room: Room, id: ClientId)
    requires RoomOk(room) && id in room.members && Unseat(room, id).members != map[]
    ensures var rest := Unseat(room, id);
            rest.order != [] && rest.order[0] in rest.members &&
            RoomOk(rest.(coordinator := rest.order[0])) &&
            (room.coordinator != id ==> rest.order[0] == room.coordinator)
  {
    var rest := Unseat(room, id);
    WithoutListing(room.order, room.members.Keys, id);
    WithoutSlots(room.order, room.members, id);
    assert rest.members.Keys == room.members.Keys - {id};
    var c :| c in rest.members;
    assert c in rest.order;
  }

  lemma JoinKeepsRooms(rooms: Rooms, name: string, id: ClientId, who: string)
    requires RoomsOk(rooms)
    ensures RoomsOk(AfterJoin(rooms, name, id, who))
  {
    var room := RoomFor(rooms, name, id);
    if id !in room.members {
      SeatInKeepsRoom(room, id, who);
      ReplaceKeepsRooms(rooms, name, SeatIn(room, id, who));
    }
  }

  lemma ReplaceKeepsRooms(rooms: Rooms, name: string, room: Room)
    requires RoomsOk(rooms) && RoomOk(room)
    ensures RoomsOk(rooms[name := room])
  {
    var after := rooms[name := room];
    forall n <- after ensures RoomOk(after[n]) {
      assert after[n] == if n == name then room else rooms[n];
    }
  }

  lemma LeaveKeepsRooms(rooms: Rooms, name: string, id: ClientId, policy: LeavePolicy)
    requires RoomsOk(rooms)
    ensures RoomsOk(AfterLeave(rooms, name, id, policy))
    ensures !IsMember(AfterLeave(rooms, name, id, policy), name, id)
  {
    if IsMember(rooms, name, id) && Unseat(rooms[name], id).members != map[] {
      UnseatKeepsRoom(rooms[name], id);
      var rest := Unseat(rooms[name], id);
      ReplaceKeepsRooms(rooms, name, rest.(coordinator := Heir(rest)));
    }
  }

  lemma BySlotIsTotal(members: map<ClientId, Seat>)
    ensures TotalOrder(BySlot(members))
  {
  }

  lemma IncreasingIsSorted(order: seq<ClientId>, members: map<ClientId, Seat>)
    requires SlotsIncrease(order, members)
    ensures SortedBy(order, BySlot(members))
  {
  }

  lemma SortIsJoinOrder(order: seq<ClientId>, members: map<ClientId, Seat>)
    requires IsListing(order, members.Keys) && SlotsIncrease(order, members)
    ensures TotalOrder(BySlot(members)) && Sorted(members.Keys, BySlot(members)) == order
  {
    var le := BySlot(members);
    BySlotIsTotal(members);
    IncreasingIsSorted(order, members);
    SortedUnique(order, Sorted(members.Keys, le), members.Keys, le);
  }

  lemma RosterIsOrdered(order: seq<ClientId>, members: map<ClientId, Seat>)
    requires IsListing(order, members.Keys) && SlotsIncrease(order, members)
    ensures |Roster(members)| == |order|
    ensures forall i :: 0 <= i < |order| ==> order[i] in members && Roster(members)[i] == members[order[i]]
  {
    hide Sorted;
    SortIsJoinOrder(order, members);
    assert forall id <- order :: id in members;
    assert Roster(members) == SeatsOf(members, order);
  }

  lemma FirstHasLeastSlot(order: seq<ClientId>, members: map<ClientId, Seat>, i: nat)
    requires SlotsIncrease(order, members) && i < |order|
    ensures SlotOf(members, order[0]) <= SlotOf(members, order[i])
  {
  }

  // The roster lists the members in join order, coordinator first: its sort by slot and the
  // order the session keeps are the same sequence.
  lemma RosterIsJoinOrder(room: Room)
    requires RoomOk(room)
    ensures |Roster(room.members)| == |room.order|
    ensures forall i :: 0 <= i < |room.order| ==> Roster(room.members)[i] == room.members[room.order[i]]
    ensures Roster(room.members)[0].clientId == room.coordinator
    ensures forall i :: 0 <= i < |room.order| ==> Roster(room.members)[0].slot <= Roster(room.members)[i].slot
  {
    RosterIsOrdered(room.order, room.members);
    forall i | 0 <= i < |room.order| ensures Roster(room.members)[0].slot <= Roster(room.members)[i].slot {
      FirstHasLeastSlot(room.order, room.members, i);
    }
  }

  // The clients of the roster, one after the other, are the join order.
  lemma RosterClients(room: Room)
    requires RoomOk(room)
    ensures |Roster(room.members)| == |room.order| > 0 && NoDup(room.order) && room.coordinator == room.order[0]
    ensures forall i :: 0 <= i < |room.order| ==> room.order[i] in room.members && Roster(room.members)[i].clientId == room.order[i]
    ensures forall i :: 0 <= i < |room.order| ==> Roster(room.members)[i] == room.members[room.order[i]]
    ensures forall d :: d in room.order <==> d in room.members
  {
    RosterIsJoinOrder(room);
    ListingNoDup(room.order, room.members.Keys);
    forall i | 0 <= i < |room.order| ensures room.order[i] in room.members && Roster(room.members)[i].clientId == room.order[i] {
      assert room.order[i] in room.order;
    }
  }

  // A leave removes one seat and no other, and ends the session exactly when that was the last
  // seat or the coordinator's under the closing policy; no other session changes.
  lemma LeaveTakesOneSeat(rooms: Rooms, name: string, id: ClientId, policy: LeavePolicy)
    requires IsMember(rooms, name, id)
    ensures var after := AfterLeave(rooms, name, id, policy);
            (forall n :: n != name ==> (n in after <==> n in rooms) && (n in rooms ==> after[n] == rooms[n])) &&
            (name !in after <==> rooms[name].members.Keys == {id} || (rooms[name].coordinator == id && policy == Close)) &&
            (name in after ==>
               after[name].members == rooms[name].members - {id} && after[name].nextSlot == rooms[name].nextSlot)
  {
    var room := rooms[name];
    var rest := room.members - {id};
    assert rest.Keys == room.members.Keys - {id};
    assert rest == map[] <==> rest.Keys == {};
  }

  lemma JoinMembership(rooms: Rooms, name: string, id: ClientId, who: string)
    ensures var after := AfterJoin(rooms, name, id, who);
            (forall n, c :: IsMember(after, n, c) <==> IsMember(rooms, n, c) || (n == name && c == id)) &&
            (forall n, c :: IsMember(rooms, n, c) ==> after[n].members[c] == rooms[n].members[c]) &&
            (!IsMember(rooms, name, id) ==> after[name].members[id].principal == who)
  {
  }

  lemma LeaveMembership(rooms: Rooms, name: string, id: ClientId, policy: LeavePolicy)
    requires IsMember(rooms, name, id)
    ensures var after := AfterLeave(rooms, name, id, policy);
            (forall n, c :: IsMember(after, n, c) ==>
               IsMember(rooms, n, c) && !(n == name && c == id) && after[n].members[c] == rooms[n].members[c]) &&
            (forall n, c :: IsMember(rooms, n, c) && !(n == name && c == id) ==>
               IsMember(after, n, c) || (n == name && name !in after))
  {
    LeaveTakesOneSeat(rooms, name, id, policy);
  }

  // What a leave reports is what happened: who left, who is left in join order, and who
  // coordinates now. Everyone left is listed even when the session is closed over their heads.
  lemma LeaveReportIsRight(rooms: Rooms, name: string, id: ClientId, policy: LeavePolicy)
    requires RoomsOk(rooms) && IsMember(rooms, name, id)
    ensures var after := AfterLeave(rooms, name, id, policy);
            var report := LeaveReport(rooms, name, id, policy);
            report.Some? && report.value.member == rooms[name].members[id] &&
            (report.value.removed <==> name !in after) &&
            (report.value.change.RoomClosed? <==>
               policy == Close && rooms[name].coordinator == id && rooms[name].members - {id} != map[]) &&
            report.value.remaining == Roster(rooms[name].members - {id}) &&
            (report.value.change.Reelected? <==> name in after && after[name].coordinator != rooms[name].coordinator) &&
            (name in after ==> report.value.remaining == Roster(after[name].members)) &&
            (report.value.change.Reelected? ==>
               report.value.change.seat == after[name].members[after[name].coordinator])
  {
    if Unseat(rooms[name], id).members != map[] {
      UnseatKeepsRoom(rooms[name], id);
    }
  }

  // A session that ends on a leave ends empty, or closed with everyone else still to be told.
  lemma EndOfSession(rooms: Rooms, name: string, id: ClientId, policy: LeavePolicy)
    requires IsMember(rooms, name, id) && name !in AfterLeave(rooms, name, id, policy)
    requires rooms[name].members - {id} != map[]
    ensures var report := LeaveReport(rooms, name, id, policy);
            report.Some? && report.value.change.RoomClosed? && report.value.remaining == Roster(rooms[name].members - {id})
  {
  }

  // --- Runs over one session's life ---

  datatype Op = DoJoin(name: string, id: ClientId, who: string) | DoLeave(name: string, id: ClientId)

  function Apply(rooms: Rooms, op: Op, policy: LeavePolicy): Rooms {
    match op
    case DoJoin(name, id, who) => AfterJoin(rooms, name, id, who)
    case DoLeave(name, id) => AfterLeave(rooms, name, id, policy)
  }

  function Play(rooms: Rooms, ops: seq<Op>, policy: LeavePolicy): Rooms
    decreases |ops|
  {
    if ops == [] then rooms else Play(Apply(rooms, ops[0], policy), ops[1..], policy)
  }

  // The slot an operation newly hands out in session `name`, if it does.
  function HandedBy(rooms: Rooms, op: Op, name: string): seq<nat> {
    if op.DoJoin? && op.name == name && !IsMember(rooms, name, op.id)
    then [JoinReport(rooms, name, op.id, op.who).slot] else []
  }

  // The slots newly handed out in session `name`, in order, until it ends.
  function Handed(rooms: Rooms, ops: seq<Op>, policy: LeavePolicy, name: string): seq<nat>
    decreases |ops|
  {
    if ops == [] || name !in rooms then []
    else HandedBy(rooms, ops[0], name) + Handed(Apply(rooms, ops[0], policy), ops[1..], policy, name)
  }

  lemma NewSlotIsNext(rooms: Rooms, op: Op, policy: LeavePolicy, name: string)
    requires name in rooms && HandedBy(rooms, op, name) != []
    ensures HandedBy(rooms, op, name) == [rooms[name].nextSlot]
    ensures name in Apply(rooms, op, policy) && Apply(rooms, op, policy)[name].nextSlot == rooms[name].nextSlot + 1
  {
    assert Apply(rooms, op, policy)[name] == SeatIn(rooms[name], op.id, op.who);
  }

  lemma ApplyKeepsRooms(rooms: Rooms, op: Op, policy: LeavePolicy)
    requires RoomsOk(rooms)
    ensures RoomsOk(Apply(rooms, op, policy))
  {
    match op
    case DoJoin(name, id, who) => JoinKeepsRooms(rooms, name, id, who);
    case DoLeave(name, id) => LeaveKeepsRooms(rooms, name, id, policy);
  }

  lemma CounterGrows(rooms: Rooms, op: Op, policy: LeavePolicy)
    ensures var after := Apply(rooms, op, policy);
            forall n <- rooms :: n in after ==> after[n].nextSlot >= rooms[n].nextSlot
  {
    if op.DoLeave? && IsMember(rooms, op.name, op.id) {
      LeaveTakesOneSeat(rooms, op.name, op.id, policy);
    }
  }

  // Every run of joins and leaves keeps every session well-formed.
  lemma {:induction false} RunKeepsRooms(rooms: Rooms, ops: seq<Op>, policy: LeavePolicy)
    requires RoomsOk(rooms)
    ensures RoomsOk(Play(rooms, ops, policy))
    decreases |ops|
  {
    if ops != [] {
      ApplyKeepsRooms(rooms, ops[0], policy);
      RunKeepsRooms(Apply(rooms, ops[0], policy), ops[1..], policy);
    }
  }

  ghost predicate IncreasingFrom(slots: seq<nat>, low: nat) {
    (forall i :: 0 <= i < |slots| ==> slots[i] >= low) &&
    (forall i, j :: 0 <= i < j < |slots| ==> slots[i] < slots[j])
  }

  lemma IncreasingCons(first: nat, slots: seq<nat>)
    requires IncreasingFrom(slots, first + 1)
    ensures IncreasingFrom([first] + slots, first)
  {
  }

  lemma IncreasingLower(slots: seq<nat>, low: nat, lower: nat)
    requires IncreasingFrom(slots, low) && lower <= low
    ensures IncreasingFrom(slots, lower)
  {
  }

  // As long as a session lives, no slot is handed out twice, nor is one a member ever held:
  // slots handed out strictly increase from the session's counter.
  lemma {:induction false} SlotsNeverReused(rooms: Rooms, ops: seq<Op>, policy: LeavePolicy, name: string)
    requires name in rooms
    ensures IncreasingFrom(Handed(rooms, ops, policy, name), rooms[name].nextSlot)
    decreases |ops|
  {
    if ops == [] { return; }
    var after := Apply(rooms, ops[0], policy);
    if name in after { SlotsNeverReused(after, ops[1..], policy, name); }
    OneOpExtends(rooms, ops[0], policy, name, Handed(after, ops[1..], policy, name));
  }

  lemma OneOpExtends(rooms: Rooms, op: Op, policy: LeavePolicy, name: string, later: seq<nat>)
    requires name in rooms
    requires var after := Apply(rooms, op, policy);
             if name in after then IncreasingFrom(later, after[name].nextSlot) else later == []
    ensures IncreasingFrom(HandedBy(rooms, op, name) + later, rooms[name].nextSlot)
  {
    var after := Apply(rooms, op, policy);
    CounterGrows(rooms, op, policy);
    if HandedBy(rooms, op, name) != [] {
      NewSlotIsNext(rooms, op, policy, name);
      IncreasingCons(rooms[name].nextSlot, later);
    } else {
      assert HandedBy(rooms, op, name) + later == later;
      if name in after { IncreasingLower(later, after[name].nextSlot, rooms[name].nextSlot); }
    }
  }

  class Sessions {
    var rooms: Rooms

    constructor ()
      ensures rooms == map[]
    {
      rooms := map[];
    }

    method JoinSession(name: string, id: ClientId, who: string) returns (outcome: JoinOutcome)
      requires RoomsOk(rooms)
      modifies this
      ensures rooms == AfterJoin(old(rooms), name, id, who)
      ensures outcome == JoinReport(old(rooms), name, id, who)
      ensures RoomsOk(rooms)
    {
      ghost var before := rooms;
      JoinKeepsRooms(before, name, id, who);
      var room := RoomFor(rooms, name, id);
      ghost var unseated := room;
      if id in room.members {
        return JoinOutcome(room.members[id].slot, room.coordinator == id, Roster(room.members));
      }
      var slot := room.nextSlot;
      room := room.(nextSlot := slot + 1);
      room := room.(members := room.members[id := Seat(id, who, slot)]);
      room := room.(order := room.order + [id]);
      assert room == SeatIn(unseated, id, who);
      rooms := rooms[name := room];
      assert rooms == AfterJoin(before, name, id, who);
      outcome := JoinOutcome(slot, room.coordinator == id, Roster(room.members));
    }

    method LeaveSession(name: string, id: ClientId, policy: LeavePolicy) returns (outcome: Option<LeaveOutcome>)
      requires RoomsOk(rooms)
      modifies this
      ensures rooms == AfterLeave(old(rooms), name, id, policy)
      ensures outcome == LeaveReport(old(rooms), name, id, policy)
      ensures RoomsOk(rooms)
    {
      LeaveKeepsRooms(rooms, name, id, policy);
      if !IsMember(rooms, name, id) {
        return None;
      }
      LeaveReportIsRight(rooms, name, id, policy);
      var room := rooms[name];
      var member := room.members[id];
      room := room.(members := room.members - {id});
      room := room.(order := Without(room.order, id));
      var wasCoordinator := room.coordinator == id;
      if room.members == map[] {
        rooms := rooms - {name};
        outcome := Some(LeaveOutcome(member, NoChange, [], true));
      } else if !wasCoordinator {
        rooms := rooms[name := room];
        outcome := Some(LeaveOutcome(member, NoChange, Roster(room.members), false));
      } else {
        match policy {
          case Reelect =>
            var heir := room.order[0];
            room := room.(coordinator := heir);
            rooms := rooms[name := room];
            outcome := Some(LeaveOutcome(member, Reelected(room.members[heir]), Roster(room.members), false));
          case Close =>
            rooms := rooms - {name};
            outcome := Some(LeaveOutcome(member, RoomClosed, Roster(room.members), true));
        }
      }
    }
  }
}
