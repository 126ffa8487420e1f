// A projection that follows current rows: every notification re-reads its row, so notifications may be
// reordered, repeated or older than the last synchronization.
module CurrentState {
  import opened Wrappers
  import opened Tables
  import opened Projections
  import opened ModelWrites

  // unsent: committed, not yet announced; queued: announced; taken: received, its row not yet read.
  // deleting: rows found gone by a refresh that has still to delete them; it holds the row's lock.
  datatype State = State(base: Table, table: Projected, unsent: multiset<string>, queued: multiset<string>,
                         taken: multiset<string>, deleting: set<string>)

  datatype Step =
    | Write(ch: Change)
    | Announce(id: string)
    | Repeat(id: string)
    | Receive(id: string)
    | Read(id: string)
    | Delete(id: string)
    | Sync

  predicate Can(s: State, step: Step) {
    match step
    case Write(ch) => Applies(s.base, ch)
    case Announce(id) => id in s.unsent
    case Repeat(id) => true
    case Receive(id) => id in s.queued
    case Read(id) => id in s.taken && id !in s.deleting
    case Delete(id) => id in s.deleting
    case Sync => s.deleting == {}
  }

  function Do(columns: seq<string>, s: State, step: Step): State
    requires Can(s, step)
  {
    match step
    case Write(ch) => s.(base := Changed(s.base, ch), unsent := s.unsent + multiset{Target(ch)})
    case Announce(id) => s.(unsent := s.unsent - multiset{id}, queued := s.queued + multiset{id})
    case Repeat(id) => s.(queued := s.queued + multiset{id})
    case Receive(id) => s.(queued := s.queued - multiset{id}, taken := s.taken + multiset{id})
    case Read(id) =>
      var read := s.(taken := s.taken - multiset{id});
      if id in s.base && Live(s.base[id]) then read.(table := s.table[id := Rendered(columns, s.base[id])])
      else read.(deleting := s.deleting + {id})
    case Delete(id) => s.(table := s.table - {id}, deleting := s.deleting - {id})
    case Sync => s.(table := LiveRows(columns, s.base))
  }

  predicate Outstanding(s: State, id: string) { id in s.unsent || id in s.queued || id in s.taken }

  // The row is right, or about to be: somebody has still to hear of it, or is just deleting it.
  ghost predicate FollowsAt(columns: seq<string>, s: State, id: string) {
    Outstanding(s, id) || (id in s.deleting && LiveAt(columns, s.base, id) == None) ||
    (id !in s.deleting && CellsAt(s.table, id) == LiveAt(columns, s.base, id))
  }

  ghost predicate Follows(columns: seq<string>, s: State) {
    TableOk(s.base) && forall id :: FollowsAt(columns, s, id)
  }

  lemma WriteFollows(columns: seq<string>, s: State, ch: Change, id: string)
    requires Applies(s.base, ch) && TableOk(s.base) && FollowsAt(columns, s, id)
    ensures FollowsAt(columns, Do(columns, s, Write(ch)), id)
  {
    var after := Do(columns, s, Write(ch));
    if id == Target(ch) {
      assert id in after.unsent;
    } else {
      OthersStay(columns, "", s.base, [], ch, id);
    }
  }

  lemma DoFollows(columns: seq<string>, s: State, step: Step)
    requires Follows(columns, s) && Can(s, step)
    ensures Follows(columns, Do(columns, s, step))
  {
    var after := Do(columns, s, step);
    hide FollowsAt;
    if step.Write? { ChangedKeepsTable(s.base, step.ch); }
    forall id ensures FollowsAt(columns, after, id) {
      assert FollowsAt(columns, s, id);
      if step.Write? { WriteFollows(columns, s, step.ch, id); } else { OtherFollows(columns, s, step, id); }
    }
  }

  lemma OtherFollows(columns: seq<string>, s: State, step: Step, id: string)
    requires !step.Write? && Can(s, step) && FollowsAt(columns, s, id)
    ensures FollowsAt(columns, Do(columns, s, step), id)
  {
  }

  // A synchronization puts everything right, whatever the table held and whatever is still under way.
  lemma SyncFollows(columns: seq<string>, s: State)
    requires TableOk(s.base) && Can(s, Sync)
    ensures Follows(columns, Do(columns, s, Sync))
  {
  }

  predicate Runs(columns: seq<string>, s: State, steps: seq<Step>)
    decreases |steps|
  {
    steps == [] || (Can(s, steps[0]) && Runs(columns, Do(columns, s, steps[0]), steps[1..]))
  }

  function Play(columns: seq<string>, s: State, steps: seq<Step>): State
    requires Runs(columns, s, steps)
    decreases |steps|
  {
    if steps == [] then s else Play(columns, Do(columns, s, steps[0]), steps[1..])
  }

  lemma {:induction false} PlayFollows(columns: seq<string>, s: State, steps: seq<Step>)
    requires Follows(columns, s) && Runs(columns, s, steps)
    ensures Follows(columns, Play(columns, s, steps))
    decreases |steps|
  {
    if steps != [] {
      DoFollows(columns, s, steps[0]);
      PlayFollows(columns, Do(columns, s, steps[0]), steps[1..]);
    }
  }

  predicate Quiet(s: State) {
    s.unsent == multiset{} && s.queued == multiset{} && s.taken == multiset{} && s.deleting == {}
  }

  // From any state whatever, once synchronized: every row that differs from the live one has a notification
  // on its way, and when none is left the projection is the live rows.
  lemma ConvergesAfterSync(columns: seq<string>, s: State, steps: seq<Step>)
    requires TableOk(s.base) && Can(s, Sync) && Runs(columns, Do(columns, s, Sync), steps)
    ensures var final := Play(columns, Do(columns, s, Sync), steps);
            (forall id :: CellsAt(final.table, id) != LiveAt(columns, final.base, id) ==> Outstanding(final, id) || id in final.deleting) &&
            (Quiet(final) ==> final.table == LiveRows(columns, final.base))
  {
    hide Play, Follows;
    SyncFollows(columns, s);
    PlayFollows(columns, Do(columns, s, Sync), steps);
    FollowersAreRight(columns, Play(columns, Do(columns, s, Sync), steps));
  }

  lemma FollowersAreRight(columns: seq<string>, s: State)
    requires Follows(columns, s)
    ensures forall id :: CellsAt(s.table, id) != LiveAt(columns, s.base, id) ==> Outstanding(s, id) || id in s.deleting
    ensures Quiet(s) ==> s.table == LiveRows(columns, s.base)
  {
    forall id | CellsAt(s.table, id) != LiveAt(columns, s.base, id) ensures Outstanding(s, id) || id in s.deleting {
      assert FollowsAt(columns, s, id);
    }
    if Quiet(s) {
      forall id ensures CellsAt(s.table, id) == CellsAt(LiveRows(columns, s.base), id) {
        assert !Outstanding(s, id);
        assert CellsAt(s.table, id) == LiveAt(columns, s.base, id);
      }
      SameCells(s.table, LiveRows(columns, s.base));
    }
  }

  class CurrentStateProjection {
    const columns: seq<string>
    var table: Projected

    constructor (columns: seq<string>)
      ensures this.columns == columns && table == map[]
    {
      this.columns := columns;
      table := map[];
    }

    // Inserts or overwrites every live row, then deletes every other; counts the rows that were new or
    // different. A projection without the identity column is refused.
    method InitializeAndSync(base: Table) returns (synced: Option<nat>)
      modifies this
      ensures synced.Some? <==> ID in columns
      ensures synced.Some? ==>
                table == LiveRows(columns, base) &&
                synced.value == |set id | id in table && CellsAt(old(table), id) != Some(table[id])|
      ensures synced.None? ==> table == old(table)
    {
      if ID !in columns {
        return None;
      }
      var rows := LiveRows(columns, base);
      var changed := set id | id in rows && CellsAt(table, id) != Some(rows[id]);
      table := table + rows;
      table := map id | id in table && id in base && Live(base[id]) :: table[id];
      assert table == rows;
      return Some(|changed|);
    }

    // The first statement of a refresh: reads the row as it now is.
    method Upsert(id: string, base: Table) returns (inserted: nat)
      modifies this
      ensures inserted == if LiveAt(columns, base, id).Some? then 1 else 0
      ensures table == if inserted == 1 then old(table)[id := Rendered(columns, base[id])] else old(table)
    {
      if id in base && Live(base[id]) {
        table := table[id := Rendered(columns, base[id])];
        return 1;
      }
      return 0;
    }

    // One refresh with nobody writing in between leaves the row as it is live.
    method Refresh(id: string, base: Table)
      modifies this
      ensures CellsAt(table, id) == LiveAt(columns, base, id)
      ensures forall other :: other != id ==> CellsAt(table, other) == CellsAt(old(table), other)
    {
      var inserted := Upsert(id, base);
      if inserted == 0 {
        table := table - {id};
      }
    }

    // The event says which row; what it says of the row is not used.
    method HandleEvent(e: Event, base: Table)
      modifies this
      ensures HasId(e.data) ==> CellsAt(table, e.data[ID].text) == LiveAt(columns, base, e.data[ID].text)
      ensures forall other :: !(HasId(e.data) && other == e.data[ID].text) ==> CellsAt(table, other) == CellsAt(old(table), other)
    {
      if HasId(e.data) {
        Refresh(e.data[ID].text, base);
      }
    }
  }
}
