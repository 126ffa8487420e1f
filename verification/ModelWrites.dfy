// Writes to a model's table and the events they record in the same transaction; and how far replaying
// those events gives back the live rows.
module ModelWrites {
  import opened Wrappers
  import opened Listing
  import opened Tables
  import opened Projections

  // --- One row ---

  datatype Change =
    | Create(row: Record)
    | Patch(id: string, patch: Record)
    | SoftDelete(id: string, at: string)
    | Restore(id: string)
    | HardDelete(id: string)

  function Target(ch: Change): string { if ch.Create? then IdOf(ch.row) else ch.id }

  // Every row carries its identity and its deletion time.
  predicate RowOk(row: Record, id: string) { HasId(row) && row[ID].text == id && DELETED_AT in row }

  ghost predicate TableOk(base: Table) { forall id <- base :: RowOk(base[id], id) }

  // The change reaches a row: a new identity, or one that is there. A patch does not reassign it.
  predicate Applies(base: Table, ch: Change) {
    match ch
    case Create(row) => HasId(row) && DELETED_AT in row && row[ID].text !in base
    case Patch(id, patch) => id in base && ID !in patch
    case _ => ch.id in base
  }

  function Changed(base: Table, ch: Change): Table
    requires Applies(base, ch)
  {
    match ch
    case Create(row) => base[row[ID].text := row]
    case Patch(id, patch) => base[id := base[id] + patch]
    case SoftDelete(id, at) => base[id := base[id][DELETED_AT := Text(at)]]
    case Restore(id) => base[id := base[id][DELETED_AT := Null]]
    case HardDelete(id) => base - {id}
  }

  function KindOf(ch: Change): Kind {
    match ch
    case Create(_) => Created
    case Patch(_, _) => Updated
    case SoftDelete(_, _) => Deleted
    case Restore(_) => Restored
    case HardDelete(_) => HardDeleted
  }

  // What the statement returns of the row: all of it after an insert or an update, else only its identity.
  function Returned(base: Table, ch: Change): Record
    requires Applies(base, ch)
  {
    match ch
    case Create(row) => row
    case Patch(id, patch) => base[id] + patch
    case _ => map[ID := Text(ch.id)]
  }

  function EventOf(model: string, base: Table, ch: Change): Event
    requires Applies(base, ch)
  {
    Event("", KindOf(ch), model, Returned(base, ch), "")
  }

  // --- Runs ---

  predicate AllApply(base: Table, changes: seq<Change>)
    decreases |changes|, 0
  {
    changes == [] || (AllApply(base, changes[..|changes| - 1]) && Applies(After(base, changes[..|changes| - 1]), changes[|changes| - 1]))
  }

  function After(base: Table, changes: seq<Change>): Table
    requires AllApply(base, changes)
    decreases |changes|, 1
  {
    if changes == [] then base else Changed(After(base, changes[..|changes| - 1]), changes[|changes| - 1])
  }

  function Events(model: string, base: Table, changes: seq<Change>): seq<Event>
    requires AllApply(base, changes)
  {
    if changes == [] then []
    else
      var front := changes[..|changes| - 1];
      Events(model, base, front) + [EventOf(model, After(base, front), changes[|changes| - 1])]
  }

  lemma OneMore(model: string, base: Table, changes: seq<Change>, ch: Change)
    requires AllApply(base, changes)
    ensures AllApply(base, changes + [ch]) <==> Applies(After(base, changes), ch)
    ensures Applies(After(base, changes), ch) ==>
              After(base, changes + [ch]) == Changed(After(base, changes), ch) &&
              Events(model, base, changes + [ch]) == Events(model, base, changes) + [EventOf(model, After(base, changes), ch)]
  {
    assert (changes + [ch])[..|changes|] == changes;
  }

  lemma ChangedKeepsTable(base: Table, ch: Change)
    requires TableOk(base) && Applies(base, ch)
    ensures TableOk(Changed(base, ch)) && HasId(Returned(base, ch)) && IdOf(Returned(base, ch)) == Target(ch)
  {
  }

  lemma {:induction false} AfterKeepsTable(model: string, base: Table, changes: seq<Change>)
    requires TableOk(base) && AllApply(base, changes)
    ensures TableOk(After(base, changes)) && Keyed(Events(model, base, changes))
  {
    if changes != [] {
      var front := changes[..|changes| - 1];
      AfterKeepsTable(model, base, front);
      ChangedKeepsTable(After(base, front), changes[|changes| - 1]);
    }
  }

  // --- When replaying gives back the live rows ---

  ghost predicate Agrees(columns: seq<string>, base: Table, log: seq<Event>) {
    Replay(columns, log) == LiveRows(columns, base)
  }

  function LiveAt(columns: seq<string>, base: Table, id: string): Option<Cells> {
    if id in base && Live(base[id]) then Some(Rendered(columns, base[id])) else None
  }

  lemma AgreesRowByRow(columns: seq<string>, base: Table, log: seq<Event>)
    ensures Agrees(columns, base, log) <==> forall id :: CellsAt(Replay(columns, log), id) == LiveAt(columns, base, id)
  {
    var a, b := Replay(columns, log), LiveRows(columns, base);
    assert forall id :: CellsAt(b, id) == LiveAt(columns, base, id);
    if forall id :: CellsAt(a, id) == LiveAt(columns, base, id) {
      SameCells(a, b);
    }
  }

  lemma SameCells(a: Projected, b: Projected)
    requires forall id :: CellsAt(a, id) == CellsAt(b, id)
    ensures a == b
  {
    forall id ensures id in a <==> id in b {
      assert CellsAt(a, id) == CellsAt(b, id);
    }
    forall id <- a ensures a[id] == b[id] {
      assert CellsAt(a, id) == CellsAt(b, id);
    }
  }

  // The changes that keep a projection in agreement: rows are created live, updates neither delete nor
  // revive, and what is revived by a restore has nothing to show but its identity - for a restore's event
  // carries no more than that. Deletes always agree.
  predicate Benign(columns: seq<string>, base: Table, ch: Change)
    requires Applies(base, ch)
  {
    match ch
    case Create(row) => Live(row)
    case Patch(id, patch) => Live(base[id]) <==> Live(base[id] + patch)
    case Restore(id) => Live(base[id]) || forall c <- columns :: c == ID || (c !in base[id] && c != DELETED_AT)
    case _ => true
  }

  lemma OthersStay(columns: seq<string>, model: string, base: Table, log: seq<Event>, ch: Change, id: string)
    requires TableOk(base) && Applies(base, ch) && id != Target(ch)
    ensures var log' := log + [EventOf(model, base, ch)];
            CellsAt(Replay(columns, log'), id) == CellsAt(Replay(columns, log), id) &&
            LiveAt(columns, Changed(base, ch), id) == LiveAt(columns, base, id)
  {
    var e := EventOf(model, base, ch);
    ReplayAppend(columns, log, e);
    ChangedKeepsTable(base, ch);
    ProjectIsLocal(columns, Replay(columns, log), Replay(columns, log), e, id);
  }

  lemma OverwrittenIsRendered(columns: seq<string>, before: Record, row: Record)
    requires ID in columns && ID in before && ID in row && before[ID] == row[ID]
    requires forall c :: c in before ==> c in row
    ensures Overwritten(Rendered(columns, before), columns, row) == Rendered(columns, row)
  {
    var a, b := Overwritten(Rendered(columns, before), columns, row), Rendered(columns, row);
    forall c <- columns ensures a[c] == b[c] {
      if c !in row { assert Shown(before, c) == Shown(row, c) == None; }
    }
  }

  lemma BareIsRendered(columns: seq<string>, id: string, row: Record)
    requires RowOk(row, id)
    ensures Rendered(columns, map[ID := Text(id)]) == Rendered(columns, row) <==> forall c <- columns :: c == ID || c !in row
  {
    var a, b := Rendered(columns, map[ID := Text(id)]), Rendered(columns, row);
    forall c <- columns ensures a[c] == b[c] <==> c == ID || c !in row {
      assert Shown(map[ID := Text(id)], c) == if c == ID then Some(id) else None;
    }
    if a != b {
      assert a.Keys == b.Keys;
      assert exists c <- columns :: a[c] != b[c];
    }
  }

  lemma TargetAgrees(columns: seq<string>, model: string, base: Table, log: seq<Event>, ch: Change)
    requires ID in columns && TableOk(base) && Applies(base, ch)
    requires CellsAt(Replay(columns, log), Target(ch)) == LiveAt(columns, base, Target(ch))
    ensures (CellsAt(Replay(columns, log + [EventOf(model, base, ch)]), Target(ch)) == LiveAt(columns, Changed(base, ch), Target(ch))) <==> Benign(columns, base, ch)
  {
    var table := Replay(columns, log);
    var id := Target(ch);
    var data := Returned(base, ch);
    ReplayAppend(columns, log, EventOf(model, base, ch));
    ChangedKeepsTable(base, ch);
    assert Mentions(columns, data);
    match ch
    case Create(row) =>
    case Patch(_, patch) => PatchAgrees(columns, table, base, id, patch);
    case Restore(_) => RestoreAgrees(columns, table, base, id);
    case SoftDelete(_, _) =>
    case HardDelete(_) =>
  }

  lemma PatchAgrees(columns: seq<string>, table: Projected, base: Table, id: string, patch: Record)
    requires ID in columns && TableOk(base) && Applies(base, Patch(id, patch)) && CellsAt(table, id) == LiveAt(columns, base, id)
    ensures (CellsAt(Update(columns, table, base[id] + patch), id) == LiveAt(columns, Changed(base, Patch(id, patch)), id)) <==> (Live(base[id]) <==> Live(base[id] + patch))
  {
    if Live(base[id]) { OverwrittenIsRendered(columns, base[id], base[id] + patch); }
  }

  lemma RestoreAgrees(columns: seq<string>, table: Projected, base: Table, id: string)
    requires ID in columns && TableOk(base) && id in base && CellsAt(table, id) == LiveAt(columns, base, id)
    ensures (CellsAt(Insert(columns, table, map[ID := Text(id)]), id) == LiveAt(columns, Changed(base, Restore(id)), id)) <==> Benign(columns, base, Restore(id))
  {
    var row := base[id][DELETED_AT := Null];
    BareIsRendered(columns, id, row);
    if Live(base[id]) { assert row == base[id]; }
  }

  // From agreement, one change leads to agreement exactly when it is benign.
  lemma StepAgreesIffBenign(columns: seq<string>, model: string, base: Table, log: seq<Event>, ch: Change)
    requires ID in columns && TableOk(base) && Applies(base, ch) && Agrees(columns, base, log)
    ensures Agrees(columns, Changed(base, ch), log + [EventOf(model, base, ch)]) <==> Benign(columns, base, ch)
  {
    hide Benign, Replay, LiveAt, Changed, EventOf;
    var log', base' := log + [EventOf(model, base, ch)], Changed(base, ch);
    AgreesRowByRow(columns, base, log);
    AgreesRowByRow(columns, base', log');
    TargetAgrees(columns, model, base, log, ch);
    forall id | id != Target(ch) ensures CellsAt(Replay(columns, log'), id) == LiveAt(columns, base', id) {
      OthersStay(columns, model, base, log, ch, id);
    }
  }

  ghost predicate AgreesThroughout(columns: seq<string>, model: string, changes: seq<Change>)
    requires AllApply(map[], changes)
  {
    forall i :: 0 <= i <= |changes| ==> AgreesAfter(columns, model, changes, i)
  }

  lemma {:induction false} PrefixApplies(base: Table, changes: seq<Change>, i: nat)
    requires AllApply(base, changes) && i <= |changes|
    ensures AllApply(base, changes[..i])
    decreases |changes|
  {
    if i == |changes| {
      assert changes[..i] == changes;
    } else {
      PrefixApplies(base, changes[..|changes| - 1], i);
      assert changes[..|changes| - 1][..i] == changes[..i];
    }
  }

  ghost predicate AgreesAfter(columns: seq<string>, model: string, changes: seq<Change>, i: nat)
    requires AllApply(map[], changes) && i <= |changes|
  {
    PrefixApplies(map[], changes, i);
    Agrees(columns, After(map[], changes[..i]), Events(model, map[], changes[..i]))
  }

  ghost predicate BenignAt(columns: seq<string>, changes: seq<Change>, i: nat)
    requires AllApply(map[], changes) && i < |changes|
  {
    PrefixApplies(map[], changes, i);
    PrefixApplies(map[], changes, i + 1);
    assert changes[..i + 1][..i] == changes[..i];
    Benign(columns, After(map[], changes[..i]), changes[i])
  }

  lemma NextAgrees(columns: seq<string>, model: string, changes: seq<Change>, i: nat)
    requires ID in columns && AllApply(map[], changes) && i < |changes| && AgreesAfter(columns, model, changes, i)
    ensures AgreesAfter(columns, model, changes, i + 1) <==> BenignAt(columns, changes, i)
  {
    PrefixApplies(map[], changes, i);
    PrefixApplies(map[], changes, i + 1);
    assert changes[..i + 1][..i] == changes[..i];
    AfterKeepsTable(model, map[], changes[..i]);
    StepAgreesIffBenign(columns, model, After(map[], changes[..i]), Events(model, map[], changes[..i]), changes[i]);
  }

  // Over every run from an empty table: replaying the log gives exactly the live rows after every change,
  // if and only if every change is benign.
  lemma RunAgreesIffBenign(columns: seq<string>, model: string, changes: seq<Change>)
    requires ID in columns && AllApply(map[], changes)
    ensures AgreesThroughout(columns, model, changes) <==> forall i :: 0 <= i < |changes| ==> BenignAt(columns, changes, i)
  {
    hide AgreesAfter, BenignAt;
    if AgreesThroughout(columns, model, changes) {
      forall i | 0 <= i < |changes| ensures BenignAt(columns, changes, i) {
        assert AgreesAfter(columns, model, changes, i) && AgreesAfter(columns, model, changes, i + 1);
        NextAgrees(columns, model, changes, i);
      }
    } else if forall i :: 0 <= i < |changes| ==> BenignAt(columns, changes, i) {
      BenignRunAgrees(columns, model, changes, |changes|);
    }
  }

  lemma NothingAgrees(columns: seq<string>, model: string, changes: seq<Change>)
    requires AllApply(map[], changes)
    ensures AgreesAfter(columns, model, changes, 0)
  {
    PrefixApplies(map[], changes, 0);
    assert changes[..0] == [];
    assert LiveRows(columns, map[]) == map[];
  }

  lemma {:induction false} BenignRunAgrees(columns: seq<string>, model: string, changes: seq<Change>, n: nat)
    requires ID in columns && AllApply(map[], changes) && n <= |changes|
    requires forall i :: 0 <= i < |changes| ==> BenignAt(columns, changes, i)
    ensures forall i :: 0 <= i <= n ==> AgreesAfter(columns, model, changes, i)
  {
    hide BenignAt, AgreesAfter;
    if n == 0 {
      NothingAgrees(columns, model, changes);
    } else {
      BenignRunAgrees(columns, model, changes, n - 1);
      NextAgrees(columns, model, changes, n - 1);
    }
  }

  // The row a restore left bare is put right by the next update, whose event carries all of it.
  lemma UpdateHeals(columns: seq<string>, model: string, base: Table, log: seq<Event>, id: string, patch: Record)
    requires ID in columns && TableOk(base) && Applies(base, Patch(id, patch)) && Live(base[id]) && Live(base[id] + patch)
    requires CellsAt(Replay(columns, log), id) == Some(Rendered(columns, map[ID := Text(id)]))
    requires forall other :: other != id ==> CellsAt(Replay(columns, log), other) == LiveAt(columns, base, other)
    ensures Agrees(columns, Changed(base, Patch(id, patch)), log + [EventOf(model, base, Patch(id, patch))])
  {
    var ch := Patch(id, patch);
    var log', base' := log + [EventOf(model, base, ch)], Changed(base, ch);
    AgreesRowByRow(columns, base', log');
    ReplayAppend(columns, log, EventOf(model, base, ch));
    OverwrittenIsRendered(columns, map[ID := Text(id)], base[id] + patch);
    forall other | other != id ensures CellsAt(Replay(columns, log'), other) == LiveAt(columns, base', other) {
      OthersStay(columns, model, base, log, ch, other);
    }
  }

  function Titled(): Record { map[ID := Text("1"), "title" := Text("t"), DELETED_AT := Null] }

  function RestoreRun(): seq<Change> { [Create(Titled()), SoftDelete("1", "now"), Restore("1")] }

  lemma RestoreRuns(model: string)
    ensures var b := map["1" := Titled()[DELETED_AT := Text("now")]];
            AllApply(map[], RestoreRun()) && AllApply(map[], RestoreRun()[..2]) && After(map[], RestoreRun()[..2]) == b &&
            Events(model, map[], RestoreRun())
              == [EventOf(model, map[], Create(Titled())), EventOf(model, map["1" := Titled()], SoftDelete("1", "now")), EventOf(model, b, Restore("1"))] &&
            After(map[], RestoreRun()) == map["1" := Titled()]
  {
    var a, b, c := Create(Titled()), SoftDelete("1", "now"), Restore("1");
    assert [] + [a] == [a] && [a] + [b] == [a, b] == RestoreRun()[..2] && [a, b] + [c] == [a, b, c];
    NoChanges(model, map[]);
    OneMore(model, map[], [], a);
    OneMore(model, map[], [a], b);
    OneMore(model, map[], [a, b], c);
    assert Titled()[DELETED_AT := Text("now")][DELETED_AT := Null] == Titled();
  }

  // Created, deleted, restored: the live row has a title, the replayed one has none.
  lemma RestoreLosesColumns(model: string)
    ensures AllApply(map[], RestoreRun()) &&
            After(map[], RestoreRun()) == map["1" := Titled()] && Live(Titled()) &&
            CellsAt(Replay([ID, "title"], Events(model, map[], RestoreRun())), "1") == Some(map[ID := Some("1"), "title" := None]) &&
            !Agrees([ID, "title"], After(map[], RestoreRun()), Events(model, map[], RestoreRun()))
  {
    RestoreRuns(model);
    var log := Events(model, map[], RestoreRun());
    RestoreReplays(log);
    assert "1" in LiveRows([ID, "title"], map["1" := Titled()]) && LiveRows([ID, "title"], map["1" := Titled()])["1"]["title"] == Some("t");
  }

  lemma RestoreReplays(log: seq<Event>)
    requires |log| == 3 && log[0].kind == Created && log[1].kind == Deleted && log[2].kind == Restored
    requires log[0].data == Titled() && log[1].data == log[2].data == map[ID := Text("1")]
    ensures CellsAt(Replay([ID, "title"], log), "1") == Some(map[ID := Some("1"), "title" := None])
  {
    hide Replay;
    var columns := [ID, "title"];
    ReplayAppend(columns, log[..1], log[1]);
    ReplayAppend(columns, log[..2], log[2]);
    assert log[..1] + [log[1]] == log[..2] && log[..2] + [log[2]] == log;
    assert "1" !in Replay(columns, log[..2]);
    assert ID in columns && "title" in columns;
    assert Rendered(columns, log[2].data) == map[ID := Some("1"), "title" := None];
  }

  // --- What a run of writes leaves ---

  // The last value written to a column of a row, while the row exists.
  function LastWritten(changes: seq<Change>, id: string, column: string): Option<Value> {
    if changes == [] then None
    else
      var last, before := changes[|changes| - 1], LastWritten(changes[..|changes| - 1], id, column);
      if Target(last) != id then before
      else if last.Create? then (if column in last.row then Some(last.row[column]) else None)
      else if last.HardDelete? then None
      else if last.Patch? && column in last.patch then Some(last.patch[column])
      else if last.SoftDelete? && column == DELETED_AT then Some(Text(last.at))
      else if last.Restore? && column == DELETED_AT then Some(Null)
      else before
  }

  function ValueAt(base: Table, id: string, column: string): Option<Value> {
    if id in base && column in base[id] then Some(base[id][column]) else None
  }

  // Every column of every row holds the last value written to it; nothing else changes it.
  lemma {:induction false} RowsAreLastWritten(changes: seq<Change>, id: string, column: string)
    requires AllApply(map[], changes)
    ensures ValueAt(After(map[], changes), id, column) == LastWritten(changes, id, column)
  {
    if changes != [] {
      var front, last := changes[..|changes| - 1], changes[|changes| - 1];
      RowsAreLastWritten(front, id, column);
      AfterKeepsTable("", map[], front);
      OneWrite(After(map[], front), last, id, column);
    }
  }

  lemma OneWrite(base: Table, ch: Change, id: string, column: string)
    requires TableOk(base) && Applies(base, ch)
    ensures ValueAt(Changed(base, ch), id, column) ==
              if Target(ch) != id then ValueAt(base, id, column)
              else if ch.Create? then (if column in ch.row then Some(ch.row[column]) else None)
              else if ch.HardDelete? then None
              else if ch.Patch? && column in ch.patch then Some(ch.patch[column])
              else if ch.SoftDelete? && column == DELETED_AT then Some(Text(ch.at))
              else if ch.Restore? && column == DELETED_AT then Some(Null)
              else ValueAt(base, id, column)
  {
  }

  // Each write records one event, of its own kind, under the model's name and the row's identity.
  lemma {:induction false} EventsTell(model: string, base: Table, changes: seq<Change>, i: nat)
    requires AllApply(base, changes) && TableOk(base) && i < |changes|
    ensures var events := Events(model, base, changes);
            |events| == |changes| && events[i].model == model && IdOf(events[i].data) == Target(changes[i]) &&
            (events[i].kind == Created <==> changes[i].Create?) && (events[i].kind == Updated <==> changes[i].Patch?) &&
            (events[i].kind == Deleted <==> changes[i].SoftDelete?) && (events[i].kind == Restored <==> changes[i].Restore?) &&
            (events[i].kind == HardDeleted <==> changes[i].HardDelete?)
    decreases |changes|
  {
    hide After, Changed;
    var n := |changes| - 1;
    AfterKeepsTable(model, base, changes[..n]);
    EventsLength(model, base, changes[..n]);
    if i < n { EventsTell(model, base, changes[..n], i); }
  }

  lemma {:induction false} EventsLength(model: string, base: Table, changes: seq<Change>)
    requires AllApply(base, changes)
    ensures |Events(model, base, changes)| == |changes|
  {
    if changes != [] { EventsLength(model, base, changes[..|changes| - 1]); }
  }

  // --- The statements ---

  // One write to the rows a condition selects.
  datatype Write = Patching(patch: Record) | SoftDeleting(at: string) | Restoring | HardDeleting

  function ChangeOf(write: Write, id: string): Change {
    match write
    case Patching(patch) => Patch(id, patch)
    case SoftDeleting(at) => SoftDelete(id, at)
    case Restoring => Restore(id)
    case HardDeleting => HardDelete(id)
  }

  function ChangesOf(write: Write, ids: seq<string>): (changes: seq<Change>)
    ensures |changes| == |ids|
  {
    if ids == [] then [] else ChangesOf(write, ids[..|ids| - 1]) + [ChangeOf(write, ids[|ids| - 1])]
  }

  function Rewritten(write: Write, row: Record): Record {
    match write
    case Patching(patch) => row + patch
    case SoftDeleting(at) => row[DELETED_AT := Text(at)]
    case Restoring => row[DELETED_AT := Null]
    case HardDeleting => row
  }

  // All selected rows at once.
  function Executed(base: Table, write: Write, ids: seq<string>): Table {
    if write.HardDeleting? then map id | id in base && id !in ids :: base[id]
    else map id | id in base :: if id in ids then Rewritten(write, base[id]) else base[id]
  }

  lemma ExecutedOneMore(base: Table, write: Write, ids: seq<string>, id: string)
    requires id in base && id !in ids && (write.Patching? ==> ID !in write.patch)
    ensures var before := Executed(base, write, ids);
            Applies(before, ChangeOf(write, id)) && Changed(before, ChangeOf(write, id)) == Executed(base, write, ids + [id])
  {
    var before := Executed(base, write, ids);
    var after := Changed(before, ChangeOf(write, id));
    var all := Executed(base, write, ids + [id]);
    assert forall x :: x in ids + [id] <==> x in ids || x == id;
    assert after.Keys == all.Keys;
  }

  lemma {:induction false} ExecutedIsChanged(model: string, base: Table, write: Write, ids: seq<string>)
    requires NoDup(ids) && (forall id <- ids :: id in base) && (write.Patching? ==> ID !in write.patch)
    ensures AllApply(base, ChangesOf(write, ids)) && After(base, ChangesOf(write, ids)) == Executed(base, write, ids)
  {
    hide Changed, Executed;
    if ids != [] {
      var front, last := ids[..|ids| - 1], ids[|ids| - 1];
      assert ids == front + [last] && last in ids && forall id <- front :: id in ids;
      ExecutedIsChanged(model, base, write, front);
      ExecutedOneMore(base, write, front, last);
      OneMore(model, base, ChangesOf(write, front), ChangeOf(write, last));
    } else {
      NothingExecuted(base, write);
    }
  }

  lemma NothingExecuted(base: Table, write: Write)
    ensures Executed(base, write, []) == base
  {
  }

  // The event of each selected row, read off the rows as the statement left them.
  lemma ReturnedRow(base: Table, write: Write, ids: seq<string>, i: nat)
    requires NoDup(ids) && i < |ids| && ids[i] in base && (write.Patching? ==> ID !in write.patch)
    ensures var before := Executed(base, write, ids[..i]);
            Applies(before, ChangeOf(write, ids[i])) &&
            (write.Patching? ==> ids[i] in Executed(base, write, ids)) &&
            Returned(before, ChangeOf(write, ids[i]))
              == if write.Patching? then Executed(base, write, ids)[ids[i]] else map[ID := Text(ids[i])]
  {
    assert ids[i] !in ids[..i] && ids[i] in ids;
  }

  class ModelTable {
    const model: string
    var base: Table
    var log: seq<Event>

    constructor (model: string)
      ensures this.model == model && base == map[] && log == []
    {
      this.model := model;
      base := map[];
      log := [];
    }

    // Rows and events together, all or nothing: an identity already taken undoes the batch.
    method CreateMany(rows: seq<Record>) returns (ok: bool)
      requires forall row <- rows :: HasId(row) && DELETED_AT in row
      modifies this
      ensures ok <==> AllApply(old(base), Creates(rows))
      ensures if ok then base == After(old(base), Creates(rows)) && log == old(log) + Events(model, old(base), Creates(rows))
              else base == old(base) && log == old(log)
    {
      hide AllApply, After, Events, Changed;
      var saved, events := base, [];
      NoChanges(model, saved);
      for i := 0 to |rows|
        invariant AllApply(saved, Creates(rows[..i])) && base == After(saved, Creates(rows[..i])) && log == old(log)
        invariant events == Events(model, saved, Creates(rows[..i]))
      {
        assert rows[..i + 1][..i] == rows[..i];
        OneMore(model, saved, Creates(rows[..i]), Create(rows[i]));
        if IdOf(rows[i]) in base {
          PrefixRefuses(saved, rows, i);
          base := saved;
          return false;
        }
        base := InsertRow(base, rows[i]);
        events := events + [Event("", Created, model, rows[i], "")];
      }
      assert rows[..|rows|] == rows;
      log := log + events;
      return true;
    }

    // The selected rows change in one statement; then an event is built for each row returned.
    method WriteMany(write: Write, ids: seq<string>)
      requires NoDup(ids) && (forall id <- ids :: id in base) && (write.Patching? ==> ID !in write.patch) && TableOk(base)
      modifies this
      ensures AllApply(old(base), ChangesOf(write, ids))
      ensures base == After(old(base), ChangesOf(write, ids)) && TableOk(base)
      ensures log == old(log) + Events(model, old(base), ChangesOf(write, ids))
    {
      hide AllApply, After, Events, Executed, Returned;
      ghost var before := base;
      ExecutedIsChanged(model, before, write, ids);
      AfterKeepsTable(model, before, ChangesOf(write, ids));
      base := Executed(base, write, ids);
      var events := [];
      NoChanges(model, before);
      for i := 0 to |ids|
        invariant base == Executed(before, write, ids) && log == old(log)
        invariant AllApply(before, ChangesOf(write, ids[..i])) && events == Events(model, before, ChangesOf(write, ids[..i]))
      {
        assert ids[..i + 1][..i] == ids[..i] && ids[i] in ids;
        ExecutedIsChanged(model, before, write, ids[..i]);
        ReturnedRow(before, write, ids, i);
        OneMore(model, before, ChangesOf(write, ids[..i]), ChangeOf(write, ids[i]));
        var returned := if write.Patching? then base[ids[i]] else map[ID := Text(ids[i])];
        events := events + [Event("", KindOf(ChangeOf(write, ids[i])), model, returned, "")];
      }
      assert ids[..|ids|] == ids;
      log := log + events;
    }
  }

  lemma NoChanges(model: string, base: Table)
    ensures AllApply(base, []) && After(base, []) == base && Events(model, base, []) == []
  {
  }

  function InsertRow(base: Table, row: Record): (after: Table)
    requires HasId(row) && DELETED_AT in row && IdOf(row) !in base
    ensures after == Changed(base, Create(row))
  {
    base[IdOf(row) := row]
  }

  function Creates(rows: seq<Record>): (changes: seq<Change>)
    ensures |changes| == |rows|
  {
    if rows == [] then [] else Creates(rows[..|rows| - 1]) + [Create(rows[|rows| - 1])]
  }

  lemma {:induction false} PrefixRefuses(base: Table, rows: seq<Record>, i: nat)
    requires i < |rows| && AllApply(base, Creates(rows[..i])) && HasId(rows[i]) && IdOf(rows[i]) in After(base, Creates(rows[..i]))
    ensures !AllApply(base, Creates(rows))
    decreases |rows|
  {
    hide After;
    var front := rows[..|rows| - 1];
    assert rows == front + [rows[|rows| - 1]];
    if i < |rows| - 1 {
      assert front[..i] == rows[..i];
      PrefixRefuses(base, front, i);
    } else {
      assert front == rows[..i];
    }
    if AllApply(base, Creates(front)) { OneMore("", base, Creates(front), Create(rows[|rows| - 1])); }
    LastCreate(rows);
  }

  lemma LastCreate(rows: seq<Record>)
    requires rows != []
    ensures Creates(rows) == Creates(rows[..|rows| - 1]) + [Create(rows[|rows| - 1])]
    ensures Creates(rows)[..|rows| - 1] == Creates(rows[..|rows| - 1])
  {
  }
}
