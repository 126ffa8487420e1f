// A read table kept up to date event by event, and rebuilt from the log.
module Projections {
  import opened Wrappers
  import opened Tables
  import opened HistoryCoverage
  import opened LogReading

  // --- One event ---

  predicate Mentions(columns: seq<string>, data: Record) { exists c <- columns :: c in data }

  // A new row; one that is there already is left alone.
  function Insert(columns: seq<string>, table: Projected, data: Record): Projected {
    if !Mentions(columns, data) || IdKey(data) in table then table else table[IdKey(data) := Rendered(columns, data)]
  }

  function IdKey(data: Record): string { if ID in data then ToText(data[ID]) else "" }

  function Overwritten(cells: Cells, columns: seq<string>, data: Record): Cells {
    map c | c in cells :: if c != ID && c in columns && c in data then Some(ToText(data[c])) else cells[c]
  }

  function Update(columns: seq<string>, table: Projected, data: Record): Projected {
    if HasId(data) && data[ID].text in table
    then table[data[ID].text := Overwritten(table[data[ID].text], columns, data)] else table
  }

  // An insert without an identity violates the primary key.
  predicate Refused(columns: seq<string>, e: Event) {
    (e.kind.Created? || e.kind.Restored?) && Mentions(columns, e.data) && ID !in e.data
  }

  function Project(columns: seq<string>, table: Projected, e: Event): Projected {
    match e.kind
    case Created => Insert(columns, table, e.data)
    case Restored => Insert(columns, table, e.data)
    case Updated => Update(columns, table, e.data)
    case Deleted => if HasId(e.data) then table - {e.data[ID].text} else table
    case HardDeleted => if HasId(e.data) then table - {e.data[ID].text} else table
    case Custom => table
  }

  // --- A whole log ---

  function Replay(columns: seq<string>, log: seq<Event>): Projected {
    if log == [] then map[] else Project(columns, Replay(columns, log[..|log| - 1]), log[|log| - 1])
  }

  lemma ReplayAppend(columns: seq<string>, log: seq<Event>, e: Event)
    ensures Replay(columns, log + [e]) == Project(columns, Replay(columns, log), e)
  {
    assert (log + [e])[..|log|] == log;
  }

  // The events of one row, in order.
  function Of(log: seq<Event>, id: string): seq<Event> {
    if log == [] then []
    else Of(log[..|log| - 1], id) + if IdOf(log[|log| - 1].data) == id then [log[|log| - 1]] else []
  }

  predicate Keyed(log: seq<Event>) { forall e <- log :: HasId(e.data) }

  function CellsAt(table: Projected, id: string): Option<Cells> {
    if id in table then Some(table[id]) else None
  }

  // An event touches only its own row, by that row alone.
  lemma ProjectIsLocal(columns: seq<string>, table: Projected, other: Projected, e: Event, id: string)
    requires HasId(e.data)
    ensures IdOf(e.data) != id ==> CellsAt(Project(columns, table, e), id) == CellsAt(table, id)
    ensures IdOf(e.data) == id && CellsAt(table, id) == CellsAt(other, id) ==>
              CellsAt(Project(columns, table, e), id) == CellsAt(Project(columns, other, e), id)
  {
  }

  lemma {:induction false} ReplayOfOne(columns: seq<string>, log: seq<Event>, id: string)
    requires Keyed(log)
    ensures CellsAt(Replay(columns, log), id) == CellsAt(Replay(columns, Of(log, id)), id)
  {
    if log != [] {
      var front, e := log[..|log| - 1], log[|log| - 1];
      assert e in log && forall x <- front :: x in log;
      ReplayOfOne(columns, front, id);
      ProjectIsLocal(columns, Replay(columns, front), Replay(columns, Of(front, id)), e, id);
      ReplayAppend(columns, Of(front, id), e);
      assert Of(front, id) + [] == Of(front, id);
    }
  }

  // The rebuilt table depends only on each row's own events in their order: logs that order different
  // rows' events differently, as ties in timestamps may, rebuild the same table.
  lemma ReplayIsPerRow(columns: seq<string>, log: seq<Event>, reordered: seq<Event>)
    requires Keyed(log) && Keyed(reordered) && forall id :: Of(log, id) == Of(reordered, id)
    ensures Replay(columns, log) == Replay(columns, reordered)
  {
    var a, b := Replay(columns, log), Replay(columns, reordered);
    forall id ensures CellsAt(a, id) == CellsAt(b, id) {
      ReplayOfOne(columns, log, id);
      ReplayOfOne(columns, reordered, id);
    }
    forall id ensures id in a <==> id in b {
      assert CellsAt(a, id) == CellsAt(b, id);
    }
    forall id | id in a ensures a[id] == b[id] {
      assert CellsAt(a, id) == CellsAt(b, id);
    }
  }

  // --- Reading the log back ---

  lemma {:induction false} EventsOf(rows: seq<Row>, id: string)
    ensures Of(EventsIn(rows), id) == EventsIn(RowsOf(rows, id))
  {
    if rows != [] {
      var front, last := rows[..|rows| - 1], rows[|rows| - 1];
      EventsOf(front, id);
      assert EventsIn(rows)[..|rows| - 1] == EventsIn(front);
      if RowId(last) == id {
        assert RowsOf(rows, id)[..|RowsOf(rows, id)| - 1] == RowsOf(front, id);
      } else {
        assert RowsOf(rows, id) == RowsOf(front, id);
      }
    }
  }

  // What a rebuild from these rows may leave in a projection's table.
  ghost predicate Rebuilt(columns: seq<string>, rows: seq<Row>, table: Projected) {
    exists read :: IsRead(rows, read, StampLe) && table == Replay(columns, EventsIn(read))
  }

  // While each row's stamps increase, a rebuild replays the history as it was committed.
  lemma RebuiltInOrder(columns: seq<string>, rows: seq<Row>, table: Projected)
    requires Keyed(EventsIn(rows)) && StampsIncrease(rows, StampLe) && Rebuilt(columns, rows, table)
    ensures table == Replay(columns, EventsIn(rows))
  {
    var read :| IsRead(rows, read, StampLe) && table == Replay(columns, EventsIn(read));
    forall e <- EventsIn(read) ensures HasId(e.data) {
      var i :| 0 <= i < |read| && EventsIn(read)[i] == e;
      assert read[i] in multiset(read) && read[i] in rows;
      var k :| 0 <= k < |rows| && rows[k] == read[i];
      assert EventsIn(rows)[k] == e;
    }
    forall id ensures Of(EventsIn(read), id) == Of(EventsIn(rows), id) {
      ReadKeepsRowOrder(rows, read, StampLe, id);
      EventsOf(read, id);
      EventsOf(rows, id);
    }
    ReplayIsPerRow(columns, EventsIn(read), EventsIn(rows));
  }

  class TableProjection {
    const sourceModel: string
    const columns: seq<string>
    // A projection of another kind may not be able to rebuild within somebody else's transaction.
    const transactional: bool
    var table: Projected

    constructor (sourceModel: string, columns: seq<string>, transactional: bool)
      ensures this.sourceModel == sourceModel && this.columns == columns && this.transactional == transactional && table == map[]
    {
      this.sourceModel := sourceModel;
      this.columns := columns;
      this.transactional := transactional;
      table := map[];
    }

    // False when the statement fails, which leaves the table as it was.
    method HandleEvent(e: Event) returns (ok: bool)
      modifies this
      ensures ok == !Refused(columns, e)
      ensures table == if ok then Project(columns, old(table), e) else old(table)
      ensures !ok <==> (e.kind.Created? || e.kind.Restored?) && "id" !in e.data && exists c <- columns :: c in e.data
      ensures e.kind.Updated? ==> table.Keys == old(table).Keys
      ensures e.kind.Updated? ==> forall id <- table :: table[id].Keys == old(table)[id].Keys
      ensures e.kind.Updated? ==> forall id <- table, c: string | c in table[id] ::
                table[id][c] == if "id" in e.data && e.data["id"] == Text(id) && c != "id" && c in columns && c in e.data
                                then Some(ToText(e.data[c])) else old(table)[id][c]
    {
      match e.kind {
        case Created => ok := InsertRow(e);
        case Restored => ok := InsertRow(e);
        case Updated =>
          ok := true;
          if HasId(e.data) {
            var id := e.data[ID].text;
            if id in table {
              table := table[id := Overwritten(table[id], columns, e.data)];
            }
          }
        case Deleted =>
          ok := true;
          if HasId(e.data) { table := table - {e.data[ID].text}; }
        case HardDeleted =>
          ok := true;
          if HasId(e.data) { table := table - {e.data[ID].text}; }
        case Custom =>
          ok := true;
      }
    }

    method InsertRow(e: Event) returns (ok: bool)
      requires e.kind.Created? || e.kind.Restored?
      modifies this
      ensures ok == !Refused(columns, e)
      ensures table == if ok then Insert(columns, old(table), e.data) else old(table)
    {
      var present := Present(columns, e.data);
      if |present| == 0 {
        return true;
      }
      assert present[0] in columns && present[0] in e.data;
      if ID !in e.data {
        return false;
      }
      if IdKey(e.data) !in table {
        table := table[IdKey(e.data) := Rendered(columns, e.data)];
      }
      return true;
    }

    // Replays a model's rows, as the query returns them, into an emptied table, in one transaction: all of
    // them or nothing.
    method RebuildIn(coverage: map<string, Coverage>, rows: seq<Row>) returns (ok: bool)
      modifies this
      ensures ok <==> MayRebuild(coverage, sourceModel) && forall r <- rows :: !Refused(columns, r.event)
      ensures if ok then Rebuilt(columns, rows, table) else table == old(table)
    {
      hide Project, Refused;
      if !MayRebuild(coverage, sourceModel) {
        return false;
      }
      var read := Fetch(rows);
      ReadHasSameRows(rows, read, StampLe);
      var log := EventsIn(read);
      var saved := table;
      table := map[];
      for i := 0 to |log|
        invariant table == Replay(columns, log[..i]) && forall j :: 0 <= j < i ==> !Refused(columns, read[j].event)
      {
        ReplayAppend(columns, log[..i], log[i]);
        assert log[..i + 1] == log[..i] + [log[i]];
        var handled := HandleEvent(log[i]);
        if !handled {
          assert read[i] in rows;
          table := saved;
          return false;
        }
      }
      assert log[..|log|] == log;
      return true;
    }
  }

  // The query: ordered by stamp, ties in any order.
  method Fetch(rows: seq<Row>) returns (read: seq<Row>)
    ensures IsRead(rows, read, StampLe)
  {
    OrdersRank();
    OrderedIsRead(rows, StampLe);
    read := Ordered(rows, StampLe);
  }

  // The projected columns an event mentions.
  method Present(columns: seq<string>, data: Record) returns (present: seq<string>)
    ensures forall c :: c in present <==> c in columns && c in data
    ensures present == [] <==> !Mentions(columns, data)
  {
    present := [];
    for i := 0 to |columns|
      invariant forall c :: c in present <==> c in columns[..i] && c in data
    {
      if columns[i] in data { present := present + [columns[i]]; }
    }
    if present != [] { assert present[0] in present; }
    assert columns[..|columns|] == columns;
    forall c <- columns | c in data ensures present != [] { assert c in present; }
  }
}
