// Reading the event log back: rows come ordered by the timestamps their writers gave them, not by when they
// were committed, and rows with equal stamps come in any order.
module LogReading {
  import opened Listing
  import opened Tables

  // ORDER BY timestamp.
  predicate TimeLe(a: Row, b: Row) { NameLe(a.event.timestamp, b.event.timestamp) }

  // ORDER BY timestamp, created_at.
  predicate StampLe(a: Row, b: Row) {
    TimeLe(a, b) && (a.event.timestamp == b.event.timestamp ==> a.createdAt <= b.createdAt)
  }

  ghost predicate Ranking(le: (Row, Row) -> bool) {
    (forall x, y :: le(x, y) || le(y, x)) && (forall x, y, z :: le(x, y) && le(y, z) ==> le(x, z))
  }

  lemma OrdersRank()
    ensures Ranking(TimeLe) && Ranking(StampLe)
  {
    OrdersAreTotal();
    forall x: Row, y: Row, z: Row | TimeLe(x, y) && TimeLe(y, z) ensures TimeLe(x, z) {
      NameLeTransitive(x.event.timestamp, y.event.timestamp, z.event.timestamp);
    }
    forall x: Row, y: Row ensures TimeLe(x, y) || TimeLe(y, x) {
      NameLeTotal(x.event.timestamp, y.event.timestamp);
    }
    forall x: Row, y: Row ensures StampLe(x, y) || StampLe(y, x) {
      NameLeTotal(x.event.timestamp, y.event.timestamp);
    }
    forall x: Row, y: Row, z: Row | StampLe(x, y) && StampLe(y, z) ensures StampLe(x, z) {
      NameLeTransitive(x.event.timestamp, y.event.timestamp, z.event.timestamp);
      NameLeTotal(x.event.timestamp, y.event.timestamp);
    }
  }

  // Every answer a query for these rows may give.
  ghost predicate IsRead(rows: seq<Row>, read: seq<Row>, le: (Row, Row) -> bool) {
    multiset(read) == multiset(rows) && SortedBy(read, le)
  }

  lemma ReadHasSameRows(rows: seq<Row>, read: seq<Row>, le: (Row, Row) -> bool)
    requires IsRead(rows, read, le)
    ensures |read| == |rows| && forall r :: r in read <==> r in rows
  {
    assert |read| == |multiset(read)| == |rows|;
    assert forall r :: (r in read <==> r in multiset(read)) && (r in rows <==> r in multiset(rows));
  }

  // Before the first row that may not come before it.
  function Placed(r: Row, sorted: seq<Row>, le: (Row, Row) -> bool): seq<Row> {
    if sorted == [] || le(r, sorted[0]) then [r] + sorted else [sorted[0]] + Placed(r, sorted[1..], le)
  }

  function Ordered(rows: seq<Row>, le: (Row, Row) -> bool): seq<Row> {
    if rows == [] then [] else Placed(rows[0], Ordered(rows[1..], le), le)
  }

  lemma {:induction false} PlacedHolds(r: Row, sorted: seq<Row>, le: (Row, Row) -> bool)
    ensures multiset(Placed(r, sorted, le)) == multiset(sorted) + multiset{r}
  {
    if sorted != [] && !le(r, sorted[0]) {
      PlacedHolds(r, sorted[1..], le);
      assert sorted == [sorted[0]] + sorted[1..];
    }
  }

  lemma {:induction false} PlacedIsSorted(r: Row, sorted: seq<Row>, le: (Row, Row) -> bool)
    requires Ranking(le) && SortedBy(sorted, le)
    ensures SortedBy(Placed(r, sorted, le), le)
  {
    if sorted == [] {
    } else if le(r, sorted[0]) {
      assert forall j :: 0 <= j < |sorted| ==> le(r, sorted[j]);
    } else {
      var first, rest := sorted[0], sorted[1..];
      PlacedIsSorted(r, rest, le);
      var placed := Placed(r, rest, le);
      PlacedHolds(r, rest, le);
      forall j | 0 <= j < |placed| ensures le(first, placed[j]) {
        assert placed[j] in multiset(placed);
        assert placed[j] == r || placed[j] in rest;
      }
    }
  }

  lemma PlacedIsRead(r: Row, sorted: seq<Row>, le: (Row, Row) -> bool)
    requires Ranking(le) && SortedBy(sorted, le)
    ensures IsRead([r] + sorted, Placed(r, sorted, le), le)
  {
    PlacedHolds(r, sorted, le);
    PlacedIsSorted(r, sorted, le);
  }

  lemma {:induction false} OrderedIsRead(rows: seq<Row>, le: (Row, Row) -> bool)
    requires Ranking(le)
    ensures IsRead(rows, Ordered(rows, le), le)
  {
    if rows != [] {
      OrderedIsRead(rows[1..], le);
      PlacedIsRead(rows[0], Ordered(rows[1..], le), le);
      assert rows == [rows[0]] + rows[1..];
    }
  }

  // --- Each row's own events ---

  function RowId(r: Row): string { IdOf(r.event.data) }

  function RowsOf(rows: seq<Row>, id: string): seq<Row> {
    if rows == [] then []
    else RowsOf(rows[..|rows| - 1], id) + if RowId(rows[|rows| - 1]) == id then [rows[|rows| - 1]] else []
  }

  ghost predicate SameOrder(rows: seq<Row>, read: seq<Row>) { forall id :: RowsOf(read, id) == RowsOf(rows, id) }

  // The events of any one row are stamped in the order they were committed.
  ghost predicate StampsIncrease(rows: seq<Row>, le: (Row, Row) -> bool) {
    forall i, j :: 0 <= i < j < |rows| && RowId(rows[i]) == RowId(rows[j]) ==> !le(rows[j], rows[i])
  }

  lemma {:induction false} RowsOfCounts(rows: seq<Row>, id: string, r: Row)
    ensures multiset(RowsOf(rows, id))[r] == if RowId(r) == id then multiset(rows)[r] else 0
  {
    if rows != [] {
      var front, last := rows[..|rows| - 1], rows[|rows| - 1];
      RowsOfCounts(front, id, r);
      assert rows == front + [last];
    }
  }

  // Whatever relates each two of a row's events in one order relates them there.
  lemma {:induction false} RowsOfRelated(rows: seq<Row>, id: string, related: (Row, Row) -> bool)
    requires forall i, j :: 0 <= i < j < |rows| && RowId(rows[i]) == RowId(rows[j]) == id ==> related(rows[i], rows[j])
    ensures SortedBy(RowsOf(rows, id), related)
  {
    if rows != [] {
      var front, last := rows[..|rows| - 1], rows[|rows| - 1];
      assert forall i :: 0 <= i < |front| ==> front[i] == rows[i];
      RowsOfRelated(front, id, related);
      var mine := RowsOf(front, id);
      if RowId(last) == id {
        forall i | 0 <= i < |mine| ensures related(mine[i], last) {
          RowsOfCounts(front, id, mine[i]);
          assert mine[i] in mine && mine[i] in front;
          var k :| 0 <= k < |front| && front[k] == mine[i];
          assert related(rows[k], rows[|rows| - 1]);
        }
      }
    }
  }

  ghost predicate Strict(a: seq<Row>, le: (Row, Row) -> bool) {
    forall i, j :: 0 <= i < j < |a| ==> !le(a[j], a[i])
  }

  lemma LastsAgree(a: seq<Row>, b: seq<Row>, le: (Row, Row) -> bool)
    requires a != [] && b != [] && multiset(a) == multiset(b) && SortedBy(b, le)
    requires Strict(a, le)
    ensures a[|a| - 1] == b[|b| - 1]
  {
    var x, y := a[|a| - 1], b[|b| - 1];
    assert x in multiset(b) && y in multiset(a);
    var i :| 0 <= i < |a| && a[i] == y;
    var j :| 0 <= j < |b| && b[j] == x;
  }

  lemma FrontCounts(a: seq<Row>, le: (Row, Row) -> bool)
    requires a != []
    ensures multiset(a[..|a| - 1]) == multiset(a) - multiset{a[|a| - 1]}
    ensures Strict(a, le) ==> Strict(a[..|a| - 1], le)
    ensures SortedBy(a, le) ==> SortedBy(a[..|a| - 1], le)
  {
    assert a == a[..|a| - 1] + [a[|a| - 1]];
  }

  lemma {:induction false} SortedOnce(a: seq<Row>, b: seq<Row>, le: (Row, Row) -> bool)
    requires multiset(a) == multiset(b) && SortedBy(b, le)
    requires Strict(a, le)
    ensures a == b
  {
    hide Strict, SortedBy;
    assert |a| == |multiset(a)| == |b|;
    if a != [] {
      LastsAgree(a, b, le);
      FrontCounts(a, le);
      FrontCounts(b, le);
      SortedOnce(a[..|a| - 1], b[..|b| - 1], le);
      assert a == a[..|a| - 1] + [a[|a| - 1]] && b == b[..|b| - 1] + [b[|b| - 1]];
    }
  }

  lemma ReadKeepsRowOrder(rows: seq<Row>, read: seq<Row>, le: (Row, Row) -> bool, id: string)
    requires IsRead(rows, read, le) && StampsIncrease(rows, le)
    ensures RowsOf(read, id) == RowsOf(rows, id)
  {
    var a, b := RowsOf(rows, id), RowsOf(read, id);
    RowsOfRelated(rows, id, (x, y) => !le(y, x));
    RowsOfRelated(read, id, le);
    forall r ensures multiset(a)[r] == multiset(b)[r] {
      RowsOfCounts(rows, id, r);
      RowsOfCounts(read, id, r);
    }
    assert multiset(a) == multiset(b);
    SortedOnce(a, b, le);
  }

  // The other way round: some answer has two events of one row the wrong way round.
  lemma InvertedRead(rows: seq<Row>, le: (Row, Row) -> bool, i: nat, j: nat) returns (read: seq<Row>)
    requires Ranking(le) && NoDup(rows) && i < j < |rows| && RowId(rows[i]) == RowId(rows[j]) && le(rows[j], rows[i])
    ensures IsRead(rows, read, le) && !SameOrder(rows, read)
  {
    var x, y, id := rows[j], rows[i], RowId(rows[i]);
    var others := rows[..j] + rows[j + 1..];
    assert rows == rows[..j] + [x] + rows[j + 1..];
    OrderedIsRead(others, le);
    var sorted := Ordered(others, le);
    PlacedIsRead(x, sorted, le);
    read := Placed(x, sorted, le);
    assert multiset(read) == multiset(rows);
    assert others[i] == y && y in multiset(others) && y in sorted;
    var p, q := PlacedBefore(x, y, sorted, le);
    RowsOfRelated(rows, id, (a, b) => !(a == x && b == y));
    if SameOrder(rows, read) {
      assert RowsOf(read, id) == RowsOf(rows, id);
      var m, n := RowsOfInOrder(read, id, p, q);
      assert false;
    }
  }

  lemma {:induction false} PlacedBefore(x: Row, y: Row, sorted: seq<Row>, le: (Row, Row) -> bool) returns (p: nat, q: nat)
    requires le(x, y) && y in sorted && SortedBy(sorted, le) && Ranking(le)
    ensures p < q < |Placed(x, sorted, le)| && Placed(x, sorted, le)[p] == x && Placed(x, sorted, le)[q] == y
  {
    if le(x, sorted[0]) {
      var k :| 0 <= k < |sorted| && sorted[k] == y;
      p, q := 0, k + 1;
    } else {
      p, q := PlacedBefore(x, y, sorted[1..], le);
      p, q := p + 1, q + 1;
    }
  }

  lemma {:induction false} RowsOfInOrder(rows: seq<Row>, id: string, p: nat, q: nat) returns (m: nat, n: nat)
    requires p < q < |rows| && RowId(rows[p]) == RowId(rows[q]) == id
    ensures m < n < |RowsOf(rows, id)| && RowsOf(rows, id)[m] == rows[p] && RowsOf(rows, id)[n] == rows[q]
  {
    var front, last := rows[..|rows| - 1], rows[|rows| - 1];
    var mine := RowsOf(front, id);
    if q < |front| {
      m, n := RowsOfInOrder(front, id, p, q);
    } else {
      RowsOfCounts(front, id, rows[p]);
      assert front[p] in front && rows[p] in multiset(mine) && rows[p] in mine;
      m :| 0 <= m < |mine| && mine[m] == rows[p];
      n := |mine|;
    }
  }

  // Every answer gives each row's events in the order they were committed if and only if each row's stamps
  // increase in that order, whatever the stamps of different rows.
  lemma RowOrderIff(rows: seq<Row>, le: (Row, Row) -> bool)
    requires Ranking(le) && NoDup(rows)
    ensures (forall read | IsRead(rows, read, le) :: SameOrder(rows, read)) <==> StampsIncrease(rows, le)
  {
    if StampsIncrease(rows, le) {
      forall read, id | IsRead(rows, read, le) ensures RowsOf(read, id) == RowsOf(rows, id) {
        ReadKeepsRowOrder(rows, read, le, id);
      }
    } else {
      var i, j :| 0 <= i < j < |rows| && RowId(rows[i]) == RowId(rows[j]) && le(rows[j], rows[i]);
      var read := InvertedRead(rows, le, i, j);
    }
  }

  function EventsIn(rows: seq<Row>): (events: seq<Event>)
    ensures |events| == |rows| && forall i :: 0 <= i < |rows| ==> events[i] == rows[i].event
  {
    if rows == [] then [] else EventsIn(rows[..|rows| - 1]) + [rows[|rows| - 1].event]
  }
}
