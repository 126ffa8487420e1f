// The event log under a history policy: what is stored, skipped and removed, and when the log may be
// replayed. A restart opens a new store, perhaps with another policy, on the same database.
module EventStores {
  import opened Wrappers
  import opened Listing
  import opened Tables
  import opened HistoryCoverage
  import opened LogReading

  datatype Policy = Policy(mode: Mode, maxAge: Option<nat>, maxBytes: Option<nat>)

  datatype Config = Config(fallback: Policy, models: map<string, Policy>, intervalSecs: nat, batchSize: nat)

  const DEFAULT_CONFIG := Config(Policy(Full, None, None), map[], 60, 1000)
  const CHUNK: nat := 4000
  const MAX_LIMIT: nat := 0x7FFF_FFFF_FFFF_FFFF

  predicate ValidLimit(limit: Option<nat>) { limit.Some? ==> 0 < limit.value <= MAX_LIMIT }

  predicate ValidPolicy(p: Policy) {
    ValidLimit(p.maxAge) && ValidLimit(p.maxBytes) && ((p.maxAge.Some? || p.maxBytes.Some?) <==> p.mode == Retained)
  }

  predicate ValidConfig(c: Config) {
    0 < c.intervalSecs <= 86400 && 0 < c.batchSize <= 10000 &&
    ValidPolicy(c.fallback) && forall m <- c.models :: ValidPolicy(c.models[m])
  }

  // What a policy may not be: retained without a limit, limited without being retained, or limited to nothing or
  // to more than a signed 64-bit number holds.
  predicate Faulty(p: Policy) {
    (p.mode == Retained && p.maxAge == None && p.maxBytes == None) || (p.mode != Retained && (p.maxAge.Some? || p.maxBytes.Some?)) ||
    p.maxAge == Some(0) || p.maxBytes == Some(0) ||
    (p.maxAge.Some? && p.maxAge.value > 9223372036854775807) || (p.maxBytes.Some? && p.maxBytes.value > 9223372036854775807)
  }

  lemma InvalidIff(c: Config)
    ensures !ValidConfig(c) <==>
              c.intervalSecs == 0 || c.intervalSecs > 86400 || c.batchSize == 0 || c.batchSize > 10000 ||
              Faulty(c.fallback) || exists m <- c.models :: Faulty(c.models[m])
  {
    assert forall p: Policy :: ValidPolicy(p) <==> !Faulty(p);
  }

  function PolicyOf(c: Config, model: string): Policy { if model in c.models then c.models[model] else c.fallback }

  // Each model's rows, oldest first: by creation time, those created together by row id.
  type Log = map<string, seq<Row>>

  function Rows(log: Log, model: string): seq<Row> { if model in log then log[model] else [] }

  predicate Holds(log: Log, id: string) { exists m <- log :: exists r <- log[m] :: r.event.id == id }

  function Append(log: Log, r: Row): Log { log[r.event.model := Rows(log, r.event.model) + [r]] }

  // The rows not stamped before a time.
  function From(rows: seq<Row>, since: Option<string>): (some: seq<Row>)
    ensures since == None ==> some == rows
    ensures forall r :: r in some <==> r in rows && (since.Some? ==> NameLe(since.value, r.event.timestamp))
  {
    if rows == [] then []
    else
      From(rows[..|rows| - 1], since) +
      if since == None || NameLe(since.value, rows[|rows| - 1].event.timestamp) then [rows[|rows| - 1]] else []
  }

  // --- Storing ---

  // A row whose event id the log already holds is the same event again.
  function Stored(config: Config, log: Log, r: Row): Log {
    if PolicyOf(config, r.event.model).mode == Off || Holds(log, r.event.id) then log else Append(log, r)
  }

  function Noted(config: Config, coverage: Coverages, r: Row): Coverages {
    if PolicyOf(config, r.event.model).mode == Off then Skipped(coverage, r.event.model) else coverage
  }

  function StoredAll(config: Config, log: Log, rows: seq<Row>): Log {
    if rows == [] then log else Stored(config, StoredAll(config, log, rows[..|rows| - 1]), rows[|rows| - 1])
  }

  function NotedAll(config: Config, coverage: Coverages, rows: seq<Row>): Coverages {
    if rows == [] then coverage else Noted(config, NotedAll(config, coverage, rows[..|rows| - 1]), rows[|rows| - 1])
  }

  // What has happened to a model, whether or not the log shows it.
  function Happened(config: Config, committed: Log, log: Log, r: Row): Log {
    if PolicyOf(config, r.event.model).mode != Off && Holds(log, r.event.id) then committed else Append(committed, r)
  }

  function HappenedAll(config: Config, committed: Log, log: Log, rows: seq<Row>): Log {
    if rows == [] then committed
    else
      var front := rows[..|rows| - 1];
      Happened(config, HappenedAll(config, committed, log, front), StoredAll(config, log, front), rows[|rows| - 1])
  }

  // --- The rule that lets a log be replayed ---

  // While a model's coverage is complete its log is everything ever committed for it, and what retention
  // removed are the oldest rows ever stored.
  ghost predicate FaithfulFor(log: Log, coverage: Coverages, committed: Log, stored: Log, model: string) {
    (Complete(coverage, model) ==> Rows(log, model) == Rows(committed, model)) &&
    Removed(coverage, model) <= |Rows(stored, model)| &&
    Rows(log, model) == Rows(stored, model)[Removed(coverage, model)..]
  }

  ghost predicate Faithful(log: Log, coverage: Coverages, committed: Log, stored: Log) {
    forall model :: FaithfulFor(log, coverage, committed, stored, model)
  }

  // Everything ever put in the log.
  function EverStored(config: Config, stored: Log, log: Log, r: Row): Log {
    if PolicyOf(config, r.event.model).mode == Off || Holds(log, r.event.id) then stored else Append(stored, r)
  }

  lemma AppendRows(log: Log, r: Row, model: string)
    ensures Rows(Append(log, r), model) == if model == r.event.model then Rows(log, model) + [r] else Rows(log, model)
  {
  }

  lemma SkipKeepsFaithFor(log: Log, coverage: Coverages, committed: Log, stored: Log, r: Row, model: string)
    requires FaithfulFor(log, coverage, committed, stored, model)
    ensures FaithfulFor(log, Skipped(coverage, r.event.model), Append(committed, r), stored, model)
  {
    AppendRows(committed, r, model);
  }

  lemma AppendKeepsFaithFor(log: Log, coverage: Coverages, committed: Log, stored: Log, r: Row, model: string)
    requires FaithfulFor(log, coverage, committed, stored, model)
    ensures FaithfulFor(Append(log, r), coverage, Append(committed, r), Append(stored, r), model)
  {
    hide Append;
    AppendRows(log, r, model);
    AppendRows(committed, r, model);
    AppendRows(stored, r, model);
    var n := Removed(coverage, model);
    assert (Rows(stored, model) + [r])[n..] == Rows(stored, model)[n..] + [r];
  }

  lemma StoreKeepsFaithFor(config: Config, log: Log, coverage: Coverages, committed: Log, stored: Log, r: Row, model: string)
    requires FaithfulFor(log, coverage, committed, stored, model)
    ensures FaithfulFor(Stored(config, log, r), Noted(config, coverage, r), Happened(config, committed, log, r), EverStored(config, stored, log, r), model)
  {
    hide FaithfulFor, Append, Skipped, Holds, PolicyOf;
    if PolicyOf(config, r.event.model).mode == Off {
      SkipKeepsFaithFor(log, coverage, committed, stored, r, model);
    } else if !Holds(log, r.event.id) {
      AppendKeepsFaithFor(log, coverage, committed, stored, r, model);
    }
  }

  lemma StoreKeepsFaith(config: Config, log: Log, coverage: Coverages, committed: Log, stored: Log, r: Row)
    requires Faithful(log, coverage, committed, stored)
    ensures Faithful(Stored(config, log, r), Noted(config, coverage, r), Happened(config, committed, log, r), EverStored(config, stored, log, r))
  {
    hide FaithfulFor;
    forall model ensures FaithfulFor(Stored(config, log, r), Noted(config, coverage, r), Happened(config, committed, log, r), EverStored(config, stored, log, r), model) {
      StoreKeepsFaithFor(config, log, coverage, committed, stored, r, model);
    }
  }

  // --- Batches ---

  // Marking and storing do not interfere, so a batch may do all of one and then all of the other.
  lemma {:induction false} StoredSplit(config: Config, log: Log, first: seq<Row>, rest: seq<Row>)
    ensures StoredAll(config, log, first + rest) == StoredAll(config, StoredAll(config, log, first), rest)
  {
    if rest == [] {
      assert first + rest == first;
    } else {
      var front := rest[..|rest| - 1];
      assert (first + rest)[..|first + rest| - 1] == first + front;
      StoredSplit(config, log, first, front);
    }
  }

  lemma NothingStored(config: Config, log: Log)
    ensures StoredAll(config, log, []) == log
  {
  }

  function Kept(config: Config, rows: seq<Row>): seq<Row> {
    if rows == [] then []
    else Kept(config, rows[..|rows| - 1]) + if PolicyOf(config, rows[|rows| - 1].event.model).mode == Off then [] else [rows[|rows| - 1]]
  }

  lemma {:induction false} KeptHaveHistory(config: Config, rows: seq<Row>)
    ensures forall r <- Kept(config, rows) :: PolicyOf(config, r.event.model).mode != Off
  {
    if rows != [] { KeptHaveHistory(config, rows[..|rows| - 1]); }
  }

  lemma {:induction false} StoredKept(config: Config, log: Log, rows: seq<Row>)
    ensures StoredAll(config, log, Kept(config, rows)) == StoredAll(config, log, rows)
  {
    if rows != [] {
      var front, r := rows[..|rows| - 1], rows[|rows| - 1];
      StoredKept(config, log, front);
      if PolicyOf(config, r.event.model).mode == Off {
        assert Kept(config, rows) == Kept(config, front);
      } else {
        assert Kept(config, rows)[..|Kept(config, rows)| - 1] == Kept(config, front);
      }
    }
  }

  function SkippedModels(config: Config, rows: seq<Row>): set<string> {
    if rows == [] then {}
    else
      var r := rows[|rows| - 1];
      SkippedModels(config, rows[..|rows| - 1]) + if PolicyOf(config, r.event.model).mode == Off then {r.event.model} else {}
  }

  lemma SkipTwice(coverage: Coverages, model: string, other: string)
    requires model in coverage && Skipped(coverage, model) == coverage
    ensures Skipped(Skipped(coverage, other), model) == Skipped(coverage, other)
  {
    assert coverage[model] == Skipped(coverage, model)[model];
  }

  // The models already marked in a batch need no second mark.
  lemma {:induction false} SkippedIsMarked(config: Config, coverage: Coverages, rows: seq<Row>, r: Row)
    requires r.event.model in SkippedModels(config, rows)
    ensures var c := NotedAll(config, coverage, rows); r.event.model in c && Skipped(c, r.event.model) == c
  {
    var front, last := rows[..|rows| - 1], rows[|rows| - 1];
    var c := NotedAll(config, coverage, front);
    if r.event.model in SkippedModels(config, front) {
      SkippedIsMarked(config, coverage, front, r);
      SkipTwice(c, r.event.model, last.event.model);
    } else {
      assert Skipped(Skipped(c, r.event.model), r.event.model) == Skipped(c, r.event.model);
    }
  }

  // --- Retention ---

  function Weight(rows: seq<Row>): nat { if rows == [] then 0 else rows[0].bytes + Weight(rows[1..]) }

  ghost predicate InOrder(rows: seq<Row>) { forall i, j :: 0 <= i < j < |rows| ==> rows[i].createdAt <= rows[j].createdAt }

  // Too old, or more than the byte limit has been kept once this one is counted, newest first.
  predicate Victim(p: Policy, rows: seq<Row>, i: nat, now: real)
    requires i < |rows|
  {
    (p.maxAge.Some? && now - rows[i].createdAt > p.maxAge.value as real) || (p.maxBytes.Some? && Weight(rows[i..]) > p.maxBytes.value)
  }

  // How many of the oldest rows are victims.
  function Overdue(p: Policy, rows: seq<Row>, now: real): (n: nat)
    ensures n <= |rows|
  {
    if rows == [] || !Victim(p, rows, 0, now) then 0 else 1 + Overdue(p, rows[1..], now)
  }

  ghost predicate WithinPolicy(p: Policy, rows: seq<Row>, now: real) {
    (p.maxAge.Some? ==> forall r <- rows :: now - r.createdAt <= p.maxAge.value as real) &&
    (p.maxBytes.Some? ==> Weight(rows) <= p.maxBytes.value)
  }

  lemma {:induction false} WeightShrinks(rows: seq<Row>, i: nat)
    requires i <= |rows|
    ensures Weight(rows[i..]) <= Weight(rows)
  {
    if i > 0 {
      WeightShrinks(rows[1..], i - 1);
      assert rows[1..][i - 1..] == rows[i..];
    }
  }

  lemma {:induction false} WeightAdds(a: seq<Row>, b: seq<Row>)
    ensures Weight(a + b) == Weight(a) + Weight(b) && forall r: Row :: Weight([r]) == r.bytes
  {
    if a == [] {
      assert a + b == b;
      assert forall r: Row :: [r][1..] == [];
    } else {
      assert (a + b)[1..] == a[1..] + b;
      WeightAdds(a[1..], b);
    }
  }

  lemma VictimsAreOldest(p: Policy, rows: seq<Row>, i: nat, j: nat, now: real)
    requires InOrder(rows) && i <= j < |rows| && Victim(p, rows, j, now)
    ensures Victim(p, rows, i, now)
  {
    WeightShrinks(rows[i..], j - i);
    assert rows[i..][j - i..] == rows[j..];
    assert i < j ==> rows[i].createdAt <= rows[j].createdAt;
  }

  // The rows selected for deletion, in whatever order they are examined, are the oldest ones.
  lemma {:induction false} VictimsArePrefix(p: Policy, rows: seq<Row>, i: nat, now: real)
    requires InOrder(rows) && i < |rows|
    ensures Victim(p, rows, i, now) <==> i < Overdue(p, rows, now)
  {
    if i == 0 {
    } else if Victim(p, rows, 0, now) {
      assert InOrder(rows[1..]);
      VictimsArePrefix(p, rows[1..], i - 1, now);
      assert rows[1..][i - 1..] == rows[i..];
    } else if Victim(p, rows, i, now) {
      VictimsAreOldest(p, rows, 0, i, now);
    }
  }

  lemma NoVictimsLeft(p: Policy, rows: seq<Row>, now: real)
    requires InOrder(rows)
    ensures Overdue(p, rows, now) == 0 <==> WithinPolicy(p, rows, now)
  {
    if rows != [] {
      assert rows[0..] == rows;
      forall r <- rows ensures r.createdAt >= rows[0].createdAt {
        var i :| 0 <= i < |rows| && rows[i] == r;
      }
      assert rows[0] in rows;
    }
  }

  lemma {:induction false} OverdueRest(p: Policy, rows: seq<Row>, n: nat, now: real)
    requires n <= Overdue(p, rows, now)
    ensures Overdue(p, rows[n..], now) == Overdue(p, rows, now) - n
  {
    if n == 0 {
      assert rows[0..] == rows;
    } else {
      OverdueRest(p, rows[1..], n - 1, now);
      assert rows[1..][n - 1..] == rows[n..];
    }
  }

  function Count(log: Log, models: seq<string>): nat {
    if models == [] then 0 else |Rows(log, models[0])| + Count(log, models[1..])
  }

  function Rotated<T>(s: seq<T>, start: nat): seq<T> {
    if s == [] then s else s[start % |s|..] + s[..start % |s|]
  }

  function Busy(log: Log): set<string> { set m | m in log && log[m] != [] }

  function EverStoredAll(config: Config, stored: Log, log: Log, rows: seq<Row>): Log {
    if rows == [] then stored
    else
      var front := rows[..|rows| - 1];
      EverStored(config, EverStoredAll(config, stored, log, front), StoredAll(config, log, front), rows[|rows| - 1])
  }

  lemma {:induction false} StoreAllKeepsFaith(config: Config, log: Log, coverage: Coverages, committed: Log, stored: Log, rows: seq<Row>)
    requires Faithful(log, coverage, committed, stored)
    ensures Faithful(StoredAll(config, log, rows), NotedAll(config, coverage, rows), HappenedAll(config, committed, log, rows),
                     EverStoredAll(config, stored, log, rows))
  {
    hide Faithful;
    if rows != [] {
      var front := rows[..|rows| - 1];
      StoreAllKeepsFaith(config, log, coverage, committed, stored, front);
      StoreKeepsFaith(config, StoredAll(config, log, front), NotedAll(config, coverage, front),
                      HappenedAll(config, committed, log, front), EverStoredAll(config, stored, log, front), rows[|rows| - 1]);
    }
  }

  // Nothing is stamped later than the clock, and each model's rows are in order.
  ghost predicate Stamped(log: Log, clock: real) {
    forall m :: StampedRows(Rows(log, m), clock)
  }

  ghost predicate StampedRows(rows: seq<Row>, clock: real) {
    InOrder(rows) && forall r <- rows :: r.createdAt <= clock
  }

  lemma StampedAppend(rows: seq<Row>, clock: real, r: Row)
    requires StampedRows(rows, clock) && clock <= r.createdAt
    ensures StampedRows(rows, r.createdAt) && StampedRows(rows + [r], r.createdAt)
  {
    assert forall i :: 0 <= i < |rows| ==> rows[i] in rows;
  }

  lemma AppendStamped(log: Log, clock: real, r: Row)
    requires Stamped(log, clock) && clock <= r.createdAt
    ensures Stamped(log, r.createdAt) && Stamped(Append(log, r), r.createdAt)
  {
    forall m ensures StampedRows(Rows(Append(log, r), m), r.createdAt) && StampedRows(Rows(log, m), r.createdAt) {
      AppendRows(log, r, m);
      StampedAppend(Rows(log, m), clock, r);
    }
  }

  lemma {:induction false} StoreAllStamped(config: Config, log: Log, clock: real, rows: seq<Row>, now: real)
    requires Stamped(log, clock) && clock <= now && forall r <- rows :: r.createdAt == now
    ensures Stamped(StoredAll(config, log, rows), now)
  {
    if rows != [] {
      var front, last := rows[..|rows| - 1], rows[|rows| - 1];
      assert last in rows && forall r <- front :: r in rows;
      StoreAllStamped(config, log, clock, front, now);
      AppendStamped(StoredAll(config, log, front), now, last);
    }
  }

  lemma DropStamped(log: Log, clock: real, model: string, n: nat)
    requires Stamped(log, clock) && n <= |Rows(log, model)|
    ensures Stamped(log[model := Rows(log, model)[n..]], clock)
  {
    var after := log[model := Rows(log, model)[n..]];
    forall m ensures StampedRows(Rows(after, m), clock) {
      assert StampedRows(Rows(log, m), clock);
    }
  }

  lemma DropKeepsFaith(log: Log, coverage: Coverages, committed: Log, stored: Log, model: string, n: nat)
    requires Faithful(log, coverage, committed, stored) && 0 < n <= |Rows(log, model)|
    ensures Faithful(log[model := Rows(log, model)[n..]], Shortened(coverage, model, n), committed, stored)
  {
    var log', coverage' := log[model := Rows(log, model)[n..]], Shortened(coverage, model, n);
    forall m ensures FaithfulFor(log', coverage', committed, stored, m) {
      assert FaithfulFor(log, coverage, committed, stored, m);
      if m == model {
        var k := Removed(coverage, m);
        assert Rows(stored, m)[k..][n..] == Rows(stored, m)[k + n..];
      }
    }
  }

  lemma ModeKeepsFaith(log: Log, coverage: Coverages, committed: Log, stored: Log, model: string, mode: Mode)
    requires Faithful(log, coverage, committed, stored)
    ensures Faithful(log, WithMode(coverage, model, mode), committed, stored)
  {
    forall m ensures FaithfulFor(log, WithMode(coverage, model, mode), committed, stored, m) {
      assert FaithfulFor(log, coverage, committed, stored, m);
    }
  }

  function Least(a: nat, b: nat): nat { if a <= b then a else b }

  function Dropped(log: Log, model: string, n: nat): Log
    requires n <= |Rows(log, model)|
  {
    if n == 0 then log else log[model := Rows(log, model)[n..]]
  }

  // A newest part of the model's rows is left, nothing but victims having gone, and only under retention.
  ghost predicate TrimmedRows(config: Config, before: Log, after: Log, m: string, now: real) {
    |Rows(after, m)| <= |Rows(before, m)| &&
    var n := |Rows(before, m)| - |Rows(after, m)|;
    Rows(after, m) == Rows(before, m)[n..] && n <= Overdue(PolicyOf(config, m), Rows(before, m), now) &&
    (PolicyOf(config, m).mode != Retained ==> n == 0)
  }

  ghost predicate Finished(config: Config, log: Log, m: string, now: real) {
    PolicyOf(config, m).mode == Retained ==> Overdue(PolicyOf(config, m), Rows(log, m), now) == 0
  }

  lemma AllTrimmed(config: Config, log: Log, now: real)
    ensures forall m :: TrimmedRows(config, log, log, m, now)
  {
  }

  lemma DropTwice<T>(s: seq<T>, k: nat, n: nat)
    requires k + n <= |s|
    ensures s[k..][n..] == s[k + n..]
  {
  }

  lemma DropOneTrimmed(config: Config, before: Log, log: Log, model: string, n: nat, now: real)
    requires TrimmedRows(config, before, log, model, now)
    requires PolicyOf(config, model).mode == Retained && n <= Overdue(PolicyOf(config, model), Rows(log, model), now)
    ensures TrimmedRows(config, before, Dropped(log, model, n), model, now)
  {
    hide Overdue;
    var rows, kept := Rows(before, model), Rows(log, model);
    var k := |rows| - |kept|;
    OverdueRest(PolicyOf(config, model), rows, k, now);
    DropTwice(rows, k, n);
    DroppedRows(log, model, n);
  }

  lemma DroppedRows(log: Log, model: string, n: nat)
    requires n <= |Rows(log, model)|
    ensures Rows(Dropped(log, model, n), model) == Rows(log, model)[n..]
  {
  }

  lemma DropOtherTrimmed(config: Config, before: Log, log: Log, model: string, n: nat, m: string, now: real)
    requires n <= |Rows(log, model)| && m != model && TrimmedRows(config, before, log, m, now)
    ensures TrimmedRows(config, before, Dropped(log, model, n), m, now)
  {
    assert Rows(Dropped(log, model, n), m) == Rows(log, m);
  }

  lemma DropKeepsTrimmed(config: Config, before: Log, log: Log, model: string, n: nat, now: real)
    requires forall m :: TrimmedRows(config, before, log, m, now)
    requires PolicyOf(config, model).mode == Retained && n <= Overdue(PolicyOf(config, model), Rows(log, model), now)
    ensures forall m :: TrimmedRows(config, before, Dropped(log, model, n), m, now)
  {
    hide TrimmedRows, Overdue;
    forall m ensures TrimmedRows(config, before, Dropped(log, model, n), m, now) {
      if m == model {
        DropOneTrimmed(config, before, log, model, n, now);
      } else {
        DropOtherTrimmed(config, before, log, model, n, m, now);
      }
    }
  }

  lemma {:induction false} CountSame(log: Log, after: Log, models: seq<string>)
    requires forall m <- models :: Rows(after, m) == Rows(log, m)
    ensures Count(after, models) == Count(log, models)
  {
    if models != [] { CountSame(log, after, models[1..]); }
  }

  lemma {:induction false} CountDrop(log: Log, models: seq<string>, i: nat, n: nat)
    requires NoDup(models) && i < |models| && n <= |Rows(log, models[i])|
    ensures n + Count(Dropped(log, models[i], n), models) == Count(log, models)
  {
    var after := Dropped(log, models[i], n);
    if i == 0 {
      forall m <- models[1..] ensures Rows(after, m) == Rows(log, m) {
        assert m != models[0];
      }
      CountSame(log, after, models[1..]);
    } else {
      assert NoDup(models[1..]) && models[1..][i - 1] == models[i];
      CountDrop(log, models[1..], i - 1, n);
      assert models[0] != models[i];
    }
  }

  lemma {:induction false} CountConcat(log: Log, a: seq<string>, b: seq<string>)
    ensures Count(log, a + b) == Count(log, a) + Count(log, b)
  {
    if a == [] {
      assert a + b == b;
    } else {
      CountConcat(log, a[1..], b);
      assert (a + b)[1..] == a[1..] + b;
    }
  }

  lemma CountRotated(log: Log, models: seq<string>, start: nat)
    requires models != []
    ensures Count(log, Rotated(models, start)) == Count(log, models)
  {
    var k := start % |models|;
    CountConcat(log, models[k..], models[..k]);
    CountConcat(log, models[..k], models[k..]);
    assert models[..k] + models[k..] == models;
  }

  lemma {:induction false} CountIdle(log: Log, models: seq<string>)
    requires forall m <- models :: Rows(log, m) == []
    ensures Count(log, models) == 0
  {
    if models != [] { CountIdle(log, models[1..]); }
  }

  function Without(b: seq<string>, j: nat): seq<string>
    requires j < |b|
  {
    b[..j] + b[j + 1..]
  }

  lemma WithoutOne(b: seq<string>, j: nat)
    requires NoDup(b) && j < |b|
    ensures NoDup(Without(b, j)) && forall m :: m in Without(b, j) <==> m in b && m != b[j]
  {
    var rest := Without(b, j);
    assert forall i :: 0 <= i < |rest| ==> rest[i] == b[if i < j then i else i + 1];
    forall m | m in b && m != b[j] ensures m in rest {
      var i :| 0 <= i < |b| && b[i] == m;
      assert rest[if i < j then i else i - 1] == m;
    }
  }

  lemma CountWithout(log: Log, b: seq<string>, j: nat)
    requires j < |b|
    ensures Count(log, b) == |Rows(log, b[j])| + Count(log, Without(b, j))
  {
    var tail := [b[j]] + b[j + 1..];
    assert b == b[..j] + tail && tail[1..] == b[j + 1..];
    CountConcat(log, b[..j], tail);
    CountConcat(log, b[..j], b[j + 1..]);
  }

  // Listings that agree on the models with rows count the same rows.
  lemma {:induction false} CountByListing(log: Log, a: seq<string>, b: seq<string>)
    requires NoDup(a) && NoDup(b) && forall m | Rows(log, m) != [] :: m in a <==> m in b
    ensures Count(log, a) == Count(log, b)
    decreases |a|
  {
    hide Without;
    if a == [] {
      forall m <- b ensures Rows(log, m) == [] {
      }
      CountIdle(log, b);
    } else {
      WithoutOne(a, 0);
      CountWithout(log, a, 0);
      assert Without(a, 0) == a[1..] by { WithoutFirst(a); }
      if a[0] in b {
        var j :| 0 <= j < |b| && b[j] == a[0];
        WithoutOne(b, j);
        CountWithout(log, b, j);
        CountByListing(log, a[1..], Without(b, j));
      } else {
        CountByListing(log, a[1..], b);
      }
    }
  }

  lemma WithoutFirst(a: seq<string>)
    requires a != []
    ensures Without(a, 0) == a[1..]
  {
  }

  // All rows of all models.
  function Size(log: Log): nat { Count(log, SortedNames(Busy(log))) }

  lemma SizeShrinks(before: Log, after: Log)
    requires Busy(after) <= Busy(before)
    ensures Size(after) == Count(after, SortedNames(Busy(before)))
  {
    ListingNoDup(SortedNames(Busy(before)), Busy(before));
    ListingNoDup(SortedNames(Busy(after)), Busy(after));
    CountByListing(after, SortedNames(Busy(after)), SortedNames(Busy(before)));
  }

  lemma TrimmedTransitive(config: Config, a: Log, b: Log, c: Log, m: string, now: real)
    requires TrimmedRows(config, a, b, m, now) && TrimmedRows(config, b, c, m, now)
    ensures TrimmedRows(config, a, c, m, now)
  {
    var k := |Rows(a, m)| - |Rows(b, m)|;
    var n := |Rows(b, m)| - |Rows(c, m)|;
    OverdueRest(PolicyOf(config, m), Rows(a, m), k, now);
    assert Rows(a, m)[k..][n..] == Rows(a, m)[k + n..];
  }

  lemma RotatedListing(models: seq<string>, start: nat, names: set<string>)
    requires models != [] && IsListing(models, names)
    ensures IsListing(Rotated(models, start), names) && NoDup(Rotated(models, start))
  {
    var k := start % |models|;
    var turned := Rotated(models, start);
    assert models == models[..k] + models[k..];
    forall m <- names ensures m in turned {
      assert m in models[..k] || m in models[k..];
    }
    ListingNoDup(turned, names);
  }

  lemma DropFinishes(config: Config, log: Log, models: seq<string>, i: nat, n: nat, now: real)
    requires NoDup(models) && i < |models|
    requires n <= Overdue(PolicyOf(config, models[i]), Rows(log, models[i]), now)
    ensures var after := Dropped(log, models[i], n);
            (n == Overdue(PolicyOf(config, models[i]), Rows(log, models[i]), now) ==> Finished(config, after, models[i], now)) &&
            (forall j :: 0 <= j < |models| && j != i ==> Rows(after, models[j]) == Rows(log, models[j])) &&
            (forall j :: 0 <= j < i && Finished(config, log, models[j], now) ==> Finished(config, after, models[j], now))
  {
    OverdueRest(PolicyOf(config, models[i]), Rows(log, models[i]), n, now);
    var rows := Rows(log, models[i]);
    assert rows[0..] == rows;
    forall j | 0 <= j < |models| && j != i ensures models[j] != models[i] {
    }
  }

  lemma TrimmedIsNoBusier(config: Config, before: Log, after: Log, now: real)
    requires forall m :: TrimmedRows(config, before, after, m, now)
    ensures Busy(after) <= Busy(before)
  {
    forall m <- Busy(after) ensures m in Busy(before) {
      assert TrimmedRows(config, before, after, m, now);
    }
  }

  lemma FinishedIsWithin(config: Config, log: Log, clock: real, now: real)
    requires Stamped(log, clock) && forall m :: Finished(config, log, m, now)
    ensures forall m :: PolicyOf(config, m).mode == Retained ==> WithinPolicy(PolicyOf(config, m), Rows(log, m), now)
  {
    forall m | PolicyOf(config, m).mode == Retained ensures WithinPolicy(PolicyOf(config, m), Rows(log, m), now) {
      assert StampedRows(Rows(log, m), clock) && Finished(config, log, m, now);
      NoVictimsLeft(PolicyOf(config, m), Rows(log, m), now);
    }
  }

  lemma EveryoneFinished(config: Config, before: Log, log: Log, models: seq<string>, now: real)
    requires IsListing(models, Busy(before)) && forall j :: 0 <= j < |models| ==> Finished(config, log, models[j], now)
    requires forall m :: TrimmedRows(config, before, log, m, now)
    ensures forall m :: Finished(config, log, m, now)
  {
    forall m ensures Finished(config, log, m, now) {
      if m in Busy(before) {
        assert m in models;
      } else {
        assert TrimmedRows(config, before, log, m, now);
        assert Rows(before, m) == [];
      }
    }
  }

  // --- Which policy governs ---

  // A model that is listed is governed by its own policy, any other by the fallback.
  ghost predicate SameAt(a: Config, b: Config, model: string) {
    (model in a.models <==> model in b.models) &&
    (if model in a.models then model in b.models && a.models[model] == b.models[model] else a.fallback == b.fallback)
  }

  // Whatever else is configured, two configurations that agree on a model treat it alike.
  lemma PoliciesAreLocal(a: Config, b: Config, log: Log, coverage: Coverages, r: Row, before: Log, after: Log, now: real)
    requires SameAt(a, b, r.event.model)
    ensures Stored(a, log, r) == Stored(b, log, r) && Noted(a, coverage, r) == Noted(b, coverage, r)
    ensures TrimmedRows(a, before, after, r.event.model, now) <==> TrimmedRows(b, before, after, r.event.model, now)
  {
  }

  lemma GoverningPolicy(config: Config, model: string)
    ensures PolicyOf(config, model) == if model in config.models then config.models[model] else config.fallback
  {
  }

  lemma {:induction false} StoredRowsOf(config: Config, log: Log, rows: seq<Row>, model: string)
    requires PolicyOf(config, model).mode == Off
    ensures Rows(StoredAll(config, log, rows), model) == Rows(log, model)
  {
    if rows != [] {
      StoredRowsOf(config, log, rows[..|rows| - 1], model);
      AppendRows(StoredAll(config, log, rows[..|rows| - 1]), rows[|rows| - 1], model);
    }
  }

  lemma {:induction false} StoredAreHeld(config: Config, log: Log, rows: seq<Row>, r: Row)
    requires r in rows && PolicyOf(config, r.event.model).mode != Off
    ensures Holds(StoredAll(config, log, rows), r.event.id)
  {
    var front, last := rows[..|rows| - 1], rows[|rows| - 1];
    if r in front {
      StoredAreHeld(config, log, front, r);
      HeldStays(config, StoredAll(config, log, front), last, r.event.id);
    } else {
      StoredIsHeld(config, StoredAll(config, log, front), r);
    }
  }

  lemma StoredIsHeld(config: Config, log: Log, r: Row)
    requires PolicyOf(config, r.event.model).mode != Off
    ensures Holds(Stored(config, log, r), r.event.id)
  {
    var after := Append(log, r);
    assert r in after[r.event.model];
  }

  lemma HeldStays(config: Config, log: Log, r: Row, id: string)
    requires Holds(log, id)
    ensures Holds(Stored(config, log, r), id)
  {
    var m :| m in log && exists x <- log[m] :: x.event.id == id;
    var x :| x in log[m] && x.event.id == id;
    assert x in Append(log, r)[m];
  }

  lemma {:induction false} NotedOf(config: Config, coverage: Coverages, rows: seq<Row>, model: string)
    ensures PolicyOf(config, model).mode != Off ==>
              Removed(NotedAll(config, coverage, rows), model) == Removed(coverage, model) &&
              (model in NotedAll(config, coverage, rows) <==> model in coverage) &&
              (model in coverage ==> NotedAll(config, coverage, rows)[model] == coverage[model])
    ensures PolicyOf(config, model).mode == Off && (exists r <- rows :: r.event.model == model) ==>
              Incomplete(NotedAll(config, coverage, rows), model)
  {
    if rows != [] {
      var front, last := rows[..|rows| - 1], rows[|rows| - 1];
      NotedOf(config, coverage, front, model);
      if PolicyOf(config, model).mode == Off && exists r <- rows :: r.event.model == model {
        var r :| r in rows && r.event.model == model;
        assert r in front || r == last;
      }
    }
  }

  // By each row's model's own policy, or the fallback: switched off, nothing is stored and the history is marked;
  // otherwise the event is there and the history as whole as it was.
  ghost predicate KeptByPolicy(config: Config, log: Log, coverage: Coverages, after: Log, marked: Coverages, rows: seq<Row>) {
    forall r <- rows ::
      var m := r.event.model;
      if (if m in config.models then config.models[m].mode else config.fallback.mode) == Off
      then Rows(after, m) == Rows(log, m) && Incomplete(marked, m)
      else Holds(after, r.event.id) && (Complete(marked, m) <==> Complete(coverage, m))
  }

  lemma BatchByPolicy(config: Config, log: Log, coverage: Coverages, rows: seq<Row>)
    ensures KeptByPolicy(config, log, coverage, StoredAll(config, log, rows), NotedAll(config, coverage, rows), rows)
  {
    hide StoredAll, NotedAll, Holds, Rows;
    forall r <- rows
      ensures var m := r.event.model;
              if (if m in config.models then config.models[m].mode else config.fallback.mode) == Off
              then Rows(StoredAll(config, log, rows), m) == Rows(log, m) && Incomplete(NotedAll(config, coverage, rows), m)
              else Holds(StoredAll(config, log, rows), r.event.id) && (Complete(NotedAll(config, coverage, rows), m) <==> Complete(coverage, m)) {
      NotedOf(config, coverage, rows, r.event.model);
      if PolicyOf(config, r.event.model).mode == Off {
        StoredRowsOf(config, log, rows, r.event.model);
      } else {
        StoredAreHeld(config, log, rows, r);
      }
    }
  }

  lemma {:induction false} ModesOf(config: Config, coverage: Coverages, models: seq<string>, model: string)
    ensures var after := ModesSet(config, coverage, models);
            if model in models then
              model in after && after[model].mode == PolicyOf(config, model).mode &&
              (after[model].complete <==> Complete(coverage, model)) && Removed(after, model) == Removed(coverage, model)
            else (model in after <==> model in coverage) && (model in coverage ==> after[model] == coverage[model])
  {
    if models != [] {
      var front, last := models[..|models| - 1], models[|models| - 1];
      ModesOf(config, coverage, front, model);
      assert model in models <==> model in front || model == last;
    }
  }

  // A model whose own policy - or the fallback, if it has none - keeps the full history can be rebuilt from the
  // moment it is first initialized, whatever is written, as long as retention leaves it alone.
  lemma FullHistoryMayBeRebuilt(config: Config, coverage: Coverages, models: seq<string>, rows: seq<Row>, model: string)
    requires model in models && (if model in config.models then config.models[model].mode else config.fallback.mode) == Full
    requires model in coverage ==> coverage[model].complete
    ensures MayRebuild(NotedAll(config, ModesSet(config, coverage, models), rows), model)
  {
    ModesOf(config, coverage, models, model);
    NotedOf(config, ModesSet(config, coverage, models), rows, model);
  }

  // Of any other kind, or with an event skipped, it cannot.
  lemma OtherHistoryMayNot(config: Config, coverage: Coverages, models: seq<string>, model: string)
    requires model in models && (if model in config.models then config.models[model].mode else config.fallback.mode) != Full
    ensures !MayRebuild(ModesSet(config, coverage, models), model)
  {
    ModesOf(config, coverage, models, model);
  }

  // By the models' own policies and the fallback: what is not retained loses nothing, and once a pass is done
  // what is retained is within its limits.
  ghost predicate PrunedByPolicy(config: Config, before: Log, after: Log, now: real, done: bool) {
    (forall m <- config.models :: if config.models[m].mode == Retained then done ==> WithinPolicy(config.models[m], Rows(after, m), now)
                                  else Rows(after, m) == Rows(before, m)) &&
    (forall m :: m !in config.models ==> if config.fallback.mode == Retained then done ==> WithinPolicy(config.fallback, Rows(after, m), now)
                                         else Rows(after, m) == Rows(before, m))
  }

  lemma TrimmedByPolicy(config: Config, before: Log, after: Log, now: real, done: bool)
    requires forall m :: TrimmedRows(config, before, after, m, now)
    requires done ==> forall m :: PolicyOf(config, m).mode == Retained ==> WithinPolicy(PolicyOf(config, m), Rows(after, m), now)
    ensures PrunedByPolicy(config, before, after, now, done)
  {
    hide WithinPolicy;
    forall m | (if m in config.models then config.models[m].mode else config.fallback.mode) != Retained ensures Rows(after, m) == Rows(before, m) {
      assert TrimmedRows(config, before, after, m, now);
    }
    forall m | done && (if m in config.models then config.models[m].mode else config.fallback.mode) == Retained
      ensures WithinPolicy(if m in config.models then config.models[m] else config.fallback, Rows(after, m), now) {
      assert PolicyOf(config, m).mode == Retained;
    }
  }

  // A retained model loses its oldest victims, up to the whole batch.
  ghost predicate ServedFirst(config: Config, before: Log, after: Log, model: string, now: real) {
    PolicyOf(config, model).mode == Retained ==>
      var due := Overdue(PolicyOf(config, model), Rows(before, model), now);
      Rows(after, model) == Rows(before, model)[if due <= config.batchSize then due else config.batchSize..]
  }

  lemma NotServed(config: Config, log: Log, model: string, now: real)
    requires PolicyOf(config, model).mode != Retained
    ensures ServedFirst(config, log, log, model, now)
  {
  }

  lemma NowServed(config: Config, log: Log, model: string, now: real)
    ensures var n := Least(Overdue(PolicyOf(config, model), Rows(log, model), now), config.batchSize);
            ServedFirst(config, log, Dropped(log, model, n), model, now)
  {
  }

  lemma StillServed(config: Config, before: Log, log: Log, first: string, model: string, n: nat, now: real)
    requires ServedFirst(config, before, log, first, now) && model != first && n <= |Rows(log, model)|
    ensures ServedFirst(config, before, Dropped(log, model, n), first, now)
  {
  }

  lemma NothingAllowed(config: Config, log: Log, model: string, now: real)
    requires config.batchSize == 0
    ensures ServedFirst(config, log, log, model, now)
  {
  }

  // The turn of each of n models comes within n passes.
  lemma TurnComes(start: nat, n: nat, j: nat) returns (k: nat)
    requires j < n
    ensures k < n && (start + k) % n == j
  {
    var r := start % n;
    k := if j >= r then j - r else j + n - r;
    var q := start / n;
    assert start == q * n + r;
    if j >= r { Remainder(q, n, j); } else { Remainder(q + 1, n, j); }
  }

  lemma Remainder(q: nat, n: nat, j: nat)
    requires j < n
    ensures (q * n + j) % n == j
  {
    var x := q * n + j;
    var p, r := x / n, x % n;
    assert x == p * n + r;
    Apart(q, p, n);
  }

  lemma Apart(q: nat, p: nat, n: nat)
    ensures q > p ==> q * n >= p * n + n
    ensures q < p ==> p * n >= q * n + n
  {
    if q > p {
      Multiples(p, q - p, n);
      assert p + (q - p) == q;
    }
    if q < p {
      Multiples(q, p - q, n);
      assert q + (p - q) == p;
    }
  }

  lemma Multiples(a: nat, d: nat, n: nat)
    requires d > 0
    ensures (a + d) * n >= a * n + n
  {
    assert (a + d) * n == a * n + d * n;
    AtLeastOnce(d, n);
  }

  lemma AtLeastOnce(d: nat, n: nat)
    requires d > 0
    ensures d * n >= n
  {
  }

  // --- Each event once ---

  ghost predicate EachOnce(log: Log) {
    (forall m <- log, n <- log, i, j :: 0 <= i < |log[m]| && 0 <= j < |log[n]| && log[m][i].event.id == log[n][j].event.id ==> m == n && i == j)
  }

  // An event recorded again under its id is not stored again, whichever model it names.
  lemma StoredStaysOnce(config: Config, log: Log, r: Row)
    requires EachOnce(log)
    ensures EachOnce(Stored(config, log, r)) && Stored(config, Stored(config, log, r), r) == Stored(config, log, r)
  {
    if PolicyOf(config, r.event.model).mode != Off {
      StoredIsHeld(config, log, r);
      if !Holds(log, r.event.id) { AppendStaysOnce(log, r); }
    }
  }

  lemma AppendStaysOnce(log: Log, r: Row)
    requires EachOnce(log) && !Holds(log, r.event.id)
    ensures EachOnce(Append(log, r))
  {
    assert forall m <- log, i :: 0 <= i < |log[m]| ==> log[m][i] in log[m];
  }

  lemma DropStaysOnce(log: Log, model: string, n: nat)
    requires EachOnce(log) && n <= |Rows(log, model)|
    ensures EachOnce(Dropped(log, model, n))
  {
  }

  // --- The database and the stores opened on it ---

  class Database {
    var log: Log
    var coverage: Coverages
    ghost var committed: Log
    ghost var stored: Log
    ghost var clock: real

    ghost predicate Valid()
      reads this
    {
      Faithful(log, coverage, committed, stored)
    }

    // Rows were stamped in the order they were committed, none later than the clock.
    ghost predicate Timely()
      reads `log, `clock
    {
      Stamped(log, clock)
    }

    constructor ()
      ensures Valid() && Timely() && log == map[] && coverage == map[] && committed == map[]
    {
      log, coverage, committed, stored, clock := map[], map[], map[], map[], 0.0;
    }
  }

  function ModesSet(config: Config, coverage: Coverages, models: seq<string>): Coverages {
    if models == [] then coverage
    else
      var model := models[|models| - 1];
      WithMode(ModesSet(config, coverage, models[..|models| - 1]), model, PolicyOf(config, model).mode)
  }

  class EventStore {
    const config: Config
    const db: Database
    var cursor: nat

    constructor (db: Database, config: Config)
      requires ValidConfig(config)
      ensures this.db == db && this.config == config && cursor == 0
    {
      this.db := db;
      this.config := config;
      cursor := 0;
    }

    static method WithConfig(db: Database, config: Config) returns (store: EventStore?)
      ensures store != null <==> ValidConfig(config)
      ensures store != null ==> fresh(store) && store.db == db && store.config == config
    {
      if ValidConfig(config) {
        store := new EventStore(db, config);
      } else {
        store := null;
      }
    }

    method InitializeModels(models: seq<string>)
      requires db.Valid()
      modifies db`coverage
      ensures db.Valid() && db.coverage == ModesSet(config, old(db.coverage), models)
      ensures forall m <- models :: m in db.coverage && (Complete(db.coverage, m) <==> Complete(old(db.coverage), m)) &&
                db.coverage[m].mode == if m in config.models then config.models[m].mode else config.fallback.mode
    {
      for i := 0 to |models|
        invariant db.Valid() && db.coverage == ModesSet(config, old(db.coverage), models[..i])
      {
        assert models[..i + 1][..i] == models[..i];
        ModeKeepsFaith(db.log, db.coverage, db.committed, db.stored, models[i], PolicyOf(config, models[i]).mode);
        db.coverage := WithMode(db.coverage, models[i], PolicyOf(config, models[i]).mode);
      }
      assert models[..|models|] == models;
      forall m <- models ensures m in db.coverage && (Complete(db.coverage, m) <==> Complete(old(db.coverage), m)) &&
        db.coverage[m].mode == if m in config.models then config.models[m].mode else config.fallback.mode {
        ModesOf(config, old(db.coverage), models, m);
      }
    }

    method PersistIn(r: Row)
      requires db.Valid()
      modifies db
      ensures old(db.Timely() && db.clock <= r.createdAt) ==> db.Timely()
      ensures db.Valid() && db.log == Stored(config, old(db.log), r) && db.coverage == Noted(config, old(db.coverage), r)
      ensures db.committed == Happened(config, old(db.committed), old(db.log), r) && db.clock == r.createdAt
      ensures var m := r.event.model;
              if (if m in config.models then config.models[m].mode else config.fallback.mode) == Off
              then db.log == old(db.log) && Incomplete(db.coverage, m)
              else db.coverage == old(db.coverage) && Rows(db.log, m) == Rows(old(db.log), m) + if Holds(old(db.log), r.event.id) then [] else [r]
    {
      StoreKeepsFaith(config, db.log, db.coverage, db.committed, db.stored, r);
      if db.Timely() && db.clock <= r.createdAt { AppendStamped(db.log, db.clock, r); }
      db.committed := Happened(config, db.committed, db.log, r);
      db.stored := EverStored(config, db.stored, db.log, r);
      db.clock := r.createdAt;
      if PolicyOf(config, r.event.model).mode == Off {
        db.coverage := Skipped(db.coverage, r.event.model);
        return;
      }
      if !Holds(db.log, r.event.id) {
        db.log := Append(db.log, r);
      }
    }

    // A batch: each model without history is marked once, then the rest is stored chunk by chunk.
    method PersistManyIn(rows: seq<Row>, now: real)
      requires db.Valid()
      modifies db
      ensures old(db.Timely() && db.clock <= now) && (forall r <- rows :: r.createdAt == now) ==> db.Timely()
      ensures db.Valid() && db.log == StoredAll(config, old(db.log), rows) && db.coverage == NotedAll(config, old(db.coverage), rows)
      ensures db.committed == HappenedAll(config, old(db.committed), old(db.log), rows) && db.clock == now
      ensures KeptByPolicy(config, old(db.log), old(db.coverage), db.log, db.coverage, rows)
    {
      hide KeptByPolicy, Holds, Rows, PolicyOf, Skipped;
      StoreAllKeepsFaith(config, db.log, db.coverage, db.committed, db.stored, rows);
      if db.Timely() && db.clock <= now && forall r <- rows :: r.createdAt == now {
        StoreAllStamped(config, db.log, db.clock, rows, now);
      }
      ghost var committed := HappenedAll(config, db.committed, db.log, rows);
      ghost var ever := EverStoredAll(config, db.stored, db.log, rows);
      var kept := MarkSkipped(rows);
      KeptHaveHistory(config, rows);
      StoreChunks(kept);
      StoredKept(config, old(db.log), rows);
      db.committed, db.stored, db.clock := committed, ever, now;
      BatchByPolicy(config, old(db.log), old(db.coverage), rows);
    }

    method MarkSkipped(rows: seq<Row>) returns (kept: seq<Row>)
      modifies db`coverage
      ensures kept == Kept(config, rows) && db.coverage == NotedAll(config, old(db.coverage), rows)
    {
      kept := [];
      var skipped: set<string> := {};
      for i := 0 to |rows|
        invariant kept == Kept(config, rows[..i]) && db.coverage == NotedAll(config, old(db.coverage), rows[..i])
        invariant skipped == SkippedModels(config, rows[..i])
      {
        assert rows[..i + 1][..i] == rows[..i] && rows[..i + 1][i] == rows[i];
        var r := rows[i];
        if PolicyOf(config, r.event.model).mode == Off {
          if r.event.model !in skipped {
            skipped := skipped + {r.event.model};
            db.coverage := Skipped(db.coverage, r.event.model);
          } else {
            SkippedIsMarked(config, old(db.coverage), rows[..i], r);
          }
        } else {
          kept := kept + [r];
        }
      }
      assert rows[..|rows|] == rows;
    }

    method StoreChunks(kept: seq<Row>)
      requires forall r <- kept :: PolicyOf(config, r.event.model).mode != Off
      modifies db`log
      ensures db.log == StoredAll(config, old(db.log), kept)
    {
      hide PolicyOf, StoredAll;
      NothingStored(config, db.log);
      assert kept[..0] == [];
      var start := 0;
      while start < |kept|
        invariant 0 <= start <= |kept| && db.log == StoredAll(config, old(db.log), kept[..start])
      {
        var end := if start + CHUNK <= |kept| then start + CHUNK else |kept|;
        var chunk := kept[start..end];
        forall r <- chunk ensures PolicyOf(config, r.event.model).mode != Off {
          assert r in kept;
        }
        StoredSplit(config, old(db.log), kept[..start], chunk);
        assert kept[..start] + chunk == kept[..end];
        InsertRows(chunk);
        start := end;
      }
      assert kept[..|kept|] == kept;
    }

    // One multi-row insert; a row whose event id is already there is passed over.
    method InsertRows(chunk: seq<Row>)
      requires forall r <- chunk :: PolicyOf(config, r.event.model).mode != Off
      modifies db`log
      ensures db.log == StoredAll(config, old(db.log), chunk)
    {
      for i := 0 to |chunk|
        invariant db.log == StoredAll(config, old(db.log), chunk[..i])
      {
        assert chunk[..i + 1][..i] == chunk[..i];
        if !Holds(db.log, chunk[i].event.id) {
          db.log := Append(db.log, chunk[i]);
        }
      }
      assert chunk[..|chunk|] == chunk;
    }

    // A model's events, all of them or those since a time, by the times their writers gave them; only when
    // the log still holds every one ever committed.
    method Replay(model: string, since: Option<string>) returns (rows: Option<seq<Row>>)
      requires db.Valid()
      ensures rows.Some? <==>
                (if model in config.models then config.models[model].mode else config.fallback.mode) == Full && MayRebuild(db.coverage, model)
      ensures rows.Some? ==>
                Rows(db.log, model) == Rows(db.committed, model) &&
                IsRead(From(Rows(db.committed, model), since), rows.value, TimeLe)
    {
      if PolicyOf(config, model).mode != Full || (model in db.coverage && (db.coverage[model].mode != Full || !db.coverage[model].complete)) {
        return None;
      }
      assert FaithfulFor(db.log, db.coverage, db.committed, db.stored, model);
      OrdersRank();
      OrderedIsRead(From(Rows(db.log, model), since), TimeLe);
      return Some(Ordered(From(Rows(db.log, model), since), TimeLe));
    }

    // One model's share of a pass: its oldest victims, at most as many as remain allowed.
    method MaintainModel(model: string, remaining: nat, now: real) returns (deleted: nat)
      requires db.Valid() && db.Timely()
      modifies db`log, db`coverage
      ensures db.Valid() && db.Timely() && deleted == Least(Overdue(PolicyOf(config, model), Rows(old(db.log), model), now), remaining)
      ensures db.log == Dropped(old(db.log), model, deleted)
      ensures db.coverage == if deleted == 0 then old(db.coverage) else Shortened(old(db.coverage), model, deleted)
    {
      var rows := Rows(db.log, model);
      deleted := Least(Overdue(PolicyOf(config, model), rows, now), remaining);
      if deleted > 0 {
        DropKeepsFaith(db.log, db.coverage, db.committed, db.stored, model, deleted);
        DropStamped(db.log, db.clock, model, deleted);
        db.log := db.log[model := rows[deleted..]];
        db.coverage := Shortened(db.coverage, model, deleted);
      }
    }

    // One pass over all models, starting at a different one each time.
    method Maintain(now: real) returns (removed: nat)
      requires db.Valid() && db.Timely()
      modifies this`cursor, db`log, db`coverage
      ensures db.Valid() && db.Timely() && removed <= config.batchSize
      ensures forall m :: TrimmedRows(config, old(db.log), db.log, m, now)
      ensures removed + Size(db.log) == Size(old(db.log))
      ensures removed < config.batchSize ==>
                forall m :: PolicyOf(config, m).mode == Retained ==> WithinPolicy(PolicyOf(config, m), Rows(db.log, m), now)
      ensures PrunedByPolicy(config, old(db.log), db.log, now, removed < config.batchSize)
      ensures var names := SortedNames(Busy(old(db.log)));
              names != [] && (config.fallback.mode == Retained || exists m <- config.models :: config.models[m].mode == Retained) ==>
                cursor == old(cursor) + 1 && ServedFirst(config, old(db.log), db.log, names[old(cursor) % |names|], now)
    {
      hide Count, Overdue, TrimmedRows, Finished, Faithful, Stamped, WithinPolicy, Busy, PrunedByPolicy, ServedFirst;
      ghost var before := db.log;
      if config.fallback.mode != Retained && forall m <- config.models :: config.models[m].mode != Retained {
        AllTrimmed(config, before, now);
        TrimmedByPolicy(config, before, db.log, now, 0 < config.batchSize);
        return 0;
      }
      var models := SortedNames(Busy(db.log));
      ghost var names := models;
      if |models| > 0 {
        RotatedListing(models, cursor, Busy(before));
        models := Rotated(models, cursor);
        CountRotated(before, names, cursor);
        cursor := cursor + 1;
      }
      removed := PassOver(models, now);
      if removed < config.batchSize {
        EveryoneFinished(config, before, db.log, models, now);
        FinishedIsWithin(config, db.log, db.clock, now);
      }
      if |models| > 0 { CountRotated(db.log, names, old(cursor)); }
      TrimmedIsNoBusier(config, before, db.log, now);
      SizeShrinks(before, db.log);
      TrimmedByPolicy(config, before, db.log, now, removed < config.batchSize);
    }

    // Passes at a fixed time until one finds nothing to remove.
    method MaintainUntilIdle(now: real)
      requires db.Valid() && db.Timely() && config.batchSize > 0
      modifies this`cursor, db`log, db`coverage
      ensures db.Valid() && db.Timely() && forall m :: TrimmedRows(config, old(db.log), db.log, m, now)
      ensures forall m :: PolicyOf(config, m).mode == Retained ==> WithinPolicy(PolicyOf(config, m), Rows(db.log, m), now)
      ensures PrunedByPolicy(config, old(db.log), db.log, now, true)
    {
      hide Size, TrimmedRows, Faithful, Stamped, WithinPolicy, PolicyOf, PrunedByPolicy;
      var removed := Maintain(now);
      while removed > 0
        invariant db.Valid() && db.Timely() && forall m :: TrimmedRows(config, old(db.log), db.log, m, now)
        invariant removed == 0 ==>
                    forall m :: PolicyOf(config, m).mode == Retained ==> WithinPolicy(PolicyOf(config, m), Rows(db.log, m), now)
        decreases Size(db.log), removed
      {
        ghost var before := db.log;
        removed := Maintain(now);
        forall m ensures TrimmedRows(config, old(db.log), db.log, m, now) {
          TrimmedTransitive(config, old(db.log), before, db.log, m, now);
        }
      }
      TrimmedByPolicy(config, old(db.log), db.log, now, true);
    }

    method PassOver(models: seq<string>, now: real) returns (removed: nat)
      requires db.Valid() && db.Timely() && NoDup(models)
      modifies db`log, db`coverage
      ensures db.Valid() && db.Timely() && removed <= config.batchSize
      ensures forall m :: TrimmedRows(config, old(db.log), db.log, m, now)
      ensures removed + Count(db.log, models) == Count(old(db.log), models)
      ensures removed < config.batchSize ==> forall j :: 0 <= j < |models| ==> Finished(config, db.log, models[j], now)
      ensures models != [] ==> ServedFirst(config, old(db.log), db.log, models[0], now)
    {
      hide Count, Overdue, TrimmedRows, Faithful, Stamped, ServedFirst;
      ghost var before := db.log;
      AllTrimmed(config, before, now);
      removed := 0;
      var remaining := config.batchSize;
      var i := 0;
      while i < |models| && remaining != 0
        invariant 0 <= i <= |models| && db.Valid() && db.Timely() && removed + remaining == config.batchSize
        invariant forall m :: TrimmedRows(config, before, db.log, m, now)
        invariant remaining != 0 ==> forall j :: 0 <= j < i ==> Finished(config, db.log, models[j], now)
        invariant removed + Count(db.log, models) == Count(before, models)
        invariant i == 0 ==> db.log == before
        invariant i > 0 ==> ServedFirst(config, before, db.log, models[0], now)
      {
        ghost var log := db.log;
        if i == 0 && PolicyOf(config, models[0]).mode != Retained { NotServed(config, before, models[0], now); }
        if PolicyOf(config, models[i]).mode == Retained {
          var deleted := MaintainModel(models[i], remaining, now);
          DropKeepsTrimmed(config, before, log, models[i], deleted, now);
          CountDrop(log, models, i, deleted);
          DropFinishes(config, log, models, i, deleted, now);
          if i == 0 { NowServed(config, before, models[0], now); } else { StillServed(config, before, log, models[0], models[i], deleted, now); }
          remaining := remaining - deleted;
          removed := removed + deleted;
        }
        i := i + 1;
      }
      if config.batchSize == 0 && models != [] { NothingAllowed(config, before, models[0], now); }
    }
  }
}