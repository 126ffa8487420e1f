// Readers and writers sharing one cache and one database, interleaved step by step. A reader captures
// the generation, looks under the lock, reads the database and fills under the lock; a writer commits,
// advances the generation without the lock, clears under it and acknowledges. Anyone can be cancelled.
module CacheProtocol {
  import opened Wrappers
  import opened ReadCaching

  datatype Reader =
    | Started(key: string, generation: nat, since: nat)
    | Missed(key: string, generation: nat, since: nat)
    | Fetched(key: string, generation: nat, since: nat, data: Doc, readAt: nat)
    | Filling(key: string, generation: nat, since: nat, data: Doc, readAt: nat)
    | Answered(key: string, since: nat, data: Doc, at: Time, hit: bool)

  datatype Writer = Committed(version: nat) | Bumped(version: nat) | Cleared(version: nat)

  datatype Receipt = Receipt(version: nat, at: Time)

  // What every query answers in every version of the database.
  type Database = (nat, string) -> Doc

  // The database is its latest version. Three fields only record what happened: floors[g] is the newest
  // version whose writer had advanced the generation by the time it was g, origins the version each
  // entry was read from, receipts the writes acknowledged. A reader's since is the floor it started at.
  datatype State = State(version: nat, generation: nat, entries: Entries, lock: Option<nat>, now: Time,
                         readers: map<nat, Reader>, writers: map<nat, Writer>,
                         floors: seq<nat>, origins: map<string, nat>, receipts: set<Receipt>)

  const START := State(0, 0, map[], None, 0.0, map[], map[], [0], map[], {})

  datatype Step =
    | Tick(time: Time)
    | Commit(w: nat)
    | Bump(w: nat)
    | Clear(w: nat)
    | Acknowledge(w: nat)
    | Abandon(w: nat)
    | Start(r: nat, key: string)
    | Look(r: nat)
    | Fetch(r: nat)
    | Check(r: nat)
    | Insert(r: nat, after: Entries, reclaimed: Time)
    | Cancel(r: nat)
    | Evict(keys: set<string>)

  function Max(a: nat, b: nat): nat { if a <= b then b else a }

  ghost predicate Can(config: Config, s: State, step: Step) {
    match step
    case Tick(time) => s.now <= time
    case Commit(w) => w !in s.writers
    case Bump(w) => w in s.writers && s.writers[w].Committed? && s.generation < |s.floors|
    case Clear(w) => w in s.writers && s.writers[w].Bumped? && s.lock == None
    case Acknowledge(w) => w in s.writers && s.writers[w].Cleared?
    case Abandon(w) => w in s.writers
    case Start(r, key) => r !in s.readers && s.generation < |s.floors|
    case Look(r) => r in s.readers && s.readers[r].Started? && s.lock == None
    case Fetch(r) => r in s.readers && s.readers[r].Missed?
    case Check(r) => r in s.readers && s.readers[r].Fetched? && s.lock == None
    case Insert(r, after, reclaimed) =>
      r in s.readers && s.readers[r].Filling? && s.lock == Some(r) &&
      Filled(config, s.entries, after, s.readers[r].key, EntryOf(config, s, s.readers[r]), reclaimed)
    case Cancel(r) => r in s.readers
    case Evict(keys) => s.lock == None
  }

  function EntryOf(config: Config, s: State, reader: Reader): Entry
    requires reader.Filling?
  {
    FreshEntry(config, reader.key, reader.data, reader.generation, s.now)
  }

  function Looked(config: Config, s: State, reader: Reader): Reader
    requires reader.Started?
  {
    if Answers(config, s.generation, s.entries, reader.key, s.now)
    then Answered(reader.key, reader.since, s.entries[reader.key].data, s.now, true)
    else Missed(reader.key, reader.generation, reader.since)
  }

  // Whether a checked reader goes on to fill; otherwise its answer is all it keeps.
  predicate WillFill(config: Config, s: State, reader: Reader)
    requires reader.Fetched?
  {
    reader.generation == s.generation && !Refuses(config, reader.key, SizeOf(reader.key, reader.data))
  }

  ghost function Do(config: Config, db: Database, s: State, step: Step): State
    requires Can(config, s, step)
  {
    match step
    case Tick(time) => s.(now := time)
    case Commit(w) => s.(version := s.version + 1, writers := s.writers[w := Committed(s.version + 1)])
    case Bump(w) =>
      s.(generation := s.generation + 1, floors := s.floors[..s.generation + 1] + [Max(s.floors[s.generation], s.writers[w].version)],
         writers := s.writers[w := Bumped(s.writers[w].version)])
    case Clear(w) =>
      s.(entries := if config.mode == Strong then map[] else s.entries, writers := s.writers[w := Cleared(s.writers[w].version)])
    case Acknowledge(w) => s.(receipts := s.receipts + {Receipt(s.writers[w].version, s.now)}, writers := s.writers - {w})
    case Abandon(w) => s.(writers := s.writers - {w})
    case Start(r, key) => s.(readers := s.readers[r := Started(key, s.generation, s.floors[s.generation])])
    case Look(r) =>
      s.(entries := Probed(config, s.generation, s.entries, s.readers[r].key, s.now), readers := s.readers[r := Looked(config, s, s.readers[r])])
    case Fetch(r) =>
      var m := s.readers[r];
      s.(readers := s.readers[r := Fetched(m.key, m.generation, m.since, db(s.version, m.key), s.version)])
    case Check(r) =>
      var f := s.readers[r];
      if WillFill(config, s, f)
      then s.(lock := Some(r), readers := s.readers[r := Filling(f.key, f.generation, f.since, f.data, f.readAt)])
      else s.(readers := s.readers[r := Answered(f.key, f.since, f.data, s.now, false)])
    case Insert(r, after, _) =>
      var f := s.readers[r];
      s.(entries := after, origins := s.origins[f.key := f.readAt], lock := None,
         readers := s.readers[r := Answered(f.key, f.since, f.data, s.now, false)])
    case Cancel(r) => s.(readers := s.readers - {r}, lock := if s.lock == Some(r) then None else s.lock)
    case Evict(keys) => s.(entries := s.entries - keys)
  }

  // --- What every interleaving keeps ---

  ghost predicate FloorsOk(s: State) {
    |s.floors| == s.generation + 1 &&
    (forall g :: 0 <= g < |s.floors| ==> s.floors[g] <= s.version) &&
    (forall g, g' :: 0 <= g <= g' < |s.floors| ==> s.floors[g] <= s.floors[g'])
  }

  ghost predicate WritersOk(s: State)
    requires FloorsOk(s)
  {
    forall w <- s.writers :: s.writers[w].version <= s.version &&
      (!s.writers[w].Committed? ==> s.writers[w].version <= s.floors[s.generation])
  }

  ghost predicate ReceiptsOk(s: State)
    requires FloorsOk(s)
  {
    forall a <- s.receipts :: a.version <= s.floors[s.generation]
  }

  // Every write that has been, or is about to be, acknowledged is within version v.
  ghost predicate Settled(s: State, v: nat) {
    (forall a <- s.receipts :: a.version <= v) &&
    (forall w <- s.writers :: s.writers[w].Cleared? ==> s.writers[w].version <= v)
  }

  // An entry holds the answer of a version no older than its generation's floor, and no older than any
  // write acknowledged before it was put in.
  ghost predicate EntryOk(config: Config, db: Database, s: State, k: string)
    requires FloorsOk(s) && k in s.entries
  {
    var e := s.entries[k];
    k in s.origins && s.origins[k] <= s.version && e.data == db(s.origins[k], k) &&
    e.generation <= s.generation && s.floors[e.generation] <= s.origins[k] &&
    e.inserted <= s.now && Configured(config, k, e) &&
    forall a <- s.receipts :: a.at < e.inserted ==> a.version <= s.origins[k]
  }

  // An entry's ages are those its model's policy sets.
  predicate Configured(config: Config, key: string, e: Entry) {
    var policy := PolicyFor(config, ModelOf(key));
    e.ttl == Lifetime(config, key) && e.tti == Seconds(Either(policy.tti, config.tti)) &&
    e.refresh == Seconds(Either(policy.refresh, config.refresh))
  }

  // No age is zero, so that an entry just inserted answers.
  predicate Hittable(config: Config, key: string) {
    var policy := PolicyFor(config, ModelOf(key));
    Lifetime(config, key) > 0.0 && Either(policy.tti, config.tti) != Some(0) && Either(policy.refresh, config.refresh) != Some(0)
  }

  function Lifetime(config: Config, key: string): Time { Or(PolicyFor(config, ModelOf(key)).ttl, config.ttl) as real }

  // The answer is that of some version, which reflects the right writes.
  ghost predicate AnswerOk(config: Config, db: Database, s: State, a: Reader)
    requires a.Answered?
  {
    exists v: nat :: Witnesses(config, db, s, a, v)
  }

  ghost predicate Witnesses(config: Config, db: Database, s: State, a: Reader, v: nat)
    requires a.Answered?
  {
    v <= s.version && a.data == db(v, a.key) && (config.mode == Strong || !a.hit ==> a.since <= v) &&
    (a.hit ==> Lifetime(config, a.key) > 0.0 && forall x <- s.receipts :: x.at + Lifetime(config, a.key) <= a.at ==> x.version <= v) &&
    a.at <= s.now
  }

  ghost predicate ReaderOk(config: Config, db: Database, s: State, r: nat)
    requires FloorsOk(s) && r in s.readers
  {
    var x := s.readers[r];
    match x
    case Started(_, g, since) => g <= s.generation && since == s.floors[g]
    case Missed(_, g, since) => g <= s.generation && since == s.floors[g]
    case Fetched(key, g, since, data, v) => g <= s.generation && since == s.floors[g] && since <= v <= s.version && data == db(v, key)
    case Filling(key, g, since, data, v) =>
      g <= s.generation && since == s.floors[g] && since <= v <= s.version && data == db(v, key) && s.lock == Some(r) && Settled(s, since) &&
      !Refuses(config, key, SizeOf(key, data))
    case Answered(_, _, _, _, _) => AnswerOk(config, db, s, x)
  }

  ghost predicate Inv(config: Config, db: Database, s: State) {
    FloorsOk(s) && WritersOk(s) && ReceiptsOk(s) && (forall a <- s.receipts :: a.at <= s.now) &&
    (forall k <- s.entries :: EntryOk(config, db, s, k)) &&
    (forall r <- s.readers :: ReaderOk(config, db, s, r)) &&
    Settled(s, s.floors[s.generation])
  }

  // --- Time only adds ---

  ghost predicate Extends(s: State, after: State) {
    s.version <= after.version && s.generation <= after.generation && s.now <= after.now &&
    |s.floors| <= |after.floors| && (forall g :: 0 <= g < |s.floors| ==> after.floors[g] == s.floors[g]) &&
    forall a <- after.receipts :: a in s.receipts || a.at >= s.now
  }

  lemma DoExtends(config: Config, db: Database, s: State, step: Step)
    requires FloorsOk(s) && WritersOk(s) && Can(config, s, step)
    ensures var after := Do(config, db, s, step); Extends(s, after) && FloorsOk(after)
  {
    var after := Do(config, db, s, step);
    if step.Bump? {
      assert s.floors[..s.generation + 1] == s.floors;
      var v := Max(s.floors[s.generation], s.writers[step.w].version);
      assert v <= s.version;
      assert forall g :: 0 <= g < |s.floors| ==> s.floors[g] <= s.floors[s.generation] <= v;
      assert after.floors == s.floors + [v];
    }
  }

  lemma WritersStayOk(config: Config, db: Database, s: State, step: Step)
    requires FloorsOk(s) && WritersOk(s) && ReceiptsOk(s) && Can(config, s, step)
    requires Settled(s, s.floors[s.generation])
    requires forall a <- s.receipts :: a.at <= s.now
    ensures var after := Do(config, db, s, step);
            FloorsOk(after) && WritersOk(after) && ReceiptsOk(after) && Settled(after, after.floors[after.generation]) &&
            forall a <- after.receipts :: a.at <= after.now
  {
    DoExtends(config, db, s, step);
    var after := Do(config, db, s, step);
    assert s.floors[s.generation] <= after.floors[after.generation];
    if step.Bump? { assert s.writers[step.w].version <= after.floors[after.generation]; }
  }

  // An entry left as it was, but perhaps for its last access, stays right.
  lemma EntryStays(config: Config, db: Database, s: State, after: State, k: string)
    requires FloorsOk(s) && FloorsOk(after) && Extends(s, after)
    requires k in s.entries && EntryOk(config, db, s, k)
    requires k in after.entries && after.entries[k] == s.entries[k].(accessed := after.entries[k].accessed)
    requires k in after.origins && after.origins[k] == s.origins[k]
    ensures EntryOk(config, db, after, k)
  {
  }

  lemma AnswerStays(config: Config, db: Database, s: State, after: State, a: Reader)
    requires Extends(s, after) && a.Answered? && AnswerOk(config, db, s, a)
    ensures AnswerOk(config, db, after, a)
  {
    var v :| Witnesses(config, db, s, a, v);
    assert Witnesses(config, db, after, a, v);
  }

  // A write can only become due for acknowledgement under the lock.
  lemma SettledStays(config: Config, db: Database, s: State, step: Step, v: nat)
    requires Can(config, s, step) && Settled(s, v) && !step.Clear?
    ensures Settled(Do(config, db, s, step), v)
  {
  }

  lemma ReaderStays(config: Config, db: Database, s: State, step: Step, r: nat)
    requires FloorsOk(s) && WritersOk(s) && Can(config, s, step) && r in s.readers && ReaderOk(config, db, s, r)
    requires var after := Do(config, db, s, step); r in after.readers && after.readers[r] == s.readers[r]
    ensures var after := Do(config, db, s, step); FloorsOk(after) && ReaderOk(config, db, after, r)
  {
    DoExtends(config, db, s, step);
    var after := Do(config, db, s, step);
    var x := s.readers[r];
    if x.Answered? {
      AnswerStays(config, db, s, after, x);
    } else if x.Filling? {
      assert s.lock == Some(r);
      SettledStays(config, db, s, step, x.since);
    }
  }

  // --- The steps that make something new ---

  // A hit answers with a version at least as new as the reader's start in strong mode, and in any mode
  // one that has every write acknowledged a lifetime ago.
  lemma HitIsOk(config: Config, db: Database, s: State, x: Reader)
    requires Inv(config, db, s) && x.Started? && x.generation <= s.generation && x.since == s.floors[x.generation]
    requires Answers(config, s.generation, s.entries, x.key, s.now)
    ensures AnswerOk(config, db, s, Looked(config, s, x))
  {
    var k := x.key;
    var e := s.entries[k];
    assert EntryOk(config, db, s, k);
    assert Since(s.now, e.inserted) < e.ttl;
    if config.mode == Strong { assert e.generation == s.generation; }
    assert Witnesses(config, db, s, Looked(config, s, x), s.origins[k]);
  }

  lemma LookIsOk(config: Config, db: Database, s: State, r: nat)
    requires Inv(config, db, s) && Can(config, s, Look(r))
    ensures var after := Do(config, db, s, Look(r)); FloorsOk(after) && ReaderOk(config, db, after, r)
  {
    var after := Do(config, db, s, Look(r));
    var x := s.readers[r];
    assert ReaderOk(config, db, s, r);
    if Answers(config, s.generation, s.entries, x.key, s.now) {
      HitIsOk(config, db, s, x);
      AnswerStays(config, db, s, after, Looked(config, s, x));
    }
  }

  lemma MissIsOk(config: Config, db: Database, s: State, after: State, x: Reader)
    requires x.Filling? || x.Fetched?
    requires x.since <= x.readAt <= s.version == after.version && x.data == db(x.readAt, x.key) && s.now == after.now
    ensures AnswerOk(config, db, after, Answered(x.key, x.since, x.data, s.now, false))
  {
    assert Witnesses(config, db, after, Answered(x.key, x.since, x.data, s.now, false), x.readAt);
  }

  lemma CheckIsOk(config: Config, db: Database, s: State, r: nat)
    requires Inv(config, db, s) && Can(config, s, Check(r))
    ensures var after := Do(config, db, s, Check(r)); FloorsOk(after) && ReaderOk(config, db, after, r)
  {
    var after := Do(config, db, s, Check(r));
    var x := s.readers[r];
    assert ReaderOk(config, db, s, r);
    if WillFill(config, s, x) {
      assert x.since == s.floors[s.generation];
    } else {
      MissIsOk(config, db, s, after, x);
    }
  }

  // The new entry has every write acknowledged so far: none could be between the check and now.
  lemma InsertedIsOk(config: Config, db: Database, s: State, step: Step)
    requires step.Insert? && Inv(config, db, s) && Can(config, s, step)
    ensures var after := Do(config, db, s, step); var k := s.readers[step.r].key;
            FloorsOk(after) && k in after.entries && EntryOk(config, db, after, k)
  {
    var x := s.readers[step.r];
    assert ReaderOk(config, db, s, step.r);
    TrimmedLeaves(config, s.entries, step.after, x.key, EntryOf(config, s, x), step.reclaimed);
  }

  lemma OthersAreOk(config: Config, db: Database, s: State, step: Step, k: string)
    requires step.Insert? && Inv(config, db, s) && Can(config, s, step) && k in step.after && k != s.readers[step.r].key
    ensures var after := Do(config, db, s, step); FloorsOk(after) && EntryOk(config, db, after, k)
  {
    var x := s.readers[step.r];
    TrimmedLeaves(config, s.entries, step.after, x.key, EntryOf(config, s, x), step.reclaimed);
    assert EntryOk(config, db, s, k);
    DoExtends(config, db, s, step);
    EntryStays(config, db, s, Do(config, db, s, step), k);
  }

  lemma InsertIsOk(config: Config, db: Database, s: State, step: Step)
    requires step.Insert? && Inv(config, db, s) && Can(config, s, step)
    ensures var after := Do(config, db, s, step);
            FloorsOk(after) && ReaderOk(config, db, after, step.r) && forall k <- after.entries :: EntryOk(config, db, after, k)
  {
    hide EntryOk, Filled, EntryOf;
    var after := Do(config, db, s, step);
    var x := s.readers[step.r];
    assert ReaderOk(config, db, s, step.r);
    MissIsOk(config, db, s, after, x);
    InsertedIsOk(config, db, s, step);
    forall k <- after.entries ensures EntryOk(config, db, after, k) {
      if k != x.key { OthersAreOk(config, db, s, step, k); }
    }
  }

  lemma EntriesStayOk(config: Config, db: Database, s: State, step: Step)
    requires Inv(config, db, s) && Can(config, s, step)
    ensures var after := Do(config, db, s, step); FloorsOk(after) && forall k <- after.entries :: EntryOk(config, db, after, k)
  {
    DoExtends(config, db, s, step);
    var after := Do(config, db, s, step);
    if step.Insert? {
      InsertIsOk(config, db, s, step);
    } else {
      hide EntryOk, Filled;
      forall k <- after.entries ensures EntryOk(config, db, after, k) {
        assert EntryOk(config, db, s, k);
        EntryStays(config, db, s, after, k);
      }
    }
  }

  lemma ReadersStayOk(config: Config, db: Database, s: State, step: Step, r: nat)
    requires Inv(config, db, s) && Can(config, s, step) && r in Do(config, db, s, step).readers
    ensures var after := Do(config, db, s, step); FloorsOk(after) && ReaderOk(config, db, after, r)
  {
    var after := Do(config, db, s, step);
    DoExtends(config, db, s, step);
    if r in s.readers && after.readers[r] == s.readers[r] {
      assert ReaderOk(config, db, s, r);
      ReaderStays(config, db, s, step, r);
    } else {
      NewReaderIsOk(config, db, s, step, r);
    }
  }

  lemma NewReaderIsOk(config: Config, db: Database, s: State, step: Step, r: nat)
    requires Inv(config, db, s) && Can(config, s, step) && r in Do(config, db, s, step).readers
    requires !(r in s.readers && Do(config, db, s, step).readers[r] == s.readers[r])
    ensures var after := Do(config, db, s, step); FloorsOk(after) && ReaderOk(config, db, after, r)
  {
    if step.Look? {
      LookIsOk(config, db, s, r);
    } else if step.Check? {
      CheckIsOk(config, db, s, r);
    } else if step.Insert? {
      InsertIsOk(config, db, s, step);
    } else if step.Fetch? {
      assert ReaderOk(config, db, s, r);
    }
  }

  lemma DoKeepsInv(config: Config, db: Database, s: State, step: Step)
    requires Inv(config, db, s) && Can(config, s, step)
    ensures Inv(config, db, Do(config, db, s, step))
  {
    hide EntryOk, ReaderOk, Do, Can;
    WritersStayOk(config, db, s, step);
    EntriesStayOk(config, db, s, step);
    forall r <- Do(config, db, s, step).readers ensures ReaderOk(config, db, Do(config, db, s, step), r) {
      ReadersStayOk(config, db, s, step, r);
    }
  }

  // --- Whole runs ---

  ghost predicate Runs(config: Config, db: Database, s: State, steps: seq<Step>)
    decreases |steps|
  {
    steps == [] || (Can(config, s, steps[0]) && Runs(config, db, Do(config, db, s, steps[0]), steps[1..]))
  }

  ghost function Play(config: Config, db: Database, s: State, steps: seq<Step>): State
    requires Runs(config, db, s, steps)
    decreases |steps|
  {
    if steps == [] then s else Play(config, db, Do(config, db, s, steps[0]), steps[1..])
  }

  lemma {:induction false} RunKeepsInv(config: Config, db: Database, s: State, steps: seq<Step>)
    requires Inv(config, db, s) && Runs(config, db, s, steps)
    ensures Inv(config, db, Play(config, db, s, steps))
    decreases |steps|
  {
    hide Inv, Do, Can;
    if steps != [] {
      DoKeepsInv(config, db, s, steps[0]);
      RunKeepsInv(config, db, Do(config, db, s, steps[0]), steps[1..]);
    }
  }

  lemma StartIsOk(config: Config, db: Database)
    ensures Inv(config, db, START)
  {
  }

  lemma {:induction false} RunExtends(config: Config, db: Database, s: State, steps: seq<Step>)
    requires Inv(config, db, s) && Runs(config, db, s, steps)
    ensures Extends(s, Play(config, db, s, steps))
    decreases |steps|
  {
    if steps != [] {
      var next := Do(config, db, s, steps[0]);
      DoKeepsInv(config, db, s, steps[0]);
      DoExtends(config, db, s, steps[0]);
      RunExtends(config, db, next, steps[1..]);
      ExtendsTransitive(s, next, Play(config, db, s, steps));
    }
  }

  lemma ExtendsTransitive(a: State, b: State, c: State)
    requires Extends(a, b) && Extends(b, c)
    ensures Extends(a, c)
  {
  }

  // A read that is not cancelled keeps its question and its starting point.
  lemma {:induction false} ReadGoesOn(config: Config, db: Database, s: State, steps: seq<Step>, r: nat)
    requires Runs(config, db, s, steps) && r in s.readers && Cancel(r) !in steps
    ensures var after := Play(config, db, s, steps);
            r in after.readers && after.readers[r].key == s.readers[r].key && after.readers[r].since == s.readers[r].since
    decreases |steps|
  {
    if steps != [] {
      assert steps[0] in steps && forall x <- steps[1..] :: x in steps;
      OneStepGoesOn(config, db, s, steps[0], r);
      ReadGoesOn(config, db, Do(config, db, s, steps[0]), steps[1..], r);
    }
  }

  lemma OneStepGoesOn(config: Config, db: Database, s: State, step: Step, r: nat)
    requires Can(config, s, step) && r in s.readers && step != Cancel(r)
    ensures var after := Do(config, db, s, step);
            r in after.readers && after.readers[r].key == s.readers[r].key && after.readers[r].since == s.readers[r].since
  {
  }

  // Strong mode, every interleaving: a read that starts after a write's generation advanced answers from
  // a version that has the write, though the writer may never have taken the lock, and whichever
  // filler's check the advance fell behind.
  lemma StrongReadsSeeTheWrite(config: Config, db: Database, s: State, w: nat, between: seq<Step>, r: nat, key: string, rest: seq<Step>)
    requires config.mode == Strong && Inv(config, db, s) && Can(config, s, Bump(w))
    requires var bumped := Do(config, db, s, Bump(w));
             Runs(config, db, bumped, between) &&
             var before := Play(config, db, bumped, between);
             Can(config, before, Start(r, key)) && Runs(config, db, Do(config, db, before, Start(r, key)), rest) && Cancel(r) !in rest
    ensures var started := Do(config, db, Play(config, db, Do(config, db, s, Bump(w)), between), Start(r, key));
            var final := Play(config, db, started, rest);
            r in final.readers &&
            (final.readers[r].Answered? ==> exists v: nat :: s.writers[w].version <= v <= final.version && final.readers[r].data == db(v, key))
  {
    var bumped := Do(config, db, s, Bump(w));
    DoKeepsInv(config, db, s, Bump(w));
    RunKeepsInv(config, db, bumped, between);
    RunExtends(config, db, bumped, between);
    var before := Play(config, db, bumped, between);
    var started := Do(config, db, before, Start(r, key));
    DoKeepsInv(config, db, before, Start(r, key));
    RunKeepsInv(config, db, started, rest);
    ReadGoesOn(config, db, started, rest, r);
    assert s.writers[w].version <= bumped.floors[bumped.generation] <= started.readers[r].since;
    var final := Play(config, db, started, rest);
    if final.readers[r].Answered? { AnswerIsFresh(config, db, final, r); }
  }

  lemma AnswerIsFresh(config: Config, db: Database, s: State, r: nat)
    requires config.mode == Strong && Inv(config, db, s) && r in s.readers && s.readers[r].Answered?
    ensures exists v: nat :: s.readers[r].since <= v <= s.version && s.readers[r].data == db(v, s.readers[r].key)
  {
    assert ReaderOk(config, db, s, r);
    var v :| Witnesses(config, db, s, s.readers[r], v);
  }

  // Any mode, every run: an answer is that of some version; found in the cache at time t, that version has
  // every write acknowledged by t less the entry's lifetime; read from the database, every write whose
  // generation had advanced when the read began.
  lemma AnswersAreBoundedStale(config: Config, db: Database, steps: seq<Step>, r: nat)
    requires Runs(config, db, START, steps)
    requires var final := Play(config, db, START, steps); r in final.readers && final.readers[r].Answered?
    ensures var final := Play(config, db, START, steps); var a := final.readers[r];
            exists v: nat :: v <= final.version && a.data == db(v, a.key) && (a.hit || a.since <= v) &&
              (a.hit ==> forall x <- final.receipts :: x.at + Lifetime(config, a.key) <= a.at ==> x.version <= v)
  {
    StartIsOk(config, db);
    RunKeepsInv(config, db, START, steps);
    var final := Play(config, db, START, steps);
    assert ReaderOk(config, db, final, r);
    var v :| Witnesses(config, db, final, final.readers[r], v);
  }

  // --- What use is made of each entry ---

  // The last use and the last fill of each key, from what readers were answered and what was put in.
  datatype Record = Record(used: map<string, Time>, filled: map<string, Time>)

  const NOTHING := Record(map[], map[])

  ghost predicate Hits(config: Config, db: Database, s: State, step: Step)
    requires Can(config, s, step)
  {
    step.Look? && var x := Do(config, db, s, step).readers[step.r]; x.Answered? && x.hit
  }

  ghost function Noticed(config: Config, db: Database, s: State, step: Step, seen: Record): Record
    requires Can(config, s, step)
  {
    if Hits(config, db, s, step) then seen.(used := seen.used[s.readers[step.r].key := s.now])
    else if step.Insert? then
      Record(seen.used[s.readers[step.r].key := s.now], seen.filled[s.readers[step.r].key := s.now])
    else seen
  }

  ghost function Seen(config: Config, db: Database, s: State, steps: seq<Step>, seen: Record): Record
    requires Runs(config, db, s, steps)
    decreases |steps|
  {
    if steps == [] then seen else Seen(config, db, Do(config, db, s, steps[0]), steps[1..], Noticed(config, db, s, steps[0], seen))
  }

  ghost predicate Recorded(s: State, seen: Record) {
    forall k <- s.entries :: k in seen.used && k in seen.filled &&
      s.entries[k].accessed == seen.used[k] && s.entries[k].inserted == seen.filled[k] && seen.filled[k] <= seen.used[k] <= s.now
  }

  lemma InsertIsRecorded(config: Config, db: Database, s: State, step: Step, seen: Record)
    requires Recorded(s, seen) && Can(config, s, step) && step.Insert?
    ensures Recorded(Do(config, db, s, step), Noticed(config, db, s, step, seen))
  {
    hide Filled;
    var x := s.readers[step.r];
    TrimmedLeaves(config, s.entries, step.after, x.key, EntryOf(config, s, x), step.reclaimed);
  }

  lemma DoIsRecorded(config: Config, db: Database, s: State, step: Step, seen: Record)
    requires Recorded(s, seen) && Can(config, s, step)
    ensures Recorded(Do(config, db, s, step), Noticed(config, db, s, step, seen))
  {
    hide Filled;
    if step.Insert? { InsertIsRecorded(config, db, s, step, seen); }
  }

  // Over every run: an entry was last used at the last hit on it or fill of it, and put in at its last fill.
  lemma {:induction false} RunIsRecorded(config: Config, db: Database, s: State, steps: seq<Step>, seen: Record)
    requires Runs(config, db, s, steps) && Recorded(s, seen)
    ensures Recorded(Play(config, db, s, steps), Seen(config, db, s, steps, seen))
    decreases |steps|
  {
    hide Do, Can, Recorded, Noticed;
    if steps != [] {
      DoIsRecorded(config, db, s, steps[0], seen);
      RunIsRecorded(config, db, Do(config, db, s, steps[0]), steps[1..], Noticed(config, db, s, steps[0], seen));
    }
  }

  // Least recently used, over every run: what a fill evicts was last hit or filled no later than anything it
  // keeps in the same pool.
  lemma EvictsLeastRecentlyUsed(config: Config, db: Database, steps: seq<Step>, fill: Step, gone: string, kept: string)
    requires Runs(config, db, START, steps) && fill.Insert? && Can(config, Play(config, db, START, steps), fill)
    requires var s := Play(config, db, START, steps); var key := s.readers[fill.r].key;
             gone in s.entries && gone != key && !Expired(s.entries[gone], fill.reclaimed) && gone !in fill.after &&
             kept in fill.after && kept != key && (InModel(kept, ModelOf(key)) || !InModel(gone, ModelOf(key)))
    ensures var seen := Seen(config, db, START, steps, NOTHING);
            gone in seen.used && kept in seen.used && seen.used[gone] <= seen.used[kept]
  {
    hide Runs, Play, Filled, Seen;
    var s := Play(config, db, START, steps);
    RunIsRecorded(config, db, START, steps, NOTHING);
    FilledEvictsOldest(config, s.entries, fill.after, s.readers[fill.r].key, EntryOf(config, s, s.readers[fill.r]), fill.reclaimed, gone, kept);
  }

  // Over every run: a lookup finds what is there exactly when caching is on for the model, the entry was filled
  // less than its lifetime and its refresh time ago and used less than its idle time ago, and, in strong mode,
  // no generation has advanced since.
  lemma LookHitsIff(config: Config, db: Database, steps: seq<Step>, r: nat)
    requires Runs(config, db, START, steps) && Can(config, Play(config, db, START, steps), Look(r))
    requires var s := Play(config, db, START, steps); s.readers[r].key in s.entries
    ensures var s := Play(config, db, START, steps); var key := s.readers[r].key; var seen := Seen(config, db, START, steps, NOTHING);
            var m := ModelOf(key); var own := if m in config.models then config.models[m] else NO_POLICY;
            var ttl := if own.ttl.Some? then own.ttl.value else config.ttl;
            var tti := if own.tti.Some? then own.tti else config.tti;
            var refresh := if own.refresh.Some? then own.refresh else config.refresh;
            key in seen.used && key in seen.filled &&
            (Hits(config, db, s, Look(r)) <==>
               config.enabled && !config.multiInstance && own.enabled != Some(false) &&
               s.now - seen.filled[key] < ttl as real && (tti.Some? ==> s.now - seen.used[key] < tti.value as real) &&
               (refresh.Some? ==> s.now - seen.filled[key] < refresh.value as real) &&
               (config.mode == Strong ==> s.entries[key].generation == s.generation))
  {
    hide Runs, Play, Seen, Refuses, Hits;
    var s := Play(config, db, START, steps);
    StartIsOk(config, db);
    RunKeepsInv(config, db, START, steps);
    RunIsRecorded(config, db, START, steps, NOTHING);
    assert EntryOk(config, db, s, s.readers[r].key);
    HitsByEntry(config, db, s, r);
  }

  lemma HitsByEntry(config: Config, db: Database, s: State, r: nat)
    requires Can(config, s, Look(r)) && s.readers[r].key in s.entries
    ensures var key := s.readers[r].key; var e := s.entries[key];
            Hits(config, db, s, Look(r)) <==>
              Enabled(config, key) && !Outdated(config, s.generation, e, s.now) && !RefreshDue(e, s.now)
  {
    hide Enabled, Outdated, RefreshDue;
  }

  // --- When an advance alone is enough in eventual mode ---

  // The data is the answer of a version from v on.
  ghost predicate Reflects(db: Database, key: string, data: Doc, v: nat, top: nat) {
    exists u: nat :: v <= u <= top && data == db(u, key)
  }

  ghost predicate HitHas(config: Config, db: Database, s: State, r: nat, since: Time, v: nat) {
    r in s.readers && s.readers[r].Answered? && s.readers[r].hit && s.readers[r].at >= since + Lifetime(config, s.readers[r].key) ==>
      Reflects(db, s.readers[r].key, s.readers[r].data, v, s.version)
  }

  // From the advance on, whatever happens: what is found in the cache a lifetime later, or after that, has the
  // write.
  ghost predicate Suffices(config: Config, db: Database, s: State, w: nat)
    requires Can(config, s, Bump(w))
  {
    var bumped := Do(config, db, s, Bump(w));
    forall steps, r :: Runs(config, db, bumped, steps) ==>
      HitHas(config, db, Play(config, db, bumped, steps), r, s.now, s.writers[w].version)
  }

  // A reader is between its check and its insert, under the lock, with an answer from before version v.
  ghost predicate FillsBehind(config: Config, db: Database, s: State, r: nat, v: nat) {
    r in s.readers && s.readers[r].Filling? && Hittable(config, s.readers[r].key) &&
    !Reflects(db, s.readers[r].key, s.readers[r].data, v, s.version)
  }

  // What was inserted after the advance at time b, what is about to be, and what was found, has version v.
  ghost predicate Caught(config: Config, db: Database, s: State, b: Time, v: nat)
    requires FloorsOk(s)
  {
    b <= s.now && v <= s.floors[s.generation] &&
    (forall k <- s.entries :: s.entries[k].inserted > b && Hittable(config, k) ==> Reflects(db, k, s.entries[k].data, v, s.version)) &&
    (forall r :: !FillsBehind(config, db, s, r, v)) &&
    (forall r :: HitHas(config, db, s, r, b, v))
  }

  lemma ReflectsOn(db: Database, key: string, data: Doc, v: nat, top: nat, higher: nat)
    requires Reflects(db, key, data, v, top) && top <= higher
    ensures Reflects(db, key, data, v, higher)
  {
    var u :| v <= u <= top && data == db(u, key);
  }

  lemma AdvanceCatches(config: Config, db: Database, s: State, w: nat)
    requires Inv(config, db, s) && Can(config, s, Bump(w))
    requires forall r :: !FillsBehind(config, db, s, r, s.writers[w].version)
    ensures var bumped := Do(config, db, s, Bump(w)); FloorsOk(bumped) && Caught(config, db, bumped, s.now, s.writers[w].version)
  {
    hide FillsBehind, Reflects;
    DoExtends(config, db, s, Bump(w));
    var bumped, v := Do(config, db, s, Bump(w)), s.writers[w].version;
    forall r ensures !FillsBehind(config, db, bumped, r, v) {
      SameFillers(config, db, s, bumped, r, v);
    }
    forall r ensures HitHas(config, db, bumped, r, s.now, v) {
      if r in s.readers && s.readers[r].Answered? {
        assert ReaderOk(config, db, s, r);
        var u :| Witnesses(config, db, s, s.readers[r], u);
      }
    }
    forall k <- bumped.entries ensures bumped.entries[k].inserted <= s.now {
      assert EntryOk(config, db, s, k);
    }
  }

  lemma SameFillers(config: Config, db: Database, s: State, after: State, r: nat, v: nat)
    requires r in after.readers && after.readers[r].Filling? ==> r in s.readers && after.readers[r] == s.readers[r]
    requires s.version <= after.version && !FillsBehind(config, db, s, r, v)
    ensures !FillsBehind(config, db, after, r, v)
  {
    if FillsBehind(config, db, after, r, v) {
      var x := s.readers[r];
      if Reflects(db, x.key, x.data, v, s.version) { ReflectsOn(db, x.key, x.data, v, s.version, after.version); }
    }
  }

  // A reader that passes the check after the advance started after it, and read the write.
  lemma CheckedHas(config: Config, db: Database, s: State, r: nat, b: Time, v: nat)
    requires Inv(config, db, s) && Caught(config, db, s, b, v) && Can(config, s, Check(r))
    ensures !FillsBehind(config, db, Do(config, db, s, Check(r)), r, v)
  {
    var x := s.readers[r];
    assert ReaderOk(config, db, s, r);
    if WillFill(config, s, x) {
      assert v <= x.since <= x.readAt <= s.version && x.data == db(x.readAt, x.key);
      assert Reflects(db, x.key, x.data, v, s.version);
    }
  }

  lemma FillersStay(config: Config, db: Database, s: State, step: Step, b: Time, v: nat, r: nat)
    requires Inv(config, db, s) && Caught(config, db, s, b, v) && Can(config, s, step)
    ensures !FillsBehind(config, db, Do(config, db, s, step), r, v)
  {
    hide FillsBehind, HitHas, Inv;
    if step == Check(r) {
      CheckedHas(config, db, s, r, b, v);
    } else {
      SameFillers(config, db, s, Do(config, db, s, step), r, v);
    }
  }

  // A hit at least a lifetime after the advance found an entry inserted since.
  lemma LookedHas(config: Config, db: Database, s: State, r: nat, b: Time, v: nat)
    requires Inv(config, db, s) && Caught(config, db, s, b, v) && Can(config, s, Look(r))
    ensures HitHas(config, db, Do(config, db, s, Look(r)), r, b, v)
  {
    hide FillsBehind, Reflects, Hittable, Refuses;
    var x := s.readers[r];
    if Answers(config, s.generation, s.entries, x.key, s.now) && s.now >= b + Lifetime(config, x.key) {
      assert EntryOk(config, db, s, x.key);
      HitIsHittable(config, s, x.key);
      assert s.entries[x.key].inserted > b;
    }
  }

  lemma HitIsHittable(config: Config, s: State, key: string)
    requires Answers(config, s.generation, s.entries, key, s.now) && Configured(config, key, s.entries[key])
    ensures Hittable(config, key) && Since(s.now, s.entries[key].inserted) < Lifetime(config, key)
  {
  }

  lemma HitsStay(config: Config, db: Database, s: State, step: Step, b: Time, v: nat, r: nat)
    requires Inv(config, db, s) && Caught(config, db, s, b, v) && Can(config, s, step)
    ensures HitHas(config, db, Do(config, db, s, step), r, b, v)
  {
    hide Inv, FillsBehind, Reflects, Filled, Refuses, Hittable, Answers;
    var after := Do(config, db, s, step);
    if step == Look(r) {
      LookedHas(config, db, s, r, b, v);
    } else if r in s.readers && r in after.readers && after.readers[r] == s.readers[r] {
      assert HitHas(config, db, s, r, b, v);
      var x := s.readers[r];
      if x.Answered? && Reflects(db, x.key, x.data, v, s.version) { ReflectsOn(db, x.key, x.data, v, s.version, after.version); }
    }
  }

  lemma EntriesStay(config: Config, db: Database, s: State, step: Step, b: Time, v: nat, k: string)
    requires Inv(config, db, s) && Caught(config, db, s, b, v) && Can(config, s, step) && k in Do(config, db, s, step).entries
    ensures var after := Do(config, db, s, step);
            after.entries[k].inserted > b && Hittable(config, k) ==> Reflects(db, k, after.entries[k].data, v, after.version)
  {
    hide Inv, HitHas, Hittable, Reflects, Filled;
    var after := Do(config, db, s, step);
    if step.Insert? {
      var x := s.readers[step.r];
      TrimmedLeaves(config, s.entries, step.after, x.key, EntryOf(config, s, x), step.reclaimed);
      assert !FillsBehind(config, db, s, step.r, v);
    } else {
      assert k in s.entries && after.entries[k].data == s.entries[k].data;
      var e := s.entries[k];
      if Reflects(db, k, e.data, v, s.version) { ReflectsOn(db, k, e.data, v, s.version, after.version); }
    }
  }

  lemma DoKeepsCaught(config: Config, db: Database, s: State, step: Step, b: Time, v: nat)
    requires Inv(config, db, s) && Caught(config, db, s, b, v) && Can(config, s, step)
    ensures var after := Do(config, db, s, step); FloorsOk(after) && Caught(config, db, after, b, v)
  {
    hide FillsBehind, HitHas, Hittable, Reflects, Can, Filled;
    var after := Do(config, db, s, step);
    DoExtends(config, db, s, step);
    forall r ensures !FillsBehind(config, db, after, r, v) && HitHas(config, db, after, r, b, v) {
      FillersStay(config, db, s, step, b, v, r);
      HitsStay(config, db, s, step, b, v, r);
    }
    forall k <- after.entries
      ensures after.entries[k].inserted > b && Hittable(config, k) ==> Reflects(db, k, after.entries[k].data, v, after.version) {
      EntriesStay(config, db, s, step, b, v, k);
    }
  }

  lemma {:induction false} RunKeepsCaught(config: Config, db: Database, s: State, steps: seq<Step>, b: Time, v: nat)
    requires Inv(config, db, s) && Caught(config, db, s, b, v) && Runs(config, db, s, steps)
    ensures var final := Play(config, db, s, steps); FloorsOk(final) && Caught(config, db, final, b, v)
    decreases |steps|
  {
    hide Caught, Do, Can;
    if steps != [] {
      DoKeepsInv(config, db, s, steps[0]);
      DoKeepsCaught(config, db, s, steps[0], b, v);
      RunKeepsCaught(config, db, Do(config, db, s, steps[0]), steps[1..], b, v);
    }
  }

  lemma OneMoreStep(config: Config, db: Database, s: State, step: Step, rest: seq<Step>)
    requires Can(config, s, step) && Runs(config, db, Do(config, db, s, step), rest)
    ensures Runs(config, db, s, [step] + rest)
    ensures Play(config, db, s, [step] + rest) == Play(config, db, Do(config, db, s, step), rest)
  {
    assert ([step] + rest)[1..] == rest;
  }

  lemma NoMoreSteps(config: Config, db: Database, s: State)
    ensures Runs(config, db, s, []) && Play(config, db, s, []) == s
  {
  }

  // Whoever asks for an answer just filled in finds it.
  lemma FreshIsFound(config: Config, db: Database, s: State, r: nat, key: string) returns (steps: seq<Step>)
    requires config.mode == Eventual && r in s.readers && s.lock == None && s.generation < |s.floors|
    requires key in s.entries && Enabled(config, key) && Hittable(config, key) && Configured(config, key, s.entries[key])
    requires s.entries[key].inserted == s.entries[key].accessed == s.now
    ensures Runs(config, db, s, steps)
    ensures var final := Play(config, db, s, steps);
            final.version == s.version && r in final.readers &&
            final.readers[r] == Answered(key, s.floors[s.generation], s.entries[key].data, s.now, true)
  {
    hide Runs, Play, Hittable;
    var s1 := Do(config, db, s, Cancel(r));
    var s2 := Do(config, db, s1, Start(r, key));
    HittableAnswers(config, s2, key);
    var s3 := Do(config, db, s2, Look(r));
    NoMoreSteps(config, db, s3);
    OneMoreStep(config, db, s2, Look(r), []);
    OneMoreStep(config, db, s1, Start(r, key), [Look(r)] + []);
    OneMoreStep(config, db, s, Cancel(r), [Start(r, key)] + ([Look(r)] + []));
    steps := [Cancel(r)] + ([Start(r, key)] + ([Look(r)] + []));
  }

  lemma HittableAnswers(config: Config, s: State, key: string)
    requires config.mode == Eventual && key in s.entries && Enabled(config, key) && Hittable(config, key)
    requires Configured(config, key, s.entries[key]) && s.entries[key].inserted == s.entries[key].accessed == s.now
    ensures Answers(config, s.generation, s.entries, key, s.now)
  {
  }

  // A filler inserts whenever it likes, and its answer is found.
  lemma FillerIsFound(config: Config, db: Database, s: State, r: nat) returns (steps: seq<Step>)
    requires config.mode == Eventual && Inv(config, db, s) && r in s.readers && s.readers[r].Filling? && Hittable(config, s.readers[r].key)
    ensures Runs(config, db, s, steps)
    ensures var final, x := Play(config, db, s, steps), s.readers[r];
            final.version == s.version && r in final.readers &&
            final.readers[r] == Answered(x.key, s.floors[s.generation], x.data, s.now, true)
  {
    hide Runs, Play, Filled, Hittable;
    var x := s.readers[r];
    assert ReaderOk(config, db, s, r);
    var e := EntryOf(config, s, x);
    var after := FillExists(config, s.entries, x.key, e, s.now);
    TrimmedLeaves(config, s.entries, after, x.key, e, s.now);
    var insert := Insert(r, after, s.now);
    var filled := Do(config, db, s, insert);
    var rest := FreshIsFound(config, db, filled, r, x.key);
    OneMoreStep(config, db, s, insert, rest);
    steps := [insert] + rest;
  }

  // The filler inserts a lifetime after the advance, and somebody looks at once.
  lemma BehindIsFound(config: Config, db: Database, s: State, w: nat, r: nat)
    requires config.mode == Eventual && Inv(config, db, s) && Can(config, s, Bump(w)) && FillsBehind(config, db, s, r, s.writers[w].version)
    ensures !Suffices(config, db, s, w)
  {
    hide Runs, Play, Inv, Reflects, Hittable;
    var bumped := Do(config, db, s, Bump(w));
    DoKeepsInv(config, db, s, Bump(w));
    var x := s.readers[r];
    var tick := Tick(s.now + Lifetime(config, x.key));
    var later := Do(config, db, bumped, tick);
    DoKeepsInv(config, db, bumped, tick);
    var rest := FillerIsFound(config, db, later, r);
    OneMoreStep(config, db, bumped, tick, rest);
    assert !HitHas(config, db, Play(config, db, bumped, [tick] + rest), r, s.now, s.writers[w].version);
  }

  // In eventual mode an advance is enough if and only if nobody is filling behind it.
  lemma AdvanceSufficesIff(config: Config, db: Database, s: State, w: nat)
    requires config.mode == Eventual && Inv(config, db, s) && Can(config, s, Bump(w))
    ensures Suffices(config, db, s, w) <==> forall r :: !FillsBehind(config, db, s, r, s.writers[w].version)
  {
    hide Inv, Do, FillsBehind;
    if r :| FillsBehind(config, db, s, r, s.writers[w].version) {
      BehindIsFound(config, db, s, w, r);
    } else {
      NobodyBehind(config, db, s, w);
    }
  }

  lemma NobodyBehind(config: Config, db: Database, s: State, w: nat)
    requires Inv(config, db, s) && Can(config, s, Bump(w))
    requires forall r :: !FillsBehind(config, db, s, r, s.writers[w].version)
    ensures Suffices(config, db, s, w)
  {
    hide Inv, Do, FillsBehind, HitHas;
    var bumped, v := Do(config, db, s, Bump(w)), s.writers[w].version;
    DoKeepsInv(config, db, s, Bump(w));
    AdvanceCatches(config, db, s, w);
    forall steps, r | Runs(config, db, bumped, steps) ensures HitHas(config, db, Play(config, db, bumped, steps), r, s.now, v) {
      RunKeepsCaught(config, db, bumped, steps, s.now, v);
    }
  }

  // --- Somebody can be filling behind an advance ---

  function EventualConfig(): Config { Config(true, Eventual, 10, None, 5, 1000, 1000, None, false, map[]) }

  function OneOrZero(): Database { (v: nat, key: string) => Doc(if v == 0 then "0" else "1") }

  const QUERY := "m:q"

  // Reader 0 has checked and is about to fill when write 7 is committed.
  function CaughtFilling(): State {
    State(1, 0, map[], Some(0), 0.0, map[0 := Filling(QUERY, 0, 0, Doc("0"), 0)], map[7 := Committed(1)], [0], map[], {})
  }

  function AboutToCheck(): State {
    State(0, 0, map[], None, 0.0, map[0 := Fetched(QUERY, 0, 0, Doc("0"), 0)], map[], [0], map[], {})
  }

  lemma CheckExample()
    ensures var steps := [Check(0)] + ([Commit(7)] + []);
            Runs(EventualConfig(), OneOrZero(), AboutToCheck(), steps) && Play(EventualConfig(), OneOrZero(), AboutToCheck(), steps) == CaughtFilling()
  {
    hide Runs, Play;
    var config, db, s3 := EventualConfig(), OneOrZero(), AboutToCheck();
    assert ModelOf(QUERY) == "m" by { assert ModelOf(QUERY[1..]) == ""; }
    var s4 := Do(config, db, s3, Check(0));
    var s5 := Do(config, db, s4, Commit(7));
    assert s5 == CaughtFilling();
    NoMoreSteps(config, db, s5);
    OneMoreStep(config, db, s4, Commit(7), []);
    OneMoreStep(config, db, s3, Check(0), [Commit(7)] + []);
  }

  lemma FillingExample() returns (steps: seq<Step>)
    ensures Runs(EventualConfig(), OneOrZero(), START, steps) && Play(EventualConfig(), OneOrZero(), START, steps) == CaughtFilling()
  {
    hide Runs, Play;
    var config, db := EventualConfig(), OneOrZero();
    var s1 := Do(config, db, START, Start(0, QUERY));
    var s2 := Do(config, db, s1, Look(0));
    var s3 := Do(config, db, s2, Fetch(0));
    assert s3 == AboutToCheck();
    var rest := [Check(0)] + ([Commit(7)] + []);
    CheckExample();
    OneMoreStep(config, db, s2, Fetch(0), rest);
    OneMoreStep(config, db, s1, Look(0), [Fetch(0)] + rest);
    OneMoreStep(config, db, START, Start(0, QUERY), [Look(0)] + ([Fetch(0)] + rest));
    steps := [Start(0, QUERY)] + ([Look(0)] + ([Fetch(0)] + rest));
  }

  // So there is a run in which a hit, a lifetime after the advance, does not have the write. Acknowledged is
  // what it takes, for acknowledging takes the lock.
  lemma AdvanceAloneIsNotEnough()
    ensures exists steps ::
              Runs(EventualConfig(), OneOrZero(), START, steps) &&
              var s := Play(EventualConfig(), OneOrZero(), START, steps);
              Can(EventualConfig(), s, Bump(7)) && !Suffices(EventualConfig(), OneOrZero(), s, 7)
  {
    hide Runs, Play, Suffices;
    var config, db, s := EventualConfig(), OneOrZero(), CaughtFilling();
    var steps := FillingExample();
    StartIsOk(config, db);
    RunKeepsInv(config, db, START, steps);
    forall u: nat | 1 <= u ensures db(u, QUERY) != Doc("0") {
      assert db(u, QUERY) == Doc("1") && "1"[0] != "0"[0];
    }
    assert FillsBehind(config, db, s, 0, 1);
    BehindIsFound(config, db, s, 7, 0);
  }
}
