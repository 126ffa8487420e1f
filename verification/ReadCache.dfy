// The bounded read cache: exact accounting, entry and byte limits, least-recently-used eviction.
module ReadCaching {
  import opened Wrappers

  type Time = real

  datatype Mode = Strong | Eventual

  // A serialized answer.
  datatype Doc = Doc(json: string)

  datatype Policy = Policy(enabled: Option<bool>, ttl: Option<nat>, tti: Option<nat>, refresh: Option<nat>,
                           maxEntryBytes: Option<nat>, maxEntries: Option<nat>, maxBytes: Option<nat>)

  const NO_POLICY := Policy(None, None, None, None, None, None, None)

  datatype Config = Config(enabled: bool, mode: Mode, ttl: nat, tti: Option<nat>, maxEntries: nat, maxBytes: nat,
                           maxEntryBytes: nat, refresh: Option<nat>, multiInstance: bool, models: map<string, Policy>)

  datatype Entry = Entry(generation: nat, data: Doc, inserted: Time, accessed: Time, bytes: nat,
                         ttl: Time, tti: Option<Time>, refresh: Option<Time>)

  type Entries = map<string, Entry>

  datatype Metrics = Metrics(hits: nat, misses: nat, expired: nat, evicted: nat, skipped: nat,
                             staleFillsRejected: nat, invalidations: nat, entries: nat, estimatedBytes: nat)

  const ENTRY_OVERHEAD: nat := 128

  // --- Keys and policies ---

  // The part of a key before its first colon, or all of it.
  function ModelOf(key: string): (model: string)
    ensures ':' !in model
  {
    if key == [] || key[0] == ':' then [] else [key[0]] + ModelOf(key[1..])
  }

  predicate InModel(key: string, model: string) { model + ":" <= key }

  lemma {:induction false} ModelIsUnique(key: string, model: string)
    requires InModel(key, model) && ':' !in model
    ensures ModelOf(key) == model
  {
    if model != [] {
      assert key[0] == (model + ":")[0] == model[0];
      assert model[1..] + ":" == (model + ":")[1..];
      assert InModel(key[1..], model[1..]);
      ModelIsUnique(key[1..], model[1..]);
      assert model == [model[0]] + model[1..];
    } else {
      assert key[0] == ":"[0];
    }
  }

  function PolicyFor(config: Config, model: string): Policy {
    if model in config.models then config.models[model] else NO_POLICY
  }

  function Or<T>(choice: Option<T>, fallback: T): T { if choice.Some? then choice.value else fallback }

  function Least(a: nat, b: nat): nat { if a <= b then a else b }

  predicate Enabled(config: Config, key: string) {
    config.enabled && !config.multiInstance && Or(PolicyFor(config, ModelOf(key)).enabled, true)
  }

  function EntryLimit(config: Config, model: string): nat { Or(PolicyFor(config, model).maxEntries, config.maxEntries) }

  function ByteLimit(config: Config, model: string): nat { Or(PolicyFor(config, model).maxBytes, config.maxBytes) }

  function SizeOf(key: string, value: Doc): nat { |value.json| + |key| + ENTRY_OVERHEAD }

  // A value this cache will not hold, whatever else is in it.
  predicate Refuses(config: Config, key: string, bytes: nat) {
    var policy := PolicyFor(config, ModelOf(key));
    !Enabled(config, key) || config.maxEntries == 0 || policy.maxEntries == Some(0) ||
    bytes > Least(ByteLimit(config, ModelOf(key)), config.maxBytes) ||
    bytes > Least(Or(policy.maxEntryBytes, config.maxEntryBytes), config.maxEntryBytes)
  }

  function Seconds(secs: Option<nat>): Option<Time> { if secs.Some? then Some(secs.value as real) else None }

  function Either<T>(choice: Option<T>, fallback: Option<T>): Option<T> { if choice.Some? then choice else fallback }

  function FreshEntry(config: Config, key: string, value: Doc, generation: nat, now: Time): Entry {
    var policy := PolicyFor(config, ModelOf(key));
    Entry(generation, value, now, now, SizeOf(key, value), Or(policy.ttl, config.ttl) as real,
          Seconds(Either(policy.tti, config.tti)), Seconds(Either(policy.refresh, config.refresh)))
  }

  // A listed model's own settings decide where it has them, the general ones elsewhere; a value is refused
  // exactly when caching is off for it, no entry is allowed, or it is too large for a limit that applies.
  lemma RefusedIff(config: Config, key: string, bytes: nat)
    ensures var m := ModelOf(key); var own := if m in config.models then config.models[m] else NO_POLICY;
            Refuses(config, key, bytes) <==>
              !config.enabled || config.multiInstance || own.enabled == Some(false) ||
              config.maxEntries == 0 || own.maxEntries == Some(0) ||
              bytes > config.maxBytes || bytes > config.maxEntryBytes ||
              (own.maxBytes.Some? && bytes > own.maxBytes.value) || (own.maxEntryBytes.Some? && bytes > own.maxEntryBytes.value)
  {
  }

  // --- Age ---

  function Since(now: Time, earlier: Time): Time { if now <= earlier then 0.0 else now - earlier }

  predicate Expired(e: Entry, now: Time) {
    Since(now, e.inserted) >= e.ttl || (e.tti.Some? && Since(now, e.accessed) >= e.tti.value)
  }

  // When an entry that is not used again expires.
  function Until(e: Entry): Time {
    var oldest := e.inserted + e.ttl;
    if e.tti.Some? && e.accessed + e.tti.value < oldest then e.accessed + e.tti.value else oldest
  }

  // Up to then, and no longer, whatever the clock has done in between.
  lemma ExpiredIff(e: Entry, now: Time)
    requires e.ttl > 0.0 && (e.tti.Some? ==> e.tti.value > 0.0)
    ensures Expired(e, now) <==> now >= Until(e)
  {
  }

  predicate RefreshDue(e: Entry, now: Time) { e.refresh.Some? && Since(now, e.inserted) >= e.refresh.value }

  // An entry a lookup throws away: expired or, in strong mode, from before the last write.
  predicate Outdated(config: Config, generation: nat, e: Entry, now: Time) {
    Expired(e, now) || (config.mode == Strong && e.generation != generation)
  }

  predicate Answers(config: Config, generation: nat, entries: Entries, key: string, now: Time) {
    Enabled(config, key) && key in entries && !Outdated(config, generation, entries[key], now) && !RefreshDue(entries[key], now)
  }

  // The entries a lookup leaves behind.
  function Probed(config: Config, generation: nat, entries: Entries, key: string, now: Time): Entries {
    if !Enabled(config, key) || key !in entries then entries
    else if Outdated(config, generation, entries[key], now) then entries - {key}
    else if RefreshDue(entries[key], now) then entries
    else entries[key := entries[key].(accessed := now)]
  }

  function Aged(entries: Entries, now: Time): set<string> {
    set k | k in entries && Expired(entries[k], now)
  }

  // --- Accounting ---

  ghost function Total(entries: Entries): nat {
    if entries == map[] then 0
    else
      var k :| k in entries;
      entries[k].bytes + Total(entries - {k})
  }

  lemma {:induction false} TotalRemove(entries: Entries, k: string)
    requires k in entries
    ensures Total(entries) == entries[k].bytes + Total(entries - {k})
    decreases |entries|
  {
    var c :| c in entries && Total(entries) == entries[c].bytes + Total(entries - {c});
    if c != k {
      TotalRemove(entries - {c}, k);
      TotalRemove(entries - {k}, c);
      assert entries - {c} - {k} == entries - {k} - {c};
    }
  }

  lemma TotalPut(entries: Entries, k: string, e: Entry)
    requires k !in entries
    ensures Total(entries[k := e]) == Total(entries) + e.bytes && |entries[k := e]| == |entries| + 1
  {
    TotalRemove(entries[k := e], k);
    assert entries[k := e] - {k} == entries;
    assert entries[k := e].Keys == entries.Keys + {k};
  }

  lemma SizeRemove(entries: Entries, k: string)
    requires k in entries
    ensures |entries - {k}| == |entries| - 1
  {
    assert (entries - {k}).Keys == entries.Keys - {k};
  }

  ghost function Group(entries: Entries, model: string): Entries {
    map k | k in entries && InModel(k, model) :: entries[k]
  }

  lemma GroupRemove(entries: Entries, k: string, model: string)
    ensures Group(entries - {k}, model) == Group(entries, model) - {k}
  {
  }

  lemma GroupPut(entries: Entries, k: string, e: Entry, model: string)
    requires ':' !in model
    ensures Group(entries[k := e], model) == if InModel(k, model) then Group(entries, model)[k := e] else Group(entries, model)
    ensures InModel(k, model) ==> model == ModelOf(k)
  {
    if InModel(k, model) { ModelIsUnique(k, model); }
  }

  // What one model may hold.
  ghost predicate WithinModel(config: Config, entries: Entries, model: string) {
    |Group(entries, model)| <= EntryLimit(config, model) && Total(Group(entries, model)) <= ByteLimit(config, model)
  }

  // The limits that hold between any two calls.
  ghost predicate WithinLimits(config: Config, entries: Entries) {
    |entries| <= config.maxEntries && Total(entries) <= config.maxBytes &&
    forall model :: ':' !in model ==> WithinModel(config, entries, model)
  }

  // What the limits say of a listed model, and of any other.
  lemma LimitsByPolicy(config: Config, entries: Entries, model: string)
    requires WithinLimits(config, entries) && ':' !in model
    ensures model in config.models && config.models[model].maxEntries.Some? ==> |Group(entries, model)| <= config.models[model].maxEntries.value
    ensures model in config.models && config.models[model].maxBytes.Some? ==> Total(Group(entries, model)) <= config.models[model].maxBytes.value
    ensures |Group(entries, model)| <= |entries| <= config.maxEntries && Total(Group(entries, model)) <= Total(entries) <= config.maxBytes
  {
    assert WithinModel(config, entries, model);
    FewerWeighLess(entries, Group(entries, model));
  }

  lemma {:induction false} FewerWeighLess(entries: Entries, fewer: Entries)
    requires forall k <- fewer :: k in entries && fewer[k].bytes == entries[k].bytes
    ensures Total(fewer) <= Total(entries) && |fewer| <= |entries|
    decreases |fewer|
  {
    if fewer != map[] {
      var k :| k in fewer;
      SizeRemove(fewer, k);
      SizeRemove(entries, k);
      TotalRemove(fewer, k);
      TotalRemove(entries, k);
      FewerWeighLess(entries - {k}, fewer - {k});
    }
  }

  // Dropping entries, or touching them, breaks no limit.
  lemma FewerStayWithin(config: Config, entries: Entries, fewer: Entries)
    requires WithinLimits(config, entries)
    requires forall k <- fewer :: k in entries && fewer[k].bytes == entries[k].bytes
    ensures WithinLimits(config, fewer)
  {
    FewerWeighLess(entries, fewer);
    forall model | ':' !in model ensures WithinModel(config, fewer, model) {
      assert WithinModel(config, entries, model);
      FewerWeighLess(Group(entries, model), Group(fewer, model));
    }
  }

  // Adding an entry to a cache with room for it, in all and in its model, breaks no limit.
  lemma PutStaysWithin(config: Config, entries: Entries, key: string, e: Entry)
    requires WithinLimits(config, entries) && key !in entries
    requires |entries| < config.maxEntries && Total(entries) + e.bytes <= config.maxBytes
    requires |Group(entries, ModelOf(key))| < EntryLimit(config, ModelOf(key))
    requires Total(Group(entries, ModelOf(key))) + e.bytes <= ByteLimit(config, ModelOf(key))
    ensures WithinLimits(config, entries[key := e])
  {
    TotalPut(entries, key, e);
    forall model | ':' !in model ensures WithinModel(config, entries[key := e], model) {
      assert WithinModel(config, entries, model);
      GroupPut(entries, key, e, model);
      if InModel(key, model) { TotalPut(Group(entries, model), key, e); }
    }
  }

  // --- Keys without a colon ---

  lemma {:induction false} ModelOfIff(key: string, model: string)
    ensures ModelOf(key) == model <==> ':' !in model && (InModel(key, model) || key == model)
  {
    if ModelOf(key) == model {
      OwnModel(key);
    } else if ':' !in model {
      if InModel(key, model) { ModelIsUnique(key, model); }
      if key == model { OwnModel(key); }
    }
  }

  lemma {:induction false} OwnModel(key: string)
    ensures if ':' in key then InModel(key, ModelOf(key)) else ModelOf(key) == key
  {
    if key != [] {
      assert key == [key[0]] + key[1..];
      OwnModel(key[1..]);
      if key[0] != ':' && ':' in key {
        assert ModelOf(key) + ":" == [key[0]] + (ModelOf(key[1..]) + ":");
      }
    }
  }

  lemma ModelKeyHasColon(key: string, model: string)
    requires InModel(key, model)
    ensures ':' in key
  {
    assert key[|model|] == (model + ":")[|model|];
  }

  // An entry under such a key is counted in no model's share.
  lemma BareKeyIsNotCounted(entries: Entries, key: string, e: Entry, model: string)
    requires ':' !in key
    ensures !InModel(key, model) && Group(entries[key := e], model) == Group(entries, model) == Group(entries - {key}, model)
  {
    if InModel(key, model) { ModelKeyHasColon(key, model); }
  }

  // The entries a model's policy governs, counted or not.
  ghost function Governed(entries: Entries, model: string): Entries {
    map k | k in entries && ModelOf(k) == model :: entries[k]
  }

  // They are the model's share and, if it is there, the entry under the model's bare name.
  lemma GovernedCounts(entries: Entries, model: string)
    requires ':' !in model
    ensures model !in Group(entries, model)
    ensures |Governed(entries, model)| == |Group(entries, model)| + if model in entries then 1 else 0
    ensures Total(Governed(entries, model)) == Total(Group(entries, model)) + if model in entries then entries[model].bytes else 0
  {
    forall k | k in entries ensures ModelOf(k) == model <==> InModel(k, model) || k == model {
      ModelOfIff(k, model);
    }
    if model in entries {
      BareKeyIsNotCounted(entries, model, entries[model], model);
      TotalPut(Group(entries, model), model, entries[model]);
      assert Governed(entries, model) == Group(entries, model)[model := entries[model]];
    } else {
      assert Governed(entries, model) == Group(entries, model);
    }
  }

  // A model's policy is exceeded, by one entry and no more, exactly when its share is full and its bare
  // name is cached as well.
  lemma GovernedExceedsIff(config: Config, entries: Entries, model: string)
    requires WithinLimits(config, entries) && ':' !in model
    ensures |Governed(entries, model)| > EntryLimit(config, model) <==>
            model in entries && |Group(entries, model)| == EntryLimit(config, model)
    ensures |Governed(entries, model)| <= EntryLimit(config, model) + 1
    ensures Total(Governed(entries, model)) > ByteLimit(config, model) <==>
            model in entries && Total(Group(entries, model)) + entries[model].bytes > ByteLimit(config, model)
  {
    GovernedCounts(entries, model);
    assert WithinModel(config, entries, model);
  }

  // Keys as the program makes them all have one: then every model stays within its policy.
  lemma ColonKeysStayWithin(config: Config, entries: Entries, model: string)
    requires WithinLimits(config, entries) && ':' !in model && forall k <- entries :: ':' in k
    ensures Governed(entries, model) == Group(entries, model)
    ensures |Governed(entries, model)| <= EntryLimit(config, model) && Total(Governed(entries, model)) <= ByteLimit(config, model)
  {
    forall k | k in entries ensures ModelOf(k) == model <==> InModel(k, model) {
      ModelOfIff(k, model);
    }
    assert WithinModel(config, entries, model);
  }

  lemma TouchWeighsSame(entries: Entries, k: string, now: Time)
    requires k in entries
    ensures var touched := entries[k := entries[k].(accessed := now)];
            Total(touched) == Total(entries) && |touched| == |entries|
  {
    var touched := entries[k := entries[k].(accessed := now)];
    TotalRemove(entries, k);
    TotalRemove(touched, k);
    assert touched - {k} == entries - {k};
    SizeRemove(entries, k);
    SizeRemove(touched, k);
  }

  // --- Eviction ---

  predicate Oldest(entries: Entries, k: string) {
    k in entries && forall other <- entries :: entries[k].accessed <= entries[other].accessed
  }

  lemma {:induction false} OldestExists(entries: Entries) returns (k: string)
    requires entries != map[]
    ensures Oldest(entries, k)
    decreases |entries|
  {
    k :| k in entries;
    assert forall other <- entries :: other == k || other in entries - {k};
    if entries - {k} != map[] {
      SizeRemove(entries, k);
      var other := OldestExists(entries - {k});
      if entries[other].accessed < entries[k].accessed { k := other; }
    }
  }

  lemma OldestIsIn(entries: Entries, k: string)
    requires Oldest(entries, k)
    ensures k in entries
  {
  }

  // fewer is entries without some that were used no later than any that stay.
  ghost predicate EvictedOldest(entries: Entries, fewer: Entries) {
    (forall k <- fewer :: k in entries && fewer[k] == entries[k]) &&
    forall gone <- entries, kept <- fewer :: gone !in fewer ==> entries[gone].accessed <= entries[kept].accessed
  }

  lemma EvictOneMore(entries: Entries, fewer: Entries, k: string)
    requires EvictedOldest(entries, fewer) && Oldest(fewer, k)
    ensures EvictedOldest(entries, fewer - {k})
  {
  }

  lemma DropOne(entries: Entries, keys: set<string>, key: string)
    requires key in keys
    ensures (entries - {key}) - (keys - {key}) == entries - keys && |keys - {key}| == |keys| - 1
  {
  }

  lemma DropNothing(entries: Entries)
    ensures entries - {} == entries
  {
  }

  // --- Idle time ---

  // The entries after a key was looked up at these times.
  function Looks(config: Config, generation: nat, entries: Entries, key: string, times: seq<Time>): Entries {
    if times == [] then entries
    else Probed(config, generation, Looks(config, generation, entries, key, times[..|times| - 1]), key, times[|times| - 1])
  }

  function LastOr(times: seq<Time>, first: Time): Time { if times == [] then first else times[|times| - 1] }

  // Each lookup comes before the entry has been left alone for its idle time, and all of them before it is too
  // old or due for a refresh.
  ghost predicate Lively(e: Entry, times: seq<Time>) {
    forall i :: 0 <= i < |times| ==>
      e.inserted <= times[i] && LastOr(times[..i], e.accessed) <= times[i] && times[i] - e.inserted < e.ttl &&
      (e.tti.Some? ==> times[i] - LastOr(times[..i], e.accessed) < e.tti.value) &&
      (e.refresh.Some? ==> times[i] - e.inserted < e.refresh.value)
  }

  // A lookup of an entry that is still good answers and is its last use.
  lemma LookIsLastUse(config: Config, generation: nat, entries: Entries, key: string, now: Time)
    requires Enabled(config, key) && key in entries && (config.mode == Eventual || entries[key].generation == generation)
    requires var e := entries[key];
             e.inserted <= now && e.accessed <= now && now - e.inserted < e.ttl &&
             (e.tti.Some? ==> now - e.accessed < e.tti.value) && (e.refresh.Some? ==> now - e.inserted < e.refresh.value)
    ensures Answers(config, generation, entries, key, now)
    ensures Probed(config, generation, entries, key, now) == entries[key := entries[key].(accessed := now)]
  {
    hide ModelOf, PolicyFor, Enabled;
  }

  // Such an entry answers every one of them, however long they go on: each puts off its idle time.
  lemma {:induction false} LookupsKeepAlive(config: Config, generation: nat, entries: Entries, key: string, times: seq<Time>)
    requires Enabled(config, key) && key in entries && Lively(entries[key], times)
    requires config.mode == Eventual || entries[key].generation == generation
    ensures forall i :: 0 <= i < |times| ==> Answers(config, generation, Looks(config, generation, entries, key, times[..i]), key, times[i])
    ensures var after := Looks(config, generation, entries, key, times);
            key in after && after[key] == entries[key].(accessed := LastOr(times, entries[key].accessed))
  {
    if times != [] {
      hide Answers, Probed, Enabled;
      var n := |times| - 1;
      var front := times[..n];
      assert forall i :: 0 <= i <= n ==> front[..i] == times[..i];
      LookupsKeepAlive(config, generation, entries, key, front);
      assert LastOr(times[..n], entries[key].accessed) <= times[n];
      LookIsLastUse(config, generation, Looks(config, generation, entries, key, front), key, times[n]);
    }
  }

  // --- Making room ---

  datatype Limits = Limits(entries: nat, bytes: nat)

  function CacheLimits(config: Config): Limits { Limits(config.maxEntries, config.maxBytes) }

  function ModelLimits(config: Config, model: string): Limits { Limits(EntryLimit(config, model), ByteLimit(config, model)) }

  // One more entry of this size fits.
  ghost predicate Room(limits: Limits, entries: Entries, bytes: nat) {
    |entries| < limits.entries && Total(entries) + bytes <= limits.bytes
  }

  // The oldest entries are gone, and no more of them than had to go: with the last one back there
  // would be no room.
  ghost predicate Trimmed(limits: Limits, entries: Entries, fewer: Entries, bytes: nat) {
    Trimming(limits, entries, fewer, bytes) && Room(limits, fewer, bytes)
  }

  ghost predicate Trimming(limits: Limits, entries: Entries, fewer: Entries, bytes: nat) {
    EvictedOldest(entries, fewer) &&
    (fewer != entries ==> exists last <- entries :: last !in fewer && !Room(limits, fewer[last := entries[last]], bytes))
  }

  // A fill: what is too old goes, then the oldest of all while the cache is full, then the oldest of
  // the key's own model while that is; everything else stays, and the new entry is in.
  ghost predicate Filled(config: Config, entries: Entries, after: Entries, key: string, e: Entry, now: Time) {
    exists roomy, kept ::
      Trimmed(CacheLimits(config), entries - Aged(entries, now) - {key}, roomy, e.bytes) &&
      TrimmedModel(config, roomy, kept, ModelOf(key), e.bytes) && after == kept[key := e]
  }

  ghost predicate TrimmedModel(config: Config, entries: Entries, fewer: Entries, model: string, bytes: nat) {
    Trimmed(ModelLimits(config, model), Group(entries, model), Group(fewer, model), bytes) &&
    fewer.Keys <= entries.Keys &&
    forall k <- entries :: !InModel(k, model) ==> k in fewer && fewer[k] == entries[k]
  }

  lemma TrimOneMore(limits: Limits, entries: Entries, fewer: Entries, bytes: nat, k: string)
    requires Trimming(limits, entries, fewer, bytes) && Oldest(fewer, k) && !Room(limits, fewer, bytes)
    ensures Trimming(limits, entries, fewer - {k}, bytes) && |fewer - {k}| == |fewer| - 1
  {
    EvictOneMore(entries, fewer, k);
    SizeRemove(fewer, k);
    assert (fewer - {k})[k := entries[k]] == fewer;
  }

  lemma StartTrimming(limits: Limits, entries: Entries, bytes: nat)
    ensures Trimming(limits, entries, entries, bytes)
  {
  }

  lemma TrimExists(limits: Limits, entries: Entries, bytes: nat) returns (fewer: Entries)
    requires Room(limits, map[], bytes)
    ensures Trimmed(limits, entries, fewer, bytes)
  {
    hide Trimming, Total;
    fewer := entries;
    StartTrimming(limits, entries, bytes);
    while !Room(limits, fewer, bytes)
      invariant Trimming(limits, entries, fewer, bytes)
      decreases |fewer|
    {
      var k := OldestExists(fewer);
      TrimOneMore(limits, entries, fewer, bytes, k);
      fewer := fewer - {k};
    }
  }

  // Whatever is not refused can be filled in, whatever the cache holds.
  lemma FillExists(config: Config, entries: Entries, key: string, e: Entry, now: Time) returns (after: Entries)
    requires !Refuses(config, key, e.bytes)
    ensures Filled(config, entries, after, key, e, now)
  {
    hide Trimmed, Room, Refuses;
    EmptyHasRoom(config, key, e.bytes);
    var model := ModelOf(key);
    var roomy := TrimExists(CacheLimits(config), entries - Aged(entries, now) - {key}, e.bytes);
    var group := TrimExists(ModelLimits(config, model), Group(roomy, model), e.bytes);
    var kept := map k | k in roomy && (InModel(k, model) ==> k in group) :: roomy[k];
    TrimmedIsFewer(ModelLimits(config, model), Group(roomy, model), group, e.bytes);
    assert Group(kept, model) == group;
    assert TrimmedModel(config, roomy, kept, model, e.bytes);
    after := kept[key := e];
  }

  lemma TrimmedIsFewer(limits: Limits, entries: Entries, fewer: Entries, bytes: nat)
    requires Trimmed(limits, entries, fewer, bytes)
    ensures forall k <- fewer :: k in entries && fewer[k] == entries[k]
  {
  }

  // Trimming to make room never runs out of entries: an empty cache has room for anything not refused.
  lemma EmptyHasRoom(config: Config, key: string, bytes: nat)
    requires !Refuses(config, key, bytes)
    ensures Room(CacheLimits(config), map[], bytes) && Room(ModelLimits(config, ModelOf(key)), map[], bytes)
  {
  }

  lemma KeptAsWas(config: Config, entries: Entries, fewer: Entries, model: string, bytes: nat)
    requires TrimmedModel(config, entries, fewer, model, bytes)
    ensures forall k <- fewer :: k in entries && fewer[k] == entries[k]
  {
    forall k <- fewer ensures k in entries && fewer[k] == entries[k] {
      if InModel(k, model) { assert k in Group(fewer, model); }
    }
  }

  lemma FillStaysWithin(config: Config, entries: Entries, own: Entries, roomy: Entries, kept: Entries, key: string, e: Entry)
    requires WithinLimits(config, entries) && key !in own && forall k <- own :: k in entries && own[k] == entries[k]
    requires Trimmed(CacheLimits(config), own, roomy, e.bytes) && TrimmedModel(config, roomy, kept, ModelOf(key), e.bytes)
    ensures key !in kept && WithinLimits(config, kept[key := e])
  {
    KeptAsWas(config, roomy, kept, ModelOf(key), e.bytes);
    FewerWeighLess(roomy, kept);
    FewerStayWithin(config, entries, kept);
    PutStaysWithin(config, kept, key, e);
  }

  lemma TrimmedLeaves(config: Config, entries: Entries, after: Entries, key: string, e: Entry, now: Time)
    requires Filled(config, entries, after, key, e, now)
    ensures key in after && after[key] == e
    ensures forall k <- after :: k != key ==> k in entries && after[k] == entries[k]
  {
    hide TrimmedModel, Room;
    var roomy, kept :| Trimmed(CacheLimits(config), entries - Aged(entries, now) - {key}, roomy, e.bytes) &&
      TrimmedModel(config, roomy, kept, ModelOf(key), e.bytes) && after == kept[key := e];
    KeptAsWas(config, roomy, kept, ModelOf(key), e.bytes);
  }

  // Of what was not expired, what is gone after a fill was last used no later than anything kept in the same
  // pool: the whole cache, or the key's own model.
  lemma FilledEvictsOldest(config: Config, entries: Entries, after: Entries, key: string, e: Entry, now: Time, gone: string, kept: string)
    requires Filled(config, entries, after, key, e, now)
    requires gone in entries && gone != key && !Expired(entries[gone], now) && gone !in after
    requires kept in after && kept != key && (InModel(kept, ModelOf(key)) || !InModel(gone, ModelOf(key)))
    ensures kept in entries && entries[gone].accessed <= entries[kept].accessed
  {
    hide Room, InModel, Expired;
    var model := ModelOf(key);
    var own := entries - Aged(entries, now) - {key};
    var roomy, left :| Trimmed(CacheLimits(config), own, roomy, e.bytes) && TrimmedModel(config, roomy, left, model, e.bytes) && after == left[key := e];
    KeptAsWas(config, roomy, left, model, e.bytes);
    assert gone in own && kept in roomy;
    if gone in roomy {
      assert InModel(gone, model);
      assert gone in Group(roomy, model) && gone !in Group(left, model) && kept in Group(left, model);
    }
  }

  // Where there is room already, nothing is evicted.
  lemma RoomKeepsAll(limits: Limits, entries: Entries, fewer: Entries, bytes: nat)
    requires Trimmed(limits, entries, fewer, bytes) && Room(limits, entries, bytes)
    ensures fewer == entries
  {
    if fewer != entries {
      var last :| last in entries && last !in fewer && !Room(limits, fewer[last := entries[last]], bytes);
      FewerWeighLess(entries, fewer[last := entries[last]]);
    }
  }

  lemma FillIntoRoom(config: Config, entries: Entries, after: Entries, key: string, e: Entry, now: Time)
    requires Filled(config, entries, after, key, e, now)
    requires var own := entries - Aged(entries, now) - {key};
             Room(CacheLimits(config), own, e.bytes) && Room(ModelLimits(config, ModelOf(key)), Group(own, ModelOf(key)), e.bytes)
    ensures after == (entries - Aged(entries, now) - {key})[key := e]
  {
    hide Trimmed, Room, Aged;
    var own := entries - Aged(entries, now) - {key};
    var roomy, kept :| Trimmed(CacheLimits(config), own, roomy, e.bytes) &&
      TrimmedModel(config, roomy, kept, ModelOf(key), e.bytes) && after == kept[key := e];
    RoomKeepsAll(CacheLimits(config), own, roomy, e.bytes);
    RoomKeepsAll(ModelLimits(config, ModelOf(key)), Group(own, ModelOf(key)), Group(kept, ModelOf(key)), e.bytes);
    KeptAsWas(config, roomy, kept, ModelOf(key), e.bytes);
    forall k | k in roomy ensures k in kept {
      if InModel(k, ModelOf(key)) { assert k in Group(kept, ModelOf(key)); }
    }
    assert kept == own;
  }

  class ReadCache {
    const config: Config
    var generation: nat
    var entries: Entries
    var metrics: Metrics

    // The figures are exact and the limits hold.
    ghost predicate Valid()
      reads this
    {
      Exact() && WithinLimits(config, entries)
    }

    ghost predicate Exact()
      reads this
    {
      metrics.estimatedBytes == Total(entries) && metrics.entries == |entries|
    }

    constructor (config: Config)
      ensures Valid() && this.config == config && entries == map[] && generation == 0
    {
      this.config := config;
      generation := 0;
      entries := map[];
      metrics := Metrics(0, 0, 0, 0, 0, 0, 0, 0, 0);
      new;
      assert forall model :: Group(map[], model) == map[];
    }

    method Remove(key: string)
      requires Exact()
      modifies this`entries, this`metrics
      ensures Exact() && entries == old(entries) - {key}
      ensures OnlyFigures(old(metrics)) && metrics.expired == old(metrics.expired) && metrics.evicted == old(metrics.evicted)
    {
      if key in entries {
        TotalRemove(entries, key);
        SizeRemove(entries, key);
        metrics := metrics.(estimatedBytes := metrics.estimatedBytes - entries[key].bytes);
      } else {
        assert entries - {key} == entries;
      }
      entries := entries - {key};
      metrics := metrics.(entries := |entries|);
    }

    ghost predicate OnlyFigures(before: Metrics)
      reads this
    {
      metrics == before.(entries := metrics.entries, estimatedBytes := metrics.estimatedBytes,
                         expired := metrics.expired, evicted := metrics.evicted)
    }

    // Drops everything expired.
    method Reclaim(now: Time)
      requires Exact()
      modifies this`entries, this`metrics
      ensures Exact() && entries == old(entries) - Aged(old(entries), now)
      ensures OnlyFigures(old(metrics)) && metrics.evicted == old(metrics.evicted)
      ensures metrics.expired == old(metrics.expired) + |Aged(old(entries), now)|
    {
      hide Total, Aged, Expired;
      var keys := Aged(entries, now);
      ghost var before := entries;
      ghost var count := metrics.expired + |keys|;
      while keys != {}
        invariant Exact() && OnlyFigures(old(metrics)) && metrics.evicted == old(metrics.evicted)
        invariant entries - keys == before - Aged(before, now)
        invariant metrics.expired + |keys| == count
      {
        var key :| key in keys;
        DropOne(entries, keys, key);
        Remove(key);
        metrics := metrics.(expired := metrics.expired + 1);
        keys := keys - {key};
      }
      DropNothing(entries);
    }

    // What a lookup returns and leaves behind.
    method Get(key: string, now: Time) returns (found: Option<Doc>)
      requires Valid()
      modifies this`entries, this`metrics
      ensures Valid() && entries == Probed(config, generation, old(entries), key, now)
      ensures found == if Answers(config, generation, old(entries), key, now) then Some(old(entries)[key].data) else None
      ensures found.Some? ==> entries == old(entries)[key := old(entries)[key].(accessed := now)]
      ensures found.None? ==> entries == old(entries) || entries == old(entries) - {key}
      ensures var before := old(metrics);
              metrics.skipped == before.skipped + (if Enabled(config, key) then 0 else 1) &&
              metrics.hits == before.hits + (if found.Some? then 1 else 0) &&
              metrics.misses == before.misses + (if found.None? && Enabled(config, key) then 1 else 0) &&
              metrics.expired == before.expired
                + (if Enabled(config, key) && key in old(entries) && Outdated(config, generation, old(entries)[key], now) then 1 else 0)
    {
      hide Total, WithinModel;
      if !Enabled(config, key) {
        metrics := metrics.(skipped := metrics.skipped + 1);
        return None;
      }
      ghost var before := entries;
      if key in entries && Outdated(config, generation, entries[key], now) {
        Remove(key);
        metrics := metrics.(expired := metrics.expired + 1);
        FewerStayWithin(config, before, entries);
      }
      if key in entries && !RefreshDue(entries[key], now) {
        var entry := entries[key];
        TouchWeighsSame(entries, key, now);
        entries := entries[key := entry.(accessed := now)];
        FewerStayWithin(config, before, entries);
        metrics := metrics.(hits := metrics.hits + 1);
        return Some(entry.data);
      }
      metrics := metrics.(misses := metrics.misses + 1);
      return None;
    }

    // Evicts the least recently used entries until one more of this size fits.
    method MakeRoom(bytes: nat)
      requires Exact() && Room(CacheLimits(config), map[], bytes)
      modifies this`entries, this`metrics
      ensures Exact() && Trimmed(CacheLimits(config), old(entries), entries, bytes)
      ensures OnlyFigures(old(metrics)) && metrics.expired == old(metrics.expired)
      ensures metrics.evicted + |entries| == old(metrics.evicted) + |old(entries)|
    {
      hide Total, Trimming;
      ghost var limits := CacheLimits(config);
      StartTrimming(limits, entries, bytes);
      while |entries| >= config.maxEntries || metrics.estimatedBytes + bytes > config.maxBytes
        invariant Exact() && Trimming(limits, old(entries), entries, bytes)
        invariant OnlyFigures(old(metrics)) && metrics.expired == old(metrics.expired)
        invariant metrics.evicted + |entries| == old(metrics.evicted) + |old(entries)|
        decreases |entries|
      {
        if entries == map[] {
          break;
        }
        ghost var least := OldestExists(entries);
        var oldest :| Oldest(entries, oldest);
        TrimOneMore(limits, old(entries), entries, bytes, oldest);
        Remove(oldest);
        metrics := metrics.(evicted := metrics.evicted + 1);
      }
    }

    // Evicts the least recently used entries of one model until one more of this size fits there.
    method MakeModelRoom(model: string, bytes: nat)
      requires Exact() && Room(ModelLimits(config, model), map[], bytes)
      modifies this`entries, this`metrics
      ensures Exact() && TrimmedModel(config, old(entries), entries, model, bytes)
      ensures OnlyFigures(old(metrics)) && metrics.expired == old(metrics.expired)
      ensures metrics.evicted + |entries| == old(metrics.evicted) + |old(entries)|
    {
      hide Total, Trimming, Oldest;
      ghost var limits := ModelLimits(config, model);
      ghost var before := Group(entries, model);
      StartTrimming(limits, before, bytes);
      while true
        invariant Exact() && Trimming(limits, before, Group(entries, model), bytes)
        invariant entries.Keys <= old(entries).Keys
        invariant forall k <- old(entries) :: !InModel(k, model) ==> k in entries && entries[k] == old(entries)[k]
        invariant OnlyFigures(old(metrics)) && metrics.expired == old(metrics.expired)
        invariant metrics.evicted + |entries| == old(metrics.evicted) + |old(entries)|
        decreases |entries|
      {
        var group := map k | k in entries && InModel(k, model) :: entries[k];
        assert group == Group(entries, model);
        var held := SumBytes(group);
        if |group| < EntryLimit(config, model) && held + bytes <= ByteLimit(config, model) {
          break;
        }
        if group == map[] {
          break;
        }
        ghost var least := OldestExists(group);
        var oldest :| Oldest(group, oldest);
        TrimOneMore(limits, before, group, bytes, oldest);
        OldestIsIn(group, oldest);
        GroupRemove(entries, oldest, model);
        SizeRemove(entries, oldest);
        Remove(oldest);
        metrics := metrics.(evicted := metrics.evicted + 1);
      }
    }

    // A computed answer enters the cache, unless a write came between or it is refused.
    method SetIfGeneration(key: string, value: Doc, readAt: nat, now: Time, later: Time)
      requires Valid()
      modifies this`entries, this`metrics
      ensures Valid()
      ensures var bytes := SizeOf(key, value); var before := old(metrics);
              if readAt != generation then
                entries == old(entries) && metrics == before.(staleFillsRejected := before.staleFillsRejected + 1)
              else if Refuses(config, key, bytes) then
                entries == old(entries) && metrics == before.(skipped := before.skipped + 1)
              else
                Filled(config, old(entries), entries, key, FreshEntry(config, key, value, readAt, later), now) &&
                OnlyFigures(before) && metrics.expired == before.expired + |Aged(old(entries), now)| &&
                metrics.evicted + |entries| == before.evicted + |old(entries) - Aged(old(entries), now) - {key}| + 1 &&
                key in entries && entries[key].data == value && entries[key].bytes == |value.json| + |key| + 128 &&
                entries[key].generation == readAt && entries[key].inserted == entries[key].accessed == later
    {
      hide Total, Trimmed, TrimmedModel, WithinModel, Refuses, WithinLimits;
      if readAt != generation {
        metrics := metrics.(staleFillsRejected := metrics.staleFillsRejected + 1);
        return;
      }
      var bytes := SizeOf(key, value);
      if Refuses(config, key, bytes) {
        metrics := metrics.(skipped := metrics.skipped + 1);
        return;
      }
      ghost var before := entries;
      EmptyHasRoom(config, key, bytes);
      Reclaim(now);
      Remove(key);
      ghost var own := entries;
      MakeRoom(bytes);
      ghost var roomy := entries;
      MakeModelRoom(ModelOf(key), bytes);
      var entry := FreshEntry(config, key, value, readAt, later);
      FillStaysWithin(config, before, own, roomy, entries, key, entry);
      assert Filled(config, before, entries[key := entry], key, entry, now);
      Insert(key, entry);
    }

    method Insert(key: string, entry: Entry)
      requires Exact() && key !in entries && WithinLimits(config, entries[key := entry])
      modifies this`entries, this`metrics
      ensures Valid() && entries == old(entries)[key := entry]
      ensures OnlyFigures(old(metrics)) && metrics.expired == old(metrics.expired) && metrics.evicted == old(metrics.evicted)
    {
      TotalPut(entries, key, entry);
      entries := entries[key := entry];
      metrics := metrics.(estimatedBytes := metrics.estimatedBytes + entry.bytes);
      metrics := metrics.(entries := |entries|);
    }

    // A write advances the generation before anything can suspend it...
    method Bump()
      modifies this`generation
      ensures generation == old(generation) + 1
    {
      generation := generation + 1;
    }

    // ...and then, under the lock, in strong mode everything goes.
    method Clear()
      requires Valid()
      modifies this`entries, this`metrics
      ensures Valid() && entries == if config.mode == Strong then map[] else old(entries)
      ensures metrics == old(metrics).(invalidations := old(metrics.invalidations) + 1,
                                       entries := metrics.entries, estimatedBytes := metrics.estimatedBytes)
    {
      metrics := metrics.(invalidations := metrics.invalidations + 1);
      if config.mode == Strong {
        FewerStayWithin(config, entries, map[]);
        entries := map[];
        metrics := metrics.(entries := 0);
        metrics := metrics.(estimatedBytes := 0);
      }
    }

    method InvalidateModel(model: string)
      requires Valid()
      modifies this`generation, this`entries, this`metrics
      ensures Valid() && generation == old(generation) + 1
      ensures entries == if config.mode == Strong then map[] else old(entries)
      ensures metrics == old(metrics).(invalidations := old(metrics.invalidations) + 1,
                                       entries := metrics.entries, estimatedBytes := metrics.estimatedBytes)
    {
      Bump();
      Clear();
    }

    method Invalidate(key: string)
      requires Valid()
      modifies this`generation, this`entries, this`metrics
      ensures Valid() && generation == old(generation) + 1 && entries == old(entries) - {key}
    {
      Bump();
      FewerStayWithin(config, entries, entries - {key});
      Remove(key);
    }

    method EvictExpired(now: Time)
      requires Valid()
      modifies this`entries, this`metrics
      ensures Valid() && entries == old(entries) - Aged(old(entries), now)
      ensures forall k <- old(entries) :: old(entries)[k].ttl > 0.0 && (old(entries)[k].tti.Some? ==> old(entries)[k].tti.value > 0.0) ==>
                (k in entries <==> now < Until(old(entries)[k]))
    {
      FewerStayWithin(config, entries, entries - Aged(entries, now));
      Reclaim(now);
      forall k <- old(entries) | old(entries)[k].ttl > 0.0 && (old(entries)[k].tti.Some? ==> old(entries)[k].tti.value > 0.0)
        ensures k in entries <==> now < Until(old(entries)[k]) {
        ExpiredIff(old(entries)[k], now);
      }
    }
  }

  function OneEntryConfig(): Config {
    Config(true, Eventual, 60, None, 10, 10000, 10000, None, false, map["a" := NO_POLICY.(maxEntries := Some(1))])
  }

  lemma ModelsOfExample()
    ensures ModelOf("a") == "a" == ModelOf("a:x") && InModel("a:x", "a")
  {
    ModelOfIff("a", "a");
    ModelOfIff("a:x", "a");
  }

  lemma FirstFill(after: Entries, e: Entry)
    requires e.bytes == SizeOf("a", Doc("")) && Filled(OneEntryConfig(), map[], after, "a", e, 0.0)
    ensures after == map["a" := e]
  {
    ModelsOfExample();
    assert map[] - Aged(map[], 0.0) - {"a"} == map[] == Group(map[], "a");
    FillIntoRoom(OneEntryConfig(), map[], after, "a", e, 0.0);
  }

  lemma SecondFill(after: Entries, first: Entry, e: Entry)
    requires first.bytes == SizeOf("a", Doc("")) && e.bytes == SizeOf("a:x", Doc("")) && !Expired(first, 0.0)
    requires Filled(OneEntryConfig(), map["a" := first], after, "a:x", e, 0.0)
    ensures after == map["a" := first, "a:x" := e]
  {
    hide Filled, Room, Expired, Group, Total, InModel;
    ModelsOfExample();
    var held := map["a" := first];
    assert Aged(held, 0.0) == {} && held - {} - {"a:x"} == held;
    SecondHasRoom(first, e);
    FillIntoRoom(OneEntryConfig(), held, after, "a:x", e, 0.0);
  }

  lemma SecondHasRoom(first: Entry, e: Entry)
    requires first.bytes == SizeOf("a", Doc("")) && e.bytes == SizeOf("a:x", Doc(""))
    ensures Room(CacheLimits(OneEntryConfig()), map["a" := first], e.bytes)
    ensures Room(ModelLimits(OneEntryConfig(), "a"), Group(map["a" := first], "a"), e.bytes)
  {
    BareKeyIsNotCounted(map[], "a", first, "a");
    TotalPut(map[], "a", first);
    assert map[]["a" := first] == map["a" := first] && Group(map[], "a") == map[];
  }

  // One entry allowed to model "a", two held: under its bare name and under a key of its own.
  method BareKeyOverfills() returns (cache: ReadCache)
    ensures cache.Valid() && EntryLimit(cache.config, "a") == 1 && |Governed(cache.entries, "a")| == 2
  {
    hide Total, WithinModel, WithinLimits, Filled, Governed;
    ModelsOfExample();
    cache := new ReadCache(OneEntryConfig());
    cache.SetIfGeneration("a", Doc(""), 0, 0.0, 0.0);
    ghost var first, second := FreshEntry(OneEntryConfig(), "a", Doc(""), 0, 0.0), FreshEntry(OneEntryConfig(), "a:x", Doc(""), 0, 0.0);
    FirstFill(cache.entries, first);
    cache.SetIfGeneration("a:x", Doc(""), 0, 0.0, 0.0);
    SecondFill(cache.entries, first, second);
    GovernedCounts(cache.entries, "a");
    ExampleShare(cache.entries, first, second);
  }

  lemma ExampleShare(entries: Entries, first: Entry, second: Entry)
    requires entries == map["a" := first, "a:x" := second]
    ensures |Group(entries, "a")| == 1
  {
    ModelsOfExample();
    BareKeyIsNotCounted(entries, "a", first, "a");
    assert Group(entries, "a") == map["a:x" := second];
  }

  method SumBytes(entries: Entries) returns (sum: nat)
    ensures sum == Total(entries)
  {
    sum := 0;
    var rest := entries;
    while rest != map[]
      invariant sum + Total(rest) == Total(entries)
      decreases |rest|
    {
      var k :| k in rest;
      TotalRemove(rest, k);
      SizeRemove(rest, k);
      sum := sum + rest[k].bytes;
      rest := rest - {k};
    }
  }
}
