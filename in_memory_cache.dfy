/** The strategy's in-memory cache (src/storage/in_memory_cache.py, `InMemoryCache`): one
  * dictionary whose keys carry a kind prefix, with no expiry. Configurations, the last-run
  * timestamp, models and scalers are cleared whenever the recorded configuration version changes;
  * the version key itself survives a clear. */
module InMemoryCaches {
  import opened Wrappers
  import opened Texts
  import opened Json
  import opened Oracles

  const PrefixConfig: string := "strategy:config:"
  const PrefixTimestamp: string := "strategy:timestamp:"
  const PrefixModel: string := "strategy:model:"
  const PrefixScaler: string := "strategy:scaler:"
  const PrefixVersion: string := "strategy:version:"

  function ConfigKey(version: string): string { PrefixConfig + version }
  function ModelKey(path: string): string { PrefixModel + path }
  function ScalerKey(path: string): string { PrefixScaler + path }
  const TimestampKey: string := PrefixTimestamp + "last_run"
  const VersionKey: string := PrefixVersion + "current"

  /** The kind of a key, decided by its prefix in the order the cache tests them. */
  datatype Kind = ConfigKind | TimestampKind | ModelKind | ScalerKind | VersionKind | OtherKind

  function KindOf(key: string): Kind {
    if StartsWith(key, PrefixConfig) then ConfigKind
    else if StartsWith(key, PrefixTimestamp) then TimestampKind
    else if StartsWith(key, PrefixModel) then ModelKind
    else if StartsWith(key, PrefixScaler) then ScalerKind
    else if StartsWith(key, PrefixVersion) then VersionKind
    else OtherKind
  }

  /** The kinds `clear_all_caches` removes: all but versions (and keys of no kind). */
  predicate Removable(kd: Kind) {
    kd in {ConfigKind, TimestampKind, ModelKind, ScalerKind}
  }

  /** The name a kind is counted under, in the cleared counts and in the statistics. */
  function Category(kd: Kind): string {
    match kd
    case ConfigKind => "configs"
    case TimestampKind => "timestamps"
    case ModelKind => "models"
    case ScalerKind => "scalers"
    case VersionKind => "versions"
    case OtherKind => ""
  }

  /** The prefixes all begin `strategy:` and differ in the character after it. */
  lemma PrefixKind(prefix: string, rest: string)
    requires prefix in {PrefixConfig, PrefixTimestamp, PrefixModel, PrefixScaler, PrefixVersion}
    ensures KindOf(prefix + rest) ==
              if prefix == PrefixConfig then ConfigKind
              else if prefix == PrefixTimestamp then TimestampKind
              else if prefix == PrefixModel then ModelKind
              else if prefix == PrefixScaler then ScalerKind
              else VersionKind
  {
    var s := prefix + rest;
    assert s[..|prefix|] == prefix;
    assert s[9] == prefix[9];
  }

  /** Every key the cache writes has the kind of its prefix. */
  lemma {:induction false} KeyKinds(name: string)
    ensures KindOf(ConfigKey(name)) == ConfigKind && KindOf(ModelKey(name)) == ModelKind
    ensures KindOf(ScalerKey(name)) == ScalerKind
    ensures KindOf(TimestampKey) == TimestampKind && KindOf(VersionKey) == VersionKind
  {
    PrefixKind(PrefixConfig, name);
    PrefixKind(PrefixModel, name);
    PrefixKind(PrefixScaler, name);
    PrefixKind(PrefixTimestamp, "last_run");
    PrefixKind(PrefixVersion, "current");
  }

  /** The same name used as a configuration version, a model path and a scaler path gives three
    * different keys, none of them the timestamp or the version key. */
  lemma NamesApart(name: string, other: string)
    ensures ConfigKey(name) != ModelKey(other) && ConfigKey(name) != ScalerKey(other)
    ensures ModelKey(name) != ScalerKey(other)
    ensures ConfigKey(name) != TimestampKey && ModelKey(name) != TimestampKey && ScalerKey(name) != TimestampKey
    ensures ConfigKey(name) != VersionKey && ModelKey(name) != VersionKey && ScalerKey(name) != VersionKey
  {
    KeyKinds(name);
    KeyKinds(other);
  }

  /** What the dictionary holds under a key (the source stores untyped values). */
  datatype Entry =
    | ConfigEntry(config: Json)
    | TimestampEntry(stamp: int)
    | ModelEntry(model: nat)
    | ScalerEntry(scaler: ScalerSet)
    | VersionEntry(version: string)

  /** Each key holds the value its prefix names. */
  predicate Fits(kd: Kind, e: Entry) {
    match kd
    case ConfigKind => e.ConfigEntry?
    case TimestampKind => e.TimestampEntry?
    case ModelKind => e.ModelEntry?
    case ScalerKind => e.ScalerEntry?
    case VersionKind => e.VersionEntry?
    case OtherKind => false
  }

  predicate WellKeyed(c: map<string, Entry>) {
    forall k :: k in c ==> Fits(KindOf(k), c[k])
  }

  /** `_cache.get(key)` read at each kind. */
  function ConfigIn(c: map<string, Entry>, version: string): Option<Json> {
    var k := ConfigKey(version);
    if k in c && c[k].ConfigEntry? then Some(c[k].config) else None
  }

  function ModelIn(c: map<string, Entry>, path: string): Option<nat> {
    var k := ModelKey(path);
    if k in c && c[k].ModelEntry? then Some(c[k].model) else None
  }

  function ScalerIn(c: map<string, Entry>, path: string): Option<ScalerSet> {
    var k := ScalerKey(path);
    if k in c && c[k].ScalerEntry? then Some(c[k].scaler) else None
  }

  function TimestampIn(c: map<string, Entry>): Option<int> {
    if TimestampKey in c && c[TimestampKey].TimestampEntry? then Some(c[TimestampKey].stamp) else None
  }

  function VersionIn(c: map<string, Entry>): Option<string> {
    if VersionKey in c && c[VersionKey].VersionEntry? then Some(c[VersionKey].version) else None
  }

  /** What a well-keyed cache answers is exactly what is stored: present exactly when the key is. */
  lemma {:induction false} ReadsStored(c: map<string, Entry>, name: string)
    requires WellKeyed(c)
    ensures ConfigIn(c, name).Some? <==> ConfigKey(name) in c
    ensures ModelIn(c, name).Some? <==> ModelKey(name) in c
    ensures ScalerIn(c, name).Some? <==> ScalerKey(name) in c
    ensures TimestampIn(c).Some? <==> TimestampKey in c
    ensures VersionIn(c).Some? <==> VersionKey in c
  {
    KeyKinds(name);
  }

  /** A stored configuration reads back, and no model, scaler, timestamp or version changes. */
  lemma {:induction false} ConfigRoundTrip(c: map<string, Entry>, version: string, data: Json, name: string)
    ensures var c' := c[ConfigKey(version) := ConfigEntry(data)];
            ConfigIn(c', version) == Some(data)
            && ModelIn(c', name) == ModelIn(c, name) && ScalerIn(c', name) == ScalerIn(c, name)
            && TimestampIn(c') == TimestampIn(c) && VersionIn(c') == VersionIn(c)
  {
    NamesApart(version, name);
  }

  /** A stored model reads back, and no configuration, scaler, timestamp or version changes. */
  lemma {:induction false} ModelRoundTrip(c: map<string, Entry>, path: string, model: nat, name: string)
    ensures var c' := c[ModelKey(path) := ModelEntry(model)];
            ModelIn(c', path) == Some(model)
            && ConfigIn(c', name) == ConfigIn(c, name) && ScalerIn(c', name) == ScalerIn(c, name)
            && TimestampIn(c') == TimestampIn(c) && VersionIn(c') == VersionIn(c)
  {
    NamesApart(name, path);
    NamesApart(path, name);
  }

  /** A stored scaler reads back, and no configuration, model, timestamp or version changes. */
  lemma {:induction false} ScalerRoundTrip(c: map<string, Entry>, path: string, scaler: ScalerSet, name: string)
    ensures var c' := c[ScalerKey(path) := ScalerEntry(scaler)];
            ScalerIn(c', path) == Some(scaler)
            && ConfigIn(c', name) == ConfigIn(c, name) && ModelIn(c', name) == ModelIn(c, name)
            && TimestampIn(c') == TimestampIn(c) && VersionIn(c') == VersionIn(c)
  {
    NamesApart(name, path);
    NamesApart(path, name);
  }

  /** Invalidating a model forgets it and nothing else of another kind. */
  lemma {:induction false} InvalidateModelOnly(c: map<string, Entry>, path: string, name: string)
    ensures var c' := c - {ModelKey(path)};
            ModelIn(c', path) == None
            && ConfigIn(c', name) == ConfigIn(c, name) && ScalerIn(c', name) == ScalerIn(c, name)
            && TimestampIn(c') == TimestampIn(c) && VersionIn(c') == VersionIn(c)
  {
    NamesApart(name, path);
    NamesApart(path, name);
  }

  /** What survives `clear_all_caches`: the version key and keys of no kind. */
  function Kept(c: map<string, Entry>): map<string, Entry> {
    map k | k in c && !Removable(KindOf(k)) :: c[k]
  }

  /** Deleting exactly the keys of removable kinds leaves what `Kept` keeps. */
  lemma KeptByRemoval(c: map<string, Entry>, gone: set<string>)
    requires forall k :: k in gone <==> k in c && Removable(KindOf(k))
    ensures c - gone == Kept(c)
  {
  }

  /** After a clear no configuration, model, scaler or timestamp reads back; the version does. */
  lemma {:induction false} ClearKeepsOnlyVersion(c: map<string, Entry>, name: string)
    ensures ConfigIn(Kept(c), name) == None && ModelIn(Kept(c), name) == None
    ensures ScalerIn(Kept(c), name) == None && TimestampIn(Kept(c)) == None
    ensures VersionIn(Kept(c)) == VersionIn(c)
  {
    KeyKinds(name);
  }

  /** The number of keys of one kind. */
  function CountKind(keys: set<string>, kd: Kind): nat {
    |set k | k in keys && KindOf(k) == kd|
  }

  /** Counting one more key. */
  lemma CountStep(done: set<string>, k: string, kd: Kind)
    requires k !in done
    ensures CountKind(done + {k}, kd) == CountKind(done, kd) + (if KindOf(k) == kd then 1 else 0)
  {
    var before := set x | x in done && KindOf(x) == kd;
    var after := set x | x in done + {k} && KindOf(x) == kd;
    if KindOf(k) == kd {
      assert after == before + {k};
    } else {
      assert after == before;
    }
  }

  /** Every key has exactly one kind, so the six counts add up to the number of keys. */
  lemma {:induction false} KindsPartition(keys: set<string>)
    ensures CountKind(keys, ConfigKind) + CountKind(keys, TimestampKind) + CountKind(keys, ModelKind)
            + CountKind(keys, ScalerKind) + CountKind(keys, VersionKind) + CountKind(keys, OtherKind) == |keys|
    decreases |keys|
  {
    if keys == {} {
      forall kd: Kind ensures CountKind(keys, kd) == 0 {
        assert (set k | k in keys && KindOf(k) == kd) == {};
      }
    } else {
      var k :| k in keys;
      var rest := keys - {k};
      KindsPartition(rest);
      assert rest + {k} == keys;
      CountStep(rest, k, ConfigKind);
      CountStep(rest, k, TimestampKind);
      CountStep(rest, k, ModelKind);
      CountStep(rest, k, ScalerKind);
      CountStep(rest, k, VersionKind);
      CountStep(rest, k, OtherKind);
    }
  }

  /** A well-keyed cache has no key of no kind. */
  lemma NoStrayKeys(c: map<string, Entry>)
    requires WellKeyed(c)
    ensures CountKind(c.Keys, OtherKind) == 0
  {
    assert (set k | k in c.Keys && KindOf(k) == OtherKind) == {};
  }

  /** `cleared.get(name, 0)`. */
  function CountOr0(m: map<string, nat>, name: string): nat {
    if name in m then m[name] else 0
  }

  /** The counts `clear_all_caches` reports for the keys `keys`: one entry per removable kind that
    * has keys, holding how many. */
  predicate ReportsCounts(cleared: map<string, nat>, keys: set<string>) {
    (forall n :: n in cleared ==> n in {"configs", "timestamps", "models", "scalers"} && cleared[n] > 0)
    && (forall kd :: Removable(kd) ==> CountOr0(cleared, Category(kd)) == CountKind(keys, kd))
  }

  /** One key through the counting loop: `cleared[name] = cleared.get(name, 0) + 1` for a key of a
    * removable kind. */
  function Bump(cleared: map<string, nat>, k: string): map<string, nat> {
    var kd := KindOf(k);
    if Removable(kd) then cleared[Category(kd) := CountOr0(cleared, Category(kd)) + 1] else cleared
  }

  /** Counting one more key keeps the reported counts right. */
  lemma BumpCounts(cleared: map<string, nat>, done: set<string>, k: string)
    requires k !in done && ReportsCounts(cleared, done)
    ensures ReportsCounts(Bump(cleared, k), done + {k})
  {
    forall kd | Removable(kd)
      ensures CountOr0(Bump(cleared, k), Category(kd)) == CountKind(done + {k}, kd)
    {
      CountStep(done, k, kd);
    }
  }

  /** The per-category entry of `get_cache_stats`. */
  datatype CategoryCount = CategoryCount(active: nat, expired: nat)

  /** `get_cache_stats`'s dictionary. */
  datatype StrategyStats = StrategyStats(
    currentVersion: Option<string>,
    cachedLastRun: Option<int>,
    memoryActive: string,
    memoryExpired: nat,
    countsActive: nat,
    countsExpired: nat,
    details: map<string, CategoryCount>,
    efficiency: real)

  class InMemoryCache {
    /** `_cache`. */
    var cache: map<string, Entry>

    ghost predicate Valid()
      reads this
    {
      WellKeyed(cache)
    }

    constructor ()
      ensures cache == map[] && Valid()
    {
      cache := map[];
    }

    /** `get_last_run_timestamp_with_cache`: a cached timestamp is answered and `loaded` (the
      * loader's answer) is not used; otherwise `loaded` is answered and cached when not None. */
    method GetLastRunTimestampWithCache(loaded: Option<int>) returns (r: Option<int>)
      requires Valid()
      modifies this
      ensures Valid()
      ensures TimestampKey in old(cache) ==> r == TimestampIn(old(cache)) && r.Some? && cache == old(cache)
      ensures TimestampKey !in old(cache) ==>
                r == loaded
                && cache == if loaded.Some? then old(cache)[TimestampKey := TimestampEntry(loaded.value)] else old(cache)
    {
      KeyKinds("");
      if TimestampKey in cache {
        return Some(cache[TimestampKey].stamp);
      }
      r := loaded;
      if r.Some? {
        cache := cache[TimestampKey := TimestampEntry(r.value)];
      }
    }

    /** `set_cached_last_run_timestamp`: overwrites and answers True. */
    method SetCachedLastRunTimestamp(t: int) returns (ok: bool)
      requires Valid()
      modifies this
      ensures Valid() && ok && cache == old(cache)[TimestampKey := TimestampEntry(t)]
      ensures TimestampIn(cache) == Some(t)
    {
      KeyKinds("");
      cache := cache[TimestampKey := TimestampEntry(t)];
      return true;
    }

    /** `get_cached_config`. */
    method GetCachedConfig(version: string) returns (r: Option<Json>)
      requires Valid()
      ensures r.Some? <==> ConfigKey(version) in cache
      ensures r.Some? ==> cache[ConfigKey(version)] == ConfigEntry(r.value)
    {
      ReadsStored(cache, version);
      r := ConfigIn(cache, version);
    }

    /** `set_cached_config`. */
    method SetCachedConfig(version: string, data: Json) returns (ok: bool)
      requires Valid()
      modifies this
      ensures Valid() && ok && cache == old(cache)[ConfigKey(version) := ConfigEntry(data)]
    {
      KeyKinds(version);
      cache := cache[ConfigKey(version) := ConfigEntry(data)];
      return true;
    }

    /** `get_cached_model`. */
    method GetCachedModel(path: string) returns (r: Option<nat>)
      requires Valid()
      ensures r.Some? <==> ModelKey(path) in cache
      ensures r.Some? ==> cache[ModelKey(path)] == ModelEntry(r.value)
    {
      ReadsStored(cache, path);
      r := ModelIn(cache, path);
    }

    /** `set_cached_model`. */
    method SetCachedModel(path: string, model: nat) returns (ok: bool)
      requires Valid()
      modifies this
      ensures Valid() && ok && cache == old(cache)[ModelKey(path) := ModelEntry(model)]
    {
      KeyKinds(path);
      cache := cache[ModelKey(path) := ModelEntry(model)];
      return true;
    }

    /** `get_cached_scaler`. */
    method GetCachedScaler(path: string) returns (r: Option<ScalerSet>)
      requires Valid()
      ensures r.Some? <==> ScalerKey(path) in cache
      ensures r.Some? ==> cache[ScalerKey(path)] == ScalerEntry(r.value)
    {
      ReadsStored(cache, path);
      r := ScalerIn(cache, path);
    }

    /** `set_cached_scaler`. */
    method SetCachedScaler(path: string, scaler: ScalerSet) returns (ok: bool)
      requires Valid()
      modifies this
      ensures Valid() && ok && cache == old(cache)[ScalerKey(path) := ScalerEntry(scaler)]
    {
      KeyKinds(path);
      cache := cache[ScalerKey(path) := ScalerEntry(scaler)];
      return true;
    }

    /** `invalidate_cached_model`: True even when nothing was cached. */
    method InvalidateCachedModel(path: string) returns (ok: bool)
      requires Valid()
      modifies this
      ensures Valid() && ok && cache == old(cache) - {ModelKey(path)}
    {
      if ModelKey(path) in cache {
        cache := cache - {ModelKey(path)};
      }
      return true;
    }

    /** `invalidate_cached_scaler`. */
    method InvalidateCachedScaler(path: string) returns (ok: bool)
      requires Valid()
      modifies this
      ensures Valid() && ok && cache == old(cache) - {ScalerKey(path)}
    {
      if ScalerKey(path) in cache {
        cache := cache - {ScalerKey(path)};
      }
      return true;
    }

    /** `invalidate_cached_config`. */
    method InvalidateCachedConfig(version: string) returns (ok: bool)
      requires Valid()
      modifies this
      ensures Valid() && ok && cache == old(cache) - {ConfigKey(version)}
    {
      if ConfigKey(version) in cache {
        cache := cache - {ConfigKey(version)};
      }
      return true;
    }

    /** `get_current_cached_version`. */
    method GetCurrentCachedVersion() returns (r: Option<string>)
      requires Valid()
      ensures r.Some? <==> VersionKey in cache
      ensures r.Some? ==> cache[VersionKey] == VersionEntry(r.value)
    {
      ReadsStored(cache, "");
      r := VersionIn(cache);
    }

    /** `clear_all_caches`: the keys of the four removable kinds are collected and counted, then
      * deleted; the counts are answered. */
    method ClearAllCaches() returns (cleared: map<string, nat>)
      requires Valid()
      modifies this
      ensures Valid() && cache == Kept(old(cache))
      ensures ReportsCounts(cleared, old(cache).Keys)
    {
      var keysToRemove: seq<string>;
      keysToRemove, cleared := CountRemovable(cache.Keys);
      ghost var gone := set k | k in cache && Removable(KindOf(k));
      RemoveKeys(keysToRemove, gone);
      KeptByRemoval(old(cache), gone);
    }

    /** The deletion loop of `clear_all_caches`: `del self._cache[key]` for each collected key. */
    method RemoveKeys(keys: seq<string>, ghost gone: set<string>)
      requires forall k :: k in keys <==> k in gone
      modifies this
      ensures cache == old(cache) - gone
    {
      ghost var removed: set<string> := {};
      var i := 0;
      while i < |keys|
        invariant 0 <= i <= |keys|
        invariant forall k :: k in removed <==> k in keys[..i]
        invariant cache == old(cache) - removed
      {
        assert keys[..i + 1] == keys[..i] + [keys[i]];
        cache := cache - {keys[i]};
        removed := removed + {keys[i]};
        i := i + 1;
      }
      assert keys[..i] == keys;
      assert removed == gone;
    }

    /** `check_version_and_invalidate_if_needed`: a recorded version different from `current`,
      * or none at all, clears the caches, records `current` and answers True; the same version
      * answers False and changes nothing. */
    method CheckVersionAndInvalidateIfNeeded(current: string) returns (changed: bool)
      requires Valid()
      modifies this
      ensures Valid() && VersionIn(cache) == Some(current)
      ensures changed <==> VersionIn(old(cache)) != Some(current)
      ensures changed ==> cache == Kept(old(cache))[VersionKey := VersionEntry(current)]
      ensures !changed ==> cache == old(cache)
    {
      var cached := GetCurrentCachedVersion();
      if cached != Some(current) {
        var counts := ClearAllCaches();
        KeyKinds("");
        cache := cache[VersionKey := VersionEntry(current)];
        return true;
      }
      return false;
    }

    /** `get_cache_stats`: the recorded version and timestamp, the number of entries, and one
      * count per kind, summed into the strategy count; nothing ever expires. */
    method GetCacheStats() returns (s: StrategyStats)
      requires Valid()
      ensures s.currentVersion == VersionIn(cache) && s.cachedLastRun == TimestampIn(cache)
      ensures s.memoryActive == NatToString(|cache|) + " items" && s.memoryExpired == 0
      ensures s.details.Keys == {"configs", "timestamps", "models", "scalers", "versions"}
      ensures forall kd :: kd != OtherKind ==> s.details[Category(kd)] == CategoryCount(CountKind(cache.Keys, kd), 0)
      ensures s.countsActive == |cache| && s.countsExpired == 0 && s.efficiency == 100.0
    {
      var version := GetCurrentCachedVersion();
      var counts := CountKinds(cache.Keys);
      KindsPartition(cache.Keys);
      NoStrayKeys(cache);
      var details := map[
        "configs" := CategoryCount(counts[0], 0),
        "timestamps" := CategoryCount(counts[1], 0),
        "models" := CategoryCount(counts[2], 0),
        "scalers" := CategoryCount(counts[3], 0),
        "versions" := CategoryCount(counts[4], 0)];
      var active := counts[0] + counts[1] + counts[2] + counts[3] + counts[4];
      s := StrategyStats(version, TimestampIn(cache), NatToString(|cache|) + " items", 0, active, 0, details, 100.0);
    }
  }

  /** `keys_to_remove` holds exactly the removable keys among `done`. */
  ghost predicate Collected(toRemove: seq<string>, done: set<string>) {
    forall k :: k in toRemove <==> k in done && Removable(KindOf(k))
  }

  lemma CollectStep(toRemove: seq<string>, done: set<string>, k: string)
    requires Collected(toRemove, done)
    ensures Removable(KindOf(k)) ==> Collected(toRemove + [k], done + {k})
    ensures !Removable(KindOf(k)) ==> Collected(toRemove, done + {k})
  {
  }

  /** The counting loop of `clear_all_caches`: the removable keys, and `cleared.get(name, 0) + 1`
    * for each. */
  method CountRemovable(keys: set<string>) returns (toRemove: seq<string>, cleared: map<string, nat>)
    ensures Collected(toRemove, keys)
    ensures ReportsCounts(cleared, keys)
  {
    toRemove := [];
    cleared := map[];
    ghost var done: set<string> := {};
    var rest := keys;
    while rest != {}
      invariant rest <= keys && done == keys - rest
      invariant Collected(toRemove, done) && ReportsCounts(cleared, done)
      decreases |rest|
    {
      var k :| k in rest;
      BumpCounts(cleared, done, k);
      CollectStep(toRemove, done, k);
      if Removable(KindOf(k)) {
        toRemove := toRemove + [k];
      }
      cleared := Bump(cleared, k);
      done := done + {k};
      rest := rest - {k};
    }
    assert done == keys;
  }

  /** The five counters of `get_cache_stats` hold the counts of the keys `done`. */
  predicate Tallied(done: set<string>, configs: nat, timestamps: nat, models: nat, scalers: nat, versions: nat) {
    configs == CountKind(done, ConfigKind) && timestamps == CountKind(done, TimestampKind)
    && models == CountKind(done, ModelKind) && scalers == CountKind(done, ScalerKind)
    && versions == CountKind(done, VersionKind)
  }

  /** One more key raises the counter of its kind, and no other. */
  lemma TallyStep(done: set<string>, k: string, configs: nat, timestamps: nat, models: nat, scalers: nat, versions: nat)
    requires k !in done && Tallied(done, configs, timestamps, models, scalers, versions)
    ensures var kd := KindOf(k);
            Tallied(done + {k},
                    if kd == ConfigKind then configs + 1 else configs,
                    if kd == TimestampKind then timestamps + 1 else timestamps,
                    if kd == ModelKind then models + 1 else models,
                    if kd == ScalerKind then scalers + 1 else scalers,
                    if kd == VersionKind then versions + 1 else versions)
  {
    CountStep(done, k, ConfigKind);
    CountStep(done, k, TimestampKind);
    CountStep(done, k, ModelKind);
    CountStep(done, k, ScalerKind);
    CountStep(done, k, VersionKind);
  }

  /** The counting loop of `get_cache_stats`: keys of the five kinds, in that order. */
  method CountKinds(keys: set<string>) returns (counts: seq<nat>)
    ensures |counts| == 5
    ensures counts[0] == CountKind(keys, ConfigKind) && counts[1] == CountKind(keys, TimestampKind)
    ensures counts[2] == CountKind(keys, ModelKind) && counts[3] == CountKind(keys, ScalerKind)
    ensures counts[4] == CountKind(keys, VersionKind)
  {
    var configs, timestamps, models, scalers, versions := 0, 0, 0, 0, 0;
    ghost var done: set<string> := {};
    var rest := keys;
    while rest != {}
      invariant rest <= keys && done == keys - rest
      invariant Tallied(done, configs, timestamps, models, scalers, versions)
      decreases |rest|
    {
      var k :| k in rest;
      TallyStep(done, k, configs, timestamps, models, scalers, versions);
      match KindOf(k) {
        case ConfigKind => configs := configs + 1;
        case TimestampKind => timestamps := timestamps + 1;
        case ModelKind => models := models + 1;
        case ScalerKind => scalers := scalers + 1;
        case VersionKind => versions := versions + 1;
        case OtherKind =>
      }
      done := done + {k};
      rest := rest - {k};
    }
    assert done == keys;
    counts := [configs, timestamps, models, scalers, versions];
  }

  /** The first version check of a new cache answers True and drops a timestamp stored before it:
    * no version was recorded, and None differs from every version. */
  method TimestampThenFirstCheck(c: InMemoryCache, t: int, v: string) returns (changed: bool)
    requires c.Valid() && VersionKey !in c.cache
    modifies c
    ensures changed && TimestampIn(c.cache) == None && VersionIn(c.cache) == Some(v)
  {
    var ok := c.SetCachedLastRunTimestamp(t);
    changed := c.CheckVersionAndInvalidateIfNeeded(v);
    ClearKeepsOnlyVersion(old(c.cache)[TimestampKey := TimestampEntry(t)], "");
    KeyKinds("");
  }
}
