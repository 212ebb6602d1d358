/** The artifact cache manager (utils/cache_manager.py, `CacheManager`): five TTL caches, the
  * configuration version they belong to, and the cached last-run timestamp. Loaders (object
  * storage, files) are parameters: the value a loader would return. */
module CacheManagers {
  import opened Wrappers
  import opened Json
  import opened Oracles
  import opened MemoryCaches

  /** The cache keys of the read-through getters. */
  function ModelKey(path: string): string { "pytorch_model:" + path }
  function TempPathKey(path: string): string { "temp_model_path:" + path }
  function ScalerKey(path: string): string { "pickle_scaler:" + path }
  function MetadataKey(path: string): string { "json_metadata:" + path }
  function ConfigKey(version: string): string { "config_version:" + version }

  /** Whether a version check clears the caches: only a recorded version that differs. The first
    * check only records its version. */
  predicate Invalidates(recorded: Option<string>, version: string) {
    recorded.Some? && recorded.value != version
  }

  /** A check always leaves its version recorded, so a second check with the same version never
    * clears anything, whatever the first one did. */
  lemma RepeatedCheckQuiet(recorded: Option<string>, version: string)
    ensures !Invalidates(Some(version), version)
    ensures recorded.None? ==> !Invalidates(recorded, version)
  {
  }

  /** `get_cache_stats`. */
  datatype ManagerStats = ManagerStats(
    version: Option<string>,
    lastRun: Option<int>,
    model: CacheStats,
    scaler: CacheStats,
    metadata: CacheStats,
    config: CacheStats,
    tempFiles: CacheStats)

  class CacheManager {
    const modelCache: MemoryCache<nat>
    const scalerCache: MemoryCache<ScalerSet>
    const metadataCache: MemoryCache<Json>
    const configCache: MemoryCache<Json>
    const tempFilesCache: MemoryCache<string>
    /** `_current_config_version`. */
    var version: Option<string>
    /** `_cached_last_run_timestamp`, in microseconds. */
    var lastRun: Option<int>

    ghost predicate Valid()
      reads this, modelCache, scalerCache, metadataCache, configCache, tempFilesCache
    {
      metadataCache != configCache
      && modelCache.Valid() && scalerCache.Valid() && metadataCache.Valid() && configCache.Valid()
      && tempFilesCache.Valid()
    }

    /** Every cache empty, on the configured TTLs: 24 hours, and 6 for configurations. */
    ghost predicate Cleared()
      reads modelCache, scalerCache, metadataCache, configCache, tempFilesCache
    {
      modelCache.items == map[] && scalerCache.items == map[] && metadataCache.items == map[]
      && configCache.items == map[] && tempFilesCache.items == map[]
    }

    constructor ()
      ensures Valid() && Cleared() && version == None && lastRun == None
      ensures modelCache.ttl == 24 * HourMicros && scalerCache.ttl == 24 * HourMicros
      ensures metadataCache.ttl == 24 * HourMicros && configCache.ttl == 6 * HourMicros
      ensures tempFilesCache.ttl == 24 * HourMicros
      ensures fresh(modelCache) && fresh(scalerCache) && fresh(metadataCache) && fresh(configCache) && fresh(tempFilesCache)
    {
      modelCache := new MemoryCache(24);
      scalerCache := new MemoryCache(24);
      metadataCache := new MemoryCache(24);
      configCache := new MemoryCache(6);
      tempFilesCache := new MemoryCache(24);
      version := None;
      lastRun := None;
    }

    /** `get_pytorch_model`, read through the model cache. */
    method GetPytorchModel(path: string, loaded: Option<nat>, now: int) returns (r: Option<nat>)
      requires Valid()
      modifies modelCache
      ensures Valid()
      ensures r == ReadThroughAnswer(old(modelCache.items), old(modelCache.stamps), ModelKey(path), loaded, now, modelCache.ttl)
      ensures (modelCache.items, modelCache.stamps) == ReadThroughEntries(old(modelCache.items), old(modelCache.stamps), ModelKey(path), loaded, now, modelCache.ttl)
    {
      r := ReadThrough(modelCache, ModelKey(path), loaded, now);
    }

    /** `get_pickle_scaler`, read through the scaler cache. */
    method GetPickleScaler(path: string, loaded: Option<ScalerSet>, now: int) returns (r: Option<ScalerSet>)
      requires Valid()
      modifies scalerCache
      ensures Valid()
      ensures r == ReadThroughAnswer(old(scalerCache.items), old(scalerCache.stamps), ScalerKey(path), loaded, now, scalerCache.ttl)
      ensures (scalerCache.items, scalerCache.stamps) == ReadThroughEntries(old(scalerCache.items), old(scalerCache.stamps), ScalerKey(path), loaded, now, scalerCache.ttl)
    {
      r := ReadThrough(scalerCache, ScalerKey(path), loaded, now);
    }

    /** `get_json_metadata`, read through the metadata cache. */
    method GetJsonMetadata(path: string, loaded: Option<Json>, now: int) returns (r: Option<Json>)
      requires Valid()
      modifies metadataCache
      ensures Valid()
      ensures r == ReadThroughAnswer(old(metadataCache.items), old(metadataCache.stamps), MetadataKey(path), loaded, now, metadataCache.ttl)
      ensures (metadataCache.items, metadataCache.stamps) == ReadThroughEntries(old(metadataCache.items), old(metadataCache.stamps), MetadataKey(path), loaded, now, metadataCache.ttl)
    {
      r := ReadThrough(metadataCache, MetadataKey(path), loaded, now);
    }

    /** `get_temp_model_path`: a cached path counts only while its file exists (`onDisk`); a cached
      * path whose file is gone stays cached unless the download gives a new one. */
    method GetTempModelPath(path: string, loaded: Option<string>, onDisk: string -> bool, now: int) returns (r: Option<string>)
      requires Valid()
      modifies tempFilesCache
      ensures Valid()
      ensures var hit := Lookup(old(tempFilesCache.items), old(tempFilesCache.stamps), TempPathKey(path), now, tempFilesCache.ttl);
              r == (if hit.Some? && onDisk(hit.value) then hit else loaded)
      ensures var hit := Lookup(old(tempFilesCache.items), old(tempFilesCache.stamps), TempPathKey(path), now, tempFilesCache.ttl);
              (tempFilesCache.items, tempFilesCache.stamps)
              == if hit.Some? && (onDisk(hit.value) || loaded.None?) then (old(tempFilesCache.items), old(tempFilesCache.stamps))
                 else if loaded.Some? then (old(tempFilesCache.items)[TempPathKey(path) := loaded.value],
                                            old(tempFilesCache.stamps)[TempPathKey(path) := now])
                 else (old(tempFilesCache.items) - {TempPathKey(path)}, old(tempFilesCache.stamps) - {TempPathKey(path)})
    {
      var key := TempPathKey(path);
      var cached := tempFilesCache.Get(key, now);
      if cached.Some? && onDisk(cached.value) {
        return cached;
      }
      if cached.None? {
        assert tempFilesCache.items == old(tempFilesCache.items) - {key};
        assert tempFilesCache.stamps == old(tempFilesCache.stamps) - {key};
      }
      r := loaded;
      if r.Some? {
        tempFilesCache.Set(key, r.value, now);
        assert tempFilesCache.items == old(tempFilesCache.items)[key := r.value];
        assert tempFilesCache.stamps == old(tempFilesCache.stamps)[key := now];
      }
    }

    /** `_clear_all_caches_internal`: every cache and the timestamp; the version stays. */
    method ClearAllCachesInternal()
      requires Valid()
      modifies modelCache, scalerCache, metadataCache, configCache, tempFilesCache, this`lastRun
      ensures Valid() && Cleared() && lastRun == None
    {
      modelCache.Clear();
      scalerCache.Clear();
      metadataCache.Clear();
      configCache.Clear();
      tempFilesCache.Clear();
      lastRun := None;
    }

    /** `check_and_invalidate_on_version_change`: the first call records the version; a different
      * version clears every cache and the timestamp, records it and answers True; the same version
      * changes nothing. */
    method CheckAndInvalidateOnVersionChange(newVersion: string) returns (changed: bool)
      requires Valid()
      modifies modelCache, scalerCache, metadataCache, configCache, tempFilesCache, this`version, this`lastRun
      ensures Valid() && version == Some(newVersion)
      ensures changed == Invalidates(old(version), newVersion)
      ensures changed ==> Cleared() && lastRun == None
      ensures !changed ==>
                lastRun == old(lastRun)
                && unchanged(modelCache, scalerCache, metadataCache, configCache, tempFilesCache)
    {
      if version.None? {
        version := Some(newVersion);
        return false;
      }
      if version.value != newVersion {
        ClearAllCachesInternal();
        version := Some(newVersion);
        return true;
      }
      return false;
    }

    /** `set_cached_last_run_timestamp`. */
    method SetCachedLastRunTimestamp(t: int)
      modifies this`lastRun
      ensures lastRun == Some(t)
    {
      lastRun := Some(t);
    }

    /** `get_last_run_timestamp_with_cache`: a cached timestamp is answered without reading the
      * file; otherwise the file's timestamp `loaded` is answered and cached when there is one. */
    method GetLastRunTimestampWithCache(loaded: Option<int>) returns (r: Option<int>)
      modifies this`lastRun
      ensures old(lastRun).Some? ==> r == old(lastRun) && lastRun == old(lastRun)
      ensures old(lastRun).None? ==> r == loaded && lastRun == loaded
    {
      if lastRun.Some? {
        return lastRun;
      }
      r := loaded;
      if r.Some? {
        lastRun := r;
      }
    }

    /** `get_config_by_version`: the version check first. Without a version change it reads through
      * the configuration cache and touches nothing else; after one every cache is empty but for
      * the loaded configuration, which is answered. */
    method GetConfigByVersion(v: string, loaded: Option<Json>, now: int) returns (r: Option<Json>)
      requires Valid()
      modifies modelCache, scalerCache, metadataCache, configCache, tempFilesCache, this`version, this`lastRun
      ensures Valid() && version == Some(v)
      ensures Invalidates(old(version), v) ==>
                r == loaded && lastRun == None
                && modelCache.items == map[] && scalerCache.items == map[] && metadataCache.items == map[]
                && tempFilesCache.items == map[]
                && configCache.items == if loaded.Some? then map[ConfigKey(v) := loaded.value] else map[]
      ensures !Invalidates(old(version), v) ==>
                lastRun == old(lastRun) && unchanged(modelCache, scalerCache, metadataCache, tempFilesCache)
                && r == ReadThroughAnswer(old(configCache.items), old(configCache.stamps), ConfigKey(v), loaded, now, configCache.ttl)
                && (configCache.items, configCache.stamps)
                   == ReadThroughEntries(old(configCache.items), old(configCache.stamps), ConfigKey(v), loaded, now, configCache.ttl)
      ensures loaded.Some? && r == loaded ==>
                ConfigKey(v) in configCache.items && configCache.items[ConfigKey(v)] == loaded.value
    {
      var changed := CheckAndInvalidateOnVersionChange(v);
      var key := ConfigKey(v);
      var cached := configCache.Get(key, now);
      if cached.Some? && !changed {
        return cached;
      }
      if cached.None? && !changed {
        assert configCache.items == old(configCache.items) - {key};
        assert configCache.stamps == old(configCache.stamps) - {key};
      }
      r := loaded;
      if r.Some? {
        configCache.Set(key, r.value, now);
        if !changed {
          assert configCache.items == old(configCache.items)[key := r.value];
          assert configCache.stamps == old(configCache.stamps)[key := now];
        }
      }
    }

    /** `clear_all_caches`: everything, and the version is forgotten, so the next check only
      * records its version. */
    method ClearAllCaches()
      requires Valid()
      modifies modelCache, scalerCache, metadataCache, configCache, tempFilesCache, this`version, this`lastRun
      ensures Valid() && Cleared() && lastRun == None && version == None
    {
      ClearAllCachesInternal();
      version := None;
    }

    /** `get_cache_stats`: the version, the timestamp and each cache's statistics. */
    method GetCacheStats(now: int) returns (s: ManagerStats)
      ensures s == ManagerStats(version, lastRun,
                                StatsOf(modelCache.items, modelCache.stamps, now, modelCache.ttl),
                                StatsOf(scalerCache.items, scalerCache.stamps, now, scalerCache.ttl),
                                StatsOf(metadataCache.items, metadataCache.stamps, now, metadataCache.ttl),
                                StatsOf(configCache.items, configCache.stamps, now, configCache.ttl),
                                StatsOf(tempFilesCache.items, tempFilesCache.stamps, now, tempFilesCache.ttl))
    {
      var model := modelCache.GetStats(now);
      var scaler := scalerCache.GetStats(now);
      var metadata := metadataCache.GetStats(now);
      var config := configCache.GetStats(now);
      var temp := tempFilesCache.GetStats(now);
      s := ManagerStats(version, lastRun, model, scaler, metadata, config, temp);
    }

    /** `cleanup_expired_temp_files`: the expired temp-file entries are collected, then deleted;
      * the live ones stay. Removing the files themselves is not modelled. */
    method CleanupExpiredTempFiles(now: int)
      requires Valid()
      modifies tempFilesCache
      ensures Valid()
      ensures var gone := ExpiredKeys(old(tempFilesCache.stamps), now, tempFilesCache.ttl);
              tempFilesCache.items == old(tempFilesCache.items) - gone
              && tempFilesCache.stamps == old(tempFilesCache.stamps) - gone
    {
      var expiredKeys := CollectExpired(tempFilesCache, now);
      DeleteAll(tempFilesCache, expiredKeys, ExpiredKeys(tempFilesCache.stamps, now, tempFilesCache.ttl));
    }
  }

  /** The first loop of `cleanup_expired_temp_files`: the keys whose timestamp is expired. */
  method CollectExpired<V>(c: MemoryCache<V>, now: int) returns (keys: seq<string>)
    ensures forall k :: k in keys <==> k in ExpiredKeys(c.stamps, now, c.ttl)
  {
    ghost var gone := ExpiredKeys(c.stamps, now, c.ttl);
    keys := [];
    var rest := c.stamps.Keys;
    while rest != {}
      invariant rest <= c.stamps.Keys
      invariant forall k :: k in keys <==> k in gone - rest
      decreases |rest|
    {
      var k :| k in rest;
      if Expired(c.stamps[k], now, c.ttl) {
        keys := keys + [k];
      }
      rest := rest - {k};
    }
  }

  /** The second loop: every collected key is deleted, so exactly the set `gone` they make up is. */
  method DeleteAll<V>(c: MemoryCache<V>, keys: seq<string>, ghost gone: set<string>)
    requires c.Valid()
    requires forall k :: k in keys <==> k in gone
    modifies c
    ensures c.Valid() && c.items == old(c.items) - gone && c.stamps == old(c.stamps) - gone
  {
    ghost var removed: set<string> := {};
    var i := 0;
    while i < |keys|
      invariant 0 <= i <= |keys|
      invariant c.Valid()
      invariant forall k :: k in removed <==> k in keys[..i]
      invariant c.items == old(c.items) - removed && c.stamps == old(c.stamps) - removed
    {
      c.Delete(keys[i]);
      assert keys[..i + 1] == keys[..i] + [keys[i]];
      removed := removed + {keys[i]};
      i := i + 1;
    }
    assert keys[..i] == keys;
    assert removed == gone;
  }

  /** The order of the timestamp test: after `clear_all_caches` the version is forgotten, so a
    * timestamp cached next survives the check of a new version, which only records it. */
  method ClearThenCheck(m: CacheManager, t: int, v: string) returns (changed: bool)
    requires m.Valid()
    modifies m.modelCache, m.scalerCache, m.metadataCache, m.configCache, m.tempFilesCache, m`version, m`lastRun
    ensures !changed && m.lastRun == Some(t) && m.version == Some(v)
  {
    m.ClearAllCaches();
    m.SetCachedLastRunTimestamp(t);
    changed := m.CheckAndInvalidateOnVersionChange(v);
  }

  /** A check of a different recorded version leaves no cached timestamp, as the version-change
    * test expects when a version is already recorded. */
  method RecordedThenChanged(m: CacheManager, t: int, v1: string, v2: string) returns (changed: bool)
    requires m.Valid() && v1 != v2
    modifies m.modelCache, m.scalerCache, m.metadataCache, m.configCache, m.tempFilesCache, m`version, m`lastRun
    ensures changed && m.lastRun == None && m.Cleared()
  {
    var first := m.CheckAndInvalidateOnVersionChange(v1);
    m.SetCachedLastRunTimestamp(t);
    changed := m.CheckAndInvalidateOnVersionChange(v2);
  }
}
