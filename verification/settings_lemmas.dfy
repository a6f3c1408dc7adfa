/**
 * Properties of the settings store: the tier order of reads, what reads put in
 * the cache, what writes change, and how the listing memo behaves.
 */
module SettingsLemmas {
  import opened Wrappers
  import opened PhpValues
  import opened Settings

  // ---------------------------------------------------------------------------
  // Read path against a reference definition

  /** The first truthy value of a sequence, if any. */
  function FirstTruthy(vs: seq<Value>): (r: Option<Value>)
    ensures r.Some? ==> Truthy(r.value) && r.value in vs
    ensures r.Some? ==> exists i :: 0 <= i < |vs| && vs[i] == r.value && forall j :: 0 <= j < i ==> !Truthy(vs[j])
    ensures r.None? <==> forall i :: 0 <= i < |vs| ==> !Truthy(vs[i])
  {
    if |vs| == 0 then None
    else if Truthy(vs[0]) then Some(vs[0])
    else
      var rest := FirstTruthy(vs[1..]);
      if rest.Some? then
        var i :| 0 <= i < |vs[1..]| && vs[1..][i] == rest.value && forall j :: 0 <= j < i ==> !Truthy(vs[1..][j]);
        assert vs[i + 1] == rest.value && forall j :: 0 <= j < i + 1 ==> !Truthy(vs[j]);
        rest
      else rest
  }

  /** On three values, the first truthy one is found by testing them in order. */
  lemma FirstTruthyOfThree(a: Value, b: Value, c: Value)
    ensures FirstTruthy([a, b, c]) ==
      if Truthy(a) then Some(a) else if Truthy(b) then Some(b) else if Truthy(c) then Some(c) else None
  {
    assert [a, b, c][1..] == [b, c];
    assert [b, c][1..] == [c];
    assert [c][1..] == [];
    if !Truthy(a) {
      assert FirstTruthy([a, b, c]) == FirstTruthy([b, c]);
      if !Truthy(b) {
        assert FirstTruthy([b, c]) == FirstTruthy([c]);
      }
    }
  }

  /** With caching on, the cache tier reads back what the cache write of a lookup stored. */
  lemma CacheReadsBackStore(s: State, key: string, v: Value)
    requires IsCacheEnabled(s.config)
    ensures GetValueFromCache(s.(cache := StoreValueToCache(s.config, s.cache, key, v)), key) == v
  {
  }

  /** What each tier yields for a key, every tier read from the same state:
      cache, then table, then configured default. */
  function Tiers(s: State, key: string): seq<Value> {
    [GetValueFromCache(s, key), GetValueFromDatabase(s, key).result, GetValueFromConfig(s, key).result]
  }

  /** `get` returns the first truthy tier value, else the fallback. The cache write
      made by the table tier does not affect what the configuration tier yields. */
  lemma GetResolvesFirstTruthyTier(s: State, key: string, fallback: Value)
    ensures Get(s, key, fallback).result == FirstTruthy(Tiers(s, key)).GetOr(fallback)
  {
    var afterDatabase := GetValueFromDatabase(s, key).state;
    assert GetValueFromConfig(afterDatabase, key).result == GetValueFromConfig(s, key).result;
    FirstTruthyOfThree(GetValueFromCache(s, key), GetValueFromDatabase(s, key).result, GetValueFromConfig(s, key).result);
  }

  /** With a falsy fallback (PHP's default null), `get` returns the fallback exactly
      when no tier holds a truthy value. */
  lemma GetFallsBackOnlyOnTotalMiss(s: State, key: string, fallback: Value)
    requires !Truthy(fallback)
    ensures Get(s, key, fallback).result == fallback <==>
      && !Truthy(GetValueFromCache(s, key))
      && !(key in s.db && Truthy(s.db[key]))
      && !(HasDefault(s.config, key) && Truthy(ConfigSettingsFields(s.config)[key].default.value))
  {
    GetResolvesFirstTruthyTier(s, key, fallback);
    var tiers := Tiers(s, key);
    if FirstTruthy(tiers).None? {
      assert !Truthy(tiers[0]) && !Truthy(tiers[1]) && !Truthy(tiers[2]);
    }
  }

  /** With caching enabled and no truthy cached value, `get` leaves in the cache the
      value of the last tier that had an entry: a table row is cached even when it is
      falsy, and a configured default then overwrites it. With no row and no default
      the cache is unchanged. */
  lemma GetPopulatesCache(s: State, key: string, fallback: Value)
    requires IsCacheEnabled(s.config)
    requires !Truthy(GetValueFromCache(s, key))
    ensures var cache := Get(s, key, fallback).state.cache;
      var ck := CacheKey(s.config, key);
      && (key in s.db && Truthy(s.db[key]) ==> ck in cache && cache[ck] == s.db[key])
      && (key in s.db && !Truthy(s.db[key]) && !HasDefault(s.config, key) ==>
            ck in cache && cache[ck] == s.db[key])
      && (!(key in s.db && Truthy(s.db[key])) && HasDefault(s.config, key) ==>
            ck in cache && cache[ck] == ConfigSettingsFields(s.config)[key].default.value)
      && (key !in s.db && !HasDefault(s.config, key) ==> cache == s.cache)
  {
  }

  /** With caching enabled, a value resolved from any tier is resident in the cache
      under the key's cache key afterwards. */
  lemma GetLeavesResolvedValueCached(s: State, key: string, fallback: Value)
    requires IsCacheEnabled(s.config)
    requires FirstTruthy(Tiers(s, key)).Some?
    ensures var r := Get(s, key, fallback);
      CacheKey(s.config, key) in r.state.cache && r.state.cache[CacheKey(s.config, key)] == r.result
  {
    GetResolvesFirstTruthyTier(s, key, fallback);
    if !Truthy(GetValueFromCache(s, key)) {
      GetPopulatesCache(s, key, fallback);
    }
  }

  /** A second `get` of the same key returns the same value and changes nothing more. */
  lemma GetIdempotent(s: State, key: string, fallback: Value)
    ensures var first := Get(s, key, fallback);
      Get(first.state, key, fallback) == first
  {
    var first := Get(s, key, fallback);
    if IsCacheEnabled(s.config) && !Truthy(GetValueFromCache(s, key)) {
      var ck := CacheKey(s.config, key);
      var t := first.state;
      GetPopulatesCache(s, key, fallback);
      GetResolvesFirstTruthyTier(s, key, fallback);
      if FirstTruthy(Tiers(s, key)).Some? {
        // The resolved value is now cached, so the second call is a cache hit.
        GetLeavesResolvedValueCached(s, key, fallback);
        assert GetValueFromCache(t, key) == first.result;
      } else {
        // Nothing truthy: the second call repeats the same cache writes.
        assert t == s.(cache := t.cache);
        var tiers := Tiers(s, key);
        assert !Truthy(tiers[1]) && !Truthy(tiers[2]);
        if ck in t.cache {
          assert !Truthy(GetValueFromCache(t, key));
        }
        GetPopulatesCache(t, key, fallback);
        GetResolvesFirstTruthyTier(t, key, fallback);
        assert Tiers(t, key)[1..] == Tiers(s, key)[1..];
      }
    }
  }

  // ---------------------------------------------------------------------------
  // Cache coherence

  /** Distinct setting keys have distinct cache keys. */
  lemma CacheKeyInjective(c: Config, k1: string, k2: string)
    requires CacheKey(c, k1) == CacheKey(c, k2)
    ensures k1 == k2
  {
    assert k1 == CacheKey(c, k1)[|CachePrefix(c)|..];
  }

  /** The value a store with an empty cache resolves for a key, before the fallback. */
  function ColdValue(s: State, key: string): Value {
    GetValue(s.(cache := map[]), key).result
  }

  /** Every truthy value the cache holds for a setting is the value a cold cache
      would resolve for it. Without caching the cache is never read, so nothing is required. */
  ghost predicate CacheCoherent(s: State) {
    IsCacheEnabled(s.config) ==>
      forall key :: CacheKey(s.config, key) in s.cache && Truthy(s.cache[CacheKey(s.config, key)]) ==>
        s.cache[CacheKey(s.config, key)] == ColdValue(s, key)
  }

  /** A fresh store over an empty cache is coherent. */
  lemma ColdCacheCoherent(config: Config, db: Table)
    ensures CacheCoherent(New(config, db, map[]))
  {
  }

  /** In a coherent state `get` returns what it would return with an empty cache. */
  lemma CoherentGetMatchesColdCache(s: State, key: string, fallback: Value)
    requires CacheCoherent(s)
    ensures Get(s, key, fallback).result == Get(s.(cache := map[]), key, fallback).result
  {
    GetResolvesFirstTruthyTier(s, key, fallback);
    GetResolvesFirstTruthyTier(s.(cache := map[]), key, fallback);
  }

  /** `get` keeps the cache coherent. */
  lemma GetPreservesCoherence(s: State, key: string, fallback: Value)
    requires CacheCoherent(s)
    ensures CacheCoherent(Get(s, key, fallback).state)
  {
    var t := Get(s, key, fallback).state;
    if IsCacheEnabled(s.config) {
      assert t.(cache := map[]) == s.(cache := map[]);
      forall other | CacheKey(t.config, other) in t.cache && Truthy(t.cache[CacheKey(t.config, other)])
        ensures t.cache[CacheKey(t.config, other)] == ColdValue(t, other)
      {
        if other == key {
          if !Truthy(GetValueFromCache(s, key)) {
            GetPopulatesCache(s, key, fallback);
          }
        } else {
          if CacheKey(s.config, other) == CacheKey(s.config, key) {
            CacheKeyInjective(s.config, other, key);
          }
        }
      }
    }
  }

  /** A key's cold value depends only on the configuration and that key's row. */
  lemma ColdValueDependsOnRow(s: State, t: State, key: string)
    requires s.config == t.config
    requires Lookup(s.db, key) == Lookup(t.db, key)
    ensures ColdValue(s, key) == ColdValue(t, key)
  {
    var coldS := s.(cache := map[]);
    var coldT := t.(cache := map[]);
    GetResolvesFirstTruthyTier(coldS, key, Null);
    GetResolvesFirstTruthyTier(coldT, key, Null);
    assert Tiers(coldS, key) == Tiers(coldT, key);
  }

  /** `save` keeps the cache coherent: it forgets the saved key's entry, and no other
      key's cold value changes. */
  lemma SavePreservesCoherence(s: State, key: string, v: Value)
    requires CacheCoherent(s)
    ensures CacheCoherent(Save(s, key, v))
  {
    var t := Save(s, key, v);
    if IsCacheEnabled(s.config) {
      forall other | CacheKey(t.config, other) in t.cache && Truthy(t.cache[CacheKey(t.config, other)])
        ensures t.cache[CacheKey(t.config, other)] == ColdValue(t, other)
      {
        if other != key {
          if CacheKey(s.config, other) == CacheKey(s.config, key) {
            CacheKeyInjective(s.config, other, key);
          }
          ColdValueDependsOnRow(s, t, other);
        }
      }
    }
  }

  // ---------------------------------------------------------------------------
  // Write path

  /** After saving a truthy value, `get` of that key returns it, whatever was cached
      before; so does a fresh instance over the same table, with the same cache or an
      empty one. */
  lemma ReadYourWrite(s: State, key: string, v: Value, fallback: Value)
    requires Truthy(v)
    ensures Get(Save(s, key, v), key, fallback).result == v
    ensures var t := Save(s, key, v);
      && Get(New(s.config, t.db, t.cache), key, fallback).result == v
      && Get(New(s.config, t.db, map[]), key, fallback).result == v
  {
  }

  /** After saving a falsy value, `get` of that key skips it: it returns the
      configured default when that is truthy, else the fallback. */
  lemma SavedFalsyValueFallsThrough(s: State, key: string, v: Value, fallback: Value)
    requires !Truthy(v)
    ensures var configured := GetValueFromConfig(s, key).result;
      Get(Save(s, key, v), key, fallback).result == if Truthy(configured) then configured else fallback
  {
  }

  /** `save` is a function of the state only through the saved key: the table gets
      the row, the cache loses that key's entry, and everything else is kept. */
  lemma SaveFrame(s: State, key: string, v: Value)
    ensures Save(s, key, v) == State(s.config, s.allFields, s.db[key := v], s.cache - {CacheKey(s.config, key)})
  {
  }

  /** Forgetting two cache keys gives the same cache in either order. */
  lemma ForgetsCommute(m: Cache, c1: string, c2: string)
    ensures m - {c1} - {c2} == m - {c2} - {c1}
  {
  }

  /** Writing two different table keys gives the same table in either order. */
  lemma UpdatesOfDistinctKeysCommute(m: Table, k1: string, v1: Value, k2: string, v2: Value)
    requires k1 != k2
    ensures m[k1 := v1][k2 := v2] == m[k2 := v2][k1 := v1]
  {
  }

  /** Saving the same key twice keeps only the last value. */
  lemma SaveLastWriterWins(s: State, key: string, v1: Value, v2: Value)
    ensures Save(Save(s, key, v1), key, v2) == Save(s, key, v2)
  {
    var ck := CacheKey(s.config, key);
    SaveFrame(s, key, v1);
    SaveFrame(s, key, v2);
    SaveFrame(Save(s, key, v1), key, v2);
    assert s.cache - {ck} - {ck} == s.cache - {ck};
  }

  /** Saves of different keys commute. */
  lemma SavesOfDistinctKeysCommute(s: State, k1: string, v1: Value, k2: string, v2: Value)
    requires k1 != k2
    ensures Save(Save(s, k1, v1), k2, v2) == Save(Save(s, k2, v2), k1, v1)
  {
    SaveFrame(s, k1, v1);
    SaveFrame(s, k2, v2);
    SaveFrame(Save(s, k1, v1), k2, v2);
    SaveFrame(Save(s, k2, v2), k1, v1);
    ForgetsCommute(s.cache, CacheKey(s.config, k1), CacheKey(s.config, k2));
    UpdatesOfDistinctKeysCommute(s.db, k1, v1, k2, v2);
  }

  // ---------------------------------------------------------------------------
  // Listing

  /** A listing entry shows the configured default and group of its key, with null
      and `No group` / `no-group` for whatever the configuration leaves unset. */
  lemma ListingEntryMetadata(s: State, key: string)
    requires s.allFields.None?
    requires key in s.db || key in ConfigSettingsFields(s.config)
    ensures var r := GetAllSettings(s).result;
      var fields := ConfigSettingsFields(s.config);
      && r.Some? && key in r.value
      && r.value[key].value == (if key in s.db then s.db[key] else Null)
      && (key !in fields ==> r.value[key].default == Null && r.value[key].group == NoGroup)
      && (key in fields ==>
            && r.value[key].default == fields[key].default.GetOr(Null)
            && (IsSet(fields[key].group.caption) ==> r.value[key].group.caption == fields[key].group.caption)
            && (!IsSet(fields[key].group.caption) ==> r.value[key].group.caption == Str("No group"))
            && (IsSet(fields[key].group.slug) ==> r.value[key].group.slug == fields[key].group.slug)
            && (!IsSet(fields[key].group.slug) ==> r.value[key].group.slug == Str("no-group")))
  {
  }

  /** Once a listing is memoized, later `save` and `get` calls do not change what
      `getAllSettings` returns. */
  lemma MemoSurvivesWrites(s: State, key: string, v: Value, fallback: Value)
    requires GetAllSettings(s).result.Some?
    ensures var first := GetAllSettings(s);
      && GetAllSettings(Save(first.state, key, v)).result == first.result
      && GetAllSettings(Get(first.state, key, fallback).state).result == first.result
  {
  }

  /** An empty listing is not memoized: after a `save`, the next call lists the new key. */
  lemma EmptyListingRecomputed(config: Config, cache: Cache, key: string, v: Value)
    requires ConfigSettingsFields(config) == map[]
    ensures var s := New(config, map[], cache);
      && GetAllSettings(s) == Step(None, s)
      && GetAllSettings(Save(s, key, v)).result == Some(map[key := Entry(v, Null, NoGroup)])
  {
    var t := Save(New(config, map[], cache), key, v);
    assert t.db == map[key := v];
    var view := AllSettingsView(t.db, ConfigSettingsFields(config));
    assert view.Keys == {key};
    assert view[key] == Entry(v, Null, NoGroup);
    assert view == map[key := Entry(v, Null, NoGroup)];
  }

  /** The listing touches neither the table nor the cache, so it keeps the cache coherent. */
  lemma ListingPreservesCoherence(s: State)
    requires CacheCoherent(s)
    ensures CacheCoherent(GetAllSettings(s).state)
  {
  }
}
