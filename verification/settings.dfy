/**
 * The `Settings` store: reads resolve through the cache, then the settings
 * table, then the configured defaults, and then the caller's fallback. Writes
 * update or insert the table row and then forget the key's cache entry.
 *
 * The store's state, i.e. the instance's configuration and listing memo plus
 * the settings table and the cache it works against, is an immutable value.
 * Each operation is a pure function from a state to its result and the next state.
 */
module Settings {
  import opened Wrappers
  import opened PhpValues

  /** The settings table: `key` column to `value` column. The key is unique under a
      binary collation, so exact string equality picks the row. */
  type Table = map<string, Value>

  /** The application cache, addressed by full cache key. */
  type Cache = map<string, Value>

  /** Display group of a configured field: its `label` (here `caption`) and `slug`.
      A slot that is not set is Null. */
  datatype Group = Group(caption: Value, slug: Value)

  /** One entry of the configuration's `fields` array. `default` is None when the
      entry has no `default` key, and Some(Null) when the key holds null. A missing
      `group` array is Group(Null, Null). */
  datatype Field = Field(default: Option<Value>, group: Group)

  /** The configuration array given to the constructor. An absent slot is Null;
      `fields` is None when the slot is absent or null. */
  datatype Config = Config(
    settingsTableName: Value,
    useCaching: Value,
    cachePrefix: Value,
    fields: Option<map<string, Field>>)

  /** One row of the `getAllSettings` listing. */
  datatype Entry = Entry(value: Value, default: Value, group: Group)

  type Listing = map<string, Entry>

  /** A store instance (configuration and `allFields` memo) together with the table
      and the cache it reads and writes. `allFields` None is the PHP null sentinel. */
  datatype State = State(config: Config, allFields: Option<Listing>, db: Table, cache: Cache)

  /** The result of an operation and the state it leaves behind. */
  datatype Step<T> = Step(result: T, state: State)

  /** The group the listing shows when the configuration gives none. */
  const NoGroup: Group := Group(Str("No group"), Str("no-group"))

  const DefaultTableName: string := "markofly_settings"
  const DefaultCachePrefix: string := "markofly_"

  /** Constructs an instance over a table and a cache; the listing is not yet memoized. */
  function New(config: Config, db: Table, cache: Cache): (s: State)
    ensures s.allFields.None?
    ensures s.config == config && s.db == db && s.cache == cache
  {
    State(config, None, db, cache)
  }

  // ---------------------------------------------------------------------------
  // Configuration

  /** The configured fields, or none when the configuration has no `fields` array. */
  function ConfigSettingsFields(c: Config): (fields: map<string, Field>)
    ensures c.fields.Some? ==> fields == c.fields.value
    ensures c.fields.None? ==> |fields| == 0
  {
    c.fields.GetOr(map[])
  }

  /** The keys of the configured fields. */
  function ConfigSettingsKeys(c: Config): (keys: set<string>)
    ensures forall k :: k in keys <==> k in ConfigSettingsFields(c)
  {
    ConfigSettingsFields(c).Keys
  }

  /** The table the store uses: the configured name when set, else `markofly_settings`. */
  function DatabaseTableName(c: Config): (name: Value)
    ensures IsSet(name)
    ensures IsSet(c.settingsTableName) ==> name == c.settingsTableName
    ensures !IsSet(c.settingsTableName) ==> name == Str(DefaultTableName)
  {
    if IsSet(c.settingsTableName) then c.settingsTableName else Str(DefaultTableName)
  }

  // ---------------------------------------------------------------------------
  // Cache

  /** Whether lookups read and fill the cache. This is the predicate exactly as the
      class computes it: `use_caching` must be set, but it is `cache_prefix` that must
      be the boolean true. */
  predicate IsCacheEnabled(c: Config)
    ensures IsCacheEnabled(c) ==> IsSet(c.useCaching) && c.cachePrefix == Bool(true)
    ensures IsSet(c.useCaching) && c.cachePrefix == Bool(true) ==> IsCacheEnabled(c)
    ensures c.cachePrefix.Str? ==> !IsCacheEnabled(c)
  {
    (if IsSet(c.useCaching) then c.cachePrefix else Bool(false)) == Bool(true)
  }

  /** The cache-key prefix: the configured `cache_prefix` converted to a string,
      else `markofly_`. */
  function CachePrefix(c: Config): (prefix: string)
    ensures IsCacheEnabled(c) ==> prefix == "1"
    ensures !IsSet(c.cachePrefix) ==> prefix == DefaultCachePrefix
    ensures c.cachePrefix.Str? ==> prefix == c.cachePrefix.s
    ensures IsSet(c.cachePrefix) ==> prefix == ToPhpString(c.cachePrefix)
  {
    if IsSet(c.cachePrefix) then ToPhpString(c.cachePrefix) else DefaultCachePrefix
  }

  /** The cache key of a setting: the prefix followed by the setting's key. */
  function CacheKey(c: Config, key: string): (ck: string)
    ensures |ck| == |CachePrefix(c)| + |key|
    ensures ck[..|CachePrefix(c)|] == CachePrefix(c)
    ensures ck[|CachePrefix(c)|..] == key
  {
    CachePrefix(c) + key
  }

  /** Two caches that hold the same entries under every key except `ck`. */
  predicate AgreeExcept(a: Cache, b: Cache, ck: string) {
    a - {ck} == b - {ck}
  }

  /** `Cache::forever` under the key's cache key, done only when caching is enabled. */
  function StoreValueToCache(c: Config, cache: Cache, key: string, v: Value): (r: Cache)
    ensures AgreeExcept(r, cache, CacheKey(c, key))
    ensures IsCacheEnabled(c) ==> CacheKey(c, key) in r && r[CacheKey(c, key)] == v
    ensures !IsCacheEnabled(c) ==> r == cache
  {
    if IsCacheEnabled(c) then cache[CacheKey(c, key) := v] else cache
  }

  /** `Cache::forget` of the key's cache key, whether or not caching is enabled. */
  function RemoveItemFromCache(c: Config, cache: Cache, key: string): (r: Cache)
    ensures CacheKey(c, key) !in r
    ensures AgreeExcept(r, cache, CacheKey(c, key))
    ensures r.Keys <= cache.Keys
  {
    cache - {CacheKey(c, key)}
  }

  // ---------------------------------------------------------------------------
  // Lookups, one per tier

  /** The cached value of a setting, or Null when caching is off or nothing is cached. */
  function GetValueFromCache(s: State, key: string): (v: Value)
    ensures !IsCacheEnabled(s.config) ==> v == Null
    ensures CacheKey(s.config, key) !in s.cache ==> v == Null
    ensures IsCacheEnabled(s.config) && CacheKey(s.config, key) in s.cache ==> v == s.cache[CacheKey(s.config, key)]
    ensures IsSet(v) ==> CacheKey(s.config, key) in s.cache && s.cache[CacheKey(s.config, key)] == v
  {
    if !IsCacheEnabled(s.config) then Null
    else
      var ck := CachePrefix(s.config) + key;
      if ck !in s.cache then Null else s.cache[ck]
  }

  /** The row of the settings table with this key, if any (`where('key', $key)->first()`). */
  function Lookup(db: Table, key: string): (row: Option<Value>)
    ensures row.Some? <==> key in db
    ensures row.Some? ==> row.value == db[key]
  {
    if key in db then Some(db[key]) else None
  }

  /** The stored value of a setting, or Null when it has no row. A row, whatever its
      value, is written to the cache before the value is returned. */
  function GetValueFromDatabase(s: State, key: string): (r: Step<Value>)
    ensures r.state == s.(cache := r.state.cache)
    ensures key !in s.db ==> r == Step(Null, s)
    ensures key in s.db ==> r.result == s.db[key]
    ensures key in s.db ==> r.state.cache == StoreValueToCache(s.config, s.cache, key, s.db[key])
  {
    match Lookup(s.db, key)
    case None => Step(Null, s)
    case Some(v) => Step(v, s.(cache := StoreValueToCache(s.config, s.cache, key, v)))
  }

  /** Whether the configured fields have an entry for the key with a `default` key. */
  predicate HasDefault(c: Config, key: string) {
    key in ConfigSettingsFields(c) && ConfigSettingsFields(c)[key].default.Some?
  }

  /** The configured default of a setting, or Null when the key is not configured or
      its entry has no `default`. A default that is found is written to the cache. */
  function GetValueFromConfig(s: State, key: string): (r: Step<Value>)
    ensures r.state == s.(cache := r.state.cache)
    ensures !HasDefault(s.config, key) ==> r == Step(Null, s)
    ensures HasDefault(s.config, key) ==>
      && r.result == ConfigSettingsFields(s.config)[key].default.value
      && r.state.cache == StoreValueToCache(s.config, s.cache, key, r.result)
  {
    var fields := ConfigSettingsFields(s.config);
    if key !in fields then Step(Null, s)
    else
      match fields[key].default
      case None => Step(Null, s)
      case Some(v) => Step(v, s.(cache := StoreValueToCache(s.config, s.cache, key, v)))
  }

  // ---------------------------------------------------------------------------
  // Read path

  /** The first truthy tier value, or Null. Only the cache entry of this key may change. */
  function GetValue(s: State, key: string): (r: Step<Value>)
    ensures r.result == Null || Truthy(r.result)
    ensures r.state == s.(cache := r.state.cache)
    ensures AgreeExcept(r.state.cache, s.cache, CacheKey(s.config, key))
  {
    var fromCache := GetValueFromCache(s, key);
    if Truthy(fromCache) then Step(fromCache, s)
    else
      var fromDatabase := GetValueFromDatabase(s, key);
      if Truthy(fromDatabase.result) then fromDatabase
      else
        var fromConfig := GetValueFromConfig(fromDatabase.state, key);
        if Truthy(fromConfig.result) then fromConfig
        else Step(Null, fromConfig.state)
  }

  /** `get($key, $default)`: the resolved value, or the fallback when no tier has a
      truthy value. The table, the configuration and the memo are untouched; in the
      cache at most this key's entry is added or overwritten, and with caching off
      nothing changes. */
  function Get(s: State, key: string, fallback: Value): (r: Step<Value>)
    ensures r.result == fallback || Truthy(r.result)
    ensures r.state.db == s.db && r.state.config == s.config && r.state.allFields == s.allFields
    ensures AgreeExcept(r.state.cache, s.cache, CacheKey(s.config, key))
    ensures s.cache.Keys <= r.state.cache.Keys
    ensures !IsCacheEnabled(s.config) ==> r.state == s
  {
    var value := GetValue(s, key);
    if value.result == Null then Step(fallback, value.state) else value
  }

  // ---------------------------------------------------------------------------
  // Write path

  /** `update(['value' => $v])` on the rows with this key. */
  function Update(db: Table, key: string, v: Value): (r: Table)
    ensures r.Keys == db.Keys
    ensures forall k :: k in db && k != key ==> r[k] == db[k]
    ensures key in db ==> r[key] == v
  {
    map k | k in db :: if k == key then v else db[k]
  }

  /** `insert(['key' => $key, 'value' => $v])`; the unique index admits only a new key. */
  function Insert(db: Table, key: string, v: Value): (r: Table)
    requires key !in db
    ensures r.Keys == db.Keys + {key}
    ensures r[key] == v
    ensures forall k :: k in db ==> r[k] == db[k]
  {
    db[key := v]
  }

  /** `storeValueToDatabase`: update the row when it exists, insert it otherwise, then
      forget the key's cache entry. Afterwards the table maps the key to `v` and is
      otherwise unchanged, and the cache lacks exactly that entry. */
  function StoreValueToDatabase(s: State, key: string, v: Value): (r: State)
    ensures r.db == s.db[key := v]
    ensures r.cache == s.cache - {CacheKey(s.config, key)}
    ensures r.config == s.config && r.allFields == s.allFields
  {
    var db := match Lookup(s.db, key)
      case Some(_) => Update(s.db, key, v)
      case None => Insert(s.db, key, v);
    s.(db := db, cache := RemoveItemFromCache(s.config, s.cache, key))
  }

  /** `save($key, $value)`. */
  function Save(s: State, key: string, v: Value): (r: State)
    ensures r.db == s.db[key := v]
    ensures key in s.db ==> |r.db| == |s.db|
    ensures key !in s.db ==> |r.db| == |s.db| + 1
    ensures CacheKey(s.config, key) !in r.cache
    ensures AgreeExcept(r.cache, s.cache, CacheKey(s.config, key))
    ensures r.config == s.config && r.allFields == s.allFields
  {
    StoreValueToDatabase(s, key, v)
  }

  // ---------------------------------------------------------------------------
  // Listing

  /** The listing entry of a key holding `value`: its configured default and group,
      with null and `No group` / `no-group` where the configuration sets none. */
  function EntryFor(fields: map<string, Field>, key: string, value: Value): (e: Entry)
    ensures e.value == value
    ensures key !in fields ==> e == Entry(value, Null, NoGroup)
    ensures IsSet(e.group.caption) && IsSet(e.group.slug)
  {
    if key !in fields then Entry(value, Null, NoGroup)
    else
      var f := fields[key];
      Entry(value,
            f.default.GetOr(Null),
            Group(if IsSet(f.group.caption) then f.group.caption else NoGroup.caption,
                  if IsSet(f.group.slug) then f.group.slug else NoGroup.slug))
  }

  /** The stored value of a key, Null when it has no row. */
  function StoredValue(db: Table, key: string): Value {
    Lookup(db, key).GetOr(Null)
  }

  /** Every table key and every configured key, each with its entry. */
  function AllSettingsView(db: Table, fields: map<string, Field>): Listing {
    map k | k in db.Keys + fields.Keys :: EntryFor(fields, k, StoredValue(db, k))
  }

  /** The two loops of `getAllSettings`, row by row: first every table row with its
      stored value, then every configured key that has no row (the `array_diff`), with
      value null. Starting from the null sentinel, the result stays null when neither
      loop runs; otherwise it is exactly the declarative listing. */
  method CollectAllSettings(db: Table, fields: map<string, Field>) returns (listing: Option<Listing>)
    ensures listing.None? <==> db == map[] && fields == map[]
    ensures listing.Some? ==> listing.value == AllSettingsView(db, fields)
  {
    listing := None;
    var rows := db.Keys;
    while rows != {}
      invariant rows <= db.Keys
      invariant listing.None? <==> rows == db.Keys
      invariant listing.Some? ==> listing.value.Keys == db.Keys - rows
      invariant listing.Some? ==> forall k :: k in listing.value ==> listing.value[k] == EntryFor(fields, k, db[k])
      decreases rows
    {
      var k :| k in rows;
      listing := Some(listing.GetOr(map[])[k := EntryFor(fields, k, db[k])]);
      rows := rows - {k};
    }
    var notInDatabase := fields.Keys - db.Keys;
    var missing := notInDatabase;
    while missing != {}
      invariant missing <= notInDatabase
      invariant listing.None? <==> db.Keys == {} && missing == notInDatabase
      invariant listing.Some? ==> listing.value.Keys == db.Keys + (notInDatabase - missing)
      invariant listing.Some? ==> forall k :: k in listing.value ==> listing.value[k] == EntryFor(fields, k, StoredValue(db, k))
      decreases missing
    {
      var k :| k in missing;
      listing := Some(listing.GetOr(map[])[k := EntryFor(fields, k, Null)]);
      missing := missing - {k};
    }
    if listing.Some? {
      assert listing.value.Keys == (db.Keys + fields.Keys);
    }
  }

  /** `getAllSettings()`: the memo when one is held; otherwise the listing of table
      keys and configured keys, which becomes the memo. An empty listing stays the
      null sentinel, so it is neither returned as a map nor memoized. */
  function GetAllSettings(s: State): (r: Step<Option<Listing>>)
    ensures r.state == s.(allFields := r.state.allFields)
    ensures r.result == r.state.allFields
    ensures s.allFields.Some? ==> r == Step(s.allFields, s)
    ensures s.allFields.None? ==>
      (r.result.None? <==> s.db == map[] && ConfigSettingsFields(s.config) == map[])
    ensures s.allFields.None? && r.result.Some? ==>
      && r.result.value.Keys == s.db.Keys + ConfigSettingsKeys(s.config)
      && (forall k :: k in s.db ==> r.result.value[k].value == s.db[k])
      && (forall k :: k in r.result.value && k !in s.db ==> r.result.value[k].value == Null)
  {
    if s.allFields.Some? then Step(s.allFields, s)
    else
      var fields := ConfigSettingsFields(s.config);
      var view := AllSettingsView(s.db, fields);
      assert view.Keys == s.db.Keys + fields.Keys;
      var memo := if view == map[] then None else Some(view);
      Step(memo, s.(allFields := memo))
  }
}
