# Markofly laravel-settings: the `Settings` store in Dafny

This project models the `Settings` class of the Markofly Laravel settings package. It is a
key-value settings store. A read resolves a key through the cache, then the settings table,
then the `default` of the configured `fields`, and finally the caller's fallback. A write
updates or inserts the table row and then forgets the key's cache entry. `getAllSettings`
lists every table key and every configured key and memoizes the listing on the instance.

The model is functional. A `State` holds the instance's configuration and its `allFields`
memo, plus the settings table (`map<string, Value>`, since the `key` column is unique under
a binary collation) and the cache (`map<string, Value>`, keyed by full cache key). Every
operation is a pure function from a state to its result and the next state.

Modules:

- `Wrappers` (`wrappers.dfy`): `Option`.
- `PhpValues` (`php_values.dfy`): the PHP values the store handles. It also has
  `Truthy`, which is PHP's boolean conversion (null, `false`, `0`, `""`, `"0"` and the empty
  array are falsy), `IsSet`, and the string conversion used by `.`.
- `Settings` (`settings.dfy`): configuration, cache keys, the three tier lookups,
  `Get`, `Save` and the listing. It includes `CollectAllSettings`, the listing built row by
  row as the class's two loops build it.
- `SettingsLemmas` (`settings_lemmas.dfy`): the tier order against a reference definition
  (`FirstTruthy`), what reads put in the cache, cache coherence, the frame of `Save`,
  read-your-write, and the behaviour of the memo.
- `Scenarios` (`scenarios.dfy`): the shipped configuration with its `site_name` field.

Three behaviours of the class are modelled as written:

- Tiers are chosen by truthiness, not by a null test. A stored `""` or `"0"` falls through to
  the configured default. A row whose value is falsy is still written to the cache before
  the test, and a configured default then overwrites that entry.
- `isCacheEnabled` requires `use_caching` to be set, but then tests whether `cache_prefix` is
  the boolean `true`. With the shipped configuration (`cache_prefix => 'markofly_settings'`)
  lookups therefore never read or fill the cache. When caching is on, the prefix is `true`,
  which PHP turns into the string `"1"`, so the cache key is `"1"` followed by the setting
  key (`Scenarios.CacheGate`). `save` always forgets `prefix . key`, whether or not caching
  is on.
- The listing memo starts as `null`. An empty listing leaves it `null`, and
  `getAllSettings` then returns `null` (`None` here). So only a non-empty listing is
  memoized. Once memoized, it is returned unchanged even after later writes.

Caching is off under the shipped configuration, so `get('site_name')` leaves nothing in the
cache (`Scenarios.SiteNameDefault`). Only with `cache_prefix => true` is the default cached,
and then under the key `1site_name` (`Scenarios.SiteNameDefaultCachedWhenEnabled`). An empty
listing is recomputed on every call.

## Model

`PhpValues.IsSet` (PHP's `isset` on an array slot, `src/Settings.php:181`, `:189`, `:197`,
`:234`, `:283-297`) and `Settings.HasDefault` (the `array_key_exists` guards of
`getValueFromConfig`, `src/Settings.php:143-150`) have no row of their own. They are covered
by the rows of the members that use them.

| member | source | states |
|---|---|---|
| `PhpValues.Truthy` | src/Settings.php:78-96 | the test each tier applies: a value is falsy exactly when it is null, `false`, `0`, `""`, `"0"` or the empty array, and everything else is truthy; a string of two or more characters is always truthy, and a one-character string is truthy unless it is `"0"` |
| `PhpValues.ToPhpString` | src/Settings.php:204-207 | the string conversion the `.` applies to the prefix (also inline at line 109): `true` becomes `"1"`, `false` and null become `""`, an integer becomes its decimal digits without leading zeros (after `-` when negative), strings are unchanged, and for scalars the conversion keeps truthiness |
| `Settings.ConfigSettingsFields` | src/Settings.php:232-235 | the configured `fields` array, or no fields when the configuration has none |
| `Settings.ConfigSettingsKeys` | src/Settings.php:240-243 | the configured keys are exactly the keys of the configured fields |
| `Settings.New` | src/Settings.php:40-45 | a new instance holds the given configuration, table and cache, and its listing memo starts as the null sentinel |
| `Settings.IsCacheEnabled` | src/Settings.php:187-190 | caching is on if and only if `use_caching` is set and `cache_prefix` is the boolean `true`; any string prefix turns it off |
| `Settings.Lookup` | src/Settings.php:124 | the row query finds a row exactly when the key is in the table, and then yields that row's value |
| `Settings.DatabaseTableName` | src/Settings.php:179-182 | the table name is never null: the configured name when set, else `markofly_settings` |
| `Settings.CachePrefix` | src/Settings.php:195-198 | any set `cache_prefix` is used in its PHP string form (so `false` gives `""` and `true` gives `"1"`, the only prefix under which caching is enabled); a string prefix is used as is; with `cache_prefix` unset it is `markofly_` |
| `Settings.CacheKey` | src/Settings.php:204-207 | a cache key splits into the prefix followed by the setting key |
| `Settings.StoreValueToCache` | src/Settings.php:213-219 | writes the value under the key's cache key only when caching is enabled; no other entry changes |
| `Settings.RemoveItemFromCache` | src/Settings.php:224-227 | the key's cache entry is gone whether or not caching is enabled; no other entry changes and none is added |
| `Settings.GetValueFromCache` | src/Settings.php:103-116 | null when caching is off or nothing is cached under the key's cache key; with caching on and an entry present, that entry is returned |
| `Settings.GetValueFromDatabase` | src/Settings.php:122-133 | with no row: null and no state change; with a row: its value, written to the cache (when enabled) whatever its truthiness; only the cache changes |
| `Settings.GetValueFromConfig` | src/Settings.php:139-155 | a value only when the key is configured with a `default` key; that default is written to the cache (when enabled); otherwise null and no state change |
| `Settings.GetValue` | src/Settings.php:76-97 | the result is null or truthy; only the cache entry of this key can change |
| `Settings.Get` | src/Settings.php:52-61 | the result is the fallback or a truthy value; the table, configuration and memo are unchanged; the cache only gains or overwrites this key's entry; with caching off nothing changes |
| `Settings.Update` | src/Settings.php:166 | the row of the key gets the new value; the set of keys and all other rows are unchanged |
| `Settings.Insert` | src/Settings.php:168-170 | adds the one new row (key, value) for an absent key and keeps every existing row |
| `Settings.StoreValueToDatabase` | src/Settings.php:161-174 | update-or-insert leaves the table mapping the key to the value with all other rows unchanged; the cache loses exactly the key's entry |
| `Settings.Save` | src/Settings.php:67-70 | the table maps the key to the value, with one row per key (size unchanged on update, one more on insert); the key's cache entry is removed even with caching off; nothing else changes |
| `Settings.EntryFor` | src/Settings.php:281-299 | a listing entry carries the given value; an unconfigured key gets a null default and group `No group`/`no-group`; label and slug are always set |
| `Settings.CollectAllSettings` | src/Settings.php:271-302 | the two loops over table rows and over configured keys without a row leave the null sentinel exactly when both are empty, and otherwise build the listing of table keys and configured keys |
| `Settings.GetAllSettings` | src/Settings.php:265-303 | a held memo is returned with no state change; otherwise the result is null exactly when there are no rows and no configured fields, its keys are table keys plus configured keys, table keys carry their stored value and other keys null; the result becomes the memo |
| `SettingsLemmas.FirstTruthy` | src/Settings.php:78-96 | reference for the tier order: a truthy value of the sequence with only falsy values before it, absent exactly when every value is falsy |
| `SettingsLemmas.CacheReadsBackStore` | src/Settings.php:103-116 | with caching on, the cache tier reads back what a lookup's cache write stored |
| `SettingsLemmas.GetResolvesFirstTruthyTier` | src/Settings.php:52-97 | `get` returns the first truthy value among cache, table and configured default, each read from the state before the call, else the fallback |
| `SettingsLemmas.GetFallsBackOnlyOnTotalMiss` | src/Settings.php:52-97 | with a falsy fallback, `get` returns it if and only if no tier yields a truthy value |
| `SettingsLemmas.GetPopulatesCache` | src/Settings.php:122-155 | with caching on and no truthy cached value, the cache ends holding the value of the last tier with an entry: a falsy row is cached and then overwritten by a configured default; with neither, the cache is unchanged |
| `SettingsLemmas.GetLeavesResolvedValueCached` | src/Settings.php:76-155 | with caching on, a value resolved from any tier is cache-resident under the key's cache key afterwards |
| `SettingsLemmas.GetIdempotent` | src/Settings.php:52-155 | a second `get` of the same key returns the same value and leaves the same state |
| `SettingsLemmas.CacheKeyInjective` | src/Settings.php:204-207 | distinct setting keys have distinct cache keys |
| `SettingsLemmas.ColdCacheCoherent` | src/Settings.php:40-45 | a new instance over an empty cache satisfies the cache-coherence invariant |
| `SettingsLemmas.CoherentGetMatchesColdCache` | src/Settings.php:76-116 | in a coherent state `get` returns what it would return with an empty cache |
| `SettingsLemmas.GetPreservesCoherence` | src/Settings.php:122-155 | the cache writes made by `get` keep every truthy cached value equal to the key's cold-cache value |
| `SettingsLemmas.SavePreservesCoherence` | src/Settings.php:161-174 | `save` keeps the cache coherent: the saved key's entry is forgotten and no other key's resolved value changes |
| `SettingsLemmas.ReadYourWrite` | src/Settings.php:161-174 | after saving a truthy value, `get` of the key returns it whatever was cached before, and so does a fresh instance over the same table with the same or an empty cache |
| `SettingsLemmas.SavedFalsyValueFallsThrough` | src/Settings.php:85-93 | after saving a falsy value, `get` returns the truthy configured default, else the fallback |
| `SettingsLemmas.SaveFrame` | src/Settings.php:161-174 | `save` changes only the key's row and the key's cache entry |
| `SettingsLemmas.SaveLastWriterWins` | src/Settings.php:161-174 | two saves of one key equal the last save alone |
| `SettingsLemmas.SavesOfDistinctKeysCommute` | src/Settings.php:161-174 | saves of different keys commute |
| `SettingsLemmas.ListingEntryMetadata` | src/Settings.php:279-299 | each listed key has its stored value (null without a row), its configured default (else null), and its configured label and slug (else `No group` and `no-group`) |
| `SettingsLemmas.MemoSurvivesWrites` | src/Settings.php:265-269 | once a listing is memoized, later `save` and `get` calls do not change what `getAllSettings` returns |
| `SettingsLemmas.EmptyListingRecomputed` | src/Settings.php:265-303 | with no rows and no configured fields the call returns null and memoizes nothing, and after a `save` the next call lists the saved key |
| `SettingsLemmas.ListingPreservesCoherence` | src/Settings.php:265-303 | the listing does not touch the table or the cache, so coherence is kept |
| `Scenarios.CacheGate` | src/Settings.php:187-198 | caching is on exactly when `use_caching` is set and `cache_prefix` is `true`: off for the shipped configuration, on for `use_caching => false` with a true prefix; the cache key is then `"1"` followed by the key; an unset prefix gives `markofly_` |
| `Scenarios.SiteNameDefault` | config/settings.php:12-20 | with no `site_name` row, `get('site_name')` under the shipped configuration returns `Laravel 5` and changes nothing |
| `Scenarios.SiteNameDefaultCachedWhenEnabled` | src/Settings.php:139-155 | with caching on and nothing cached, the same lookup caches `Laravel 5` under `1site_name` |
| `Scenarios.SiteNameSaveThenGet` | src/Settings.php:67-88 | saving `My Site` makes `get('site_name')` return it, with caching off or on |
| `Scenarios.StoredFalsySiteNameShowsDefault` | src/Settings.php:85-93 | a stored `"0"` or `""` for `site_name` is skipped and `Laravel 5` is returned |
| `Scenarios.SiteNameListing` | src/Settings.php:291-300 | with no rows the listing is `site_name` with null value, default `Laravel 5` and its configured group |

## Left out

- The Laravel `Cache` facade and query builder are modelled as map lookups, updates and deletes. `Cache::has` treating a stored null as absent is not modelled. A cached null is falsy, so `getValue` resolves the same either way.
- `DatabaseTableName` is computed, but the model has a single settings table. The name selects no other table.
- `Save` stores the PHP value as is. Conversion to the text `value` column is not modelled.
- Key equality is exact string equality. The padding behaviour of the column's collation is not modelled.
- Floats and objects are not part of `Value`. PHP's conversion of numeric-string array keys to integers is not modelled.
- The listing is a map, so the order of its entries is not modelled.
- Persistence failures are not modelled; the class lets them propagate. `Insert` requires an absent key, because the unique index would reject a duplicate with such a failure.
- PHP notices are not modelled. For example, reading an unset `cache_prefix` yields a notice; the model reads it as null, as PHP does.
- Concurrency is not modelled: the class has no locking, and races between processes sharing the cache are out of scope.
- The service provider (container binding, publishing of configuration and migration) and the migration's schema are not modelled. The shipped configuration appears only as the `Scenarios` data.
- `getDatabaseSettingsFields` and `getDatabaseSettingsKeys` (`src/Settings.php:248-259`) are not separate members. Both are reads of the same table, which the listing reads directly.
- The constructor's copy of `fields` is not kept separately: it is read from the configuration, which never changes.
