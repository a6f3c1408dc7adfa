/**
 * The configuration shipped with the package, with one configured field
 * `site_name` whose default is `Laravel 5`, and what the store does with it.
 */
module Scenarios {
  import opened Wrappers
  import opened PhpValues
  import opened Settings

  const SiteName: string := "site_name"

  const SiteNameField: Field :=
    Field(Some(Str("Laravel 5")), Group(Str("Site settings"), Str("site-settings")))

  /** The shipped configuration: caching requested, with a string cache prefix. */
  const ShippedConfig: Config :=
    Config(Str("markofly_settings"), Bool(true), Str("markofly_settings"), Some(map[SiteName := SiteNameField]))

  /** The shipped configuration with `cache_prefix` set to true, the only setting
      under which lookups use the cache. */
  const CachingConfig: Config := ShippedConfig.(cachePrefix := Bool(true))

  /** Caching is on exactly when `use_caching` is set and `cache_prefix` is true; so the
      shipped configuration has it off, while `use_caching => false` with a true prefix
      has it on. When it is on, cache keys are `1` followed by the setting key. */
  lemma CacheGate(c: Config, key: string)
    ensures IsCacheEnabled(c) <==> IsSet(c.useCaching) && c.cachePrefix == Bool(true)
    ensures IsCacheEnabled(c) ==> CacheKey(c, key) == "1" + key
    ensures !IsCacheEnabled(ShippedConfig)
    ensures CacheKey(ShippedConfig, key) == "markofly_settings" + key
    ensures IsCacheEnabled(ShippedConfig.(useCaching := Bool(false), cachePrefix := Bool(true)))
    ensures CacheKey(ShippedConfig.(cachePrefix := Null), key) == "markofly_" + key
  {
  }

  /** Without a row, `get('site_name')` under the shipped configuration returns the
      configured default and, caching being off, leaves the cache as it was. */
  lemma SiteNameDefault(db: Table, cache: Cache)
    requires SiteName !in db
    ensures var s := New(ShippedConfig, db, cache);
      Get(s, SiteName, Null) == Step(Str("Laravel 5"), s)
  {
  }

  /** With caching on and nothing cached yet, the same lookup leaves the default
      cached under `1site_name`. */
  lemma SiteNameDefaultCachedWhenEnabled(db: Table, cache: Cache)
    requires SiteName !in db
    requires "1site_name" !in cache
    ensures var r := Get(New(CachingConfig, db, cache), SiteName, Null);
      && r.result == Str("Laravel 5")
      && r.state.cache == cache["1site_name" := Str("Laravel 5")]
  {
    assert CacheKey(CachingConfig, SiteName) == "1site_name";
  }

  /** Saving `My Site` makes `get` return it instead of the default, under either configuration. */
  lemma SiteNameSaveThenGet(db: Table, cache: Cache)
    ensures Get(Save(New(ShippedConfig, db, cache), SiteName, Str("My Site")), SiteName, Null).result == Str("My Site")
    ensures Get(Save(New(CachingConfig, db, cache), SiteName, Str("My Site")), SiteName, Null).result == Str("My Site")
  {
  }

  /** A stored `0` or empty string is not a value: the default shows through. */
  lemma StoredFalsySiteNameShowsDefault(db: Table, cache: Cache, stored: Value)
    requires stored == Str("0") || stored == Str("")
    ensures Get(Save(New(ShippedConfig, db, cache), SiteName, stored), SiteName, Null).result == Str("Laravel 5")
  {
  }

  /** The listing of a store with no rows shows `site_name` with its default and group. */
  lemma SiteNameListing(cache: Cache)
    ensures GetAllSettings(New(ShippedConfig, map[], cache)).result ==
      Some(map[SiteName := Entry(Null, Str("Laravel 5"), Group(Str("Site settings"), Str("site-settings")))])
  {
    var entry := Entry(Null, Str("Laravel 5"), Group(Str("Site settings"), Str("site-settings")));
    var view := AllSettingsView(map[], ConfigSettingsFields(ShippedConfig));
    assert view.Keys == {SiteName};
    assert view[SiteName] == entry;
    assert view == map[SiteName := entry];
  }
}
