/** `register` of each provider: the defaults of `getOrmDefaults`, the
    per-instance option template, and the keys each provider owns. */
module Registration {
  import opened Php
  import opened Registry
  import opened Caches
  import Options
  import opened Mappings

  const ProxiesNamespace := "DoctrineProxy"
  const MetadataFactoryClass := "Doctrine\\ORM\\Mapping\\ClassMetadataFactory"
  const RepositoryClass := "Doctrine\\ORM\\EntityRepository"

  /** `getOrmDefaults()`, in its order; `dir` is the directory of the
      provider's source file, which the proxy directory is relative to. */
  function Defaults(v: Variant, dir: string): seq<Entry>
  {
    ProxyDefaults(v, dir) + CacheDefaults(v) + if v.Silex? then [] else ClassDefaults()
  }

  function ProxyDefaults(v: Variant, dir: string): seq<Entry>
  {
    [Entry("orm.proxies_dir", Str(dir + if v.Silex? then "/../../../../../cache/doctrine/Proxy"
                                         else "/../../../../../../../../cache/doctrine/proxies")),
     Entry("orm.proxies_namespace", Str(ProxiesNamespace)),
     Entry("orm.auto_generate_proxies", Bool(true))]
  }

  /** The custom-function and class-name defaults; Silex has none. */
  function ClassDefaults(): seq<Entry>
  {
    [
      Entry("orm.custom.functions.string", Arr([])),
      Entry("orm.custom.functions.numeric", Arr([])),
      Entry("orm.custom.functions.datetime", Arr([])),
      Entry("orm.custom.hydration_modes", Arr([])),
      Entry("orm.class_metadata_factory_name", Str(MetadataFactoryClass)),
      Entry("orm.default_repository_class", Str(RepositoryClass))]
  }

  /** The default cache: an array for the Provider, the scalar shorthand for
      Pimple, a driver name and empty options for Silex. */
  function CacheDefaults(v: Variant): seq<Entry>
  {
    match v
    case Provider => [Entry(DefaultCacheKey, Arr([Entry("driver", Str("array"))]))]
    case Pimple => [Entry(DefaultCacheKey, Str("array"))]
    case Silex => [Entry(DefaultCacheDriverKey, Str("array")), Entry(DefaultCacheOptionsKey, Arr([]))]
  }

  /** Where `register` finds its default for each cache setting. */
  lemma DefaultCacheEntries(v: Variant, dir: string)
    ensures v.Provider? ==> Find(Defaults(v, dir), DefaultCacheKey) == Some(Arr([Entry("driver", Str("array"))]))
    ensures v.Pimple? ==> Find(Defaults(v, dir), DefaultCacheKey) == Some(Str("array"))
    ensures v.Silex? ==> && Find(Defaults(v, dir), DefaultCacheKey).None?
                         && Find(Defaults(v, dir), DefaultCacheDriverKey) == Some(Str("array"))
                         && Find(Defaults(v, dir), DefaultCacheOptionsKey) == Some(Arr([]))
  {
    FindCacheDefault(v, dir, DefaultCacheKey);
    FindCacheDefault(v, dir, DefaultCacheDriverKey);
    FindCacheDefault(v, dir, DefaultCacheOptionsKey);
    if v.Silex? {
      assert DefaultCacheDriverKey[18] == 'd' && DefaultCacheOptionsKey[18] == 'o';
      assert |DefaultCacheKey| != |DefaultCacheDriverKey| && |DefaultCacheKey| != |DefaultCacheOptionsKey|;
      FindIn(CacheDefaults(v), DefaultCacheKey);
    }
  }

  /** The cache settings are found among the cache defaults. */
  lemma FindCacheDefault(v: Variant, dir: string, k: string)
    requires k in {DefaultCacheKey, DefaultCacheDriverKey, DefaultCacheOptionsKey}
    ensures Find(Defaults(v, dir), k) == Find(CacheDefaults(v), k)
  {
    var p, c, r := ProxyDefaults(v, dir), CacheDefaults(v), if v.Silex? then [] else ClassDefaults();
    assert k[4] == 'd';
    ProxiesSkipDefaults(v, dir, k);
    ClassesSkipDefaults(k);
    FindConcat(p, c, k);
    FindConcat(p + c, r, k);
  }

  lemma ProxiesSkipDefaults(v: Variant, dir: string, k: string)
    requires |k| > 4 && k[4] == 'd'
    ensures Find(ProxyDefaults(v, dir), k).None?
  {
    var p := ProxyDefaults(v, dir);
    assert p[0].key[4] == 'p' && p[1].key[4] == 'p' && p[2].key[4] == 'a';
    FindIn(p, k);
  }

  lemma ClassesSkipDefaults(k: string)
    requires k in {DefaultCacheKey, DefaultCacheDriverKey, DefaultCacheOptionsKey}
    ensures Find(ClassDefaults(), k).None?
  {
    assert Find(ClassDefaults(), DefaultCacheKey).None?;
    assert Find(ClassDefaults(), DefaultCacheDriverKey).None?;
    assert Find(ClassDefaults(), DefaultCacheOptionsKey).None?;
  }

  /** `orm.em.default_options`: Silex has no `types`. */
  function Template(v: Variant): seq<Entry>
  {
    [Entry("connection", Str("default")), Entry("mappings", Arr([]))]
      + if v.Silex? then [] else [Entry("types", Arr([]))]
  }

  /** The protected closures each provider registers. */
  function Closures(v: Variant): set<string>
  {
    SharedClosures() + (set t | t in CacheTypes(v) :: FactoryKey(t)) + match v
      case Provider => {"orm.em_name_from_param_key", MappingFactoryKey}
                       + (set t | t in PimpleMappingTypes :: MappingFactoryKeyFor(t))
      case Pimple => {"orm.em_name_from_param_key", "orm.generate_psr0_mapping"}
      case Silex => {}
  }

  /** The closures all three register. */
  function SharedClosures(): set<string>
  {
    {"orm.ems.options.initializer", "orm.cache.configurer", "orm.cache.locator",
     CacheFactoryKey, "orm.mapping_driver_chain.locator",
     Options.ChainFactoryKey, "orm.add_mapping_driver"}
  }

  /** The cache types with a factory closure of their own. */
  function CacheTypes(v: Variant): set<string>
  {
    match v
    case Provider => {"backing_memcache", "memcache", "backing_memcached", "memcached",
                      "backing_redis", "redis", "array", "apc", "xcache", "filesystem", "couchbase"}
    case Pimple => {"backing_memcache", "memcache", "backing_memcached", "memcached",
                    "backing_redis", "redis", "array", "apc", "xcache", "filesystem"}
    case Silex => {}
  }

  /** The shared services each provider registers. */
  function Services(v: Variant): set<string>
  {
    {"orm.ems", "orm.ems.config", "orm.em", "orm.em.config"}
      + if v.Silex? then {}
        else {"orm.strategy.naming", "orm.strategy.quote", "orm.entity_listener_resolver", "orm.repository_factory"}
  }

  /** No key a provider owns has a 'd' after the "orm." prefix, so the
      default settings (`orm.default_cache`, ...) are never among them. */
  lemma OwnKeysSkipDefaults(v: Variant, k: string)
    requires |k| > 4 && k[4] == 'd'
    ensures k !in Closures(v) && k !in Services(v) && k != Options.DefaultOptionsKey
  {
    SharedClosuresSkipDefaults(k);
    forall t: string ensures FactoryKey(t)[4] == 'c' && MappingFactoryKeyFor(t)[4] == 'm' {
    }
    assert "orm.em_name_from_param_key"[4] == 'e' && MappingFactoryKey[4] == 'm' && "orm.generate_psr0_mapping"[4] == 'g';
    ServicesSkipDefaults(v, k);
    assert Options.DefaultOptionsKey[4] == 'e';
  }

  lemma SharedClosuresSkipDefaults(k: string)
    requires |k| > 4 && k[4] == 'd'
    ensures k !in SharedClosures()
  {
    assert "orm.ems.options.initializer"[4] == 'e' && "orm.cache.configurer"[4] == 'c';
    assert "orm.cache.locator"[4] == 'c' && CacheFactoryKey[4] == 'c';
    assert "orm.mapping_driver_chain.locator"[4] == 'm' && Options.ChainFactoryKey[4] == 'm';
    assert "orm.add_mapping_driver"[4] == 'a';
  }

  lemma ServicesSkipDefaults(v: Variant, k: string)
    requires |k| > 4 && k[4] == 'd'
    ensures k !in Services(v)
  {
    assert "orm.ems"[4] == 'e' && "orm.ems.config"[4] == 'e' && "orm.em"[4] == 'e' && "orm.em.config"[4] == 'e';
    assert "orm.strategy.naming"[4] == 's' && "orm.strategy.quote"[4] == 's';
    assert "orm.entity_listener_resolver"[4] == 'e' && "orm.repository_factory"[4] == 'r';
  }

  /** The container after `register`. */
  function RegisteredEntries(v: Variant, dir: string, e: map<string, Value>): map<string, Value>
  {
    Options.Registered(e, Defaults(v, dir), Template(v), Closures(v), Services(v))
  }

  method Register(v: Variant, c: Container, dir: string)
    modifies c
    ensures c.Snapshot() == old(c.Snapshot()).(entries := RegisteredEntries(v, dir, old(c.entries)), initialized := false)
  {
    Options.Register(c, Defaults(v, dir), Template(v), Closures(v), Services(v));
  }

  /** A cache setting the caller did not preset is, after `register`, the
      provider's default, and absent when the provider has none. */
  lemma RegisteredCacheDefault(v: Variant, dir: string, e: map<string, Value>, k: string)
    requires k in {DefaultCacheKey, DefaultCacheDriverKey, DefaultCacheOptionsKey} && k !in e
    ensures var r := RegisteredEntries(v, dir, e);
      && (k in r <==> Find(CacheDefaults(v), k).Some?)
      && (k in r ==> r[k] == Find(CacheDefaults(v), k).value)
  {
    FindCacheDefault(v, dir, k);
    assert k[4] == 'd';
    OwnKeysSkipDefaults(v, k);
    Options.RegisterKeepsPresets(e, Defaults(v, dir), Template(v), Closures(v), Services(v), k);
  }

  /** With no `orm.default_cache` given and no `<kind>_cache` for the
      instance, the Provider's array default and Pimple's scalar default
      yield the same settings: an array cache. */
  lemma DefaultCacheIsArray(v: Variant, dir: string, e: map<string, Value>, options: seq<Entry>, kind: string)
    requires !v.Silex? && DefaultCacheKey !in e
    requires !IsSetIn(Arr(options), kind + "_cache")
    ensures CacheSettings(RegisteredEntries(v, dir, e), options, kind) == Ok(Arr([Entry("driver", Str("array"))]))
  {
    RegisteredCacheDefault(v, dir, e, DefaultCacheKey);
    var r := RegisteredEntries(v, dir, e);
    if v.Pimple? {
      ScalarIsDriver(r, options, kind, Str("array"));
    } else {
      FallsBackToDefaultCache(r, options, kind);
    }
  }

  /** Silex: without per-kind settings, the driver is 'array' with no
      options, unless the caller preset the defaults. */
  lemma SilexDefaultCacheIsArray(dir: string, e: map<string, Value>, options: seq<Entry>, kind: string)
    requires DefaultCacheDriverKey !in e && DefaultCacheOptionsKey !in e
    requires !IsSetIn(At(Arr(options), kind), "driver") && !IsSetIn(At(Arr(options), kind), "options")
    ensures SilexDriver(RegisteredEntries(Silex, dir, e), options, kind) == Ok(Str("array"))
    ensures SilexCacheOptions(RegisteredEntries(Silex, dir, e), options, kind) == Ok(Arr([]))
  {
    RegisteredCacheDefault(Silex, dir, e, DefaultCacheDriverKey);
    RegisteredCacheDefault(Silex, dir, e, DefaultCacheOptionsKey);
  }
}
