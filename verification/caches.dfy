/** The cache locators and cache factories of the three providers.  A
    locator resolves which cache an entity-manager instance uses for one kind
    (metadata, query, result, hydration), memoises it under
    `orm.cache.instances.<name>.<kind>`, and otherwise asks the factory for a
    fresh cache. */
module Caches {
  import opened Php
  import opened Registry

  /** Which of the three providers is meant. */
  datatype Variant = Provider | Pimple | Silex

  const CacheFactoryKey := "orm.cache.factory"
  const DefaultCacheKey := "orm.default_cache"
  const DefaultCacheDriverKey := "orm.default_cache_driver"
  const DefaultCacheOptionsKey := "orm.default_cache_options"

  /** `FilesystemCache::EXTENSION` */
  const FilesystemExtension := ".doctrinecache.data"
  /** the octal literal `0002` */
  const FilesystemUmask := 2

  /** where the cache of instance `name` for `kind` is memoised */
  function CacheKey(name: string, kind: string): string
  {
    "orm.cache.instances." + name + "." + kind
  }

  /** the container key of the factory for cache type `driver` */
  function FactoryKey(driver: string): string
  {
    "orm.cache.factory." + driver
  }

  /** The cache kinds each provider configures, in order. */
  function Kinds(v: Variant): (ks: seq<string>)
    ensures "metadata" in ks && "query" in ks && "result" in ks
    ensures ("hydration" in ks) <==> !v.Silex?
  {
    if v.Silex? then ["metadata", "query", "result"] else ["metadata", "query", "result", "hydration"]
  }

  // ================================================== options (Provider, Pimple)

  /** The cache settings the Provider and Pimple locators hand to the factory:
      `<kind>_cache` of the instance, else `orm.default_cache`; a value that is
      not an array is the driver name itself; a driver must be present. */
  function CacheSettings(e: map<string, Value>, options: seq<Entry>, kind: string): (r: Result<Value>)
    ensures r.Ok? ==> r.value.Arr? && IsSetIn(r.value, "driver")
    ensures r.Err? ==> r.error == UnknownIdentifier(DefaultCacheKey)
                       || r.error == RuntimeException("No driver specified for '" + kind + "'")
  {
    var key := kind + "_cache";
    var given :- if IsSetIn(Arr(options), key) then Ok(At(Arr(options), key))
                 else if DefaultCacheKey in e then Ok(e[DefaultCacheKey])
                 else Err(UnknownIdentifier(DefaultCacheKey));
    var settings := if given != Null && !given.Arr? then Arr([Entry("driver", given)]) else given;
    if !IsSetIn(settings, "driver") then Err(RuntimeException("No driver specified for '" + kind + "'"))
    else Ok(settings)
  }

  /** A scalar such as `'array'` is shorthand for `{driver: 'array'}`, whether
      it is given for the instance or comes from `orm.default_cache`. */
  lemma ScalarIsDriver(e: map<string, Value>, options: seq<Entry>, kind: string, d: Value)
    requires d != Null && !d.Arr?
    requires At(Arr(options), kind + "_cache") == d
          || (At(Arr(options), kind + "_cache") == Null && DefaultCacheKey in e && e[DefaultCacheKey] == d)
    ensures CacheSettings(e, options, kind) == Ok(Arr([Entry("driver", d)]))
  {
  }

  /** Without `<kind>_cache`, the settings are `orm.default_cache`; with
      neither a driver there, the error names the kind. */
  lemma FallsBackToDefaultCache(e: map<string, Value>, options: seq<Entry>, kind: string)
    requires !IsSetIn(Arr(options), kind + "_cache")
    requires DefaultCacheKey in e && e[DefaultCacheKey].Arr?
    ensures IsSetIn(e[DefaultCacheKey], "driver") ==> CacheSettings(e, options, kind) == Ok(e[DefaultCacheKey])
    ensures !IsSetIn(e[DefaultCacheKey], "driver") ==>
              CacheSettings(e, options, kind) == Err(RuntimeException("No driver specified for '" + kind + "'"))
  {
  }

  // ======================================================== options (Silex)

  /** The Silex locator's driver: `options[<kind>]['driver']`, else
      `orm.default_cache_driver`. */
  function SilexDriver(e: map<string, Value>, options: seq<Entry>, kind: string): (r: Result<Value>)
    ensures IsSetIn(At(Arr(options), kind), "driver") ==> r == Ok(At(At(Arr(options), kind), "driver"))
    ensures !IsSetIn(At(Arr(options), kind), "driver") ==>
              r == if DefaultCacheDriverKey in e then Ok(e[DefaultCacheDriverKey]) else Err(UnknownIdentifier(DefaultCacheDriverKey))
  {
    if IsSetIn(At(Arr(options), kind), "driver") then Ok(At(At(Arr(options), kind), "driver"))
    else if DefaultCacheDriverKey in e then Ok(e[DefaultCacheDriverKey])
    else Err(UnknownIdentifier(DefaultCacheDriverKey))
  }

  /** The Silex locator's cache options: `options[<kind>]['options']`, else
      `orm.default_cache_options`. */
  function SilexCacheOptions(e: map<string, Value>, options: seq<Entry>, kind: string): (r: Result<Value>)
    ensures IsSetIn(At(Arr(options), kind), "options") ==> r == Ok(At(At(Arr(options), kind), "options"))
    ensures !IsSetIn(At(Arr(options), kind), "options") ==>
              r == if DefaultCacheOptionsKey in e then Ok(e[DefaultCacheOptionsKey]) else Err(UnknownIdentifier(DefaultCacheOptionsKey))
  {
    if IsSetIn(At(Arr(options), kind), "options") then Ok(At(At(Arr(options), kind), "options"))
    else if DefaultCacheOptionsKey in e then Ok(e[DefaultCacheOptionsKey])
    else Err(UnknownIdentifier(DefaultCacheOptionsKey))
  }

  // =============================================================== factories

  /** The network caches refuse settings without a host and a port. */
  function NeedsHostAndPort(settings: Value, driver: string): (r: Result<Foreign>)
    ensures r.Ok? <==> !Empty(At(settings, "host")) && !Empty(At(settings, "port"))
    ensures r.Ok? ==> r.value == CacheObj(driver, settings, "")
    ensures r.Err? ==> r.error == RuntimeException("Host and port options need to be specified for " + driver + " cache")
  {
    if Empty(At(settings, "host")) || Empty(At(settings, "port")) then
      Err(RuntimeException("Host and port options need to be specified for " + driver + " cache"))
    else Ok(CacheObj(driver, settings, ""))
  }

  /** The filesystem cache: a path is required; `extension` and `umask` are
      filled in only where absent (`+=` never overwrites). */
  function FilesystemCache(settings: Value): (r: Result<Foreign>)
    ensures r.Err? <==> Empty(At(settings, "path"))
    ensures r.Err? ==> r.error == RuntimeException("FilesystemCache path not defined")
    ensures r.Ok? ==> settings.Arr? && r.value.CacheObj? && r.value.driver == "filesystem"
                      && r.value.settings.Arr? && r.value.cacheNamespace == ""
    ensures r.Ok? ==> forall k ::
      Find(r.value.settings.entries, k) ==
        if Find(settings.entries, k).Some? then Find(settings.entries, k)
        else if k == "extension" then Some(Str(FilesystemExtension))
        else if k == "umask" then Some(Int(FilesystemUmask))
        else None
  {
    if Empty(At(settings, "path")) then Err(RuntimeException("FilesystemCache path not defined"))
    else
      var defaults := [Entry("extension", Str(FilesystemExtension)), Entry("umask", Int(FilesystemUmask))];
      forall k ensures Find(defaults, k) == if k == "extension" then Some(Str(FilesystemExtension))
                                           else if k == "umask" then Some(Int(FilesystemUmask)) else None {
        assert defaults[1..] == [Entry("umask", Int(FilesystemUmask))] && defaults[1..][1..] == [];
        assert Find(defaults[1..][1..], k) == None;
      }
      Ok(CacheObj("filesystem", Arr(Union(settings.entries, defaults)), ""))
  }

  /** The arguments of `new \Couchbase($host, $user, $password, $bucketName)`,
      by name and in order. */
  function CouchbaseParams(host: Value, user: Value, password: Value, bucket: Value): (r: seq<Entry>)
    ensures KeysOf(r) == ["host", "user", "password", "bucket"]
    ensures Find(r, "host") == Some(host) && Find(r, "user") == Some(user)
    ensures Find(r, "password") == Some(password) && Find(r, "bucket") == Some(bucket)
  {
    var r := [Entry("host", host), Entry("user", user), Entry("password", password), Entry("bucket", bucket)];
    var r3 := [Entry("bucket", bucket)];
    var r2 := [Entry("password", password)] + r3;
    var r1 := [Entry("user", user)] + r2;
    assert r1[1..] == r2 && r2[1..] == r3 && r3[1..] == [] && r[1..] == r1;
    assert KeysOf(r3) == ["bucket"] && KeysOf(r2) == ["password", "bucket"];
    assert Find(r2, "password") == Some(password) && Find(r2, "bucket") == Some(bucket);
    assert Find(r1, "password") == Some(password) && Find(r1, "bucket") == Some(bucket);
    r
  }

  /** The Couchbase factory as written: `$host` and `$bucketName` start
      empty and are set to the fallbacks only when the option is empty, so a
      given host or bucket is never used.  The parameters are listed in the
      order the `Couchbase` constructor takes them. */
  function CouchbaseConnectionAsWritten(settings: Value): (r: seq<Entry>)
    ensures KeysOf(r) == ["host", "user", "password", "bucket"]
    ensures Find(r, "host") == Some(Str(if Empty(At(settings, "host")) then "127.0.0.1" else ""))
    ensures Find(r, "user") == Some(if Empty(At(settings, "user")) then Str("") else At(settings, "user"))
    ensures Find(r, "password") == Some(if Empty(At(settings, "password")) then Str("") else At(settings, "password"))
    ensures Find(r, "bucket") == Some(Str(if Empty(At(settings, "bucket")) then "default" else ""))
  {
    CouchbaseParams(Str(if Empty(At(settings, "host")) then "127.0.0.1" else ""),
                    if !Empty(At(settings, "user")) then At(settings, "user") else Str(""),
                    if !Empty(At(settings, "password")) then At(settings, "password") else Str(""),
                    Str(if Empty(At(settings, "bucket")) then "default" else ""))
  }

  /** A given host reaches Couchbase as the empty string. */
  lemma CouchbaseDropsGivenHost()
    ensures var settings := Arr([Entry("host", Str("db.example.org")), Entry("bucket", Str("sessions"))]);
            Find(CouchbaseConnectionAsWritten(settings), "host") == Some(Str(""))
            && Find(CouchbaseConnectionAsWritten(settings), "bucket") == Some(Str(""))
  {
  }

  /** The Couchbase connection parameters as evidently intended: the given
      host and bucket, else 127.0.0.1 and "default", in constructor order. */
  function CouchbaseConnection(settings: Value): (r: seq<Entry>)
    ensures KeysOf(r) == ["host", "user", "password", "bucket"]
    ensures Find(r, "host") == Some(if Empty(At(settings, "host")) then Str("127.0.0.1") else At(settings, "host"))
    ensures Find(r, "user") == Some(if Empty(At(settings, "user")) then Str("") else At(settings, "user"))
    ensures Find(r, "password") == Some(if Empty(At(settings, "password")) then Str("") else At(settings, "password"))
    ensures Find(r, "bucket") == Some(if Empty(At(settings, "bucket")) then Str("default") else At(settings, "bucket"))
  {
    CouchbaseParams(if Empty(At(settings, "host")) then Str("127.0.0.1") else At(settings, "host"),
                    if !Empty(At(settings, "user")) then At(settings, "user") else Str(""),
                    if !Empty(At(settings, "password")) then At(settings, "password") else Str(""),
                    if Empty(At(settings, "bucket")) then Str("default") else At(settings, "bucket"))
  }

  /** Given values are used, and only missing ones fall back; wherever a
      host or bucket is given, the code as written passes something else. */
  lemma CouchbaseKeepsGivenValues(settings: Value)
    ensures !Empty(At(settings, "host")) ==>
              Find(CouchbaseConnection(settings), "host") == Some(At(settings, "host"))
              && Find(CouchbaseConnection(settings), "host") != Find(CouchbaseConnectionAsWritten(settings), "host")
    ensures !Empty(At(settings, "bucket")) ==>
              Find(CouchbaseConnection(settings), "bucket") == Some(At(settings, "bucket"))
              && Find(CouchbaseConnection(settings), "bucket") != Find(CouchbaseConnectionAsWritten(settings), "bucket")
    ensures Empty(At(settings, "host")) && Empty(At(settings, "bucket")) ==>
              CouchbaseConnection(settings) == CouchbaseConnectionAsWritten(settings)
  {
  }

  /** What the provider's own closure `orm.cache.factory.<driver>` builds from
      the settings. */
  function BuiltinCache(driver: string, settings: Value): (r: Result<Foreign>)
    ensures driver in {"array", "apc", "xcache"} ==> r == Ok(CacheObj(driver, Null, ""))
    ensures driver in {"memcache", "memcached", "redis"} ==> r == NeedsHostAndPort(settings, driver)
    ensures driver == "filesystem" ==> r == FilesystemCache(settings)
    ensures driver == "couchbase" ==> r == Ok(CacheObj(driver, Arr(CouchbaseConnectionAsWritten(settings)), ""))
    ensures driver !in {"array", "apc", "xcache", "memcache", "memcached", "redis", "filesystem", "couchbase"} ==>
              r == Ok(ForeignObj(FactoryKey(driver)))
  {
    match driver
    case "array" => Ok(CacheObj(driver, Null, ""))
    case "apc" => Ok(CacheObj(driver, Null, ""))
    case "xcache" => Ok(CacheObj(driver, Null, ""))
    case "memcache" => NeedsHostAndPort(settings, driver)
    case "memcached" => NeedsHostAndPort(settings, driver)
    case "redis" => NeedsHostAndPort(settings, driver)
    case "filesystem" => FilesystemCache(settings)
    case "couchbase" => Ok(CacheObj(driver, Arr(CouchbaseConnectionAsWritten(settings)), ""))
    // the backing_memcache, backing_memcached and backing_redis closures
    // return the client object, which is not a cache
    case _ => Ok(ForeignObj(FactoryKey(driver)))
  }

  /** Calling `$container[$key](...)` for a cache factory: the provider's own
      closure builds a cache; anything else the caller put there yields an
      object of its own. */
  function CallFactory(e: map<string, Value>, driver: string, settings: Value): Result<Foreign>
  {
    var key := FactoryKey(driver);
    if key !in e then Err(UnknownIdentifier(key))
    else if e[key] == Closure(key) then BuiltinCache(driver, settings)
    else Ok(ForeignObj(key))
  }

  /** Provider `orm.cache.factory`: any type whose factory key is defined. */
  function ProviderFactory(e: map<string, Value>, driver: Value, settings: Value): (r: Result<Foreign>)
    ensures FactoryKey(ToStr(driver)) !in e ==>
      r == Err(RuntimeException("Factory '" + FactoryKey(ToStr(driver)) + "' for cache type '" + ToStr(driver)
                                + "' not defined (is it spelled correctly?)"))
    ensures FactoryKey(ToStr(driver)) in e ==> r == CallFactory(e, ToStr(driver), settings)
  {
    var d := ToStr(driver);
    if FactoryKey(d) !in e then
      Err(RuntimeException("Factory '" + FactoryKey(d) + "' for cache type '" + d + "' not defined (is it spelled correctly?)"))
    else CallFactory(e, d, settings)
  }

  /** Pimple `orm.cache.factory`: a `switch` over seven type names. */
  function PimpleFactory(e: map<string, Value>, driver: Value, settings: Value): (r: Result<Foreign>)
    ensures (forall d <- PimpleCacheTypes :: !LooseEq(driver, d)) ==>
              r == Err(RuntimeException("Unsupported cache type '" + ToStr(driver) + "' specified"))
    ensures forall d <- PimpleCacheTypes :: driver == Str(d) ==> r == CallFactory(e, d, settings)
  {
    if LooseEq(driver, "array") then CallFactory(e, "array", settings)
    else if LooseEq(driver, "apc") then CallFactory(e, "apc", settings)
    else if LooseEq(driver, "xcache") then CallFactory(e, "xcache", settings)
    else if LooseEq(driver, "memcache") then CallFactory(e, "memcache", settings)
    else if LooseEq(driver, "memcached") then CallFactory(e, "memcached", settings)
    else if LooseEq(driver, "filesystem") then CallFactory(e, "filesystem", settings)
    else if LooseEq(driver, "redis") then CallFactory(e, "redis", settings)
    else Err(RuntimeException("Unsupported cache type '" + ToStr(driver) + "' specified"))
  }

  const PimpleCacheTypes := ["array", "apc", "xcache", "memcache", "memcached", "filesystem", "redis"]

  /** Silex `orm.cache.factory`: four types, options unused. */
  function SilexFactory(driver: Value): (r: Result<Foreign>)
    ensures (forall d <- SilexCacheTypes :: !LooseEq(driver, d)) ==> r == Err(RuntimeException("Unsupported cache specified"))
    ensures forall d <- SilexCacheTypes :: driver == Str(d) ==> r == Ok(CacheObj(d, Null, ""))
  {
    if LooseEq(driver, "array") then Ok(CacheObj("array", Null, ""))
    else if LooseEq(driver, "apc") then Ok(CacheObj("apc", Null, ""))
    else if LooseEq(driver, "xcache") then Ok(CacheObj("xcache", Null, ""))
    else if LooseEq(driver, "memcache") then Ok(CacheObj("memcache", Null, ""))
    else Err(RuntimeException("Unsupported cache specified"))
  }

  const SilexCacheTypes := ["array", "apc", "xcache", "memcache"]

  /** `$container['orm.cache.factory']($driver, $settings)`, whichever provider. */
  function MakeCache(v: Variant, e: map<string, Value>, driver: Value, settings: Value): Result<Foreign>
  {
    if CacheFactoryKey !in e then Err(UnknownIdentifier(CacheFactoryKey))
    else if e[CacheFactoryKey] != Closure(CacheFactoryKey) then Ok(ForeignObj(CacheFactoryKey))
    else match v
      case Provider => ProviderFactory(e, driver, settings)
      case Pimple => PimpleFactory(e, driver, settings)
      case Silex => SilexFactory(driver)
  }

  // =============================================================== namespace

  /** The namespace a fresh cache gets.  The Provider applies the instance's
      `cache_namespace`; Pimple prefers the cache's own `namespace`.  Only a
      CacheProvider is touched. */
  function WithNamespace(v: Variant, cache: Foreign, options: seq<Entry>, settings: Value): (r: Foreign)
    ensures !cache.CacheObj? || v.Silex? ==> r == cache
    ensures cache.CacheObj? ==> r.CacheObj? && r.driver == cache.driver && r.settings == cache.settings
    ensures cache.CacheObj? && v.Pimple? && IsSetIn(settings, "namespace") ==>
              r.cacheNamespace == ToStr(At(settings, "namespace"))
    ensures cache.CacheObj? && !v.Silex? && (v.Provider? || !IsSetIn(settings, "namespace")) ==>
              r.cacheNamespace == if IsSetIn(Arr(options), "cache_namespace")
                                  then ToStr(At(Arr(options), "cache_namespace")) else cache.cacheNamespace
  {
    if !cache.CacheObj? || v.Silex? then cache
    else if v.Pimple? && IsSetIn(settings, "namespace") then cache.(cacheNamespace := ToStr(At(settings, "namespace")))
    else if IsSetIn(Arr(options), "cache_namespace") then cache.(cacheNamespace := ToStr(At(Arr(options), "cache_namespace")))
    else cache
  }

  // ================================================================= locator

  /** A fresh cache stored under its memo key. */
  function Remember(s: State, key: string, cache: Foreign): (Result<Value>, State)
  {
    (Ok(Ref(s.nextId)), Store(Allocate(s, cache), key, Ref(s.nextId)))
  }

  /** `orm.cache.locator($name, $kind, $options)` */
  function LocateSpec(v: Variant, s: State, name: string, kind: string, options: seq<Entry>): (Result<Value>, State)
  {
    var key := CacheKey(name, kind);
    if !v.Silex? then
      match CacheSettings(s.entries, options, kind)
      case Err(x) => (Err(x), s)
      case Ok(settings) =>
        if key in s.entries then (Ok(s.entries[key]), s)
        else match MakeCache(v, s.entries, At(settings, "driver"), settings)
          case Err(x) => (Err(x), s)
          case Ok(cache) => Remember(s, key, WithNamespace(v, cache, options, settings))
    else
      match SilexDriver(s.entries, options, kind)
      case Err(x) => (Err(x), s)
      case Ok(driver) =>
        if key in s.entries then (Ok(s.entries[key]), s)
        else match SilexCacheOptions(s.entries, options, kind)
          case Err(x) => (Err(x), s)
          case Ok(settings) =>
            match MakeCache(v, s.entries, driver, settings)
            case Err(x) => (Err(x), s)
            case Ok(cache) => Remember(s, key, cache)
  }

  method LocateCache(v: Variant, c: Container, name: string, kind: string, options: seq<Entry>) returns (r: Result<Value>)
    requires c.Valid()
    modifies c
    ensures c.Valid()
    ensures (r, c.Snapshot()) == LocateSpec(v, old(c.Snapshot()), name, kind, options)
  {
    var key := CacheKey(name, kind);
    var driver: Value;
    var settings: Value;
    if !v.Silex? {
      settings :- CacheSettings(c.entries, options, kind);
      driver := At(settings, "driver");
      if key in c.entries {
        return Ok(c.entries[key]);
      }
    } else {
      driver :- SilexDriver(c.entries, options, kind);
      if key in c.entries {
        return Ok(c.entries[key]);
      }
      settings :- SilexCacheOptions(c.entries, options, kind);
    }
    var cache :- MakeCache(v, c.entries, driver, settings);
    cache := WithNamespace(v, cache, options, settings);
    var id := c.Alloc(cache);
    c.Set(key, Ref(id));
    return Ok(Ref(id));
  }

  /** A memoised cache is returned as is, without any factory being asked. */
  lemma MemoSkipsFactory(v: Variant, s: State, name: string, kind: string, options: seq<Entry>)
    requires CacheKey(name, kind) in s.entries
    ensures var (r, s') := LocateSpec(v, s, name, kind, options);
      s' == s && (r.Ok? ==> r.value == s.entries[CacheKey(name, kind)])
  {
  }

  /** In the Provider and Pimple, the settings are checked before the memo
      is consulted: a memoised cache does not hide a missing driver. */
  lemma DriverCheckedBeforeMemo(v: Variant, s: State, name: string, kind: string, options: seq<Entry>)
    requires !v.Silex? && CacheSettings(s.entries, options, kind).Err?
    ensures LocateSpec(v, s, name, kind, options) == (Err(CacheSettings(s.entries, options, kind).error), s)
  {
  }

  /** Locating the same cache twice gives the same object and changes
      nothing more. */
  lemma CacheMemoised(v: Variant, s: State, name: string, kind: string, options: seq<Entry>)
    requires LocateSpec(v, s, name, kind, options).0.Ok?
    ensures var (r, s1) := LocateSpec(v, s, name, kind, options);
            LocateSpec(v, s1, name, kind, options) == (r, s1)
  {
    var (r, s1) := LocateSpec(v, s, name, kind, options);
    assert CacheKey(name, kind) in s1.entries;
    CacheKeyIsNotSetting(name, kind);
    if !v.Silex? {
      CacheSettingsFrame(s.entries, s1.entries, options, kind);
    }
  }

  /** The memo keys never collide with the settings the locators read. */
  lemma CacheKeyIsNotSetting(name: string, kind: string)
    ensures CacheKey(name, kind) != DefaultCacheKey && CacheKey(name, kind) != DefaultCacheDriverKey
    ensures CacheKey(name, kind) != DefaultCacheOptionsKey
  {
    assert CacheKey(name, kind)[4] == 'c';
    assert DefaultCacheKey[4] == 'd' && DefaultCacheDriverKey[4] == 'd' && DefaultCacheOptionsKey[4] == 'd';
  }

  /** A cache the locator reads from its memo stays what it reads as long
      as the memo and the settings it consults keep their values. */
  lemma LocateStaysMemoised(v: Variant, s: State, s': State, name: string, kind: string, options: seq<Entry>, x: Value)
    requires LocateSpec(v, s, name, kind, options) == (Ok(x), s)
    requires forall k | k in s.entries && k in {CacheKey(name, kind), DefaultCacheKey, DefaultCacheDriverKey} ::
               k in s'.entries && s'.entries[k] == s.entries[k]
    ensures LocateSpec(v, s', name, kind, options) == (Ok(x), s')
  {
    var key := CacheKey(name, kind);
    assert key in s.entries;
    if !v.Silex? {
      assert CacheSettings(s'.entries, options, kind) == CacheSettings(s.entries, options, kind);
    }
  }

  lemma CacheSettingsFrame(e: map<string, Value>, e': map<string, Value>, options: seq<Entry>, kind: string)
    requires DefaultCacheKey in e <==> DefaultCacheKey in e'
    requires DefaultCacheKey in e ==> e[DefaultCacheKey] == e'[DefaultCacheKey]
    ensures CacheSettings(e, options, kind) == CacheSettings(e', options, kind)
  {
  }
}
