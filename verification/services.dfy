/** The shared services that assemble the rest: `orm.ems.config` builds one
    Configuration per instance, `orm.em.config` picks the default one,
    `orm.ems` defines one entity manager per instance and `orm.em` hands out
    the default one.  Each is evaluated on its first read and its result is
    stored under its key; a key the caller has set to anything else is read
    as it is. */
module Services {
  import opened Php
  import opened Registry
  import opened Caches
  import opened Mappings
  import Options

  const EmsKey := "orm.ems"
  const EmsConfigKey := "orm.ems.config"
  const EmKey := "orm.em"
  const EmConfigKey := "orm.em.config"
  /** the DBAL provider's connections and event managers */
  const DbsKey := "dbs"
  const EventManagersKey := "dbs.event_manager"

  // ====================================================== one configuration

  /** `$config->set<Kind>CacheImpl($cache)` */
  function SetCache(s: State, config: nat, kind: string, cache: Value): State
  {
    if config in s.heap && s.heap[config].ConfigObj? then
      s.(heap := s.heap[config := s.heap[config].(caches := s.heap[config].caches[kind := cache])])
    else s
  }

  /** `$config->setMetadataDriverImpl($chain)` */
  function SetDriver(s: State, config: nat, chain: Value): State
  {
    if config in s.heap && s.heap[config].ConfigObj? then
      s.(heap := s.heap[config := s.heap[config].(metadataDriver := chain)])
    else s
  }

  /** `orm.cache.configurer($name, $config, $options)`: one locator call
      per kind, in order, each result set on the configuration. */
  function CachesSpec(v: Variant, s: State, config: nat, name: string, options: seq<Entry>, kinds: seq<string>)
    : (Result<()>, State)
    decreases |kinds|
  {
    if kinds == [] then (Ok(()), s)
    else
      var (r, s1) := LocateSpec(v, s, name, kinds[0], options);
      if r.Err? then (Err(r.error), s1)
      else CachesSpec(v, SetCache(s1, config, kinds[0], r.value), config, name, options, kinds[1..])
  }

  /** The body of the `orm.ems.config` loop for one instance: a new
      Configuration and its caches, then its metadata driver. */
  function ConfigSpec(v: Variant, s: State, name: string, options: seq<Entry>, locate: Value -> Value)
    : (Result<Value>, State)
  {
    var config := s.nextId;
    var (r1, s1) := CachesSpec(v, Allocate(s, ConfigObj(map[], [], Null)), config, name, options, Kinds(v));
    if r1.Err? then (Err(r1.error), s1) else MetadataSpec(v, s1, config, name, options, locate)
  }

  /** The instance's driver chain with one driver per mapping, set as the
      configuration's metadata driver. */
  function MetadataSpec(v: Variant, s: State, config: nat, name: string, options: seq<Entry>, locate: Value -> Value)
    : (Result<Value>, State)
  {
    var (chain, s1) := Options.ChainSpec(s, Str(name));
    if chain.Err? then (Err(chain.error), s1)
    else
      var (r2, s2) := MappingsSpec(v, s1, config, chain.value, MappingList(options), locate);
      if r2.Err? then (Err(r2.error), s2)
      else (Ok(Ref(config)), SetDriver(s2, config, chain.value))
  }

  method ConfigureCaches(v: Variant, c: Container, config: nat, name: string, options: seq<Entry>)
    returns (r: Result<()>)
    requires c.Valid()
    modifies c
    ensures c.Valid()
    ensures (r, c.Snapshot()) == CachesSpec(v, old(c.Snapshot()), config, name, options, Kinds(v))
  {
    var kinds := Kinds(v);
    var i := 0;
    while i < |kinds|
      invariant 0 <= i <= |kinds| && c.Valid()
      invariant CachesSpec(v, old(c.Snapshot()), config, name, options, kinds)
             == CachesSpec(v, c.Snapshot(), config, name, options, kinds[i..])
    {
      assert kinds[i..][0] == kinds[i] && kinds[i..][1..] == kinds[i + 1..];
      var cache := LocateCache(v, c, name, kinds[i], options);
      if cache.Err? {
        return Err(cache.error);
      }
      SetCacheImpl(c, config, kinds[i], cache.value);
      i := i + 1;
    }
    return Ok(());
  }

  method SetCacheImpl(c: Container, config: nat, kind: string, cache: Value)
    requires c.Valid()
    modifies c
    ensures c.Valid()
    ensures c.Snapshot() == SetCache(old(c.Snapshot()), config, kind, cache)
  {
    if config in c.heap && c.heap[config].ConfigObj? {
      c.heap := c.heap[config := c.heap[config].(caches := c.heap[config].caches[kind := cache])];
    }
  }

  method BuildConfig(v: Variant, c: Container, name: string, options: seq<Entry>, locate: Value -> Value)
    returns (r: Result<Value>)
    requires c.Valid()
    modifies c
    ensures c.Valid()
    ensures (r, c.Snapshot()) == ConfigSpec(v, old(c.Snapshot()), name, options, locate)
  {
    var config := c.Alloc(ConfigObj(map[], [], Null));
    var caches := ConfigureCaches(v, c, config, name, options);
    if caches.Err? {
      return Err(caches.error);
    }
    r := SetMetadata(v, c, config, name, options, locate);
  }

  method SetMetadata(v: Variant, c: Container, config: nat, name: string, options: seq<Entry>, locate: Value -> Value)
    returns (r: Result<Value>)
    requires c.Valid()
    modifies c
    ensures c.Valid()
    ensures (r, c.Snapshot()) == MetadataSpec(v, old(c.Snapshot()), config, name, options, locate)
  {
    var chain := Options.ChainLocator(c, Str(name));
    if chain.Err? {
      return Err(chain.error);
    }
    var mapped := AddMappings(v, c, config, chain.value, MappingList(options), locate);
    if mapped.Err? {
      return Err(mapped.error);
    }
    if config in c.heap && c.heap[config].ConfigObj? {
      c.heap := c.heap[config := c.heap[config].(metadataDriver := chain.value)];
    }
    return Ok(Ref(config));
  }

  // ================================================================ pools

  /** A nested container holding `members`, stored under `key`. */
  function Publish(s: State, key: string, members: seq<Entry>): (Result<Value>, State)
  {
    (Ok(Ref(s.nextId)), Store(Allocate(s, PoolObj(members)), key, Ref(s.nextId)))
  }

  predicate IsPool(s: State, pool: Value)
  {
    pool.Ref? && pool.id in s.heap && s.heap[pool.id].PoolObj?
  }

  /** `$pool[$key]` on what a service returned: a nested container's
      member (missing: Pimple's error), an array's element, null for other
      scalars, and an engine error for other objects. */
  function MemberOf(s: State, pool: Value, key: string): (r: Result<Value>)
    ensures IsPool(s, pool) ==> (r.Ok? <==> Find(s.heap[pool.id].members, key).Some?)
    ensures IsPool(s, pool) && r.Ok? ==> r.value == Find(s.heap[pool.id].members, key).value
    ensures IsPool(s, pool) && r.Err? ==> r.error == UnknownIdentifier(key)
  {
    if IsPool(s, pool) then
      match Find(s.heap[pool.id].members, key)
      case Some(x) => Ok(x)
      case None => Err(UnknownIdentifier(key))
    else if pool.Ref? || pool.Closure? || pool.Service? || pool.EntityManagerDefinition? then Err(Error)
    else Ok(At(pool, key))
  }

  // ======================================================= orm.ems.config

  /** The `orm.ems.config` loop: one configuration per instance, in order,
      put into the nested container under the instance's name. */
  function ConfigsSpec(v: Variant, s: State, pool: seq<Entry>, insts: seq<Entry>, locate: Value -> Value)
    : (Result<seq<Entry>>, State)
    decreases |insts|
  {
    if insts == [] then (Ok(pool), s)
    else
      var (config, s1) := ConfigSpec(v, s, insts[0].key, Options.ListOf(insts[0].val), locate);
      if config.Err? then (Err(config.error), s1)
      else ConfigsSpec(v, s1, Put(pool, insts[0].key, config.value), insts[1..], locate)
  }

  /** `$container['orm.ems.config']` */
  function EmsConfigSpec(v: Variant, s: State, locate: Value -> Value): (Result<Value>, State)
  {
    if EmsConfigKey !in s.entries then (Err(UnknownIdentifier(EmsConfigKey)), s)
    else if s.entries[EmsConfigKey] != Service(EmsConfigKey) then (Ok(s.entries[EmsConfigKey]), s)
    else
      var (init, s1) := Options.InitSpec(s);
      if init.Err? then (Err(init.error), s1)
      else if Options.EmsOptionsKey !in s1.entries then (Err(UnknownIdentifier(Options.EmsOptionsKey)), s1)
      else
        var (configs, s2) := ConfigsSpec(v, s1, [], Options.ListOf(s1.entries[Options.EmsOptionsKey]), locate);
        if configs.Err? then (Err(configs.error), s2)
        else Publish(s2, EmsConfigKey, configs.value)
  }

  method BuildConfigs(v: Variant, c: Container, insts: seq<Entry>, locate: Value -> Value)
    returns (r: Result<seq<Entry>>)
    requires c.Valid()
    modifies c
    ensures c.Valid()
    ensures (r, c.Snapshot()) == ConfigsSpec(v, old(c.Snapshot()), [], insts, locate)
  {
    var pool: seq<Entry> := [];
    var i := 0;
    while i < |insts|
      invariant 0 <= i <= |insts| && c.Valid()
      invariant ConfigsSpec(v, old(c.Snapshot()), [], insts, locate)
             == ConfigsSpec(v, c.Snapshot(), pool, insts[i..], locate)
    {
      assert insts[i..][0] == insts[i] && insts[i..][1..] == insts[i + 1..];
      var config := BuildConfig(v, c, insts[i].key, Options.ListOf(insts[i].val), locate);
      if config.Err? {
        return Err(config.error);
      }
      pool := Put(pool, insts[i].key, config.value);
      i := i + 1;
    }
    return Ok(pool);
  }

  method EmsConfig(v: Variant, c: Container, locate: Value -> Value) returns (r: Result<Value>)
    requires c.Valid()
    modifies c
    ensures c.Valid()
    ensures (r, c.Snapshot()) == EmsConfigSpec(v, old(c.Snapshot()), locate)
  {
    if EmsConfigKey !in c.entries {
      return Err(UnknownIdentifier(EmsConfigKey));
    }
    if c.entries[EmsConfigKey] != Service(EmsConfigKey) {
      return Ok(c.entries[EmsConfigKey]);
    }
    var init := Options.Initialize(c);
    if init.Err? {
      return Err(init.error);
    }
    if Options.EmsOptionsKey !in c.entries {
      return Err(UnknownIdentifier(Options.EmsOptionsKey));
    }
    var configs := BuildConfigs(v, c, Options.ListOf(c.entries[Options.EmsOptionsKey]), locate);
    if configs.Err? {
      return Err(configs.error);
    }
    var id := c.Alloc(PoolObj(configs.value));
    c.Set(EmsConfigKey, Ref(id));
    return Ok(Ref(id));
  }

  // ======================================================== orm.em.config

  /** `$container['orm.em.config']`: the configuration of the default
      instance. */
  function EmConfigSpec(v: Variant, s: State, locate: Value -> Value): (Result<Value>, State)
  {
    if EmConfigKey !in s.entries then (Err(UnknownIdentifier(EmConfigKey)), s)
    else if s.entries[EmConfigKey] != Service(EmConfigKey) then (Ok(s.entries[EmConfigKey]), s)
    else
      var (configs, s1) := EmsConfigSpec(v, s, locate);
      if configs.Err? then (Err(configs.error), s1)
      else if Options.EmsDefaultKey !in s1.entries then (Err(UnknownIdentifier(Options.EmsDefaultKey)), s1)
      else match MemberOf(s1, configs.value, ToStr(s1.entries[Options.EmsDefaultKey]))
        case Err(x) => (Err(x), s1)
        case Ok(config) => (Ok(config), Store(s1, EmConfigKey, config))
  }

  method EmConfig(v: Variant, c: Container, locate: Value -> Value) returns (r: Result<Value>)
    requires c.Valid()
    modifies c
    ensures c.Valid()
    ensures (r, c.Snapshot()) == EmConfigSpec(v, old(c.Snapshot()), locate)
  {
    if EmConfigKey !in c.entries {
      return Err(UnknownIdentifier(EmConfigKey));
    }
    if c.entries[EmConfigKey] != Service(EmConfigKey) {
      return Ok(c.entries[EmConfigKey]);
    }
    var configs := EmsConfig(v, c, locate);
    if configs.Err? {
      return Err(configs.error);
    }
    if Options.EmsDefaultKey !in c.entries {
      return Err(UnknownIdentifier(Options.EmsDefaultKey));
    }
    var config :- MemberOf(c.Snapshot(), configs.value, ToStr(c.entries[Options.EmsDefaultKey]));
    c.Set(EmConfigKey, config);
    return Ok(config);
  }

  // ============================================================== orm.ems

  /** `EntityManager::create($container['dbs'][$connection], $config,
      $container['dbs.event_manager'][$connection])` */
  function CreateManager(s: State, connection: Value, config: Value): (Result<Value>, State)
  {
    if DbsKey !in s.entries then (Err(UnknownIdentifier(DbsKey)), s)
    else if EventManagersKey !in s.entries then (Err(UnknownIdentifier(EventManagersKey)), s)
    else (Ok(Ref(s.nextId)), Allocate(s, EntityManagerObj(connection, config)))
  }

  /** The configuration an instance's entity manager gets: `orm.em.config`
      for the default name (compared strictly), otherwise the instance's
      member of `orm.ems.config`. */
  function InstanceConfig(v: Variant, s: State, name: string, locate: Value -> Value): (Result<Value>, State)
  {
    if Options.EmsDefaultKey !in s.entries then (Err(UnknownIdentifier(Options.EmsDefaultKey)), s)
    else if s.entries[Options.EmsDefaultKey] == Str(name) then EmConfigSpec(v, s, locate)
    else
      var (configs, s1) := EmsConfigSpec(v, s, locate);
      if configs.Err? then (Err(configs.error), s1)
      else (MemberOf(s1, configs.value, name), s1)
  }

  /** The `orm.ems` loop: the Provider and Pimple put a shared definition
      that creates the entity manager when first read; Silex creates it at
      once. */
  function ManagersSpec(v: Variant, s: State, pool: seq<Entry>, insts: seq<Entry>, locate: Value -> Value)
    : (Result<seq<Entry>>, State)
    decreases |insts|
  {
    if insts == [] then (Ok(pool), s)
    else
      var name := insts[0].key;
      var (config, s1) := InstanceConfig(v, s, name, locate);
      if config.Err? then (Err(config.error), s1)
      else
        var connection := At(insts[0].val, "connection");
        var (em, s2) := if v.Silex? then CreateManager(s1, connection, config.value)
                        else (Ok(EntityManagerDefinition(connection, config.value)), s1);
        if em.Err? then (Err(em.error), s2)
        else ManagersSpec(v, s2, Put(pool, name, em.value), insts[1..], locate)
  }

  /** `$container['orm.ems']` */
  function EmsSpec(v: Variant, s: State, locate: Value -> Value): (Result<Value>, State)
  {
    if EmsKey !in s.entries then (Err(UnknownIdentifier(EmsKey)), s)
    else if s.entries[EmsKey] != Service(EmsKey) then (Ok(s.entries[EmsKey]), s)
    else
      var (init, s1) := Options.InitSpec(s);
      if init.Err? then (Err(init.error), s1)
      else if Options.EmsOptionsKey !in s1.entries then (Err(UnknownIdentifier(Options.EmsOptionsKey)), s1)
      else
        var (ems, s2) := ManagersSpec(v, s1, [], Options.ListOf(s1.entries[Options.EmsOptionsKey]), locate);
        if ems.Err? then (Err(ems.error), s2)
        else Publish(s2, EmsKey, ems.value)
  }

  method DefineManagers(v: Variant, c: Container, insts: seq<Entry>, locate: Value -> Value)
    returns (r: Result<seq<Entry>>)
    requires c.Valid()
    modifies c
    ensures c.Valid()
    ensures (r, c.Snapshot()) == ManagersSpec(v, old(c.Snapshot()), [], insts, locate)
  {
    var pool: seq<Entry> := [];
    var i := 0;
    while i < |insts|
      invariant 0 <= i <= |insts| && c.Valid()
      invariant ManagersSpec(v, old(c.Snapshot()), [], insts, locate)
             == ManagersSpec(v, c.Snapshot(), pool, insts[i..], locate)
    {
      assert insts[i..][0] == insts[i] && insts[i..][1..] == insts[i + 1..];
      var name := insts[i].key;
      var config := InstanceConfigOf(v, c, name, locate);
      if config.Err? {
        return Err(config.error);
      }
      var em :- Manager(v, c, At(insts[i].val, "connection"), config.value);
      pool := Put(pool, name, em);
      i := i + 1;
    }
    return Ok(pool);
  }

  /** The configuration of one instance, read from the container. */
  method InstanceConfigOf(v: Variant, c: Container, name: string, locate: Value -> Value) returns (r: Result<Value>)
    requires c.Valid()
    modifies c
    ensures c.Valid()
    ensures (r, c.Snapshot()) == InstanceConfig(v, old(c.Snapshot()), name, locate)
  {
    if Options.EmsDefaultKey !in c.entries {
      return Err(UnknownIdentifier(Options.EmsDefaultKey));
    }
    if c.entries[Options.EmsDefaultKey] == Str(name) {
      r := EmConfig(v, c, locate);
    } else {
      var configs := EmsConfig(v, c, locate);
      r := if configs.Err? then Err(configs.error) else MemberOf(c.Snapshot(), configs.value, name);
    }
  }

  /** The member of `orm.ems` for one instance: a manager Silex creates at
      once, a definition the other two evaluate on first read. */
  method Manager(v: Variant, c: Container, connection: Value, config: Value) returns (r: Result<Value>)
    requires c.Valid()
    modifies c
    ensures c.Valid()
    ensures (r, c.Snapshot()) == if v.Silex? then CreateManager(old(c.Snapshot()), connection, config)
                                 else (Ok(EntityManagerDefinition(connection, config)), old(c.Snapshot()))
  {
    if v.Silex? {
      r := Create(c, connection, config);
    } else {
      r := Ok(EntityManagerDefinition(connection, config));
    }
  }

  method Create(c: Container, connection: Value, config: Value) returns (r: Result<Value>)
    requires c.Valid()
    modifies c
    ensures c.Valid()
    ensures (r, c.Snapshot()) == CreateManager(old(c.Snapshot()), connection, config)
  {
    if DbsKey !in c.entries {
      return Err(UnknownIdentifier(DbsKey));
    }
    if EventManagersKey !in c.entries {
      return Err(UnknownIdentifier(EventManagersKey));
    }
    var id := c.Alloc(EntityManagerObj(connection, config));
    return Ok(Ref(id));
  }

  method Ems(v: Variant, c: Container, locate: Value -> Value) returns (r: Result<Value>)
    requires c.Valid()
    modifies c
    ensures c.Valid()
    ensures (r, c.Snapshot()) == EmsSpec(v, old(c.Snapshot()), locate)
  {
    if EmsKey !in c.entries {
      return Err(UnknownIdentifier(EmsKey));
    }
    if c.entries[EmsKey] != Service(EmsKey) {
      return Ok(c.entries[EmsKey]);
    }
    var init := Options.Initialize(c);
    if init.Err? {
      return Err(init.error);
    }
    if Options.EmsOptionsKey !in c.entries {
      return Err(UnknownIdentifier(Options.EmsOptionsKey));
    }
    var ems := DefineManagers(v, c, Options.ListOf(c.entries[Options.EmsOptionsKey]), locate);
    if ems.Err? {
      return Err(ems.error);
    }
    var id := c.Alloc(PoolObj(ems.value));
    c.Set(EmsKey, Ref(id));
    return Ok(Ref(id));
  }

  // =============================================================== orm.em

  /** `$ems[$name]` on what `orm.ems` returned: a shared definition is
      evaluated on its first read and the entity manager replaces it. */
  function ResolveSpec(s: State, ems: Value, name: string): (Result<Value>, State)
  {
    if IsPool(s, ems) && Find(s.heap[ems.id].members, name).Some?
       && Find(s.heap[ems.id].members, name).value.EntityManagerDefinition? then
      var d := Find(s.heap[ems.id].members, name).value;
      var (em, s1) := CreateManager(s, d.connection, d.config);
      if em.Err? then (Err(em.error), s1)
      else (em, s1.(heap := s1.heap[ems.id := PoolObj(Put(s.heap[ems.id].members, name, em.value))]))
    else (MemberOf(s, ems, name), s)
  }

  /** `$container['orm.ems'][$name]` */
  function ManagerOf(v: Variant, s: State, name: string, locate: Value -> Value): (Result<Value>, State)
  {
    var (ems, s1) := EmsSpec(v, s, locate);
    if ems.Err? then (Err(ems.error), s1) else ResolveSpec(s1, ems.value, name)
  }

  /** `$container['orm.em']`: the default instance's entity manager. */
  function EmSpec(v: Variant, s: State, locate: Value -> Value): (Result<Value>, State)
  {
    if EmKey !in s.entries then (Err(UnknownIdentifier(EmKey)), s)
    else if s.entries[EmKey] != Service(EmKey) then (Ok(s.entries[EmKey]), s)
    else
      var (ems, s1) := EmsSpec(v, s, locate);
      if ems.Err? then (Err(ems.error), s1)
      else if Options.EmsDefaultKey !in s1.entries then (Err(UnknownIdentifier(Options.EmsDefaultKey)), s1)
      else
        var (em, s2) := ResolveSpec(s1, ems.value, ToStr(s1.entries[Options.EmsDefaultKey]));
        if em.Err? then (Err(em.error), s2)
        else (em, Store(s2, EmKey, em.value))
  }

  method Resolve(c: Container, ems: Value, name: string) returns (r: Result<Value>)
    requires c.Valid()
    modifies c
    ensures c.Valid()
    ensures (r, c.Snapshot()) == ResolveSpec(old(c.Snapshot()), ems, name)
  {
    if IsPool(c.Snapshot(), ems) && Find(c.heap[ems.id].members, name).Some?
       && Find(c.heap[ems.id].members, name).value.EntityManagerDefinition? {
      var members := c.heap[ems.id].members;
      var d := Find(members, name).value;
      r := Create(c, d.connection, d.config);
      if r.Ok? {
        c.heap := c.heap[ems.id := PoolObj(Put(members, name, r.value))];
      }
    } else {
      r := MemberOf(c.Snapshot(), ems, name);
    }
  }

  method Em(v: Variant, c: Container, locate: Value -> Value) returns (r: Result<Value>)
    requires c.Valid()
    modifies c
    ensures c.Valid()
    ensures (r, c.Snapshot()) == EmSpec(v, old(c.Snapshot()), locate)
  {
    if EmKey !in c.entries {
      return Err(UnknownIdentifier(EmKey));
    }
    if c.entries[EmKey] != Service(EmKey) {
      return Ok(c.entries[EmKey]);
    }
    var ems := Ems(v, c, locate);
    if ems.Err? {
      return Err(ems.error);
    }
    if Options.EmsDefaultKey !in c.entries {
      return Err(UnknownIdentifier(Options.EmsDefaultKey));
    }
    r := Resolve(c, ems.value, ToStr(c.entries[Options.EmsDefaultKey]));
    if r.Ok? {
      c.Set(EmKey, r.value);
    }
  }

  // ============================================================= lemmas

  /** A second read of `orm.ems` returns what the first returned. */
  lemma EmsMemoised(v: Variant, s: State, locate: Value -> Value)
    requires EmsSpec(v, s, locate).0.Ok?
    ensures var (r, s1) := EmsSpec(v, s, locate);
            EmsKey in s1.entries && s1.entries[EmsKey] == r.value && r.value != Service(EmsKey)
            && EmsSpec(v, s1, locate) == (r, s1)
  {
  }

  /** A second read of `orm.ems.config` returns what the first returned. */
  lemma EmsConfigMemoised(v: Variant, s: State, locate: Value -> Value)
    requires EmsConfigSpec(v, s, locate).0.Ok?
    ensures var (r, s1) := EmsConfigSpec(v, s, locate);
            EmsConfigKey in s1.entries && s1.entries[EmsConfigKey] == r.value && r.value != Service(EmsConfigKey)
            && EmsConfigSpec(v, s1, locate) == (r, s1)
  {
  }

  /** `orm.em` is the very entity manager `orm.ems` holds under the default
      name: reading that member afterwards gives the same object and changes
      nothing. */
  lemma EmIsDefaultManager(v: Variant, s: State, locate: Value -> Value)
    requires EmKey in s.entries && s.entries[EmKey] == Service(EmKey)
    requires EmSpec(v, s, locate).0.Ok?
    ensures var (em, s') := EmSpec(v, s, locate);
            && Options.EmsDefaultKey in s'.entries
            && ManagerOf(v, s', ToStr(s'.entries[Options.EmsDefaultKey]), locate) == (em, s')
  {
    var (ems, s1) := EmsSpec(v, s, locate);
    EmsMemoised(v, s, locate);
    var name := ToStr(s1.entries[Options.EmsDefaultKey]);
    var (em, s2) := ResolveSpec(s1, ems.value, name);
    var s' := Store(s2, EmKey, em.value);
    assert s2.entries == s1.entries;
    assert EmsSpec(v, s', locate) == (ems, s');
    if IsPool(s1, ems.value) && Find(s1.heap[ems.value.id].members, name).Some?
       && Find(s1.heap[ems.value.id].members, name).value.EntityManagerDefinition? {
      assert IsPool(s', ems.value) && Find(s'.heap[ems.value.id].members, name) == Some(em.value);
    } else {
      assert s2 == s1;
    }
  }

  /** `orm.em.config` is the member of `orm.ems.config` under the default
      name. */
  lemma EmConfigIsDefaultConfig(v: Variant, s: State, locate: Value -> Value)
    requires EmConfigKey in s.entries && s.entries[EmConfigKey] == Service(EmConfigKey)
    requires EmConfigSpec(v, s, locate).0.Ok?
    ensures var (config, s') := EmConfigSpec(v, s, locate);
            && Options.EmsDefaultKey in s'.entries
            && EmsConfigSpec(v, s', locate).0.Ok?
            && EmsConfigSpec(v, s', locate).1 == s'
            && MemberOf(s', EmsConfigSpec(v, s', locate).0.value, ToStr(s'.entries[Options.EmsDefaultKey])) == config
  {
    EmsConfigMemoised(v, s, locate);
  }

  // ---------------------------------------------------- what a step keeps

  /** From `s` to `s'` objects were only added. */
  ghost predicate Grows(s: State, s': State)
  {
    && Wf(s') && s.nextId <= s'.nextId
    && forall id | id in s.heap :: id in s'.heap && s'.heap[id] == s.heap[id]
  }

  /** From `s` to `s'` entries were only added, except `orm.ems.options`,
      which the options initializer rewrites. */
  ghost predicate Extends(s: State, s': State)
  {
    forall k | k in s.entries && k != Options.EmsOptionsKey :: k in s'.entries && s'.entries[k] == s.entries[k]
  }

  /** The options initializer adds entries and rewrites `orm.ems.options`,
      and creates no object. */
  lemma InitExtends(s: State)
    ensures var s1 := Options.InitSpec(s).1;
      Extends(s, s1) && s1.heap == s.heap && s1.nextId == s.nextId && s1.initialized
  {
    var s1 := Options.InitSpec(s).1;
    forall k | k in s.entries && k != Options.EmsOptionsKey
      ensures k in s1.entries && s1.entries[k] == s.entries[k]
    {
    }
  }

  /** The memo keys of the locators are neither settings nor services. */
  lemma MemoKeys(name: string, kind: string)
    ensures CacheKey(name, kind)[4] == 'c' && Options.ChainKey(name)[4] == 'm'
    ensures Options.EmsOptionsKey[4] == 'e' && Options.EmsDefaultKey[4] == 'e'
    ensures EmsConfigKey[4] == 'e' && EmConfigKey[4] == 'e' && EmsKey[4] == 'e' && EmKey[4] == 'e'
  {
  }

  /** The configuration `config` holds, for every kind, the cache the
      locator hands out for instance `name` and that kind, and reading it
      again changes nothing. */
  ghost predicate CachesFor(v: Variant, s: State, config: nat, name: string, options: seq<Entry>, kinds: seq<string>)
  {
    && config in s.heap && s.heap[config].ConfigObj?
    && forall k | k in kinds ::
         && k in s.heap[config].caches
         && CacheKey(name, k) in s.entries && s.heap[config].caches[k] == s.entries[CacheKey(name, k)]
         && LocateSpec(v, s, name, k, options) == (Ok(s.heap[config].caches[k]), s)
  }

  /** The configuration `config` of instance `name` is complete: its cache
      of every kind is the one memoised for the instance and kind, and its
      metadata driver is the instance's memoised driver chain. */
  ghost predicate Ready(s: State, config: nat, name: string, kinds: seq<string>)
  {
    && config in s.heap && s.heap[config].ConfigObj?
    && (forall k | k in kinds ::
         k in s.heap[config].caches && CacheKey(name, k) in s.entries
         && s.heap[config].caches[k] == s.entries[CacheKey(name, k)])
    && Options.ChainKey(name) in s.entries && s.heap[config].metadataDriver == s.entries[Options.ChainKey(name)]
  }

  /** The locator only adds objects and entries, and what it returns is
      memoised for the instance and kind. */
  lemma LocateStores(v: Variant, s: State, name: string, kind: string, options: seq<Entry>)
    requires Wf(s)
    ensures var (r, s1) := LocateSpec(v, s, name, kind, options);
      && Grows(s, s1) && s1.initialized == s.initialized && Extends(s, s1)
      && (r.Ok? ==> CacheKey(name, kind) in s1.entries && s1.entries[CacheKey(name, kind)] == r.value
                    && LocateSpec(v, s1, name, kind, options) == (r, s1))
  {
    if LocateSpec(v, s, name, kind, options).0.Ok? {
      CacheMemoised(v, s, name, kind, options);
    }
  }

  /** The chain locator only adds objects and entries, and what it returns
      is memoised for the instance. */
  lemma ChainStores(s: State, name: string)
    requires Wf(s)
    ensures var r := Options.ChainSpec(s, Str(name));
      && Grows(s, r.1) && Extends(s, r.1) && r.1.initialized
      && (r.0.Ok? ==> Options.ChainKey(name) in r.1.entries && r.1.entries[Options.ChainKey(name)] == r.0.value)
  {
    InitExtends(s);
    var s1 := Options.InitSpec(s).1;
    if Options.InitSpec(s).0.Ok? && Options.ChainKey(name) !in s1.entries && Options.ChainFactoryKey in s1.entries {
      MemoKeys(name, "");
      var s2 := Options.ChainSpec(s, Str(name)).1;
      assert s2.entries == s1.entries[Options.ChainKey(name) := Ref(s1.nextId)];
    }
  }

  /** A configuration keeps its caches as long as the container keeps its
      entries. */
  lemma CachesForStays(v: Variant, s: State, s': State, config: nat, name: string, options: seq<Entry>, kinds: seq<string>)
    requires CachesFor(v, s, config, name, options, kinds) && Extends(s, s')
    requires config in s'.heap && s'.heap[config].ConfigObj? && s'.heap[config].caches == s.heap[config].caches
    ensures CachesFor(v, s', config, name, options, kinds)
  {
    forall k | k in kinds
      ensures CacheKey(name, k) in s'.entries && s'.entries[CacheKey(name, k)] == s.entries[CacheKey(name, k)]
      ensures LocateSpec(v, s', name, k, options) == (Ok(s.heap[config].caches[k]), s')
    {
      MemoKeys(name, k);
      LocateStaysMemoised(v, s, s', name, k, options, s.heap[config].caches[k]);
    }
  }

  /** The cache configurer sets on the configuration, for every kind, the
      cache the locator hands out for the instance and kind, and touches no
      other object and no other kind. */
  lemma {:induction false} CachesSetEveryKind(v: Variant, s: State, config: nat, name: string, options: seq<Entry>,
                                              kinds: seq<string>)
    requires Wf(s) && config in s.heap && s.heap[config].ConfigObj?
    requires CachesSpec(v, s, config, name, options, kinds).0.Ok?
    ensures var s' := CachesSpec(v, s, config, name, options, kinds).1;
      && Wf(s') && s.nextId <= s'.nextId && s'.initialized == s.initialized && Extends(s, s')
      && (forall id | id in s.heap && id != config :: id in s'.heap && s'.heap[id] == s.heap[id])
      && CachesFor(v, s', config, name, options, kinds)
      && (forall k | k in s.heap[config].caches && k !in kinds ::
            k in s'.heap[config].caches && s'.heap[config].caches[k] == s.heap[config].caches[k])
    decreases |kinds|
  {
    if kinds != [] {
      var (r, s1) := LocateSpec(v, s, name, kinds[0], options);
      LocateStores(v, s, name, kinds[0], options);
      var s2 := SetCache(s1, config, kinds[0], r.value);
      assert s2.heap[config].caches == s.heap[config].caches[kinds[0] := r.value];
      LocateStaysMemoised(v, s1, s2, name, kinds[0], options, r.value);
      CachesSetEveryKind(v, s2, config, name, options, kinds[1..]);
      var s' := CachesSpec(v, s2, config, name, options, kinds[1..]).1;
      if kinds[0] !in kinds[1..] {
        MemoKeys(name, kinds[0]);
        LocateStaysMemoised(v, s2, s', name, kinds[0], options, r.value);
      }
      forall k | k in kinds
        ensures k in s'.heap[config].caches && CacheKey(name, k) in s'.entries
                && s'.heap[config].caches[k] == s'.entries[CacheKey(name, k)]
                && LocateSpec(v, s', name, k, options) == (Ok(s'.heap[config].caches[k]), s')
      {
        if k != kinds[0] {
          assert k in kinds[1..];
        }
      }
    }
  }

  /** Each instance's configuration is a new object that is complete: its
      caches are the ones the cache locator hands out for the instance, and
      its metadata driver is the chain the chain locator hands out for it,
      from then on; no object other than driver chains that existed before is
      touched, and no entry. */
  lemma ConfigIsComplete(v: Variant, s: State, name: string, options: seq<Entry>, locate: Value -> Value)
    requires Wf(s) && ConfigSpec(v, s, name, options, locate).0.Ok?
    ensures ConfigSpec(v, s, name, options, locate).0 == Ok(Ref(s.nextId)) && s.nextId !in s.heap
    ensures var s' := ConfigSpec(v, s, name, options, locate).1;
      && Wf(s') && Extends(s, s') && Ready(s', s.nextId, name, Kinds(v))
      && CachesFor(v, s', s.nextId, name, options, Kinds(v))
      && Options.ChainSpec(s', Str(name)) == (Ok(s'.heap[s.nextId].metadataDriver), s')
      && (forall id | id in s.heap && !s.heap[id].ChainObj? :: id in s'.heap && s'.heap[id] == s.heap[id])
  {
    var config := s.nextId;
    var s0 := Allocate(s, ConfigObj(map[], [], Null));
    var c1 := CachesSpec(v, s0, config, name, options, Kinds(v));
    assert ConfigSpec(v, s, name, options, locate) == MetadataSpec(v, c1.1, config, name, options, locate);
    var c2 := Options.ChainSpec(c1.1, Str(name));
    var c3 := MappingsSpec(v, c2.1, config, c2.0.value, MappingList(options), locate);
    assert MetadataSpec(v, c1.1, config, name, options, locate) == (Ok(Ref(config)), SetDriver(c3.1, config, c2.0.value));
    CachesSetEveryKind(v, s0, config, name, options, Kinds(v));
    ChainStores(c1.1, name);
    Options.ChainMemoised(c1.1, Str(name));
    MappingsKeep(v, c2.1, config, c2.0.value, MappingList(options), locate);
    ConfigSteps(v, s, c1.1, c2.1, c3.1, c2.0.value, name, options, Kinds(v));
  }

  /** The steps of `ConfigSpec`, from what each one keeps. */
  lemma ConfigSteps(v: Variant, s: State, s1: State, s2: State, s3: State, chain: Value, name: string,
                    options: seq<Entry>, kinds: seq<string>)
    requires Wf(s) && Wf(s1) && Extends(s, s1) && CachesFor(v, s1, s.nextId, name, options, kinds)
    requires forall id | id in s.heap :: id in s1.heap && s1.heap[id] == s.heap[id]
    requires Grows(s1, s2) && Extends(s1, s2) && Options.ChainSpec(s2, Str(name)) == (Ok(chain), s2)
    requires Options.ChainKey(name) in s2.entries && s2.entries[Options.ChainKey(name)] == chain
    requires Wf(s3) && s3.entries == s2.entries && s3.initialized == s2.initialized
    requires forall id | id in s2.heap && id != s.nextId && !s2.heap[id].ChainObj? :: id in s3.heap && s3.heap[id] == s2.heap[id]
    requires s.nextId in s3.heap && s3.heap[s.nextId].ConfigObj? && s3.heap[s.nextId].caches == s2.heap[s.nextId].caches
    ensures var s' := SetDriver(s3, s.nextId, chain);
      && s.nextId !in s.heap && Wf(s') && Extends(s, s') && Ready(s', s.nextId, name, kinds)
      && CachesFor(v, s', s.nextId, name, options, kinds)
      && Options.ChainSpec(s', Str(name)) == (Ok(s'.heap[s.nextId].metadataDriver), s')
      && (forall id | id in s.heap && !s.heap[id].ChainObj? :: id in s'.heap && s'.heap[id] == s.heap[id])
  {
    var s' := SetDriver(s3, s.nextId, chain);
    assert s'.heap[s.nextId].metadataDriver == chain;
    Options.ChainHeapFrame(s2, s', Str(name));
    CachesForStays(v, s1, s', s.nextId, name, options, kinds);
  }

  /** The part of `ConfigIsComplete` the `orm.ems.config` loop relies on. */
  lemma ConfigIsReady(v: Variant, s: State, name: string, options: seq<Entry>, locate: Value -> Value)
    requires Wf(s) && ConfigSpec(v, s, name, options, locate).0.Ok?
    ensures ConfigSpec(v, s, name, options, locate).0 == Ok(Ref(s.nextId))
    ensures var s' := ConfigSpec(v, s, name, options, locate).1;
      && Wf(s') && Extends(s, s') && Ready(s', s.nextId, name, Kinds(v))
      && (forall id | id in s.heap && !s.heap[id].ChainObj? :: id in s'.heap && s'.heap[id] == s.heap[id])
  {
    ConfigIsComplete(v, s, name, options, locate);
  }

  /** Every member of the nested container is the complete configuration of
      the instance it is named after. */
  ghost predicate AllReady(s: State, pool: seq<Entry>, kinds: seq<string>)
  {
    forall e | e in pool :: e.val.Ref? && Ready(s, e.val.id, e.key, kinds)
  }

  /** A complete configuration stays complete while neither it nor the
      entries change. */
  lemma ReadyStays(s: State, s': State, pool: seq<Entry>, kinds: seq<string>)
    requires AllReady(s, pool, kinds) && Extends(s, s')
    requires forall id | id in s.heap && !s.heap[id].ChainObj? :: id in s'.heap && s'.heap[id] == s.heap[id]
    ensures AllReady(s', pool, kinds)
  {
    forall e | e in pool
      ensures e.val.Ref? && Ready(s', e.val.id, e.key, kinds)
    {
      MemoKeys(e.key, "");
      forall k | k in kinds
        ensures CacheKey(e.key, k) in s'.entries && s'.entries[CacheKey(e.key, k)] == s.entries[CacheKey(e.key, k)]
      {
        MemoKeys(e.key, k);
      }
    }
  }

  /** The `orm.ems.config` loop gives every instance, by name, its complete
      configuration, and keeps those it already had. */
  lemma {:induction false} ConfigsCoverInstances(v: Variant, s: State, pool: seq<Entry>, insts: seq<Entry>,
                                                 locate: Value -> Value)
    requires Wf(s) && AllReady(s, pool, Kinds(v))
    requires ConfigsSpec(v, s, pool, insts, locate).0.Ok?
    ensures var r := ConfigsSpec(v, s, pool, insts, locate);
      && Wf(r.1) && AllReady(r.1, r.0.value, Kinds(v)) && Extends(s, r.1)
      && (forall id | id in s.heap && !s.heap[id].ChainObj? :: id in r.1.heap && r.1.heap[id] == s.heap[id])
      && (forall i | 0 <= i < |insts| :: Find(r.0.value, insts[i].key).Some?)
      && (forall k | Find(pool, k).Some? :: Find(r.0.value, k).Some?)
    decreases |insts|
  {
    if insts != [] {
      var step := ConfigSpec(v, s, insts[0].key, Options.ListOf(insts[0].val), locate);
      var s1 := step.1;
      ConfigIsReady(v, s, insts[0].key, Options.ListOf(insts[0].val), locate);
      var pool1 := Put(pool, insts[0].key, Ref(s.nextId));
      PutKeepsReady(s, s1, pool, insts[0].key, s.nextId, Kinds(v));
      ConfigsCoverInstances(v, s1, pool1, insts[1..], locate);
      var r := ConfigsSpec(v, s1, pool1, insts[1..], locate);
      assert ConfigsSpec(v, s, pool, insts, locate) == r;
      CoverStep(pool, pool1, r.0.value, insts);
      ConfigFramesCompose(s, s1, r.1);
    }
  }

  lemma ConfigFramesCompose(s: State, s1: State, s2: State)
    requires Extends(s, s1) && Extends(s1, s2)
    requires forall id | id in s.heap && !s.heap[id].ChainObj? :: id in s1.heap && s1.heap[id] == s.heap[id]
    requires forall id | id in s1.heap && !s1.heap[id].ChainObj? :: id in s2.heap && s2.heap[id] == s1.heap[id]
    ensures Extends(s, s2)
    ensures forall id | id in s.heap && !s.heap[id].ChainObj? :: id in s2.heap && s2.heap[id] == s.heap[id]
  {
  }

  /** One round of an instance loop: what the rest of the loop covers,
      together with the instance just put, covers all of them. */
  lemma CoverStep(pool: seq<Entry>, pool1: seq<Entry>, r: seq<Entry>, insts: seq<Entry>)
    requires insts != [] && Find(pool1, insts[0].key).Some?
    requires forall k | Find(pool, k).Some? :: Find(pool1, k).Some?
    requires forall k | Find(pool1, k).Some? :: Find(r, k).Some?
    requires forall i | 0 <= i < |insts[1..]| :: Find(r, insts[1..][i].key).Some?
    ensures forall i | 0 <= i < |insts| :: Find(r, insts[i].key).Some?
    ensures forall k | Find(pool, k).Some? :: Find(r, k).Some?
  {
    forall i | 0 <= i < |insts|
      ensures Find(r, insts[i].key).Some?
    {
      if i > 0 {
        assert insts[i].key == insts[1..][i - 1].key;
      }
    }
  }

  lemma PutKeepsReady(s: State, s1: State, pool: seq<Entry>, name: string, config: nat, kinds: seq<string>)
    requires AllReady(s, pool, kinds) && Ready(s1, config, name, kinds) && Extends(s, s1)
    requires forall id | id in s.heap && !s.heap[id].ChainObj? :: id in s1.heap && s1.heap[id] == s.heap[id]
    ensures AllReady(s1, Put(pool, name, Ref(config)), kinds)
  {
    ReadyStays(s, s1, pool, kinds);
    forall e | e in Put(pool, name, Ref(config))
      ensures e.val.Ref? && Ready(s1, e.val.id, e.key, kinds)
    {
      if e != Entry(name, Ref(config)) {
        assert e in pool;
      }
    }
  }

  /** After `orm.ems.config` is first read, it is a nested container with,
      under the name of every instance the initializer produced, that
      instance's complete configuration. */
  lemma EveryInstanceConfigured(v: Variant, s: State, locate: Value -> Value)
    requires Wf(s) && EmsConfigKey in s.entries && s.entries[EmsConfigKey] == Service(EmsConfigKey)
    requires EmsConfigSpec(v, s, locate).0.Ok?
    ensures var (r, s') := EmsConfigSpec(v, s, locate);
      var insts := Options.ListOf(Options.InitSpec(s).1.entries[Options.EmsOptionsKey]);
      && IsPool(s', r.value) && AllReady(s', s'.heap[r.value.id].members, Kinds(v))
      && forall i | 0 <= i < |insts| :: Find(s'.heap[r.value.id].members, insts[i].key).Some?
  {
    var s1 := Options.InitSpec(s).1;
    var insts := Options.ListOf(s1.entries[Options.EmsOptionsKey]);
    EmsConfigFirstRead(v, s, locate);
    var (configs, s2) := ConfigsSpec(v, s1, [], insts, locate);
    ConfigsCoverInstances(v, s1, [], insts, locate);
    MemoKeys("", "");
    PublishKeeps(s2, EmsConfigKey, configs.value, Kinds(v));
  }

  /** The first read of `orm.ems.config`: the initializer, the loop over its
      instances, and the nested container of their configurations. */
  lemma EmsConfigFirstRead(v: Variant, s: State, locate: Value -> Value)
    requires Wf(s) && EmsConfigKey in s.entries && s.entries[EmsConfigKey] == Service(EmsConfigKey)
    requires EmsConfigSpec(v, s, locate).0.Ok?
    ensures Options.InitSpec(s).0.Ok? && Options.EmsOptionsKey in Options.InitSpec(s).1.entries
    ensures var s1 := Options.InitSpec(s).1;
      var r := ConfigsSpec(v, s1, [], Options.ListOf(s1.entries[Options.EmsOptionsKey]), locate);
      r.0.Ok? && EmsConfigSpec(v, s, locate) == Publish(r.1, EmsConfigKey, r.0.value)
  {
    var s1 := Options.InitSpec(s).1;
    var insts := Options.ListOf(s1.entries[Options.EmsOptionsKey]);
    var (configs, s2) := ConfigsSpec(v, s1, [], insts, locate);
    assert Options.InitSpec(s).0.Ok? && Options.EmsOptionsKey in s1.entries && configs.Ok?
        && EmsConfigSpec(v, s, locate) == Publish(s2, EmsConfigKey, configs.value);
  }

  lemma PublishKeeps(s: State, key: string, members: seq<Entry>, kinds: seq<string>)
    requires Wf(s) && AllReady(s, members, kinds) && |key| > 4 && key[4] == 'e'
    ensures var (r, s') := Publish(s, key, members);
      && IsPool(s', r.value) && s'.heap[r.value.id].members == members && AllReady(s', members, kinds)
  {
    var s' := Publish(s, key, members).1;
    forall e | e in members
      ensures e.val.Ref? && Ready(s', e.val.id, e.key, kinds)
    {
      MemoKeys(e.key, "");
      forall k | k in kinds
        ensures CacheKey(e.key, k) in s'.entries && s'.entries[CacheKey(e.key, k)] == s.entries[CacheKey(e.key, k)]
      {
        MemoKeys(e.key, k);
      }
    }
  }

  // ------------------------------------------- the configuration per name

  /** `orm.ems.config` has been read: what it holds now it holds for good. */
  predicate ConfigsBuilt(s: State)
  {
    EmsConfigKey in s.entries && s.entries[EmsConfigKey] != Service(EmsConfigKey)
  }

  /** The configuration the entity manager of instance `name` is given:
      `orm.em.config` when `name` is the default, otherwise the member of
      `orm.ems.config` under `name`. */
  function ConfigFor(s: State, name: string): Value
  {
    if Options.EmsDefaultKey in s.entries && s.entries[Options.EmsDefaultKey] == Str(name) then
      if EmConfigKey in s.entries then s.entries[EmConfigKey] else Null
    else if EmsConfigKey in s.entries && MemberOf(s, s.entries[EmsConfigKey], name).Ok? then
      MemberOf(s, s.entries[EmsConfigKey], name).value
    else Null
  }

  /** Reading the configuration of instance `name` needs nothing more to be
      built: what `ConfigFor` names is what it returns. */
  ghost predicate ConfigSettled(s: State, name: string)
  {
    && Options.EmsDefaultKey in s.entries
    && if s.entries[Options.EmsDefaultKey] == Str(name) then
         && EmConfigKey in s.entries
         && (s.entries[EmConfigKey] == Service(EmConfigKey) ==>
               ConfigsBuilt(s) && MemberOf(s, s.entries[EmsConfigKey], name) == Ok(Service(EmConfigKey)))
       else ConfigsBuilt(s) && MemberOf(s, s.entries[EmsConfigKey], name).Ok?
  }

  /** Once settled, reading the configuration of `name` gives `ConfigFor`
      and changes nothing. */
  lemma SettledReads(v: Variant, s: State, name: string, locate: Value -> Value)
    requires ConfigSettled(s, name)
    ensures InstanceConfig(v, s, name, locate) == (Ok(ConfigFor(s, name)), s)
  {
    if s.entries[Options.EmsDefaultKey] == Str(name) && s.entries[EmConfigKey] == Service(EmConfigKey) {
      assert s.entries[EmConfigKey := Service(EmConfigKey)] == s.entries;
    }
  }

  /** `k` holds the same value in `s'` as in `s`, if it is set in `s`. */
  ghost predicate SameAt(s: State, s': State, k: string)
  {
    k in s.entries ==> k in s'.entries && s'.entries[k] == s.entries[k]
  }

  /** A settled configuration stays settled, and the same, while the
      entries it reads and every nested container keep their values. */
  lemma SettledStays(s: State, s': State, name: string)
    requires ConfigSettled(s, name) && SameAt(s, s', Options.EmsDefaultKey)
    requires s.entries[Options.EmsDefaultKey] == Str(name) ==> SameAt(s, s', EmConfigKey)
    requires s.entries[Options.EmsDefaultKey] != Str(name) || s.entries[EmConfigKey] == Service(EmConfigKey) ==>
               SameAt(s, s', EmsConfigKey)
    requires forall id | id in s.heap && !s.heap[id].ChainObj? && !s.heap[id].ConfigObj? ::
               id in s'.heap && s'.heap[id] == s.heap[id]
    ensures ConfigSettled(s', name) && ConfigFor(s', name) == ConfigFor(s, name)
  {
    if EmsConfigKey in s.entries {
      var pool := s.entries[EmsConfigKey];
      assert MemberOf(s', pool, name) == MemberOf(s, pool, name) || MemberOf(s, pool, name).Err?;
    }
  }

  /** Reading `orm.ems.config` builds it at most once, creates objects, and
      changes no entry but `orm.ems.options` and its own. */
  lemma EmsConfigKeeps(v: Variant, s: State, locate: Value -> Value)
    requires Wf(s) && EmsConfigSpec(v, s, locate).0.Ok?
    ensures var (r, s1) := EmsConfigSpec(v, s, locate);
      && Wf(s1) && ConfigsBuilt(s1) && s1.entries[EmsConfigKey] == r.value
      && (ConfigsBuilt(s) ==> s1 == s)
      && (forall id | id in s.heap && !s.heap[id].ChainObj? :: id in s1.heap && s1.heap[id] == s.heap[id])
      && (forall k | k in s.entries && k != Options.EmsOptionsKey && k != EmsConfigKey ::
            k in s1.entries && s1.entries[k] == s.entries[k])
  {
    if !ConfigsBuilt(s) {
      EmsConfigFirstRead(v, s, locate);
      InitExtends(s);
      var s1 := Options.InitSpec(s).1;
      var insts := Options.ListOf(s1.entries[Options.EmsOptionsKey]);
      ConfigsCoverInstances(v, s1, [], insts, locate);
    }
  }

  /** Reading the configuration of instance `name` settles it, on what it
      returned, and touches no object but driver chains and configurations. */
  lemma InstanceConfigSettles(v: Variant, s: State, name: string, locate: Value -> Value)
    requires Wf(s) && InstanceConfig(v, s, name, locate).0.Ok?
    ensures var (config, s1) := InstanceConfig(v, s, name, locate);
      && Wf(s1) && ConfigSettled(s1, name) && ConfigFor(s1, name) == config.value
      && (forall id | id in s.heap && !s.heap[id].ChainObj? :: id in s1.heap && s1.heap[id] == s.heap[id])
  {
    if s.entries[Options.EmsDefaultKey] != Str(name) {
      OtherConfigSettles(v, s, name, locate);
    } else if s.entries[EmConfigKey] == Service(EmConfigKey) {
      DefaultConfigSettles(v, s, name, locate);
    }
  }

  lemma OtherConfigSettles(v: Variant, s: State, name: string, locate: Value -> Value)
    requires Wf(s) && InstanceConfig(v, s, name, locate).0.Ok?
    requires s.entries[Options.EmsDefaultKey] != Str(name)
    ensures var r := InstanceConfig(v, s, name, locate);
      && Wf(r.1) && ConfigSettled(r.1, name) && ConfigFor(r.1, name) == r.0.value
      && (forall id | id in s.heap && !s.heap[id].ChainObj? :: id in r.1.heap && r.1.heap[id] == s.heap[id])
  {
    EmsConfigKeeps(v, s, locate);
    MemoKeys("", "");
    var c := EmsConfigSpec(v, s, locate);
    assert InstanceConfig(v, s, name, locate) == (MemberOf(c.1, c.0.value, name), c.1);
  }

  lemma DefaultConfigSettles(v: Variant, s: State, name: string, locate: Value -> Value)
    requires Wf(s) && InstanceConfig(v, s, name, locate).0.Ok?
    requires s.entries[Options.EmsDefaultKey] == Str(name) && s.entries[EmConfigKey] == Service(EmConfigKey)
    ensures var r := InstanceConfig(v, s, name, locate);
      && Wf(r.1) && ConfigSettled(r.1, name) && ConfigFor(r.1, name) == r.0.value
      && (forall id | id in s.heap && !s.heap[id].ChainObj? :: id in r.1.heap && r.1.heap[id] == s.heap[id])
  {
    EmsConfigKeeps(v, s, locate);
    MemoKeys("", "");
    var c := EmsConfigSpec(v, s, locate);
    var s2 := c.1;
    assert s2.entries[Options.EmsDefaultKey] == Str(name);
    var config := MemberOf(s2, c.0.value, name).value;
    assert InstanceConfig(v, s, name, locate) == (Ok(config), Store(s2, EmConfigKey, config));
  }

  /** Reading the configuration of one instance leaves the configuration of
      every settled instance settled, and the same. */
  lemma ReadKeepsSettled(v: Variant, s: State, name: string, other: string, locate: Value -> Value)
    requires Wf(s) && ConfigSettled(s, other) && InstanceConfig(v, s, name, locate).0.Ok?
    ensures var s1 := InstanceConfig(v, s, name, locate).1;
      ConfigSettled(s1, other) && ConfigFor(s1, other) == ConfigFor(s, other)
  {
    var s1 := InstanceConfig(v, s, name, locate).1;
    MemoKeys("", "");
    var d := s.entries[Options.EmsDefaultKey];
    if d != Str(name) || s.entries[EmConfigKey] == Service(EmConfigKey) {
      EmsConfigKeeps(v, s, locate);
      if d == Str(name) && d == Str(other) {
        assert s.entries[EmConfigKey := Service(EmConfigKey)] == s.entries;
      } else {
        SettledStays(s, s1, other);
      }
    }
  }

  // ---------------------------------------------------- the managers

  /** The connection of the entity manager `x` stands for. */
  function ConnectionOf(v: Variant, s: State, x: Value): Value
  {
    if v.Silex? then
      if x.Ref? && x.id in s.heap && s.heap[x.id].EntityManagerObj? then s.heap[x.id].connection else Null
    else if x.EntityManagerDefinition? then x.connection else Null
  }

  /** `x` is, in Silex, an entity manager built from `connection` and
      `config`; in the Provider and Pimple, the definition that builds it on
      first read. */
  ghost predicate ManagerIs(v: Variant, s: State, x: Value, connection: Value, config: Value)
  {
    if v.Silex? then x.Ref? && x.id in s.heap && s.heap[x.id] == EntityManagerObj(connection, config)
    else x == EntityManagerDefinition(connection, config)
  }

  /** Every member of the nested container is the entity manager of the
      instance it is named after, on that instance's configuration. */
  ghost predicate Managed(v: Variant, s: State, pool: seq<Entry>)
  {
    forall e | e in pool :: ConfigSettled(s, e.key) && ManagerIs(v, s, e.val, ConnectionOf(v, s, e.val), ConfigFor(s, e.key))
  }

  /** Entry `i` is the last instance with its name. */
  predicate LastNamed(insts: seq<Entry>, i: nat)
    requires i < |insts|
  {
    forall j | i < j < |insts| :: insts[j].key != insts[i].key
  }

  /** One round of the `orm.ems` loop keeps every member managed, adds the
      instance's own, and touches no entity manager. */
  lemma ManagerStep(v: Variant, s: State, pool: seq<Entry>, inst: Entry, locate: Value -> Value)
    requires Wf(s) && Managed(v, s, pool)
    requires ManagersSpec(v, s, pool, [inst], locate).0.Ok?
    ensures var (config, s1) := InstanceConfig(v, s, inst.key, locate);
      var connection := At(inst.val, "connection");
      var (em, s2) := if v.Silex? then CreateManager(s1, connection, config.value)
                      else (Ok(EntityManagerDefinition(connection, config.value)), s1);
      && config.Ok? && em.Ok? && Wf(s2)
      && ManagersSpec(v, s, pool, [inst], locate) == (Ok(Put(pool, inst.key, em.value)), s2)
      && Managed(v, s2, Put(pool, inst.key, em.value))
      && ConnectionOf(v, s2, em.value) == connection
      && (forall id | id in s.heap && !s.heap[id].ChainObj? && !s.heap[id].ConfigObj? :: id in s2.heap && s2.heap[id] == s.heap[id])
  {
    var (config, s1) := InstanceConfig(v, s, inst.key, locate);
    var connection := At(inst.val, "connection");
    var (em, s2) := if v.Silex? then CreateManager(s1, connection, config.value)
                    else (Ok(EntityManagerDefinition(connection, config.value)), s1);
    assert ManagersSpec(v, s, pool, [inst], locate) == ManagersSpec(v, s2, Put(pool, inst.key, em.value), [], locate);
    InstanceConfigSettles(v, s, inst.key, locate);
    SettledStays(s1, s2, inst.key);
    forall e | e in Put(pool, inst.key, em.value)
      ensures ConfigSettled(s2, e.key) && ManagerIs(v, s2, e.val, ConnectionOf(v, s2, e.val), ConfigFor(s2, e.key))
    {
      if e != Entry(inst.key, em.value) {
        assert e in pool;
        ReadKeepsSettled(v, s, inst.key, e.key, locate);
        SettledStays(s1, s2, e.key);
      }
    }
  }

  /** The `orm.ems` loop leaves the members of names it does not handle,
      and every entity manager, as they were. */
  lemma {:induction false} ManagersKeep(v: Variant, s: State, pool: seq<Entry>, insts: seq<Entry>, locate: Value -> Value)
    requires Wf(s) && Managed(v, s, pool) && ManagersSpec(v, s, pool, insts, locate).0.Ok?
    ensures var (r, s') := ManagersSpec(v, s, pool, insts, locate);
      && Wf(s') && Managed(v, s', r.value)
      && (forall id | id in s.heap && !s.heap[id].ChainObj? && !s.heap[id].ConfigObj? :: id in s'.heap && s'.heap[id] == s.heap[id])
      && (forall k | Find(pool, k).Some? :: Find(r.value, k).Some?)
      && (forall k | forall j | 0 <= j < |insts| :: insts[j].key != k :: Find(r.value, k) == Find(pool, k))
    decreases |insts|
  {
    if insts != [] {
      ManagerStep(v, s, pool, insts[0], locate);
      var (pool1, s2) := ManagersSpec(v, s, pool, [insts[0]], locate);
      assert ManagersSpec(v, s, pool, insts, locate) == ManagersSpec(v, s2, pool1.value, insts[1..], locate);
      ManagersKeep(v, s2, pool1.value, insts[1..], locate);
      var r := ManagersSpec(v, s, pool, insts, locate).0.value;
      forall k | forall j | 0 <= j < |insts| :: insts[j].key != k
        ensures Find(r, k) == Find(pool, k)
      {
        assert insts[0].key != k;
        forall j | 0 <= j < |insts[1..]| ensures insts[1..][j].key != k {
          assert insts[1..][j] == insts[j + 1];
        }
      }
    }
  }

  /** The `orm.ems` loop gives every instance, by name, the entity manager
      (or the definition) built from its own `connection` and the
      configuration of its name; with a name given twice, the later
      instance's. */
  lemma {:induction false} ManagersCoverInstances(v: Variant, s: State, pool: seq<Entry>, insts: seq<Entry>,
                                                  locate: Value -> Value)
    requires Wf(s) && Managed(v, s, pool)
    requires ManagersSpec(v, s, pool, insts, locate).0.Ok?
    ensures var r := ManagersSpec(v, s, pool, insts, locate);
      && Managed(v, r.1, r.0.value)
      && (forall i | 0 <= i < |insts| :: Find(r.0.value, insts[i].key).Some?)
      && (forall i | 0 <= i < |insts| && LastNamed(insts, i) ::
            ConnectionOf(v, r.1, Find(r.0.value, insts[i].key).value) == At(insts[i].val, "connection"))
    decreases |insts|
  {
    if insts != [] {
      ManagerStep(v, s, pool, insts[0], locate);
      var (pool1, s2) := ManagersSpec(v, s, pool, [insts[0]], locate);
      assert ManagersSpec(v, s, pool, insts, locate) == ManagersSpec(v, s2, pool1.value, insts[1..], locate);
      ManagersCoverInstances(v, s2, pool1.value, insts[1..], locate);
      ManagersKeep(v, s2, pool1.value, insts[1..], locate);
      var (r, s') := ManagersSpec(v, s, pool, insts, locate);
      forall i | 0 <= i < |insts|
        ensures Find(r.value, insts[i].key).Some?
        ensures LastNamed(insts, i) ==> ConnectionOf(v, s', Find(r.value, insts[i].key).value) == At(insts[i].val, "connection")
      {
        LastNamedTail(insts, i);
      }
    }
  }

  /** Being last named carries over to the rest of the list; the first
      instance, when last named, is named nowhere in the rest. */
  lemma LastNamedTail(insts: seq<Entry>, i: nat)
    requires i < |insts|
    ensures 0 < i ==> insts[i] == insts[1..][i - 1] && (LastNamed(insts, i) ==> LastNamed(insts[1..], i - 1))
    ensures i == 0 && LastNamed(insts, 0) ==> forall j | 0 <= j < |insts[1..]| :: insts[1..][j].key != insts[0].key
  {
    if i > 0 {
      if LastNamed(insts, i) {
        forall j | i - 1 < j < |insts[1..]| ensures insts[1..][j].key != insts[1..][i - 1].key {
          assert insts[1..][j] == insts[j + 1];
        }
      }
    } else if LastNamed(insts, 0) {
      forall j | 0 <= j < |insts[1..]| ensures insts[1..][j].key != insts[0].key {
        assert insts[1..][j] == insts[j + 1];
      }
    }
  }

  /** After `orm.ems` is first read, it is a nested container holding, under
      the name of every instance the initializer produced, the entity
      manager (Silex) or its definition (Provider, Pimple) built from that
      instance's `connection` and from `orm.em.config` for the default name
      or the instance's member of `orm.ems.config` otherwise; reading that
      configuration again gives the same value and changes nothing. */
  lemma EveryInstanceManaged(v: Variant, s: State, locate: Value -> Value)
    requires Wf(s) && EmsKey in s.entries && s.entries[EmsKey] == Service(EmsKey)
    requires EmsSpec(v, s, locate).0.Ok?
    ensures var (r, s') := EmsSpec(v, s, locate);
      var insts := Options.ListOf(Options.InitSpec(s).1.entries[Options.EmsOptionsKey]);
      && IsPool(s', r.value)
      && forall i | 0 <= i < |insts| && LastNamed(insts, i) ::
           var n := insts[i].key;
           && Find(s'.heap[r.value.id].members, n).Some?
           && ManagerIs(v, s', Find(s'.heap[r.value.id].members, n).value, At(insts[i].val, "connection"), ConfigFor(s', n))
           && InstanceConfig(v, s', n, locate) == (Ok(ConfigFor(s', n)), s')
  {
    var s1 := Options.InitSpec(s).1;
    var insts := Options.ListOf(s1.entries[Options.EmsOptionsKey]);
    EmsFirstRead(v, s, locate);
    var m := ManagersSpec(v, s1, [], insts, locate);
    ManagersCoverInstances(v, s1, [], insts, locate);
    ManagersKeep(v, s1, [], insts, locate);
    ManagersPublished(v, m.1, m.0.value, insts, locate);
  }

  /** The nested container `orm.ems` publishes holds, per instance, what the
      loop built for it. */
  lemma ManagersPublished(v: Variant, s: State, ems: seq<Entry>, insts: seq<Entry>, locate: Value -> Value)
    requires Wf(s) && Managed(v, s, ems)
    requires forall i | 0 <= i < |insts| :: Find(ems, insts[i].key).Some?
    requires forall i | 0 <= i < |insts| && LastNamed(insts, i) ::
               ConnectionOf(v, s, Find(ems, insts[i].key).value) == At(insts[i].val, "connection")
    ensures var (r, s') := Publish(s, EmsKey, ems);
      && IsPool(s', r.value)
      && forall i | 0 <= i < |insts| && LastNamed(insts, i) ::
           var n := insts[i].key;
           && Find(s'.heap[r.value.id].members, n).Some?
           && ManagerIs(v, s', Find(s'.heap[r.value.id].members, n).value, At(insts[i].val, "connection"), ConfigFor(s', n))
           && InstanceConfig(v, s', n, locate) == (Ok(ConfigFor(s', n)), s')
  {
    var (r, s') := Publish(s, EmsKey, ems);
    PublishKeepsManaged(v, s, EmsKey, ems);
    forall i | 0 <= i < |insts| && LastNamed(insts, i)
      ensures var n := insts[i].key;
        && Find(s'.heap[r.value.id].members, n).Some?
        && ManagerIs(v, s', Find(s'.heap[r.value.id].members, n).value, At(insts[i].val, "connection"), ConfigFor(s', n))
        && InstanceConfig(v, s', n, locate) == (Ok(ConfigFor(s', n)), s')
    {
      var n := insts[i].key;
      FindIn(ems, n);
      assert Entry(n, Find(ems, n).value) in ems;
      SettledReads(v, s', n, locate);
    }
  }

  /** Publishing the entity managers keeps each of them what it was. */
  lemma PublishKeepsManaged(v: Variant, s: State, key: string, members: seq<Entry>)
    requires Wf(s) && Managed(v, s, members) && key == EmsKey
    ensures var (r, s') := Publish(s, key, members);
      && IsPool(s', r.value) && s'.heap[r.value.id].members == members && Managed(v, s', members)
      && forall e | e in members :: ConnectionOf(v, s', e.val) == ConnectionOf(v, s, e.val)
  {
    var s' := Publish(s, key, members).1;
    MemoKeys("", "");
    forall e | e in members
      ensures ConfigSettled(s', e.key) && ConfigFor(s', e.key) == ConfigFor(s, e.key)
    {
      SettledStays(s, s', e.key);
    }
  }

  /** The first read of `orm.ems`: the initializer, the loop over its
      instances, and the nested container of their entity managers. */
  lemma EmsFirstRead(v: Variant, s: State, locate: Value -> Value)
    requires Wf(s) && EmsKey in s.entries && s.entries[EmsKey] == Service(EmsKey)
    requires EmsSpec(v, s, locate).0.Ok?
    ensures Options.InitSpec(s).0.Ok? && Options.EmsOptionsKey in Options.InitSpec(s).1.entries
    ensures Wf(Options.InitSpec(s).1)
    ensures var s1 := Options.InitSpec(s).1;
      var r := ManagersSpec(v, s1, [], Options.ListOf(s1.entries[Options.EmsOptionsKey]), locate);
      r.0.Ok? && EmsSpec(v, s, locate) == Publish(r.1, EmsKey, r.0.value)
  {
    var s1 := Options.InitSpec(s).1;
    var insts := Options.ListOf(s1.entries[Options.EmsOptionsKey]);
    var (ems, s2) := ManagersSpec(v, s1, [], insts, locate);
    InitExtends(s);
    assert Options.InitSpec(s).0.Ok? && Options.EmsOptionsKey in s1.entries && ems.Ok?
        && EmsSpec(v, s, locate) == Publish(s2, EmsKey, ems.value);
  }
}
