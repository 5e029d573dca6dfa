# Doctrine ORM service provider, modelled in Dafny

The package dflydev/doctrine-orm-service-provider registers Doctrine ORM
into a Pimple dependency-injection container. It comes in three variants
that share most of their logic:

- the plain Pimple 3 provider (`Provider`);
- the Pimple 1 provider (`Pimple`);
- the Silex application provider (`Silex`).

Each `register` does four things. It writes the ORM defaults, keeping values
the caller preset. It registers protected closures: the options
initializer, the cache configurer, locator and factories, the mapping-driver
chain locator and `orm.add_mapping_driver`. It registers shared services:
`orm.ems.config`, `orm.ems`, `orm.em.config` and `orm.em`. Reading
a service builds one Doctrine Configuration per entity-manager instance,
with its caches and its chain of metadata drivers, and one EntityManager
per instance.

The model keeps the provider's own logic and treats Doctrine as opaque:

- `php.dfy` (`Php`): PHP values. Ordered arrays are sequences of entries,
  and the module gives `array_replace`, `+=`, `isset`, `empty`, the
  `(array)` cast and the loose `==` a `switch` uses.
- `registry.dfy` (`Registry`): the container as a class. It holds the
  entries by key, a heap of the foreign objects created so far, the next
  object identity and the initializer's one-shot latch. `State` is the
  same thing as a value, for the specification functions.
- `options.dfy` (`Options`): what the variants share word for word. All
  three share the defaults loop of `register`, the options initializer,
  the memoising chain locator and `orm.add_mapping_driver`. The Provider
  and Pimple also share `orm.em_name_from_param_key`; Silex does not
  register it.
- `caches.dfy` (`Caches`): the cache settings of each locator, the
  cache factories with their option checks, the namespace rule and the
  locator itself.
- `mappings.dfy` (`Mappings`): the mapping loop of `orm.ems.config`, the
  three mapping-type dispatches, aliases, Pimple's `resources_namespace`
  rewrite and `orm.generate_psr0_mapping`.
- `registration.dfy` (`Registration`): `getOrmDefaults`, the default
  per-instance options and the keys each variant registers.
- `services.dfy` (`Services`): `orm.ems.config`, `orm.em.config`, `orm.ems`
  and `orm.em`.

The variants differ only in `Caches.Variant`. Every imperative operation is
a method on `Registry.Container`. Each method is proved equal to a
specification function over `Registry.State` (`ensures (r, c.Snapshot()) ==
Spec(old(c.Snapshot()), ...)`), and the lemmas state what the source
promises about those functions.

A few modelling choices:

- A shared service is `Service(key)` until its first read. The read
  evaluates it and stores the result under the key, so later reads return
  the same object.
- A value the caller stored under a service key is returned as it is
  (a caller's closure there is listed under "Left out").
- A factory key that still holds the provider's own closure runs the
  modelled factory. Anything else under that key is a caller's callable,
  and it yields an opaque object.
- The nested containers that `orm.ems.config` and `orm.ems` return are
  `PoolObj` objects in the heap.
- Doctrine's resource locator (`psr0_resource_locator`) is a function
  parameter `locate`.

Where the package's documentation and its code disagree, the model follows
the code:

- Silex configures three cache kinds per instance, not four: it has no
  hydration cache (`src/Dflydev/Silex/Provider/DoctrineOrm/DoctrineOrmServiceProvider.php:150-154`).
- The Couchbase factory never checks for a host. It falls back to
  defaults instead (`src/Dflydev/Provider/DoctrineOrm/DoctrineOrmServiceProvider.php:346-368`), unlike the memcache, memcached and
  redis factories, which fail without a host and a port.
- Some of the package's tests expect messages that the code no longer
  produces, e.g. for an unknown cache type. The messages here are the
  code's.

## Model

| member | source | states |
|---|---|---|
| Php.Replace | src/Dflydev/Provider/DoctrineOrm/DoctrineOrmServiceProvider.php:82 | `array_replace`: a key of the replacement reads the replacement's value, every other key keeps the base's, and keys stay unique |
| Php.Union | src/Dflydev/Pimple/Provider/DoctrineOrm/DoctrineOrmServiceProvider.php:333-336 | `$a += $b`: a key already present keeps its value, and a missing key takes `b`'s |
| Php.LooseEq | src/Dflydev/Pimple/Provider/DoctrineOrm/DoctrineOrmServiceProvider.php:342-358 | the loose `==` of a `switch` against a type label: a string matches only itself; null, integers and arrays match nothing |
| Php.Put | src/Dflydev/Pimple/Provider/DoctrineOrm/DoctrineOrmServiceProvider.php:398 | `$a[$k] = $v`: `k` now reads `v`, every other key is unchanged, and keys stay unique |
| Options.AddMissingKeepsAndFills | src/Dflydev/Provider/DoctrineOrm/DoctrineOrmServiceProvider.php:55-59 | the defaults loop keeps a preset value, and an absent key gets its default exactly when one is listed |
| Options.ApplyDefaults | src/Dflydev/Provider/DoctrineOrm/DoctrineOrmServiceProvider.php:55-59 | the loop over the defaults leaves the container holding exactly `AddMissing` of its old entries |
| Options.RegisterKeepsPresets | src/Dflydev/Provider/DoctrineOrm/DoctrineOrmServiceProvider.php:53-65 | after `register`, a key the provider does not own keeps its preset value, or gets its default, or stays absent |
| Options.Register | src/Dflydev/Silex/Provider/DoctrineOrm/DoctrineOrmServiceProvider.php:47-58 | `register` writes the defaults and the provider's own keys, and resets the initializer's latch |
| Options.Normalize | src/Dflydev/Provider/DoctrineOrm/DoctrineOrmServiceProvider.php:81-82 | each normalised instance keeps its name and place, and its options are an array |
| Options.NormalizeAt | src/Dflydev/Provider/DoctrineOrm/DoctrineOrmServiceProvider.php:81-82 | instance `n`'s normalised options are `array_replace` of the template and the user's options, and both are arrays |
| Options.InitFailsAt | src/Dflydev/Provider/DoctrineOrm/DoctrineOrmServiceProvider.php:81-87 | when `array_replace` fails at instance `i` (template or options not an array), the initializer fails with that error and leaves the container as the loop had left it before `i` |
| Options.InitSucceeds | src/Dflydev/Provider/DoctrineOrm/DoctrineOrmServiceProvider.php:76-88 | on success `orm.ems.options` holds the normalised instances, and `orm.ems.default` is set as the loop left it |
| Options.Initialize | src/Dflydev/Provider/DoctrineOrm/DoctrineOrmServiceProvider.php:67-89 | the initializer method is exactly `InitSpec`: the latch, the synthesised default instance, the overlay loop and the first-name rule |
| Options.InitSynthesisesDefault | src/Dflydev/Provider/DoctrineOrm/DoctrineOrmServiceProvider.php:76-78 | without `orm.ems.options` there is exactly one instance, "default", with `orm.em.options` (or nothing) over the template; its name becomes the default |
| Options.InitOverlaysTemplate | src/Dflydev/Pimple/Provider/DoctrineOrm/DoctrineOrmServiceProvider.php:53-81 | every instance keeps its name and place, and each of its keys reads the user's value when given and the template's otherwise |
| Options.InitDefaultName | src/Dflydev/Provider/DoctrineOrm/DoctrineOrmServiceProvider.php:84-86 | a preset `orm.ems.default` is kept; otherwise the first instance's name becomes the default; with no instance none is set |
| Options.InitFrame | src/Dflydev/Provider/DoctrineOrm/DoctrineOrmServiceProvider.php:67-89 | the initializer writes no key besides `orm.ems.options` and `orm.ems.default` |
| Options.InitIdempotent | src/Dflydev/Provider/DoctrineOrm/DoctrineOrmServiceProvider.php:68-74 | after the first run the initializer changes nothing, even when `orm.em.options` was changed in between |
| Options.NameFromParamKey | src/Dflydev/Provider/DoctrineOrm/DoctrineOrmServiceProvider.php:91-99 | the method is exactly `NameFromParamKeySpec`: initializer, then the parameter if set, else `orm.ems.default` |
| Options.NameFromParamKeyResolves | src/Dflydev/Provider/DoctrineOrm/DoctrineOrmServiceProvider.php:91-99 | a set parameter names the instance; otherwise the preset default name, else the first instance's name |
| Options.NameFromParamKeyLatched | src/Dflydev/Provider/DoctrineOrm/DoctrineOrmServiceProvider.php:91-98 | once initialized, the initializer does not run again: the parameter if set, else `orm.ems.default`, else the unknown-identifier error, and nothing changes |
| Options.ChainLocator | src/Dflydev/Silex/Provider/DoctrineOrm/DoctrineOrmServiceProvider.php:189-202 | the chain locator is exactly `ChainSpec`: initializer, a null name means the default, and a memoised chain is returned before a new one is created |
| Options.ChainMemoised | src/Dflydev/Provider/DoctrineOrm/DoctrineOrmServiceProvider.php:386-391 | locating the same name's chain again returns the same object and changes nothing |
| Options.ChainNullIsDefault | src/Dflydev/Pimple/Provider/DoctrineOrm/DoctrineOrmServiceProvider.php:362-367 | once initialized, a null name locates the chain of the default instance |
| Options.AddDriver | src/Dflydev/Provider/DoctrineOrm/DoctrineOrmServiceProvider.php:407 | `addDriver` appends one link (namespace, driver) to a chain object and changes nothing else |
| Options.AddMappingDriver | src/Dflydev/Provider/DoctrineOrm/DoctrineOrmServiceProvider.php:398-408 | `orm.add_mapping_driver` is exactly `AddMappingDriverSpec`: locate the chain for the name, or for the default when null, and append to it |
| Options.ResolvedNameAfterInit | src/Dflydev/Silex/Provider/DoctrineOrm/DoctrineOrmServiceProvider.php:208-217 | resolving a null name to the default before calling the locator gives the same result as letting the locator do it |
| Options.AddedDriverEndsLocatedChain | src/Dflydev/Silex/Provider/DoctrineOrm/DoctrineOrmServiceProvider.php:208-217 | after `orm.add_mapping_driver`, the chain the locator hands out for that name ends with the new (namespace, driver) link |
| Options.ChainHeapFrame | src/Dflydev/Provider/DoctrineOrm/DoctrineOrmServiceProvider.php:386-389 | a memoised chain is found from the container's entries alone, whatever happened to the objects |
| Caches.Kinds | src/Dflydev/Silex/Provider/DoctrineOrm/DoctrineOrmServiceProvider.php:150-154 | the Provider and Pimple configure metadata, query, result and hydration caches; Silex has no hydration cache |
| Caches.CacheSettings | src/Dflydev/Provider/DoctrineOrm/DoctrineOrmServiceProvider.php:228-243 | the settings handed to the factory always hold a driver; the only errors are a missing `orm.default_cache` and `No driver specified for '<kind>'` |
| Caches.ScalarIsDriver | src/Dflydev/Pimple/Provider/DoctrineOrm/DoctrineOrmServiceProvider.php:217-228 | a scalar `<kind>_cache`, or a scalar `orm.default_cache`, becomes `{driver: scalar}` |
| Caches.FallsBackToDefaultCache | src/Dflydev/Provider/DoctrineOrm/DoctrineOrmServiceProvider.php:231-243 | without `<kind>_cache` the settings are `orm.default_cache`; if that has no driver, the error names the kind |
| Caches.SilexDriver | src/Dflydev/Silex/Provider/DoctrineOrm/DoctrineOrmServiceProvider.php:157-159 | Silex's driver is `options[<kind>]['driver']` when set, else `orm.default_cache_driver` |
| Caches.SilexCacheOptions | src/Dflydev/Silex/Provider/DoctrineOrm/DoctrineOrmServiceProvider.php:166-168 | Silex's cache options are `options[<kind>]['options']` when set, else `orm.default_cache_options` |
| Caches.NeedsHostAndPort | src/Dflydev/Provider/DoctrineOrm/DoctrineOrmServiceProvider.php:265-269 | memcache, memcached and redis succeed exactly when host and port are both non-empty, and fail with the exact message otherwise |
| Caches.FilesystemCache | src/Dflydev/Pimple/Provider/DoctrineOrm/DoctrineOrmServiceProvider.php:329-339 | filesystem fails exactly when `path` is empty; otherwise every given option is kept, and `extension` and `umask` 2 are filled in only where absent |
| Caches.CouchbaseConnectionAsWritten | src/Dflydev/Provider/DoctrineOrm/DoctrineOrmServiceProvider.php:346-364 | as written, Couchbase is built with host, user, password and bucket in that order: host '127.0.0.1' when none is given and '' when one is, user and password as given (else ''), and bucket 'default' when none is given and '' when one is |
| Caches.CouchbaseParams | src/Dflydev/Provider/DoctrineOrm/DoctrineOrmServiceProvider.php:364 | the Couchbase constructor arguments as an array: exactly the keys host, user, password and bucket, in that order, holding the given values |
| Caches.CouchbaseDropsGivenHost | src/Dflydev/Provider/DoctrineOrm/DoctrineOrmServiceProvider.php:347-355 | a concrete host and bucket that the factory as written replaces by empty strings |
| Caches.CouchbaseConnection | src/Dflydev/Provider/DoctrineOrm/DoctrineOrmServiceProvider.php:346-364 | corrected: host, user, password and bucket, in the constructor's order; a given host and bucket are kept, and only empty ones fall back to '127.0.0.1' and 'default'; user and password as given, else '' |
| Caches.CouchbaseKeepsGivenValues | src/Dflydev/Provider/DoctrineOrm/DoctrineOrmServiceProvider.php:346-368 | corrected: a given host and bucket are used, only empty ones fall back to 127.0.0.1 and 'default', and a given host differs from what the code as written uses |
| Caches.BuiltinCache | src/Dflydev/Provider/DoctrineOrm/DoctrineOrmServiceProvider.php:261-368 | array, apc and xcache need no options; memcache, memcached and redis require host and port; filesystem requires a path; couchbase is built from the connection as written; any other driver yields the caller's factory object |
| Caches.ProviderFactory | src/Dflydev/Provider/DoctrineOrm/DoctrineOrmServiceProvider.php:370-377 | an undefined `orm.cache.factory.<driver>` fails with exactly `Factory '...' for cache type '...' not defined (is it spelled correctly?)`; a defined one is called |
| Caches.PimpleFactory | src/Dflydev/Pimple/Provider/DoctrineOrm/DoctrineOrmServiceProvider.php:341-360 | each of the seven type names calls its own `orm.cache.factory.<type>`; a driver loosely equal to none of them fails with exactly `Unsupported cache type '<driver>' specified` |
| Caches.SilexFactory | src/Dflydev/Silex/Provider/DoctrineOrm/DoctrineOrmServiceProvider.php:173-187 | only array, apc, xcache and memcache are built, options unused; anything else fails with `Unsupported cache specified` |
| Caches.WithNamespace | src/Dflydev/Pimple/Provider/DoctrineOrm/DoctrineOrmServiceProvider.php:243-249 | only a CacheProvider is touched: in Pimple the cache's own `namespace` wins over `cache_namespace`, and with neither the namespace is unchanged; the Provider applies only `cache_namespace`; Silex none |
| Caches.LocateCache | src/Dflydev/Provider/DoctrineOrm/DoctrineOrmServiceProvider.php:228-259 | the locator method is exactly `LocateSpec`: settings, then the memo, then the factory, and the new cache is stored under its memo key |
| Caches.MemoSkipsFactory | src/Dflydev/Silex/Provider/DoctrineOrm/DoctrineOrmServiceProvider.php:161-164 | a memoised cache is returned as is and nothing changes: no factory is asked |
| Caches.DriverCheckedBeforeMemo | src/Dflydev/Provider/DoctrineOrm/DoctrineOrmServiceProvider.php:241-250 | in the Provider and Pimple a missing driver fails even when the cache is memoised |
| Caches.CacheMemoised | src/Dflydev/Pimple/Provider/DoctrineOrm/DoctrineOrmServiceProvider.php:236-251 | locating the same cache twice gives the same object and changes nothing more |
| Caches.LocateStaysMemoised | src/Dflydev/Provider/DoctrineOrm/DoctrineOrmServiceProvider.php:228-250 | a memoised cache stays what the locator returns, changing nothing, as long as its memo key and the default cache settings keep their values |
| Mappings.MappingList | src/Dflydev/Provider/DoctrineOrm/DoctrineOrmServiceProvider.php:154 | the mapping entries are the values of `(array) $options['mappings']`, in order |
| Mappings.ProviderMappingDriver | src/Dflydev/Provider/DoctrineOrm/DoctrineOrmServiceProvider.php:212-219 | an undefined `orm.mapping.factory.<type>` fails with exactly `Factory '...' for mapping type '...' not defined (is it spelled correctly?)`; a defined builtin builds that type's driver |
| Mappings.PimpleMappingDriver | src/Dflydev/Pimple/Provider/DoctrineOrm/DoctrineOrmServiceProvider.php:160-191 | the six tags each build their driver; any other type fails with `"<type>" is not a recognized driver` |
| Mappings.SilexMappingDriver | src/Dflydev/Silex/Provider/DoctrineOrm/DoctrineOrmServiceProvider.php:121-139 | annotation, yml and xml build a driver of that type on `(array) path`; any other type fails with `"<type>" is not a recognized driver` |
| Mappings.WithResources | src/Dflydev/Pimple/Provider/DoctrineOrm/DoctrineOrmServiceProvider.php:151-153 | a non-empty `resources_namespace` replaces `path` by the located directory and leaves every other key alone; otherwise the entry is unchanged |
| Mappings.PrepareEntry | src/Dflydev/Provider/DoctrineOrm/DoctrineOrmServiceProvider.php:155-159 | a mapping entry that is not an array fails with the fixed message; the Provider uses an array entry as is |
| Mappings.EntryDriver | src/Dflydev/Provider/DoctrineOrm/DoctrineOrmServiceProvider.php:155-165 | a non-array entry fails with the fixed message (Provider and Pimple); a built driver is a driver object, or the caller's factory object |
| Mappings.AliasSpec | src/Dflydev/Provider/DoctrineOrm/DoctrineOrmServiceProvider.php:161-163 | an `alias` registers alias to namespace on the configuration, keeps its caches and metadata driver, and touches no other object and no entry; without an alias nothing changes |
| Mappings.AddAlias | src/Dflydev/Pimple/Provider/DoctrineOrm/DoctrineOrmServiceProvider.php:155-157 | the method is exactly `AliasSpec` |
| Mappings.Attach | src/Dflydev/Provider/DoctrineOrm/DoctrineOrmServiceProvider.php:166-167 | a new driver object is created and added to the chain, exactly `AttachSpec` |
| Mappings.AttachAppends | src/Dflydev/Provider/DoctrineOrm/DoctrineOrmServiceProvider.php:165-166 | attaching to a chain appends exactly one link, the new driver under the namespace; the new driver object is stored at the fresh identity, and no entry and no other object changes |
| Mappings.AddMapping | src/Dflydev/Pimple/Provider/DoctrineOrm/DoctrineOrmServiceProvider.php:146-191 | one mapping entry, exactly `MappingSpec`: check, rewrite, alias, dispatch, append |
| Mappings.AddMappings | src/Dflydev/Silex/Provider/DoctrineOrm/DoctrineOrmServiceProvider.php:120-142 | the mapping loop, exactly `MappingsSpec`: entries in order, stopping at the first failure |
| Mappings.MappingAppendsOne | src/Dflydev/Pimple/Provider/DoctrineOrm/DoctrineOrmServiceProvider.php:145-191 | a mapping that goes through appends exactly one link to the chain, under the entry's namespace, and the new object is the driver the entry's type builds |
| Mappings.MappingsAppendInOrder | src/Dflydev/Provider/DoctrineOrm/DoctrineOrmServiceProvider.php:154-167 | after the loop the chain holds its earlier links followed by one link per mapping, in list order, each under its mapping's namespace and holding the driver that mapping's type builds |
| Mappings.MappingsRejectNonArray | src/Dflydev/Provider/DoctrineOrm/DoctrineOrmServiceProvider.php:154-159 | in the Provider and Pimple, an entry that is not an array fails the whole loop with the fixed message, at any position after entries that went through |
| Mappings.MappingsKeep | src/Dflydev/Provider/DoctrineOrm/DoctrineOrmServiceProvider.php:154-167 | the mapping loop creates objects and changes only driver chains and the configuration's aliases; no entry, and the configuration's caches stay |
| Mappings.MappingKeeps | src/Dflydev/Pimple/Provider/DoctrineOrm/DoctrineOrmServiceProvider.php:145-193 | one mapping changes no container entry, only chains and the configuration's aliases, and keeps the configuration's caches |
| Mappings.AttachKeeps | src/Dflydev/Provider/DoctrineOrm/DoctrineOrmServiceProvider.php:165-166 | adding a mapping driver changes only driver chains and no container entry |
| Mappings.GeneratePsr0Mapping | src/Dflydev/Pimple/Provider/DoctrineOrm/DoctrineOrmServiceProvider.php:392-404 | the method is exactly `Psr0Spec` over the pairs in order |
| Mappings.Psr0SucceedsIffLocated | src/Dflydev/Pimple/Provider/DoctrineOrm/DoctrineOrmServiceProvider.php:394-399 | the mapping succeeds exactly when every resource namespace is located, and the locator is registered if there is anything to locate |
| Mappings.Psr0MapsDirectories | src/Dflydev/Pimple/Provider/DoctrineOrm/DoctrineOrmServiceProvider.php:392-403 | on success the mapping's keys are exactly the located directories, and every directory maps to the entity namespace of the last resource namespace located there |
| Mappings.Psr0NamesFirstUnlocated | src/Dflydev/Pimple/Provider/DoctrineOrm/DoctrineOrmServiceProvider.php:394-398 | with the locator registered, the first resource namespace that cannot be located, wherever it stands, is the one the error names, with the exact message |
| Mappings.Psr0NeedsLocator | src/Dflydev/Pimple/Provider/DoctrineOrm/DoctrineOrmServiceProvider.php:395 | without `psr0_resource_locator`, any non-empty mapping fails with the unknown-identifier error for it |
| Registration.DefaultCacheEntries | src/Dflydev/Provider/DoctrineOrm/DoctrineOrmServiceProvider.php:444-460 | the default cache is `{driver: 'array'}` for the Provider and the scalar 'array' for Pimple; Silex has driver 'array' and empty options and no `orm.default_cache` |
| Registration.OwnKeysSkipDefaults | src/Dflydev/Pimple/Provider/DoctrineOrm/DoctrineOrmServiceProvider.php:47-57 | frame helper for `register`: none of the keys a provider registers is a default setting, so the defaults loop and the own keys never write the same key |
| Registration.Register | src/Dflydev/Provider/DoctrineOrm/DoctrineOrmServiceProvider.php:53-436 | `register` of each variant: its defaults, template, closures and services |
| Registration.RegisteredCacheDefault | src/Dflydev/Silex/Provider/DoctrineOrm/DoctrineOrmServiceProvider.php:49-53 | a cache setting the caller did not preset is, after `register`, the variant's default, and absent when it has none |
| Registration.DefaultCacheIsArray | src/Dflydev/Pimple/Provider/DoctrineOrm/DoctrineOrmServiceProvider.php:217-228 | with nothing preset, both the Provider's array default and Pimple's scalar default give the settings `{driver: 'array'}` |
| Registration.SilexDefaultCacheIsArray | src/Dflydev/Silex/Provider/DoctrineOrm/DoctrineOrmServiceProvider.php:156-168 | with nothing preset, Silex locates driver 'array' with empty options |
| Services.ConfigureCaches | src/Dflydev/Provider/DoctrineOrm/DoctrineOrmServiceProvider.php:221-226 | `orm.cache.configurer`: one locator call per kind, in order, each result set on the configuration, exactly `CachesSpec` |
| Services.BuildConfig | src/Dflydev/Provider/DoctrineOrm/DoctrineOrmServiceProvider.php:129-179 | one pass of the `orm.ems.config` loop, exactly `ConfigSpec`: a new configuration, its caches, then its metadata driver |
| Services.SetMetadata | src/Dflydev/Provider/DoctrineOrm/DoctrineOrmServiceProvider.php:152-167 | the instance's chain with its mappings, set as the metadata driver, exactly `MetadataSpec` |
| Services.MemberOf | src/Dflydev/Pimple/Provider/DoctrineOrm/DoctrineOrmServiceProvider.php:102 | reading a nested container's member gives the member, and a missing one fails with Pimple's unknown-identifier error |
| Services.BuildConfigs | src/Dflydev/Provider/DoctrineOrm/DoctrineOrmServiceProvider.php:129-180 | the `orm.ems.config` loop, exactly `ConfigsSpec` |
| Services.EmsConfig | src/Dflydev/Pimple/Provider/DoctrineOrm/DoctrineOrmServiceProvider.php:117-208 | `orm.ems.config`, exactly `EmsConfigSpec`: evaluated on first read and stored; a value the caller stored is returned as is |
| Services.EmConfig | src/Dflydev/Provider/DoctrineOrm/DoctrineOrmServiceProvider.php:432-436 | `orm.em.config`, exactly `EmConfigSpec`: the member of `orm.ems.config` under the default name, stored |
| Services.DefineManagers | src/Dflydev/Pimple/Provider/DoctrineOrm/DoctrineOrmServiceProvider.php:97-112 | the `orm.ems` loop, exactly `ManagersSpec` |
| Services.InstanceConfigOf | src/Dflydev/Provider/DoctrineOrm/DoctrineOrmServiceProvider.php:106-111 | the default name (compared strictly) takes `orm.em.config`; any other takes its member of `orm.ems.config` |
| Services.Manager | src/Dflydev/Silex/Provider/DoctrineOrm/DoctrineOrmServiceProvider.php:95-99 | Silex creates the entity manager at once; the Provider and Pimple store a definition |
| Services.Create | src/Dflydev/Provider/DoctrineOrm/DoctrineOrmServiceProvider.php:114-118 | `EntityManager::create` fails when `dbs` or `dbs.event_manager` is missing, and otherwise yields a new entity manager from the connection name and configuration |
| Services.Ems | src/Dflydev/Silex/Provider/DoctrineOrm/DoctrineOrmServiceProvider.php:84-104 | `orm.ems`, exactly `EmsSpec` |
| Services.Resolve | src/Dflydev/Pimple/Provider/DoctrineOrm/DoctrineOrmServiceProvider.php:105-111 | reading a member of `orm.ems`: a definition is evaluated on first read and the manager replaces it |
| Services.Em | src/Dflydev/Provider/DoctrineOrm/DoctrineOrmServiceProvider.php:426-430 | `orm.em`, exactly `EmSpec`: the member of `orm.ems` under the default name, stored |
| Services.EmsMemoised | src/Dflydev/Pimple/Provider/DoctrineOrm/DoctrineOrmServiceProvider.php:93 | a second read of `orm.ems` returns what the first returned and changes nothing |
| Services.EmsConfigMemoised | src/Dflydev/Silex/Provider/DoctrineOrm/DoctrineOrmServiceProvider.php:106 | a second read of `orm.ems.config` returns what the first returned and changes nothing |
| Services.EmIsDefaultManager | src/Dflydev/Pimple/Provider/DoctrineOrm/DoctrineOrmServiceProvider.php:421-425 | `orm.em` is the very entity manager `orm.ems` holds under the default name: reading that member afterwards gives the same object and changes nothing |
| Services.EmConfigIsDefaultConfig | src/Dflydev/Provider/DoctrineOrm/DoctrineOrmServiceProvider.php:432-436 | `orm.em.config` is the member of `orm.ems.config` under the default name |
| Services.CachesSetEveryKind | src/Dflydev/Pimple/Provider/DoctrineOrm/DoctrineOrmServiceProvider.php:210-215 | after the configurer the configuration holds, for every kind of the variant, exactly the cache the locator memoised for that instance and kind, which reading again returns unchanged; other kinds and other objects are untouched |
| Services.ConfigIsComplete | src/Dflydev/Provider/DoctrineOrm/DoctrineOrmServiceProvider.php:129-168 | each new configuration holds, for every kind, the cache the locator memoises for that instance and kind, and its metadata driver is the chain the chain locator returns for the instance from then on; no other existing object except chains is touched |
| Services.ConfigsCoverInstances | src/Dflydev/Pimple/Provider/DoctrineOrm/DoctrineOrmServiceProvider.php:121-205 | the `orm.ems.config` loop gives every instance, by name, a configuration whose caches and metadata driver are that instance's memoised caches and chain, and keeps those already there |
| Services.EveryInstanceConfigured | src/Dflydev/Silex/Provider/DoctrineOrm/DoctrineOrmServiceProvider.php:106-148 | after `orm.ems.config` is first read, its member under each instance's name is a configuration whose caches are that instance's memoised caches and whose metadata driver is that instance's chain |
| Services.ManagersCoverInstances | src/Dflydev/Provider/DoctrineOrm/DoctrineOrmServiceProvider.php:105-120 | the `orm.ems` loop gives every instance, by name, its entity manager (Silex) or definition (Provider, Pimple), built from the instance's `connection` (its last options when named twice) and its configuration: `orm.em.config` for the default name, its member of `orm.ems.config` otherwise |
| Services.EveryInstanceManaged | src/Dflydev/Pimple/Provider/DoctrineOrm/DoctrineOrmServiceProvider.php:93-115 | after `orm.ems` is first read, its member under each instance's name is the entity manager, or its definition, on that instance's connection and its configuration (`orm.em.config` for the default name, its member of `orm.ems.config` otherwise), and reading that configuration again gives the same value |
| Services.LocateStores | src/Dflydev/Provider/DoctrineOrm/DoctrineOrmServiceProvider.php:246-257 | the cache locator only adds objects and entries, never touches the latch, and what it returns is memoised under the instance and kind: locating again returns it and changes nothing |
| Services.ChainStores | src/Dflydev/Provider/DoctrineOrm/DoctrineOrmServiceProvider.php:379-392 | the chain locator only adds objects and entries, latches the initializer, and what it returns is stored under the instance's chain key |
| Services.InstanceConfigSettles | src/Dflydev/Provider/DoctrineOrm/DoctrineOrmServiceProvider.php:106-111 | reading an instance's configuration settles it: afterwards `ConfigFor` names what was returned, and no object but driver chains changed |
| Services.SettledReads | src/Dflydev/Provider/DoctrineOrm/DoctrineOrmServiceProvider.php:106-111 | once settled, reading an instance's configuration returns `ConfigFor` and changes nothing |
| Services.ReadKeepsSettled | src/Dflydev/Provider/DoctrineOrm/DoctrineOrmServiceProvider.php:105-111 | reading one instance's configuration leaves every other settled instance settled, on the same configuration |
| Services.ManagersPublished | src/Dflydev/Pimple/Provider/DoctrineOrm/DoctrineOrmServiceProvider.php:96-114 | the nested container `orm.ems` publishes holds, under every instance's name, the entity manager the loop built for it |
| Options.AddToChain | src/Dflydev/Provider/DoctrineOrm/DoctrineOrmServiceProvider.php:406-407 | the locator call and `addDriver`, exactly `AddMappingDriverSpec` |
| Services.SetCacheImpl | src/Dflydev/Provider/DoctrineOrm/DoctrineOrmServiceProvider.php:222 | `$config->set<Kind>CacheImpl($cache)`, exactly `SetCache` |

## Left out

- Doctrine itself is opaque. A Configuration records only its caches, its aliases and its metadata driver. An EntityManager records its connection name and its configuration. A cache records its driver, its settings and its namespace.
- The DBAL type loop of `orm.ems.config` (`Type::hasType` / `addType` / `overrideType`, src/Dflydev/Provider/DoctrineOrm/DoctrineOrmServiceProvider.php:170-177 and src/Dflydev/Pimple/Provider/DoctrineOrm/DoctrineOrmServiceProvider.php:196-202) is left out. It updates a global type registry outside the container.
- The pass-through setters of `orm.ems.config` are left out: proxy directory and namespace, auto-generation, custom functions, hydration modes, metadata factory and repository class names, entity listener resolver, repository factory, naming and quote strategies. The services `orm.strategy.naming`, `orm.strategy.quote`, `orm.entity_listener_resolver` and `orm.repository_factory` are registered but never evaluated. Each only copies a container value onto the configuration.
- The backing clients of the memcache, memcached and redis caches are left out, along with their `connect`, `addServer`, `auth` and `select` calls. These are network I/O. The factory keys `orm.cache.factory.backing_*` are registered but not called.
- Services.Create: `EntityManager::create` needs `dbs` and `dbs.event_manager` to be present. It does not look up the connection inside them. Those containers belong to the DBAL provider, which is not part of this model.
- Silex's `setFileExtension` calls and its `AnnotationReader` are left out. A Silex driver records its kind, its path and, for xml, its namespace.
- Pimple's `frozen`, `extend` and `raw` mechanics are left out. Writing a key after a service was read is modelled as a plain assignment.
- The caller is assumed not to override the closures the provider registers and calls directly: the initializer, the cache configurer and locator, and the chain locator. The factory keys are checked, and a caller's factory yields an opaque object.
- PHP integer array keys are modelled as their decimal strings. String offsets on a string value (`$s['driver']` on a string) read as null, as `isset` and `empty` see them; a plain read of such an offset warns and yields the first character under PHP 7 and throws under PHP 8, and neither is modelled.
- A caller's closure stored under a service key (`orm.em`, `orm.ems`, `orm.em.config`, `orm.ems.config`) is returned as a value; Pimple would invoke it on the first read and return its result, and the model does not run it.
- Filesystem and network I/O are left out. The PSR-0 resource locator is the function parameter `locate`.
- PHP 8 semantics are assumed except where listed here. Under PHP 7 a `switch` on the integer 0 matches the first string label, because `0 == 'array'` held there; `Php.LooseEq` gives PHP 8's answer, that no integer equals a non-numeric label. Under PHP 7 `array_replace` on a non-array returns null with a warning; the model raises PHP 8's `TypeError` instead (`Options.InitFailsAt`).
- Services.MemberOf: every read of a missing key fails with the unknown-identifier error in every variant, whether a member of a nested container or a key of the container itself (`dbs`, `orm.em.config`, `orm.default_cache` and the like). Pimple 1's container raises `InvalidArgumentException('Identifier "<name>" is not defined.')` instead, and the model does not tell the two apart.

## Findings

| source | as written | input that shows it | evidently intended | confidence | as-written member | corrected member |
|---|---|---|---|---|---|---|
| src/Dflydev/Provider/DoctrineOrm/DoctrineOrmServiceProvider.php:346-368 | `$host` and `$bucketName` start as '' and are assigned only when the option is empty, so a given host or bucket is never used | `{host: 'db.example.org', bucket: 'sessions'}` reaches Couchbase as host '' and bucket '' | use the given host and bucket; fall back to '127.0.0.1' and 'default' only when they are empty, as done for user and password | not executed | Caches.CouchbaseDropsGivenHost | Caches.CouchbaseKeepsGivenValues |

The cache factory (`Caches.BuiltinCache`) builds the Couchbase connection as written (`Caches.CouchbaseConnectionAsWritten`). The corrected connection (`Caches.CouchbaseConnection`) is defined and proved beside it, so the model's caches stay those the code creates.
