/** Mapping-driver dispatch: each entry of an instance's `mappings` option
    becomes one metadata driver, appended to the instance's driver chain
    under the entry's `namespace`.  Also Pimple's
    `orm.generate_psr0_mapping`. */
module Mappings {
  import opened Php
  import opened Registry
  import opened Caches
  import Options

  const MappingFactoryKey := "orm.mapping.factory"
  const ResourceLocatorKey := "psr0_resource_locator"
  const NotArrayMessage := "The 'orm.em.options' option 'mappings' should be an array of arrays."

  /** the container key of the factory for mapping type `t` */
  function MappingFactoryKeyFor(t: string): string
  {
    "orm.mapping.factory." + t
  }

  /** the error of a `switch` that does not know the type */
  function NotRecognized(t: Value): Exception
  {
    InvalidArgumentException("\"" + ToStr(t) + "\" is not a recognized driver")
  }

  /** The values of `(array) $options['mappings']`, in order. */
  function MappingList(options: seq<Entry>): (ms: seq<Value>)
    ensures |ms| == |ToList(At(Arr(options), "mappings"))|
    ensures forall j :: 0 <= j < |ms| ==> ms[j] == ToList(At(Arr(options), "mappings"))[j].val
  {
    var es := ToList(At(Arr(options), "mappings"));
    seq(|es|, j requires 0 <= j < |es| => es[j].val)
  }

  // ================================================================ drivers

  /** The driver the Provider's and Pimple's own code builds for a type. */
  function BuiltinDriver(t: string, m: Value): Foreign
  {
    match t
    case "annotation" =>
      DriverObj(t, Arr(ToList(At(m, "path"))), Null,
                if IsSetIn(m, "use_simple_annotation_reader") then At(m, "use_simple_annotation_reader") else Bool(true))
    case "simple_yml" => DriverObj(t, At(m, "path"), At(m, "namespace"), Null)
    case "simple_xml" => DriverObj(t, At(m, "path"), At(m, "namespace"), Null)
    case _ => DriverObj(t, At(m, "path"), Null, Null)
  }

  /** Provider `orm.mapping.factory($type, $config, $mapping)`: any type
      whose factory key is defined. */
  function ProviderMappingDriver(e: map<string, Value>, m: Value): (r: Result<Foreign>)
    ensures MappingFactoryKey in e && e[MappingFactoryKey] == Closure(MappingFactoryKey) ==>
      var t := ToStr(At(m, "type"));
      && (MappingFactoryKeyFor(t) !in e ==>
            r == Err(RuntimeException("Factory '" + MappingFactoryKeyFor(t) + "' for mapping type '" + t
                                      + "' not defined (is it spelled correctly?)")))
      && (MappingFactoryKeyFor(t) in e && e[MappingFactoryKeyFor(t)] == Closure(MappingFactoryKeyFor(t)) ==>
            r == Ok(BuiltinDriver(t, m)))
  {
    if MappingFactoryKey !in e then Err(UnknownIdentifier(MappingFactoryKey))
    else if e[MappingFactoryKey] != Closure(MappingFactoryKey) then Ok(ForeignObj(MappingFactoryKey))
    else
      var t := ToStr(At(m, "type"));
      var key := MappingFactoryKeyFor(t);
      if key !in e then
        Err(RuntimeException("Factory '" + key + "' for mapping type '" + t + "' not defined (is it spelled correctly?)"))
      else if e[key] == Closure(key) then Ok(BuiltinDriver(t, m))
      else Ok(ForeignObj(key))
  }

  const PimpleMappingTypes := ["annotation", "yml", "simple_yml", "xml", "simple_xml", "php"]

  /** Pimple's `switch ($entity['type'])` over six types. */
  function PimpleMappingDriver(m: Value): (r: Result<Foreign>)
    ensures (forall t <- PimpleMappingTypes :: !LooseEq(At(m, "type"), t)) ==> r == Err(NotRecognized(At(m, "type")))
    ensures forall t <- PimpleMappingTypes :: At(m, "type") == Str(t) ==> r == Ok(BuiltinDriver(t, m))
  {
    var t := At(m, "type");
    if LooseEq(t, "annotation") then Ok(BuiltinDriver("annotation", m))
    else if LooseEq(t, "yml") then Ok(BuiltinDriver("yml", m))
    else if LooseEq(t, "simple_yml") then Ok(BuiltinDriver("simple_yml", m))
    else if LooseEq(t, "xml") then Ok(BuiltinDriver("xml", m))
    else if LooseEq(t, "simple_xml") then Ok(BuiltinDriver("simple_xml", m))
    else if LooseEq(t, "php") then Ok(BuiltinDriver("php", m))
    else Err(NotRecognized(t))
  }

  const SilexMappingTypes := ["annotation", "yml", "xml"]

  /** Silex's `switch ($entity['type'])` over three types; every driver is
      given the path as an array. */
  function SilexMappingDriver(m: Value): (r: Result<Foreign>)
    ensures (forall t <- SilexMappingTypes :: !LooseEq(At(m, "type"), t)) ==> r == Err(NotRecognized(At(m, "type")))
    ensures forall t <- SilexMappingTypes :: At(m, "type") == Str(t) ==>
              r.Ok? && r.value.DriverObj? && r.value.kind == t && r.value.path == Arr(ToList(At(m, "path")))
  {
    var t := At(m, "type");
    var paths := Arr(ToList(At(m, "path")));
    if LooseEq(t, "annotation") then Ok(DriverObj("annotation", paths, Null, Null))
    else if LooseEq(t, "yml") then Ok(DriverObj("yml", paths, Null, Null))
    else if LooseEq(t, "xml") then Ok(DriverObj("xml", paths, At(m, "namespace"), Null))
    else Err(NotRecognized(t))
  }

  // ============================================================ one mapping

  /** Pimple: a non-empty `resources_namespace` replaces `path` by the
      directory the PSR-0 resource locator finds for it. */
  function WithResources(e: map<string, Value>, m: seq<Entry>, locate: Value -> Value): (r: Result<seq<Entry>>)
    ensures Empty(At(Arr(m), "resources_namespace")) ==> r == Ok(m)
    ensures !Empty(At(Arr(m), "resources_namespace")) && ResourceLocatorKey in e ==>
              r.Ok? && Find(r.value, "path") == Some(locate(At(Arr(m), "resources_namespace")))
              && forall k :: k != "path" ==> Find(r.value, k) == Find(m, k)
    ensures !Empty(At(Arr(m), "resources_namespace")) && ResourceLocatorKey !in e ==>
              r == Err(UnknownIdentifier(ResourceLocatorKey))
  {
    if Empty(At(Arr(m), "resources_namespace")) then Ok(m)
    else if ResourceLocatorKey !in e then Err(UnknownIdentifier(ResourceLocatorKey))
    else Ok(Put(m, "path", locate(At(Arr(m), "resources_namespace"))))
  }

  /** Provider and Pimple: the entry must be an array; Pimple then applies
      its `resources_namespace` rewrite. */
  function PrepareEntry(v: Variant, e: map<string, Value>, m: Value, locate: Value -> Value): (r: Result<seq<Entry>>)
    ensures !m.Arr? ==> r == Err(InvalidArgumentException(NotArrayMessage))
    ensures m.Arr? && v.Provider? ==> r == Ok(m.entries)
  {
    if !m.Arr? then Err(InvalidArgumentException(NotArrayMessage))
    else if v.Pimple? then WithResources(e, m.entries, locate)
    else Ok(m.entries)
  }

  /** Provider and Pimple: the driver a prepared entry dispatches to. */
  function DriverFor(v: Variant, e: map<string, Value>, es: seq<Entry>): Result<Foreign>
  {
    if v.Pimple? then PimpleMappingDriver(Arr(es)) else ProviderMappingDriver(e, Arr(es))
  }

  /** `$config->addEntityNamespace($alias, $namespace)` when an alias is set. */
  function AliasSpec(s: State, config: nat, m: Value): (s': State)
    ensures s'.entries == s.entries && s'.nextId == s.nextId && s'.heap.Keys == s.heap.Keys
    ensures forall id | id in s.heap && id != config :: s'.heap[id] == s.heap[id]
    ensures !IsSetIn(m, "alias") ==> s' == s
    ensures config in s.heap && s.heap[config].ConfigObj? ==>
              var (cfg, cfg') := (s.heap[config], s'.heap[config]);
              && cfg'.ConfigObj? && cfg'.caches == cfg.caches && cfg'.metadataDriver == cfg.metadataDriver
              && (forall a | !IsSetIn(m, "alias") || a != ToStr(At(m, "alias")) :: Find(cfg'.aliases, a) == Find(cfg.aliases, a))
              && (IsSetIn(m, "alias") ==> Find(cfg'.aliases, ToStr(At(m, "alias"))) == Some(At(m, "namespace")))
  {
    if IsSetIn(m, "alias") && config in s.heap && s.heap[config].ConfigObj? then
      var cfg := s.heap[config];
      s.(heap := s.heap[config := cfg.(aliases := Put(cfg.aliases, ToStr(At(m, "alias")), At(m, "namespace")))])
    else s
  }

  method AddAlias(c: Container, config: nat, m: Value)
    requires c.Valid()
    modifies c
    ensures c.Valid()
    ensures c.Snapshot() == AliasSpec(old(c.Snapshot()), config, m)
  {
    if IsSetIn(m, "alias") && config in c.heap && c.heap[config].ConfigObj? {
      var cfg := c.heap[config];
      c.heap := c.heap[config := cfg.(aliases := Put(cfg.aliases, ToStr(At(m, "alias")), At(m, "namespace")))];
    }
  }

  /** A new driver object appended to the chain. */
  function AttachSpec(s: State, chain: Value, driver: Foreign, namespace: Value): (Result<()>, State)
  {
    Options.AddDriverSpec(Allocate(s, driver), chain, Ref(s.nextId), namespace)
  }

  method Attach(c: Container, chain: Value, driver: Foreign, namespace: Value) returns (r: Result<()>)
    requires c.Valid()
    modifies c
    ensures c.Valid()
    ensures (r, c.Snapshot()) == AttachSpec(old(c.Snapshot()), chain, driver, namespace)
  {
    var id := c.Alloc(driver);
    r := Options.AddDriver(c, chain, Ref(id), namespace);
  }

  /** Attaching to a chain appends exactly one link: the new driver under the
      namespace. */
  lemma AttachAppends(s: State, chain: Value, driver: Foreign, namespace: Value)
    requires Wf(s) && chain.Ref? && chain.id in s.heap && s.heap[chain.id].ChainObj?
    ensures var (r, s') := AttachSpec(s, chain, driver, namespace);
      && r.Ok? && Wf(s') && s'.nextId == s.nextId + 1 && s'.entries == s.entries
      && s.nextId in s'.heap && s'.heap[s.nextId] == driver
      && chain.id in s'.heap && s'.heap[chain.id].ChainObj?
      && s'.heap[chain.id].links == s.heap[chain.id].links + [Link(namespace, Ref(s.nextId))]
      && forall id | id in s.heap && id != chain.id :: s'.heap[id] == s.heap[id]
  {
    assert chain.id != s.nextId;
  }

  /** One entry of the mapping loop of `orm.ems.config`. */
  function MappingSpec(v: Variant, s: State, config: nat, chain: Value, m: Value, locate: Value -> Value): (Result<()>, State)
  {
    if v.Silex? then
      match SilexMappingDriver(m)
      case Err(x) => (Err(x), s)
      case Ok(d) => AttachSpec(s, chain, d, At(m, "namespace"))
    else
      match PrepareEntry(v, s.entries, m, locate)
      case Err(x) => (Err(x), s)
      case Ok(es) =>
        var s1 := AliasSpec(s, config, Arr(es));
        match DriverFor(v, s.entries, es)
        case Err(x) => (Err(x), s1)
        case Ok(d) => AttachSpec(s1, chain, d, At(Arr(es), "namespace"))
  }

  method AddMapping(v: Variant, c: Container, config: nat, chain: Value, m: Value, locate: Value -> Value) returns (r: Result<()>)
    requires c.Valid()
    modifies c
    ensures c.Valid()
    ensures (r, c.Snapshot()) == MappingSpec(v, old(c.Snapshot()), config, chain, m, locate)
  {
    if v.Silex? {
      var d :- SilexMappingDriver(m);
      r := Attach(c, chain, d, At(m, "namespace"));
    } else {
      var es :- PrepareEntry(v, c.entries, m, locate);
      var d := DriverFor(v, c.entries, es);
      AddAlias(c, config, Arr(es));
      if d.Err? {
        return Err(d.error);
      }
      r := Attach(c, chain, d.value, At(Arr(es), "namespace"));
    }
  }

  // ============================================================ the loop

  /** The mapping loop: entries in order, stopping at the first failure. */
  function MappingsSpec(v: Variant, s: State, config: nat, chain: Value, ms: seq<Value>, locate: Value -> Value): (Result<()>, State)
    decreases |ms|
  {
    if ms == [] then (Ok(()), s)
    else
      var (r, s1) := MappingSpec(v, s, config, chain, ms[0], locate);
      if r.Err? then (r, s1) else MappingsSpec(v, s1, config, chain, ms[1..], locate)
  }

  method AddMappings(v: Variant, c: Container, config: nat, chain: Value, ms: seq<Value>, locate: Value -> Value) returns (r: Result<()>)
    requires c.Valid()
    modifies c
    ensures c.Valid()
    ensures (r, c.Snapshot()) == MappingsSpec(v, old(c.Snapshot()), config, chain, ms, locate)
  {
    var i := 0;
    while i < |ms|
      invariant 0 <= i <= |ms| && c.Valid()
      invariant MappingsSpec(v, old(c.Snapshot()), config, chain, ms, locate)
             == MappingsSpec(v, c.Snapshot(), config, chain, ms[i..], locate)
    {
      assert ms[i..][0] == ms[i] && ms[i..][1..] == ms[i + 1..];
      var step := AddMapping(v, c, config, chain, ms[i], locate);
      if step.Err? {
        return step;
      }
      i := i + 1;
    }
    return Ok(());
  }

  /** A mapping that goes through appends exactly one new driver to the
      chain, under the entry's namespace: the object the entry's type
      dispatches to. */
  lemma MappingAppendsOne(v: Variant, s: State, config: nat, chain: Value, m: Value, locate: Value -> Value)
    requires Wf(s) && chain.Ref? && chain.id in s.heap && s.heap[chain.id].ChainObj?
    requires MappingSpec(v, s, config, chain, m, locate).0.Ok?
    ensures var s' := MappingSpec(v, s, config, chain, m, locate).1;
      && Wf(s') && chain.id in s'.heap && s'.heap[chain.id].ChainObj?
      && s'.heap[chain.id].links == s.heap[chain.id].links + [Link(At(m, "namespace"), Ref(s.nextId))]
      && s'.nextId == s.nextId + 1
      && EntryDriver(v, s.entries, m, locate).Ok?
      && s.nextId in s'.heap && s'.heap[s.nextId] == EntryDriver(v, s.entries, m, locate).value
  {
    if v.Silex? {
      AttachAppends(s, chain, SilexMappingDriver(m).value, At(m, "namespace"));
    } else {
      var es := PrepareEntry(v, s.entries, m, locate).value;
      var s1 := AliasSpec(s, config, Arr(es));
      assert Wf(s1) && s1.heap[chain.id] == s.heap[chain.id];
      assert At(Arr(es), "namespace") == At(m, "namespace");
      AttachAppends(s1, chain, DriverFor(v, s.entries, es).value, At(m, "namespace"));
    }
  }

  /** Link `l` of state `s'` leads to the driver mapping entry `m`
      dispatches to. */
  ghost predicate Drives(v: Variant, e: map<string, Value>, locate: Value -> Value, s': State, l: Link, m: Value)
  {
    && EntryDriver(v, e, m, locate).Ok?
    && l.driver.Ref? && l.driver.id in s'.heap && s'.heap[l.driver.id] == EntryDriver(v, e, m, locate).value
  }

  /** In `s'`, the chain `chain` holds the links `before` followed by one
      link per mapping, in order, under that mapping's namespace and leading
      to that mapping's driver. */
  ghost predicate AppendedInOrder(v: Variant, e: map<string, Value>, locate: Value -> Value,
                                  before: seq<Link>, s': State, chain: nat, ms: seq<Value>)
  {
    && Wf(s') && chain in s'.heap && s'.heap[chain].ChainObj?
    && |s'.heap[chain].links| == |before| + |ms|
    && s'.heap[chain].links[..|before|] == before
    && (forall j :: 0 <= j < |ms| ==> s'.heap[chain].links[|before| + j].namespace == At(ms[j], "namespace"))
    && forall j :: 0 <= j < |ms| ==> Drives(v, e, locate, s', s'.heap[chain].links[|before| + j], ms[j])
  }

  /** After the loop, the chain holds its earlier drivers followed by one
      driver per mapping, in list order, each under its mapping's namespace
      and each the driver its mapping's type dispatches to. */
  lemma {:induction false} MappingsAppendInOrder(v: Variant, s: State, config: nat, chain: Value, ms: seq<Value>, locate: Value -> Value)
    requires Wf(s) && chain.Ref? && chain.id in s.heap && s.heap[chain.id].ChainObj?
    requires MappingsSpec(v, s, config, chain, ms, locate).0.Ok?
    ensures AppendedInOrder(v, s.entries, locate, s.heap[chain.id].links, MappingsSpec(v, s, config, chain, ms, locate).1,
                            chain.id, ms)
    decreases |ms|
  {
    if ms != [] {
      var s1 := MappingSpec(v, s, config, chain, ms[0], locate).1;
      var s' := MappingsSpec(v, s1, config, chain, ms[1..], locate).1;
      MappingAppendsOne(v, s, config, chain, ms[0], locate);
      MappingKeeps(v, s, config, chain, ms[0], locate);
      MappingsAppendInOrder(v, s1, config, chain, ms[1..], locate);
      MappingsKeep(v, s1, config, chain, ms[1..], locate);
      assert s'.heap[s.nextId] == s1.heap[s.nextId];
      LinksExtend(v, s.entries, locate, s.heap[chain.id].links, s1.heap[chain.id].links, s', chain.id, ms, Ref(s.nextId));
    } else {
      assert s.heap[chain.id].links[..|s.heap[chain.id].links|] == s.heap[chain.id].links;
    }
  }

  lemma LinksExtend(v: Variant, e: map<string, Value>, locate: Value -> Value,
                    L: seq<Link>, L1: seq<Link>, s': State, chain: nat, ms: seq<Value>, driver: Value)
    requires ms != [] && L1 == L + [Link(At(ms[0], "namespace"), driver)]
    requires AppendedInOrder(v, e, locate, L1, s', chain, ms[1..])
    requires Drives(v, e, locate, s', Link(At(ms[0], "namespace"), driver), ms[0])
    ensures AppendedInOrder(v, e, locate, L, s', chain, ms)
  {
    var L' := s'.heap[chain].links;
    assert L'[..|L|] == L1[..|L|];
    forall j | 0 <= j < |ms|
      ensures L'[|L| + j].namespace == At(ms[j], "namespace")
      ensures Drives(v, e, locate, s', L'[|L| + j], ms[j])
    {
      if j == 0 {
        assert L'[|L|] == L1[|L|];
      } else {
        assert L'[|L1| + (j - 1)].namespace == At(ms[1..][j - 1], "namespace");
        assert Drives(v, e, locate, s', L'[|L1| + (j - 1)], ms[1..][j - 1]);
      }
    }
  }

  /** The driver object mapping entry `m` dispatches to. */
  function EntryDriver(v: Variant, e: map<string, Value>, m: Value, locate: Value -> Value): (r: Result<Foreign>)
    ensures r.Ok? ==> r.value.DriverObj? || r.value.ForeignObj?
    ensures !v.Silex? && !m.Arr? ==> r == Err(InvalidArgumentException(NotArrayMessage))
  {
    if v.Silex? then SilexMappingDriver(m)
    else match PrepareEntry(v, e, m, locate)
      case Err(x) => Err(x)
      case Ok(es) => DriverFor(v, e, es)
  }

  /** The Provider and Pimple stop at the first entry that is not an array,
      wherever it stands, with the "array of arrays" error. */
  lemma MappingsRejectNonArray(v: Variant, s: State, config: nat, chain: Value, ms: seq<Value>, i: nat,
                               locate: Value -> Value)
    requires !v.Silex? && i < |ms| && !ms[i].Arr?
    requires MappingsSpec(v, s, config, chain, ms[..i], locate).0.Ok?
    ensures MappingsSpec(v, s, config, chain, ms, locate).0 == Err(InvalidArgumentException(NotArrayMessage))
  {
    MappingsSplit(v, s, config, chain, ms, i, locate);
    assert ms[i..][0] == ms[i];
  }

  /** The loop over `ms` is the loop over its first `i` entries followed,
      unless that failed, by the loop over the rest. */
  lemma {:induction false} MappingsSplit(v: Variant, s: State, config: nat, chain: Value, ms: seq<Value>, i: nat,
                                         locate: Value -> Value)
    requires i <= |ms|
    ensures var (r, s1) := MappingsSpec(v, s, config, chain, ms[..i], locate);
      MappingsSpec(v, s, config, chain, ms, locate) ==
        if r.Err? then (r, s1) else MappingsSpec(v, s1, config, chain, ms[i..], locate)
    decreases i
  {
    if i == 0 {
      assert ms[..0] == [] && ms[0..] == ms;
    } else {
      assert ms[..i][0] == ms[0] && ms[..i][1..] == ms[1..][..i - 1] && ms[1..][i - 1..] == ms[i..];
      var s1 := MappingSpec(v, s, config, chain, ms[0], locate).1;
      MappingsSplit(v, s1, config, chain, ms[1..], i - 1, locate);
    }
  }

  /** A mapping that goes through changes no entry of the container and,
      besides driver chains, only the aliases of the configuration. */
  lemma MappingKeeps(v: Variant, s: State, config: nat, chain: Value, m: Value, locate: Value -> Value)
    requires Wf(s) && MappingSpec(v, s, config, chain, m, locate).0.Ok?
    ensures var s' := MappingSpec(v, s, config, chain, m, locate).1;
      && Wf(s') && s.nextId <= s'.nextId && s'.entries == s.entries && s'.initialized == s.initialized
      && (forall id | id in s.heap && id != config && !s.heap[id].ChainObj? :: id in s'.heap && s'.heap[id] == s.heap[id])
      && (forall id | id in s.heap && !s.heap[id].ConfigObj? && !s.heap[id].ChainObj? :: id in s'.heap && s'.heap[id] == s.heap[id])
      && (config in s.heap && s.heap[config].ConfigObj? ==>
            && config in s'.heap && s'.heap[config].ConfigObj?
            && s'.heap[config].caches == s.heap[config].caches)
  {
    if !v.Silex? {
      var es := PrepareEntry(v, s.entries, m, locate).value;
      var s1 := AliasSpec(s, config, Arr(es));
      assert config in s.heap && s.heap[config].ConfigObj? ==> s1.heap[config].caches == s.heap[config].caches;
      AttachKeeps(s1, chain, DriverFor(v, s.entries, es).value, At(Arr(es), "namespace"));
    } else {
      AttachKeeps(s, chain, SilexMappingDriver(m).value, At(m, "namespace"));
    }
  }

  /** Attaching a driver changes only driver chains. */
  lemma AttachKeeps(s: State, chain: Value, driver: Foreign, namespace: Value)
    requires Wf(s)
    ensures var s' := AttachSpec(s, chain, driver, namespace).1;
      && Wf(s') && s.nextId <= s'.nextId && s'.entries == s.entries && s'.initialized == s.initialized
      && (forall id | id in s.heap && !s.heap[id].ChainObj? :: id in s'.heap && s'.heap[id] == s.heap[id])
  {
  }

  lemma {:induction false} MappingsKeep(v: Variant, s: State, config: nat, chain: Value, ms: seq<Value>,
                                        locate: Value -> Value)
    requires Wf(s) && MappingsSpec(v, s, config, chain, ms, locate).0.Ok?
    ensures var s' := MappingsSpec(v, s, config, chain, ms, locate).1;
      && Wf(s') && s.nextId <= s'.nextId && s'.entries == s.entries && s'.initialized == s.initialized
      && (forall id | id in s.heap && id != config && !s.heap[id].ChainObj? :: id in s'.heap && s'.heap[id] == s.heap[id])
      && (forall id | id in s.heap && !s.heap[id].ConfigObj? && !s.heap[id].ChainObj? :: id in s'.heap && s'.heap[id] == s.heap[id])
      && (config in s.heap && s.heap[config].ConfigObj? ==>
            && config in s'.heap && s'.heap[config].ConfigObj?
            && s'.heap[config].caches == s.heap[config].caches)
    decreases |ms|
  {
    if ms != [] {
      var s1 := MappingSpec(v, s, config, chain, ms[0], locate).1;
      MappingKeeps(v, s, config, chain, ms[0], locate);
      MappingsKeep(v, s1, config, chain, ms[1..], locate);
    }
  }

  // ================================================== generate_psr0_mapping

  /** `orm.generate_psr0_mapping($resourceMapping)`: each resource namespace
      is located, and the directory maps to the entity namespace; the first
      namespace that cannot be located is an error naming both. */
  function Psr0Spec(e: map<string, Value>, pairs: seq<Entry>, locate: Value -> Value): Result<seq<Entry>>
    decreases |pairs|
  {
    if pairs == [] then Ok([])
    else
      var done :- Psr0Spec(e, pairs[..|pairs| - 1], locate);
      var p := pairs[|pairs| - 1];
      if ResourceLocatorKey !in e then Err(UnknownIdentifier(ResourceLocatorKey))
      else if Empty(locate(Str(p.key))) then
        Err(InvalidArgumentException("Resources for mapping '" + ToStr(p.val)
            + "' could not be located; Looked for mapping resources at '" + p.key + "'"))
      else Ok(Put(done, ToStr(locate(Str(p.key))), p.val))
  }

  method GeneratePsr0Mapping(e: map<string, Value>, resourceMapping: Value, locate: Value -> Value) returns (r: Result<Value>)
    ensures r == match Psr0Spec(e, Options.ListOf(resourceMapping), locate) case Ok(m) => Ok(Arr(m)) case Err(x) => Err(x)
  {
    var pairs := Options.ListOf(resourceMapping);
    var mapping: seq<Entry> := [];
    var i := 0;
    while i < |pairs|
      invariant 0 <= i <= |pairs|
      invariant Psr0Spec(e, pairs[..i], locate) == Ok(mapping)
    {
      assert pairs[..i + 1][..i] == pairs[..i];
      if ResourceLocatorKey !in e {
        Psr0Prefix(e, pairs, i + 1, locate);
        return Err(UnknownIdentifier(ResourceLocatorKey));
      }
      var directory := locate(Str(pairs[i].key));
      if Empty(directory) {
        Psr0Prefix(e, pairs, i + 1, locate);
        return Err(InvalidArgumentException("Resources for mapping '" + ToStr(pairs[i].val)
            + "' could not be located; Looked for mapping resources at '" + pairs[i].key + "'"));
      }
      mapping := Put(mapping, ToStr(directory), pairs[i].val);
      i := i + 1;
    }
    assert pairs[..i] == pairs;
    return Ok(Arr(mapping));
  }

  lemma {:induction false} Psr0Prefix(e: map<string, Value>, pairs: seq<Entry>, j: nat, locate: Value -> Value)
    requires j <= |pairs|
    ensures Psr0Spec(e, pairs[..j], locate).Err? ==> Psr0Spec(e, pairs, locate) == Psr0Spec(e, pairs[..j], locate)
    decreases |pairs|
  {
    if j < |pairs| {
      var init := pairs[..|pairs| - 1];
      assert init[..j] == pairs[..j];
      Psr0Prefix(e, init, j, locate);
    } else {
      assert pairs[..j] == pairs;
    }
  }

  /** Every resource namespace is located somewhere. */
  predicate AllLocated(pairs: seq<Entry>, locate: Value -> Value)
  {
    forall i :: 0 <= i < |pairs| ==> !Empty(locate(Str(pairs[i].key)))
  }

  /** The directories the resource namespaces are located at, in order. */
  function Directories(pairs: seq<Entry>, locate: Value -> Value): (ds: seq<string>)
    ensures |ds| == |pairs|
  {
    seq(|pairs|, i requires 0 <= i < |pairs| => ToStr(locate(Str(pairs[i].key))))
  }

  /** The mapping succeeds exactly when every resource namespace is located
      (and the locator is registered, if there is anything to locate). */
  lemma {:induction false} Psr0SucceedsIffLocated(e: map<string, Value>, pairs: seq<Entry>, locate: Value -> Value)
    ensures Psr0Spec(e, pairs, locate).Ok? <==> (pairs == [] || ResourceLocatorKey in e) && AllLocated(pairs, locate)
    decreases |pairs|
  {
    if pairs != [] {
      Psr0SucceedsIffLocated(e, pairs[..|pairs| - 1], locate);
      Psr0Last(e, pairs, locate);
      AllLocatedSnoc(pairs, locate);
    }
  }

  /** The last resource namespace decides over what the earlier ones built. */
  lemma Psr0Last(e: map<string, Value>, pairs: seq<Entry>, locate: Value -> Value)
    requires pairs != []
    ensures Psr0Spec(e, pairs, locate).Ok? <==>
      Psr0Spec(e, pairs[..|pairs| - 1], locate).Ok? && ResourceLocatorKey in e && !Empty(locate(Str(pairs[|pairs| - 1].key)))
    ensures Psr0Spec(e, pairs, locate).Ok? ==>
      Psr0Spec(e, pairs, locate).value ==
        Put(Psr0Spec(e, pairs[..|pairs| - 1], locate).value, ToStr(locate(Str(pairs[|pairs| - 1].key))), pairs[|pairs| - 1].val)
  {
  }

  lemma AllLocatedSnoc(pairs: seq<Entry>, locate: Value -> Value)
    requires pairs != []
    ensures AllLocated(pairs, locate) <==>
      AllLocated(pairs[..|pairs| - 1], locate) && !Empty(locate(Str(pairs[|pairs| - 1].key)))
  {
    var init := pairs[..|pairs| - 1];
    if AllLocated(init, locate) && !Empty(locate(Str(pairs[|pairs| - 1].key))) {
      forall i | 0 <= i < |pairs| ensures !Empty(locate(Str(pairs[i].key))) {
        if i < |init| { assert init[i] == pairs[i]; }
      }
    }
    if AllLocated(pairs, locate) {
      forall i | 0 <= i < |init| ensures !Empty(locate(Str(init[i].key))) {
        assert init[i] == pairs[i];
      }
    }
  }

  lemma DirectoriesSnoc(pairs: seq<Entry>, locate: Value -> Value)
    requires pairs != []
    ensures Directories(pairs, locate) == Directories(pairs[..|pairs| - 1], locate) + [ToStr(locate(Str(pairs[|pairs| - 1].key)))]
  {
    var init := pairs[..|pairs| - 1];
    var ds, di := Directories(pairs, locate), Directories(init, locate);
    forall i | 0 <= i < |init| ensures ds[i] == di[i] {
      assert init[i] == pairs[i];
    }
  }

  /** Entry `i` is the last one whose resource namespace is located at its
      directory. */
  predicate LastAt(ds: seq<string>, i: nat)
    requires i < |ds|
  {
    forall j | i < j < |ds| :: ds[j] != ds[i]
  }

  /** On success, the mapping's keys are exactly the located directories, and
      each directory maps to the entity namespace of the last resource
      namespace located there (with distinct directories: its own). */
  lemma Psr0MapsDirectories(e: map<string, Value>, pairs: seq<Entry>, locate: Value -> Value)
    requires Psr0Spec(e, pairs, locate).Ok?
    ensures forall d :: Find(Psr0Spec(e, pairs, locate).value, d).Some? <==> d in Directories(pairs, locate)
    ensures forall i | 0 <= i < |pairs| && LastAt(Directories(pairs, locate), i) ::
              Find(Psr0Spec(e, pairs, locate).value, Directories(pairs, locate)[i]) == Some(pairs[i].val)
  {
    Psr0Keys(e, pairs, locate);
    Psr0Values(e, pairs, locate);
  }

  lemma {:induction false} Psr0Keys(e: map<string, Value>, pairs: seq<Entry>, locate: Value -> Value)
    requires Psr0Spec(e, pairs, locate).Ok?
    ensures forall d :: Find(Psr0Spec(e, pairs, locate).value, d).Some? <==> d in Directories(pairs, locate)
    decreases |pairs|
  {
    if pairs != [] {
      Psr0Last(e, pairs, locate);
      DirectoriesSnoc(pairs, locate);
      Psr0Keys(e, pairs[..|pairs| - 1], locate);
    }
  }

  lemma {:induction false} Psr0Values(e: map<string, Value>, pairs: seq<Entry>, locate: Value -> Value)
    requires Psr0Spec(e, pairs, locate).Ok?
    ensures forall i | 0 <= i < |pairs| && LastAt(Directories(pairs, locate), i) ::
              Find(Psr0Spec(e, pairs, locate).value, Directories(pairs, locate)[i]) == Some(pairs[i].val)
    decreases |pairs|
  {
    if pairs != [] {
      var init := pairs[..|pairs| - 1];
      Psr0Last(e, pairs, locate);
      DirectoriesSnoc(pairs, locate);
      Psr0Values(e, init, locate);
      var ds, di := Directories(pairs, locate), Directories(init, locate);
      var r := Psr0Spec(e, pairs, locate).value;
      forall i | 0 <= i < |pairs| && LastAt(ds, i) ensures Find(r, ds[i]) == Some(pairs[i].val) {
        if i < |init| {
          assert ds[|pairs| - 1] != ds[i];
          assert di[i] == ds[i] && init[i] == pairs[i];
          assert LastAt(di, i) by {
            forall j | i < j < |di| ensures di[j] != di[i] {
              assert di[j] == ds[j];
            }
          }
        }
      }
    }
  }

  /** The first resource namespace that cannot be located is the one the
      error names, wherever it stands in the list. */
  lemma Psr0NamesFirstUnlocated(e: map<string, Value>, pairs: seq<Entry>, i: nat, locate: Value -> Value)
    requires ResourceLocatorKey in e && i < |pairs|
    requires AllLocated(pairs[..i], locate) && Empty(locate(Str(pairs[i].key)))
    ensures Psr0Spec(e, pairs, locate) ==
      Err(InvalidArgumentException("Resources for mapping '" + ToStr(pairs[i].val)
          + "' could not be located; Looked for mapping resources at '" + pairs[i].key + "'"))
  {
    Psr0SucceedsIffLocated(e, pairs[..i], locate);
    assert pairs[..i + 1][..i] == pairs[..i];
    Psr0Prefix(e, pairs, i + 1, locate);
  }

  /** Without a resource locator, any non-empty mapping fails naming it. */
  lemma {:induction false} Psr0NeedsLocator(e: map<string, Value>, pairs: seq<Entry>, locate: Value -> Value)
    requires ResourceLocatorKey !in e && pairs != []
    ensures Psr0Spec(e, pairs, locate) == Err(UnknownIdentifier(ResourceLocatorKey))
  {
    assert pairs[..1][..0] == [];
    Psr0Prefix(e, pairs, 1, locate);
  }
}
