/** What the three providers share word for word: registering defaults, the
    one-shot options initializer, resolving an entity-manager name, and the
    memoising mapping-driver-chain locator with `orm.add_mapping_driver`. */
module Options {
  import opened Php
  import opened Registry

  const EmsOptionsKey := "orm.ems.options"
  const EmOptionsKey := "orm.em.options"
  const EmsDefaultKey := "orm.ems.default"
  const DefaultOptionsKey := "orm.em.default_options"
  const ChainFactoryKey := "orm.mapping_driver_chain.factory"

  /** where the chain of instance `name` is memoised */
  function ChainKey(name: string): string
  {
    "orm.mapping_driver_chain.instances." + name
  }

  // ================================================================ register

  /** The defaults loop of `register`: each default is written only where the
      key is absent. */
  function AddMissing(e: map<string, Value>, defaults: seq<Entry>): map<string, Value>
    decreases |defaults|
  {
    if defaults == [] then e
    else
      var r := AddMissing(e, defaults[..|defaults| - 1]);
      var d := defaults[|defaults| - 1];
      if d.key in r then r else r[d.key := d.val]
  }

  /** A value set before registering survives; an absent key gets its default. */
  lemma {:induction false} AddMissingKeepsAndFills(e: map<string, Value>, defaults: seq<Entry>, k: string)
    ensures k in e ==> k in AddMissing(e, defaults) && AddMissing(e, defaults)[k] == e[k]
    ensures k !in e ==> (k in AddMissing(e, defaults) <==> Find(defaults, k).Some?)
    ensures k !in e && Find(defaults, k).Some? ==> AddMissing(e, defaults)[k] == Find(defaults, k).value
    decreases |defaults|
  {
    if defaults != [] {
      var init := defaults[..|defaults| - 1];
      var d := defaults[|defaults| - 1];
      assert defaults == init + [d];
      AddMissingKeepsAndFills(e, init, k);
      FindAppend(init, d, k);
    }
  }

  method ApplyDefaults(c: Container, defaults: seq<Entry>)
    modifies c
    ensures c.Snapshot() == old(c.Snapshot()).(entries := AddMissing(old(c.entries), defaults))
  {
    var i := 0;
    while i < |defaults|
      invariant 0 <= i <= |defaults|
      invariant c.Snapshot() == old(c.Snapshot()).(entries := AddMissing(old(c.entries), defaults[..i]))
    {
      assert defaults[..i + 1][..i] == defaults[..i];
      if defaults[i].key !in c.entries {
        c.Set(defaults[i].key, defaults[i].val);
      }
      i := i + 1;
    }
    assert defaults[..|defaults|] == defaults;
  }

  /** The unconditional writes of `register`: the default per-instance
      options, the protected closures and the shared services. */
  function Registrations(template: seq<Entry>, closures: set<string>, services: set<string>): map<string, Value>
  {
    (map k | k in closures :: Closure(k)) + (map k | k in services :: Service(k))
      + map[DefaultOptionsKey := Arr(template)]
  }

  function Registered(e: map<string, Value>, defaults: seq<Entry>, template: seq<Entry>,
                      closures: set<string>, services: set<string>): map<string, Value>
  {
    AddMissing(e, defaults) + Registrations(template, closures, services)
  }

  /** Keys the provider does not register itself keep a preset value, and get
      their default when absent; the registered keys hold the provider's own
      closures and services. */
  lemma RegisterKeepsPresets(e: map<string, Value>, defaults: seq<Entry>, template: seq<Entry>,
                             closures: set<string>, services: set<string>, k: string)
    requires k != DefaultOptionsKey && k !in closures && k !in services
    ensures k in e ==> (k in Registered(e, defaults, template, closures, services)
                        && Registered(e, defaults, template, closures, services)[k] == e[k])
    ensures k !in e && Find(defaults, k).Some? ==>
              k in Registered(e, defaults, template, closures, services)
              && Registered(e, defaults, template, closures, services)[k] == Find(defaults, k).value
    ensures k !in e && Find(defaults, k).None? ==> k !in Registered(e, defaults, template, closures, services)
  {
    AddMissingKeepsAndFills(e, defaults, k);
  }

  /** `register($container)`; registering anew also gives a fresh latch. */
  method Register(c: Container, defaults: seq<Entry>, template: seq<Entry>,
                  closures: set<string>, services: set<string>)
    modifies c
    ensures c.Snapshot() == old(c.Snapshot()).(
      entries := Registered(old(c.entries), defaults, template, closures, services),
      initialized := false)
  {
    ApplyDefaults(c, defaults);
    c.entries := c.entries + Registrations(template, closures, services);
    c.initialized := false;
  }

  // ============================================================= initializer

  /** `orm.ems.options` once the initializer has synthesised it: a single
      instance "default" from `orm.em.options` (or empty) when absent. */
  function Synthesized(e: map<string, Value>): Value
  {
    if EmsOptionsKey in e then e[EmsOptionsKey]
    else Arr([Entry("default", if EmOptionsKey in e then e[EmOptionsKey] else Arr([]))])
  }

  /** `foreach` over a value: a non-array yields no iteration. */
  function ListOf(v: Value): seq<Entry>
  {
    if v.Arr? then v.entries else []
  }

  /** The instances, in order, that the initializer walks. */
  function Instances(e: map<string, Value>): seq<Entry>
  {
    ListOf(Synthesized(e))
  }

  function TemplateOf(e: map<string, Value>): Result<Value>
  {
    if DefaultOptionsKey in e then Ok(e[DefaultOptionsKey]) else Err(UnknownIdentifier(DefaultOptionsKey))
  }

  /** `array_replace($template, $options)` over every instance, in order;
      the first failure is the result. */
  function Normalize(template: Result<Value>, insts: seq<Entry>): (r: Result<seq<Entry>>)
    ensures r.Ok? ==> |r.value| == |insts|
    ensures r.Ok? ==> forall i :: 0 <= i < |insts| ==> r.value[i].key == insts[i].key && r.value[i].val.Arr?
    decreases |insts|
  {
    if insts == [] then Ok([])
    else
      var done :- Normalize(template, insts[..|insts| - 1]);
      var t :- template;
      var last := insts[|insts| - 1];
      if t.Arr? && last.val.Arr? then Ok(done + [Entry(last.key, Arr(Replace(t.entries, last.val.entries)))])
      else Err(TypeError)
  }

  lemma {:induction false} NormalizePrefix(t: Result<Value>, list: seq<Entry>, j: nat)
    requires j <= |list|
    ensures Normalize(t, list[..j]).Err? ==> Normalize(t, list) == Normalize(t, list[..j])
    decreases |list|
  {
    if j < |list| {
      var init := list[..|list| - 1];
      assert init[..j] == list[..j];
      NormalizePrefix(t, init, j);
    } else {
      assert list[..j] == list;
    }
  }

  lemma {:induction false} NormalizeAt(t: Result<Value>, list: seq<Entry>, n: nat)
    requires Normalize(t, list).Ok? && n < |list|
    ensures t.Ok? && t.value.Arr? && list[n].val.Arr?
    ensures Normalize(t, list).value[n] == Entry(list[n].key, Arr(Replace(t.value.entries, list[n].val.entries)))
    decreases |list|
  {
    var init := list[..|list| - 1];
    if n < |list| - 1 {
      NormalizeAt(t, init, n);
    }
  }

  /** The container after the initializer's first run. */
  function InitEntries(e: map<string, Value>): map<string, Value>
  {
    var insts := Synthesized(e);
    var list := ListOf(insts);
    var e1 := e[EmsOptionsKey := insts];
    var e2 := if EmsDefaultKey !in e && |list| > 0 && Normalize(TemplateOf(e), list[..1]).Ok?
              then e1[EmsDefaultKey := Str(list[0].key)] else e1;
    match Normalize(TemplateOf(e), list)
    case Ok(done) => if insts.Arr? then e2[EmsOptionsKey := Arr(done)] else e2
    case Err(_) => e2
  }

  function InitOutcome(e: map<string, Value>): Result<()>
  {
    match Normalize(TemplateOf(e), Instances(e))
    case Ok(_) => Ok(())
    case Err(x) => Err(x)
  }

  /** `orm.ems.options.initializer`: guarded by its latch. */
  function InitSpec(s: State): (Result<()>, State)
  {
    if s.initialized then (Ok(()), s)
    else (InitOutcome(s.entries), s.(entries := InitEntries(s.entries), initialized := true))
  }

  /** The container while the initializer walks the instances: the
      synthesised `orm.ems.options`, and the first name as the default once
      one instance has been handled. */
  function InitPartial(e: map<string, Value>, i: nat): map<string, Value>
  {
    var e1 := e[EmsOptionsKey := Synthesized(e)];
    if i > 0 && EmsDefaultKey !in e && |Instances(e)| > 0 then e1[EmsDefaultKey := Str(Instances(e)[0].key)] else e1
  }

  /** The initializer that fails at instance `i` leaves the partial state. */
  lemma InitFailsAt(e: map<string, Value>, i: nat)
    requires i < |Instances(e)|
    requires Normalize(TemplateOf(e), Instances(e)[..i]).Ok?
    requires Normalize(TemplateOf(e), Instances(e)[..i + 1]).Err?
    ensures InitOutcome(e) == Err(Normalize(TemplateOf(e), Instances(e)[..i + 1]).error)
    ensures InitEntries(e) == InitPartial(e, i)
  {
    var t, list := TemplateOf(e), Instances(e);
    NormalizePrefix(t, list, i + 1);
    if i > 0 {
      assert list[..i][..1] == list[..1];
      NormalizePrefix(t, list[..i], 1);
    }
  }

  lemma InitSucceeds(e: map<string, Value>, done: seq<Entry>)
    requires Normalize(TemplateOf(e), Instances(e)) == Ok(done)
    ensures InitOutcome(e) == Ok(())
    ensures InitEntries(e) == if Synthesized(e).Arr? then InitPartial(e, |Instances(e)|)[EmsOptionsKey := Arr(done)]
                              else InitPartial(e, |Instances(e)|)
  {
    var t, list := TemplateOf(e), Instances(e);
    if |list| > 0 {
      NormalizePrefix(t, list, 1);
    }
  }

  method Initialize(c: Container) returns (r: Result<()>)
    modifies c
    ensures (r, c.Snapshot()) == InitSpec(old(c.Snapshot()))
  {
    if c.initialized {
      return Ok(());
    }
    c.initialized := true;
    ghost var e0 := c.entries;
    if EmsOptionsKey !in c.entries {
      c.Set(EmsOptionsKey, Arr([Entry("default", if EmOptionsKey in c.entries then c.entries[EmOptionsKey] else Arr([]))]));
    }
    var tmp := c.entries[EmsOptionsKey];
    var list := if tmp.Arr? then tmp.entries else [];
    ghost var t := TemplateOf(e0);
    assert tmp == Synthesized(e0) && list == Instances(e0);
    assert c.entries == InitPartial(e0, 0);
    var done: seq<Entry> := [];
    var i := 0;
    while i < |list|
      invariant 0 <= i <= |list|
      invariant Normalize(t, list[..i]) == Ok(done)
      invariant c.Snapshot() == old(c.Snapshot()).(entries := InitPartial(e0, i), initialized := true)
    {
      assert list[..i + 1][..i] == list[..i];
      if DefaultOptionsKey !in c.entries {
        InitFailsAt(e0, i);
        return Err(UnknownIdentifier(DefaultOptionsKey));
      }
      var template := c.entries[DefaultOptionsKey];
      if !template.Arr? || !list[i].val.Arr? {
        assert t == Ok(template);
        InitFailsAt(e0, i);
        return Err(TypeError);
      }
      done := done + [Entry(list[i].key, Arr(Replace(template.entries, list[i].val.entries)))];
      if EmsDefaultKey !in c.entries {
        c.Set(EmsDefaultKey, Str(list[i].key));
      }
      i := i + 1;
    }
    assert list[..|list|] == list;
    InitSucceeds(e0, done);
    if tmp.Arr? {
      c.Set(EmsOptionsKey, Arr(done));
    }
    return Ok(());
  }

  /** Without `orm.ems.options` there is exactly one instance, "default",
      whose options are `orm.em.options` (or nothing) over the template. */
  lemma InitSynthesisesDefault(e: map<string, Value>)
    requires EmsOptionsKey !in e
    requires DefaultOptionsKey in e && e[DefaultOptionsKey].Arr?
    requires EmOptionsKey in e ==> e[EmOptionsKey].Arr?
    ensures InitOutcome(e) == Ok(())
    ensures EmsOptionsKey in InitEntries(e)
    ensures InitEntries(e)[EmsOptionsKey] ==
      Arr([Entry("default", Arr(Replace(e[DefaultOptionsKey].entries,
                                        if EmOptionsKey in e then e[EmOptionsKey].entries else [])))])
    ensures EmsDefaultKey !in e ==> EmsDefaultKey in InitEntries(e) && InitEntries(e)[EmsDefaultKey] == Str("default")
  {
    var list := Instances(e);
    assert |list| == 1 && list[..0] == [];
    assert list[..1] == list;
    assert Normalize(TemplateOf(e), list[..0]) == Ok([]);
  }

  /** The options of the user's instance `n`, as the initializer found them. */
  function UserOptions(e: map<string, Value>, n: nat): seq<Entry>
    requires n < |Instances(e)|
  {
    ListOf(Instances(e)[n].val)
  }

  /** Every instance keeps its name and place, and its options are the
      template with the user's keys replacing the template's, key by key. */
  lemma InitOverlaysTemplate(e: map<string, Value>, n: nat, k: string)
    requires InitOutcome(e).Ok?
    requires n < |Instances(e)|
    requires Unique(UserOptions(e, n))
    ensures TemplateOf(e).Ok? && TemplateOf(e).value.Arr?
    ensures EmsOptionsKey in InitEntries(e)
    ensures var opts := InitEntries(e)[EmsOptionsKey];
      && opts.Arr? && |opts.entries| == |Instances(e)|
      && opts.entries[n].key == Instances(e)[n].key
      && opts.entries[n].val.Arr?
      && Find(opts.entries[n].val.entries, k) ==
           if Find(UserOptions(e, n), k).Some? then Find(UserOptions(e, n), k)
           else Find(TemplateOf(e).value.entries, k)
  {
    NormalizeAt(TemplateOf(e), Instances(e), n);
  }

  /** A preset `orm.ems.default` is kept; otherwise the first instance name
      becomes the default; with no instance, none is set. */
  lemma InitDefaultName(e: map<string, Value>)
    ensures EmsDefaultKey in e ==> EmsDefaultKey in InitEntries(e) && InitEntries(e)[EmsDefaultKey] == e[EmsDefaultKey]
    ensures EmsDefaultKey !in e && InitOutcome(e).Ok? && |Instances(e)| > 0 ==>
              EmsDefaultKey in InitEntries(e) && InitEntries(e)[EmsDefaultKey] == Str(Instances(e)[0].key)
    ensures EmsDefaultKey !in e && |Instances(e)| == 0 ==> EmsDefaultKey !in InitEntries(e)
  {
    if |Instances(e)| > 0 {
      NormalizePrefix(TemplateOf(e), Instances(e), 1);
    }
  }

  /** The initializer writes only `orm.ems.options` and `orm.ems.default`. */
  lemma InitFrame(e: map<string, Value>, k: string)
    requires k != EmsOptionsKey && k != EmsDefaultKey
    ensures k in InitEntries(e) <==> k in e
    ensures k in e ==> InitEntries(e)[k] == e[k]
  {
  }

  /** After a first run, the initializer changes nothing, even when
      `orm.em.options` was changed in between. */
  lemma InitIdempotent(s: State, v: Value)
    ensures var s1 := Store(InitSpec(s).1, EmOptionsKey, v);
            InitSpec(s1) == (Ok(()), s1)
  {
  }

  // ========================================================= name resolution

  function ParamName(e: map<string, Value>, paramKey: string): Result<Value>
  {
    if paramKey in e then Ok(e[paramKey])
    else if EmsDefaultKey in e then Ok(e[EmsDefaultKey])
    else Err(UnknownIdentifier(EmsDefaultKey))
  }

  /** `orm.em_name_from_param_key` */
  function NameFromParamKeySpec(s: State, paramKey: string): (Result<Value>, State)
  {
    var (init, s1) := InitSpec(s);
    if init.Err? then (Err(init.error), s1) else (ParamName(s1.entries, paramKey), s1)
  }

  method NameFromParamKey(c: Container, paramKey: string) returns (r: Result<Value>)
    modifies c
    ensures (r, c.Snapshot()) == NameFromParamKeySpec(old(c.Snapshot()), paramKey)
  {
    var init := Initialize(c);
    if init.Err? {
      return Err(init.error);
    }
    if paramKey in c.entries {
      return Ok(c.entries[paramKey]);
    }
    if EmsDefaultKey !in c.entries {
      return Err(UnknownIdentifier(EmsDefaultKey));
    }
    return Ok(c.entries[EmsDefaultKey]);
  }

  /** A set parameter names the instance; otherwise the default instance does:
      the preset `orm.ems.default`, else the first instance. */
  lemma NameFromParamKeyResolves(s: State, paramKey: string)
    requires !s.initialized && InitOutcome(s.entries).Ok? && |Instances(s.entries)| > 0
    requires paramKey != EmsOptionsKey && paramKey != EmsDefaultKey
    ensures paramKey in s.entries ==> NameFromParamKeySpec(s, paramKey).0 == Ok(s.entries[paramKey])
    ensures paramKey !in s.entries ==> (NameFromParamKeySpec(s, paramKey).0 ==
      Ok(if EmsDefaultKey in s.entries then s.entries[EmsDefaultKey] else Str(Instances(s.entries)[0].key)))
  {
    InitFrame(s.entries, paramKey);
    InitDefaultName(s.entries);
  }

  /** Once the container is initialized, the initializer does not run again:
      a set parameter names the instance, otherwise `orm.ems.default` does,
      and nothing changes. */
  lemma NameFromParamKeyLatched(s: State, paramKey: string)
    requires s.initialized
    ensures NameFromParamKeySpec(s, paramKey).1 == s
    ensures paramKey in s.entries ==> NameFromParamKeySpec(s, paramKey).0 == Ok(s.entries[paramKey])
    ensures paramKey !in s.entries && EmsDefaultKey in s.entries ==>
      NameFromParamKeySpec(s, paramKey).0 == Ok(s.entries[EmsDefaultKey])
    ensures paramKey !in s.entries && EmsDefaultKey !in s.entries ==>
      NameFromParamKeySpec(s, paramKey).0 == Err(UnknownIdentifier(EmsDefaultKey))
  {
  }

  // ============================================================ chain locator

  /** The instance name the chain locator uses: null means the default. */
  function ChainName(e: map<string, Value>, name: Value): Result<string>
  {
    if name != Null then Ok(ToStr(name))
    else if EmsDefaultKey in e then Ok(ToStr(e[EmsDefaultKey]))
    else Err(UnknownIdentifier(EmsDefaultKey))
  }

  /** `orm.mapping_driver_chain.locator($name)` */
  function ChainSpec(s: State, name: Value): (Result<Value>, State)
  {
    var (init, s1) := InitSpec(s);
    if init.Err? then (Err(init.error), s1)
    else match ChainName(s1.entries, name)
      case Err(x) => (Err(x), s1)
      case Ok(n) =>
        if ChainKey(n) in s1.entries then (Ok(s1.entries[ChainKey(n)]), s1)
        else if ChainFactoryKey !in s1.entries then (Err(UnknownIdentifier(ChainFactoryKey)), s1)
        else
          var chain := if s1.entries[ChainFactoryKey] == Closure(ChainFactoryKey)
                       then ChainObj([]) else ForeignObj(ChainFactoryKey);
          (Ok(Ref(s1.nextId)), Store(Allocate(s1, chain), ChainKey(n), Ref(s1.nextId)))
  }

  method ChainLocator(c: Container, name: Value) returns (r: Result<Value>)
    requires c.Valid()
    modifies c
    ensures c.Valid()
    ensures (r, c.Snapshot()) == ChainSpec(old(c.Snapshot()), name)
  {
    var init := Initialize(c);
    if init.Err? {
      return Err(init.error);
    }
    var n := name;
    if n == Null {
      if EmsDefaultKey !in c.entries {
        return Err(UnknownIdentifier(EmsDefaultKey));
      }
      n := c.entries[EmsDefaultKey];
    }
    var key := ChainKey(ToStr(n));
    if key in c.entries {
      return Ok(c.entries[key]);
    }
    if ChainFactoryKey !in c.entries {
      return Err(UnknownIdentifier(ChainFactoryKey));
    }
    var chain := if c.entries[ChainFactoryKey] == Closure(ChainFactoryKey) then ChainObj([]) else ForeignObj(ChainFactoryKey);
    var id := c.Alloc(chain);
    c.Set(key, Ref(id));
    return Ok(Ref(id));
  }

  lemma ChainKeyIsNotDefaultKey(n: string)
    ensures ChainKey(n) != EmsDefaultKey && ChainKey(n) != EmsOptionsKey && ChainKey(n) != ChainFactoryKey
  {
    assert ChainKey(n)[4] == 'm' && EmsDefaultKey[4] == 'e' && EmsOptionsKey[4] == 'e';
    assert ChainKey(n)[25] == 'i' && ChainFactoryKey[25] == 'f';
  }

  /** Locating the same instance's chain again returns the same object and
      changes nothing: the chain is memoised per name. */
  lemma ChainMemoised(s: State, name: Value)
    requires ChainSpec(s, name).0.Ok?
    ensures ChainSpec(ChainSpec(s, name).1, name) == ChainSpec(s, name)
  {
    var (init, s1) := InitSpec(s);
    var n := ChainName(s1.entries, name).value;
    ChainKeyIsNotDefaultKey(n);
  }

  /** With the options initialized, a null name locates the default
      instance's chain. */
  lemma ChainNullIsDefault(s: State, d: string)
    requires s.initialized && EmsDefaultKey in s.entries && s.entries[EmsDefaultKey] == Str(d)
    ensures ChainSpec(s, Null) == ChainSpec(s, Str(d))
  {
  }

  // ===================================================== add_mapping_driver

  /** `$chain->addDriver($driver, $namespace)` */
  function AddDriverSpec(s: State, chain: Value, driver: Value, namespace: Value): (Result<()>, State)
  {
    if chain.Ref? && chain.id in s.heap && s.heap[chain.id].ChainObj? then
      (Ok(()), s.(heap := s.heap[chain.id := ChainObj(s.heap[chain.id].links + [Link(namespace, driver)])]))
    else if chain.Ref? && chain.id in s.heap && s.heap[chain.id].ForeignObj? then
      (Ok(()), s)
    else
      (Err(Error), s)
  }

  method AddDriver(c: Container, chain: Value, driver: Value, namespace: Value) returns (r: Result<()>)
    requires c.Valid()
    modifies c
    ensures c.Valid()
    ensures (r, c.Snapshot()) == AddDriverSpec(old(c.Snapshot()), chain, driver, namespace)
  {
    if chain.Ref? && chain.id in c.heap && c.heap[chain.id].ChainObj? {
      c.heap := c.heap[chain.id := ChainObj(c.heap[chain.id].links + [Link(namespace, driver)])];
      return Ok(());
    }
    if chain.Ref? && chain.id in c.heap && c.heap[chain.id].ForeignObj? {
      return Ok(());
    }
    return Err(Error);
  }

  /** `orm.add_mapping_driver($driver, $namespace, $name)`: the driver is
      added to the chain the locator gives for `name` (the provider resolves a
      null name to the default first; the locator would do the same). */
  function AddMappingDriverSpec(s: State, driver: Value, namespace: Value, name: Value): (Result<()>, State)
  {
    var (chain, s2) := ChainSpec(s, name);
    if chain.Err? then (Err(chain.error), s2)
    else AddDriverSpec(s2, chain.value, driver, namespace)
  }

  /** Resolving a null name before calling the locator changes nothing. */
  lemma ResolvedNameAfterInit(s: State, driver: Value, namespace: Value, name: Value)
    requires InitSpec(s).0.Ok?
    requires name == Null ==> EmsDefaultKey in InitSpec(s).1.entries
    ensures var s1 := InitSpec(s).1;
      AddMappingDriverSpec(s, driver, namespace, name) ==
      AddMappingDriverSpec(s1, driver, namespace, if name == Null then s1.entries[EmsDefaultKey] else name)
  {
  }

  /** The locator call and `addDriver` of `orm.add_mapping_driver`. */
  method AddToChain(c: Container, driver: Value, namespace: Value, name: Value) returns (r: Result<()>)
    requires c.Valid()
    modifies c
    ensures c.Valid()
    ensures (r, c.Snapshot()) == AddMappingDriverSpec(old(c.Snapshot()), driver, namespace, name)
  {
    ghost var located := ChainSpec(c.Snapshot(), name);
    ghost var spec := AddMappingDriverSpec(c.Snapshot(), driver, namespace, name);
    assert spec == if located.0.Err? then (Err(located.0.error), located.1)
                   else AddDriverSpec(located.1, located.0.value, driver, namespace);
    var chain := ChainLocator(c, name);
    if chain.Err? {
      return Err(chain.error);
    }
    r := AddDriver(c, chain.value, driver, namespace);
  }

  method AddMappingDriver(c: Container, driver: Value, namespace: Value, name: Value) returns (r: Result<()>)
    requires c.Valid()
    modifies c
    ensures c.Valid()
    ensures (r, c.Snapshot()) == AddMappingDriverSpec(old(c.Snapshot()), driver, namespace, name)
  {
    var init := Initialize(c);
    if init.Err? {
      return Err(init.error);
    }
    var n := name;
    if n == Null {
      if EmsDefaultKey !in c.entries {
        return Err(UnknownIdentifier(EmsDefaultKey));
      }
      n := c.entries[EmsDefaultKey];
    }
    ResolvedNameAfterInit(old(c.Snapshot()), driver, namespace, name);
    r := AddToChain(c, driver, namespace, n);
  }

  /** The driver lands at the end of the very chain the locator hands out for
      that name afterwards. */
  lemma AddedDriverEndsLocatedChain(s: State, driver: Value, namespace: Value, name: Value)
    requires AddMappingDriverSpec(s, driver, namespace, name).0.Ok?
    ensures var s2 := AddMappingDriverSpec(s, driver, namespace, name).1;
            var (chain, s3) := ChainSpec(s2, name);
            && chain.Ok? && s3 == s2
            && (chain.value.Ref? && chain.value.id in s2.heap && s2.heap[chain.value.id].ChainObj? ==>
                  |s2.heap[chain.value.id].links| > 0
                  && s2.heap[chain.value.id].links[|s2.heap[chain.value.id].links| - 1] == Link(namespace, driver))
  {
    var (chain, sc) := ChainSpec(s, name);
    ChainMemoised(s, name);
    var s2 := AddDriverSpec(sc, chain.value, driver, namespace).1;
    assert s2.entries == sc.entries && s2.initialized == sc.initialized;
    ChainHeapFrame(sc, s2, name);
  }

  /** Once the chain is memoised, locating it reads only the container's
      entries: changing objects does not change what is found. */
  lemma ChainHeapFrame(s: State, s': State, name: Value)
    requires ChainSpec(s, name).0.Ok? && ChainSpec(s, name).1 == s
    requires s'.entries == s.entries && s'.initialized == s.initialized
    ensures ChainSpec(s', name) == (ChainSpec(s, name).0, s')
  {
  }
}
