/** The dependency-injection container the providers register into, and the
    objects of foreign libraries (Doctrine caches, mapping drivers, driver
    chains, configurations, entity managers) it ends up holding.  Foreign
    objects are records of what the providers set on them, kept in a heap
    indexed by identity so that "the same object" can be told apart from "an
    equal object". */
module Registry {
  import opened Php

  /** One `addDriver($driver, $namespace)` call on a driver chain. */
  datatype Link = Link(namespace: Value, driver: Value)

  datatype Foreign =
    /** a Doctrine CacheProvider built by one of the provider's factories;
        `settings` records the options it was built from, `cacheNamespace` the
        value of its last `setNamespace` ('' when never set) */
    | CacheObj(driver: string, settings: Value, cacheNamespace: string)
    /** whatever a caller-supplied closure returned */
    | ForeignObj(origin: string)
    /** a MappingDriverChain and the drivers added to it, in order */
    | ChainObj(links: seq<Link>)
    /** a metadata mapping driver of the given kind, built from `path`, the
        entity `namespace` it was given (null when its constructor takes none)
        and, for annotations, whether the simple reader is used */
    | DriverObj(kind: string, path: Value, namespace: Value, reader: Value)
    /** an ORM Configuration: its caches by kind, its entity-namespace aliases
        and its metadata driver */
    | ConfigObj(caches: map<string, Value>, aliases: seq<Entry>, metadataDriver: Value)
    /** an EntityManager built from a connection and a configuration */
    | EntityManagerObj(connection: Value, config: Value)
    /** a nested Pimple container a service returns: the configurations or
        the entity managers, by instance name */
    | PoolObj(members: seq<Entry>)

  /** Everything a container holds, as one value: what the specification
      functions of the providers' operations take and return. */
  datatype State = State(
    entries: map<string, Value>,
    heap: map<nat, Foreign>,
    nextId: nat,
    initialized: bool)

  /** Every object has an identity below the next one to be handed out. */
  ghost predicate Wf(s: State)
  {
    forall id | id in s.heap :: id < s.nextId
  }

  /** `new Foo(...)` in a state: the object gets identity `s.nextId`. */
  function Allocate(s: State, o: Foreign): (s': State)
    ensures Wf(s) ==> Wf(s') && s.nextId !in s.heap
    ensures s'.heap == s.heap[s.nextId := o] && s'.nextId == s.nextId + 1
    ensures s'.entries == s.entries && s'.initialized == s.initialized
  {
    s.(heap := s.heap[s.nextId := o], nextId := s.nextId + 1)
  }

  /** `$container[$key] = $v` in a state. */
  function Store(s: State, key: string, v: Value): State
  {
    s.(entries := s.entries[key := v])
  }

  class Container {
    /** the values stored under each key */
    var entries: map<string, Value>
    /** the foreign objects created so far, by identity */
    var heap: map<nat, Foreign>
    /** the identity the next object will get */
    var nextId: nat
    /** the options initializer's one-shot latch */
    var initialized: bool

    function Snapshot(): State
      reads this
    {
      State(entries, heap, nextId, initialized)
    }

    ghost predicate Valid()
      reads this
    {
      Wf(Snapshot())
    }

    /** A container holding `preset` and the objects `objects` (object i has
        identity i), before any provider is registered. */
    constructor (preset: map<string, Value>, objects: seq<Foreign>)
      ensures Valid()
      ensures entries == preset && !initialized && nextId == |objects|
      ensures forall i: nat :: i in heap <==> i < |objects|
      ensures forall i :: 0 <= i < |objects| ==> heap[i] == objects[i]
    {
      entries := preset;
      heap := map i | 0 <= i < |objects| :: objects[i];
      nextId := |objects|;
      initialized := false;
    }

    /** `new Foo(...)`: a fresh object. */
    method Alloc(o: Foreign) returns (id: nat)
      requires Valid()
      modifies this
      ensures Valid()
      ensures id == old(nextId) && id !in old(heap)
      ensures Snapshot() == Allocate(old(Snapshot()), o)
    {
      id := nextId;
      heap := heap[id := o];
      nextId := nextId + 1;
    }

    /** `$container[$key] = $v` */
    method Set(key: string, v: Value)
      modifies this
      ensures Snapshot() == Store(old(Snapshot()), key, v)
    {
      entries := entries[key := v];
    }
  }
}
