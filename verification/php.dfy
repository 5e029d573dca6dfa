/** PHP values as the service providers see them: scalars, ordered arrays,
    references to objects the container holds, and the closures and shared
    service definitions a Pimple container stores under its keys.  Arrays are
    sequences of key/value entries; a read finds the first entry with the key,
    an assignment replaces that entry in place or appends a new one, exactly as
    PHP keeps insertion order. */
module Php {

  datatype Option<+T> = None | Some(value: T)

  datatype Value =
    | Null
    | Bool(b: bool)
    | Int(i: int)
    | Str(s: string)
    | Arr(entries: seq<Entry>)
    /** an object the container model holds, by identity */
    | Ref(id: nat)
    /** a protected closure the provider registered under `key` */
    | Closure(key: string)
    /** a shared service the provider registered under `key`, not yet evaluated */
    | Service(key: string)
    /** a shared entity-manager definition inside the `orm.ems` container:
        the closure captured the connection name and the configuration */
    | EntityManagerDefinition(connection: Value, config: Value)

  datatype Entry = Entry(key: string, val: Value)

  /** The exceptions the providers raise, with their exact messages. */
  datatype Exception =
    | RuntimeException(message: string)
    | InvalidArgumentException(message: string)
    /** PHP's TypeError, e.g. array_replace given a non-array */
    | TypeError
    /** PHP's engine Error, e.g. a method called on a value that is not an object */
    | Error
    /** Pimple's exception for reading a key that was never set */
    | UnknownIdentifier(id: string)

  datatype Result<+T> = Ok(value: T) | Err(error: Exception) {
    predicate IsFailure() { Err? }
    function PropagateFailure<U>(): Result<U>
      requires Err?
    {
      Err(error)
    }
    function Extract(): T
      requires Ok?
    {
      value
    }
  }

  // ---------------------------------------------------------------- arrays

  /** `$a[$k]` lookup: the first entry with key `k`. */
  function Find(es: seq<Entry>, k: string): Option<Value>
  {
    if es == [] then None
    else if es[0].key == k then Some(es[0].val)
    else Find(es[1..], k)
  }

  /** PHP arrays never hold a key twice. */
  predicate Unique(es: seq<Entry>)
  {
    es == [] || (Find(es[1..], es[0].key).None? && Unique(es[1..]))
  }

  function KeysOf(es: seq<Entry>): (ks: seq<string>)
    ensures |ks| == |es|
    ensures forall i :: 0 <= i < |es| ==> ks[i] == es[i].key
  {
    if es == [] then [] else [es[0].key] + KeysOf(es[1..])
  }

  lemma {:induction false} FindAppend(es: seq<Entry>, e: Entry, k: string)
    ensures Find(es + [e], k) ==
      if Find(es, k).Some? then Find(es, k)
      else if e.key == k then Some(e.val) else None
  {
    if es != [] {
      assert (es + [e])[1..] == es[1..] + [e];
      FindAppend(es[1..], e, k);
    }
  }

  lemma {:induction false} FindConcat(a: seq<Entry>, b: seq<Entry>, k: string)
    ensures Find(a + b, k) == if Find(a, k).Some? then Find(a, k) else Find(b, k)
  {
    if a == [] {
      assert a + b == b;
    } else {
      assert (a + b)[0] == a[0] && (a + b)[1..] == a[1..] + b;
      FindConcat(a[1..], b, k);
    }
  }

  lemma {:induction false} FindIn(es: seq<Entry>, k: string)
    ensures Find(es, k).Some? <==> exists i :: 0 <= i < |es| && es[i].key == k
    ensures Find(es, k).Some? ==> exists i :: 0 <= i < |es| && es[i] == Entry(k, Find(es, k).value)
  {
    if es != [] {
      FindIn(es[1..], k);
      if es[0].key != k && Find(es, k).Some? {
        var i :| 0 <= i < |es[1..]| && es[1..][i] == Entry(k, Find(es, k).value);
        assert es[i + 1] == Entry(k, Find(es, k).value);
      }
      if es[0].key != k && (exists i :: 0 <= i < |es| && es[i].key == k) {
        var i :| 0 <= i < |es| && es[i].key == k;
        assert es[1..][i - 1].key == k;
      }
    }
  }

  /** `$a[$k] = $v`: replaces the value of an existing key in place, or
      appends a new entry. */
  function Put(es: seq<Entry>, k: string, v: Value): (r: seq<Entry>)
    ensures Find(r, k) == Some(v)
    ensures forall k' :: k' != k ==> Find(r, k') == Find(es, k')
    ensures Unique(es) ==> Unique(r)
    ensures forall e | e in r :: e == Entry(k, v) || e in es
  {
    if es == [] then [Entry(k, v)]
    else if es[0].key == k then [Entry(k, v)] + es[1..]
    else [es[0]] + Put(es[1..], k, v)
  }

  /** `array_replace($base, $repl)`: every key of `repl`, in order, is
      assigned into `base`. */
  function Replace(base: seq<Entry>, repl: seq<Entry>): (r: seq<Entry>)
    ensures Unique(repl) ==> forall k ::
      Find(r, k) == if Find(repl, k).Some? then Find(repl, k) else Find(base, k)
    ensures Unique(base) ==> Unique(r)
    decreases |repl|
  {
    if repl == [] then base
    else Replace(Put(base, repl[0].key, repl[0].val), repl[1..])
  }

  /** `$a += $b`: keys of `b` that `a` lacks are appended; `a`'s own values
      are never overwritten. */
  function Union(a: seq<Entry>, b: seq<Entry>): (r: seq<Entry>)
    ensures forall k :: Find(r, k) == if Find(a, k).Some? then Find(a, k) else Find(b, k)
    decreases |b|
  {
    if b == [] then a
    else
      var a' := if Find(a, b[0].key).Some? then a else a + [b[0]];
      forall k ensures Find(a', k) == if Find(a, k).Some? then Find(a, k)
                                      else if b[0].key == k then Some(b[0].val) else None {
        if a' != a { FindAppend(a, b[0], k); }
      }
      Union(a', b[1..])
  }

  // ---------------------------------------------------------------- values

  /** `$v[$k]` on any value: a missing key, or an offset read on a non-array,
      yields null. */
  function At(v: Value, k: string): Value
  {
    if v.Arr? then (match Find(v.entries, k) case Some(x) => x case None => Null) else Null
  }

  /** `isset($v[$k])`: the key is present and its value is not null. */
  predicate IsSetIn(v: Value, k: string)
  {
    At(v, k) != Null
  }

  /** PHP's `empty()`, i.e. the value is falsy. */
  predicate Empty(v: Value)
  {
    match v
    case Null => true
    case Bool(b) => !b
    case Int(i) => i == 0
    case Str(s) => s == "" || s == "0"
    case Arr(es) => es == []
    case _ => false
  }

  /** The `(array)` cast: null becomes the empty array, a scalar a one-entry
      list. */
  function ToList(v: Value): seq<Entry>
  {
    match v
    case Null => []
    case Arr(es) => es
    case _ => [Entry("0", v)]
  }

  function Digit(d: nat): char
    requires d < 10
  {
    "0123456789"[d]
  }

  function NatToString(n: nat): (s: string)
    ensures |s| > 0
    ensures forall i :: 0 <= i < |s| ==> '0' <= s[i] <= '9'
  {
    if n < 10 then [Digit(n)] else NatToString(n / 10) + [Digit(n % 10)]
  }

  /** The string a value becomes when concatenated or interpolated. */
  function ToStr(v: Value): string
  {
    match v
    case Null => ""
    case Bool(b) => if b then "1" else ""
    case Int(i) => if i < 0 then "-" + NatToString(-i) else NatToString(i)
    case Str(s) => s
    case Arr(_) => "Array"
    case _ => "Object"
  }

  /** A case label of a `switch`: a non-empty string that is not numeric. */
  predicate Label(s: string)
  {
    s != "" && s != "0" && !('0' <= s[0] <= '9') && s[0] != '-'
  }

  /** PHP 8 loose equality `v == s` against a non-numeric string label, the
      comparison a `switch` performs. */
  function LooseEq(v: Value, s: string): (r: bool)
    requires Label(s)
    ensures v.Str? ==> (r <==> v.s == s)
    ensures v.Int? || v.Null? || v.Arr? ==> !r
  {
    match v
    case Str(x) => x == s
    case Bool(b) => b
    case _ => false
  }
}
