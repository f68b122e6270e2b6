/**
  Python values as the SDK sees them: decoded JSON, dictionaries with
  insertion order, truthiness, subscripting, iteration, and the Python
  exceptions the SDK's data-shaping code can raise.
 */
module PyValues {

  datatype Option<+T> = None | Some(value: T)

  /** The Python exceptions raised by the modelled code. */
  datatype PyError =
    | TypeError                       // `x[k]` on a non-dict, `f(**x)` with a bad mapping, iterating a scalar
    | KeyError(key: string)           // `d[k]` with `k` missing
    | IndexError                      // `[...][0]` on an empty list
    | AttributeError(name: string)    // reading an attribute an object does not have
    | UnboundLocalError(name: string) // reading a local variable that was never assigned
    | StopIteration                   // `__next__` on an exhausted iterator

  /** A computation that returns a value or raises. Usable with `:-`. */
  datatype Result<+T> = Ok(value: T) | Err(error: PyError) {
    predicate IsFailure() { Err? }
    function PropagateFailure<U>(): Result<U> requires Err? { Err(error) }
    function Extract(): T requires Ok? { value }
  }

  /** A decoded JSON value. Objects keep their keys in insertion order, as Python dicts do.
      Numbers are integers: floating point is not modelled. */
  datatype Json =
    | JNull
    | JBool(b: bool)
    | JInt(n: int)
    | JStr(s: string)
    | JList(elems: seq<Json>)
    | JObject(entries: seq<Entry>)

  datatype Entry = Entry(key: string, val: Json)

  /** A Python dict: its entries in insertion order. */
  type Dict = seq<Entry>

  /** `list(d.keys())` */
  function Keys(d: Dict): (ks: seq<string>)
    ensures |ks| == |d|
  {
    if d == [] then [] else [d[0].key] + Keys(d[1..])
  }

  lemma {:induction false} KeysAt(d: Dict, i: nat)
    requires i < |d|
    ensures Keys(d)[i] == d[i].key
  {
    if i > 0 {
      KeysAt(d[1..], i - 1);
    }
  }

  /** The keys are the entries' keys, position by position. */
  lemma KeysEach(d: Dict)
    ensures Keys(d) == seq(|d|, i requires 0 <= i < |d| => d[i].key)
  {
    forall i | 0 <= i < |d|
      ensures Keys(d)[i] == d[i].key
    {
      KeysAt(d, i);
    }
  }

  /** A Python dict never holds a key twice. */
  predicate DistinctKeys(d: Dict) {
    d == [] || (d[0].key !in Keys(d[1..]) && DistinctKeys(d[1..]))
  }

  /** `d.get(k)`, with None for a missing key. */
  function Lookup(d: Dict, k: string): (r: Option<Json>)
    ensures r.Some? <==> k in Keys(d)
  {
    if d == [] then None
    else if d[0].key == k then Some(d[0].val)
    else Lookup(d[1..], k)
  }

  /** An entry whose key no earlier entry has is what a lookup of that key finds. */
  lemma {:induction false} LookupFirst(d: Dict, i: nat)
    requires i < |d| && forall j :: 0 <= j < i ==> d[j].key != d[i].key
    ensures Lookup(d, d[i].key) == Some(d[i].val)
  {
    if i > 0 {
      LookupFirst(d[1..], i - 1);
    }
  }

  /** `d[k] = v`: an existing key keeps its position and takes the new value,
      a new key goes to the end. */
  function Put(d: Dict, k: string, v: Json): (r: Dict)
    ensures Keys(r) == if k in Keys(d) then Keys(d) else Keys(d) + [k]
  {
    if d == [] then [Entry(k, v)]
    else if d[0].key == k then [Entry(k, v)] + d[1..]
    else [d[0]] + Put(d[1..], k, v)
  }

  /** After `d[k] = v`, `k` maps to `v` and every other key keeps its value. */
  lemma {:induction false} LookupPut(d: Dict, k: string, v: Json, k': string)
    ensures Lookup(Put(d, k, v), k') == if k' == k then Some(v) else Lookup(d, k')
  {
    if d != [] && d[0].key != k {
      LookupPut(d[1..], k, v, k');
    }
  }

  /** Assigning a new key appends it. */
  lemma {:induction false} PutNew(d: Dict, k: string, v: Json)
    requires forall i :: 0 <= i < |d| ==> d[i].key != k
    ensures Put(d, k, v) == d + [Entry(k, v)]
  {
    if d != [] {
      PutNew(d[1..], k, v);
      assert d == [d[0]] + d[1..];
    }
  }

  /** Assigning an existing key replaces its first entry where it stands. */
  lemma {:induction false} PutExisting(d: Dict, i: nat, k: string, v: Json)
    requires i < |d| && d[i].key == k && forall j :: 0 <= j < i ==> d[j].key != k
    ensures Put(d, k, v) == d[i := Entry(k, v)]
  {
    if i == 0 {
      assert [Entry(k, v)] + d[1..] == d[0 := Entry(k, v)];
    } else {
      assert d[0].key != k;
      PutExisting(d[1..], i - 1, k, v);
      var tail := d[1..][i - 1 := Entry(k, v)];
      assert Put(d, k, v) == [d[0]] + tail;
      assert forall j :: 0 <= j < |d| ==> ([d[0]] + tail)[j] == d[i := Entry(k, v)][j];
    }
  }

  /** `for k, v in es: d[k] = v`, that is `d.update(es)`. */
  function PutAll(d: Dict, es: Dict): Dict
    decreases |es|
  {
    if es == [] then d else PutAll(Put(d, es[0].key, es[0].val), es[1..])
  }

  /** The keys of `ks` that are not in `known`, in order. */
  function KeysNotIn(ks: seq<string>, known: seq<string>): seq<string> {
    if ks == [] then []
    else (if ks[0] in known then [] else [ks[0]]) + KeysNotIn(ks[1..], known)
  }

  /** After `d.update(es)` a key of `es` maps to its value in `es`; any other key keeps
      its value in `d`. */
  lemma {:induction false} LookupPutAll(d: Dict, es: Dict, k: string)
    requires DistinctKeys(es)
    ensures Lookup(PutAll(d, es), k) == if k in Keys(es) then Lookup(es, k) else Lookup(d, k)
    decreases |es|
  {
    if es != [] {
      LookupPutAll(Put(d, es[0].key, es[0].val), es[1..], k);
      LookupPut(d, es[0].key, es[0].val, k);
    }
  }

  lemma {:induction false} KeysNotInExtended(ks: seq<string>, known: seq<string>, k: string)
    requires k !in ks
    ensures KeysNotIn(ks, known + [k]) == KeysNotIn(ks, known)
  {
    if ks != [] {
      KeysNotInExtended(ks[1..], known, k);
    }
  }

  /** `d.update(es)` keeps the keys of `d` in place and appends the new keys of `es`
      in the order `es` lists them. */
  lemma {:induction false} KeysPutAll(d: Dict, es: Dict)
    requires DistinctKeys(es)
    ensures Keys(PutAll(d, es)) == Keys(d) + KeysNotIn(Keys(es), Keys(d))
    decreases |es|
  {
    if es == [] {
      assert KeysNotIn(Keys(es), Keys(d)) == [];
      assert Keys(d) + [] == Keys(d);
    } else {
      var d' := Put(d, es[0].key, es[0].val);
      KeysPutAll(d', es[1..]);
      KeysPutStep(d, es);
    }
  }

  /** One assignment of `d.update(es)`: the first key of `es` is kept in place or
      appended, and the keys still to come are the same new keys as before. */
  lemma KeysPutStep(d: Dict, es: Dict)
    requires es != [] && DistinctKeys(es)
    ensures var d' := Put(d, es[0].key, es[0].val);
            Keys(d') + KeysNotIn(Keys(es[1..]), Keys(d')) == Keys(d) + KeysNotIn(Keys(es), Keys(d))
  {
    var k := es[0].key;
    var rest := KeysNotIn(Keys(es[1..]), Keys(d));
    assert Keys(es) == [k] + Keys(es[1..]);
    KeysNotInCons(Keys(es), Keys(d));
    assert KeysNotIn(Keys(es), Keys(d)) == (if k in Keys(d) then [] else [k]) + rest;
    if k !in Keys(d) {
      KeysNotInExtended(Keys(es[1..]), Keys(d), k);
      assert Keys(d) + [k] + rest == Keys(d) + ([k] + rest);
    } else {
      assert [] + rest == rest;
    }
  }

  lemma KeysNotInCons(ks: seq<string>, known: seq<string>)
    requires ks != []
    ensures KeysNotIn(ks, known) == (if ks[0] in known then [] else [ks[0]]) + KeysNotIn(ks[1..], known)
  {
  }

  /** Python truthiness of a JSON value. */
  predicate Truthy(j: Json) {
    match j
    case JNull => false
    case JBool(b) => b
    case JInt(n) => n != 0
    case JStr(s) => s != ""
    case JList(xs) => xs != []
    case JObject(es) => es != []
  }

  /** `j[k]` for a string key. */
  function Subscript(j: Json, k: string): (r: Result<Json>)
    ensures r.Ok? <==> j.JObject? && k in Keys(j.entries)
    ensures r.Ok? ==> Lookup(j.entries, k) == Some(r.value)
    ensures r.Err? ==> r.error == if j.JObject? then KeyError(k) else TypeError
  {
    if !j.JObject? then Err(TypeError)
    else match Lookup(j.entries, k)
      case Some(v) => Ok(v)
      case None => Err(KeyError(k))
  }

  /** `j.get(k, default)` */
  function GetOr(j: Json, k: string, default: Json): (r: Result<Json>)
    ensures r.Ok? <==> j.JObject?
    ensures r.Ok? && k in Keys(j.entries) ==> Lookup(j.entries, k) == Some(r.value)
    ensures r.Ok? && k !in Keys(j.entries) ==> r.value == default
    ensures r.Err? ==> r.error == AttributeError("get")
  {
    if !j.JObject? then Err(AttributeError("get"))
    else match Lookup(j.entries, k)
      case Some(v) => Ok(v)
      case None => Ok(default)
  }

  /** The values a Python `for` loop visits: a list's elements, a dict's keys,
      a string's one-character strings; anything else is not iterable. */
  function Iterate(j: Json): (r: Result<seq<Json>>)
    ensures r.Ok? <==> j.JList? || j.JObject? || j.JStr?
    ensures r.Err? ==> r.error == TypeError
    ensures j.JList? ==> r == Ok(j.elems)
    ensures j.JObject? ==>
              && r.Ok? && |r.value| == |j.entries|
              && forall i :: 0 <= i < |j.entries| ==> r.value[i] == JStr(j.entries[i].key)
    ensures j.JStr? ==>
              && r.Ok? && |r.value| == |j.s|
              && forall i :: 0 <= i < |j.s| ==> r.value[i] == JStr([j.s[i]])
  {
    match j
    case JList(xs) => Ok(xs)
    case JObject(es) => Ok(seq(|es|, i requires 0 <= i < |es| => JStr(es[i].key)))
    case JStr(s) => Ok(seq(|s|, i requires 0 <= i < |s| => JStr([s[i]])))
    case _ => Err(TypeError)
  }

  /** A list comprehension `[f(x) for x in xs]` whose element expression may raise:
      the first exception ends it. */
  function MapAll<S, T>(xs: seq<S>, f: S -> Result<T>): (r: Result<seq<T>>)
    ensures r.Ok? <==> forall i :: 0 <= i < |xs| ==> f(xs[i]).Ok?
    ensures r.Ok? ==> |r.value| == |xs| && forall i :: 0 <= i < |xs| ==> f(xs[i]) == Ok(r.value[i])
    ensures r.Err? ==>
              exists i :: && 0 <= i < |xs| && f(xs[i]) == Err(r.error)
                          && forall j :: 0 <= j < i ==> f(xs[j]).Ok?
  {
    if xs == [] then Ok([])
    else
      match f(xs[0])
      case Err(e) => Err(e)
      case Ok(y) =>
        match MapAll(xs[1..], f)
        case Err(e) =>
          ghost var i :| 0 <= i < |xs| - 1 && f(xs[1..][i]) == Err(e)
            && forall j :: 0 <= j < i ==> f(xs[1..][j]).Ok?;
          assert f(xs[i + 1]) == Err(e);
          Err(e)
        case Ok(ys) => Ok([y] + ys)
  }

  /** A comprehension whose every element succeeds gives the list of their values. */
  lemma {:induction false} MapAllOk<S, T>(xs: seq<S>, f: S -> Result<T>, ys: seq<T>)
    requires |ys| == |xs| && forall i :: 0 <= i < |xs| ==> f(xs[i]) == Ok(ys[i])
    ensures MapAll(xs, f) == Ok(ys)
  {
    if xs != [] {
      MapAllOk(xs[1..], f, ys[1..]);
      assert ys == [ys[0]] + ys[1..];
    }
  }

  /** A comprehension raises what its first failing element raises. */
  lemma {:induction false} MapAllFirstError<S, T>(xs: seq<S>, f: S -> Result<T>, i: nat)
    requires i < |xs| && f(xs[i]).Err? && forall j :: 0 <= j < i ==> f(xs[j]).Ok?
    ensures MapAll(xs, f) == Err(f(xs[i]).error)
  {
    if i > 0 {
      MapAllFirstError(xs[1..], f, i - 1);
    }
  }

  /** `out = []` then `for x in xs: out.append(f(x))`: the loop form of `MapAll`. */
  method Collect<S, T>(xs: seq<S>, f: S -> Result<T>) returns (r: Result<seq<T>>)
    ensures r == MapAll(xs, f)
  {
    var out := [];
    var i := 0;
    while i < |xs|
      invariant 0 <= i <= |xs| && |out| == i
      invariant forall j :: 0 <= j < i ==> f(xs[j]) == Ok(out[j])
    {
      var y := f(xs[i]);
      if y.Err? {
        MapAllFirstError(xs, f, i);
        return Err(y.error);
      }
      out := out + [y.value];
      i := i + 1;
    }
    MapAllOk(xs, f, out);
    r := Ok(out);
  }

  /** The list of strings `[s0, s1, ...]` as a JSON value. */
  function StrList(ss: seq<string>): (r: Json)
    ensures r.JList? && |r.elems| == |ss|
    ensures forall i :: 0 <= i < |ss| ==> r.elems[i] == JStr(ss[i])
  {
    JList(seq(|ss|, i requires 0 <= i < |ss| => JStr(ss[i])))
  }

  /** The keys of a JSON object, in order; none for anything else. */
  function KeysOf(j: Json): seq<string> {
    if j.JObject? then Keys(j.entries) else []
  }

  /** `j[p0][p1]...` through nested objects; None where a step is not an object
      or lacks the key. */
  function At(j: Json, path: seq<string>): Option<Json>
    decreases |path|
  {
    if path == [] then Some(j)
    else if !j.JObject? then None
    else match Lookup(j.entries, path[0])
      case None => None
      case Some(v) => At(v, path[1..])
  }
}
