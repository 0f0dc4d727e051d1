/** Python values and errors as the configuration layer sees them. */
module PyValues {

  datatype Option<+T> = None | Some(value: T)

  /** The kinds of exception the modelled code raises; messages are not modelled. */
  datatype ErrorKind =
    | ValidationError
    | AssertionError
    | TypeError
    | ValueError
    | KeyError
    | IndexError
    | AttributeError

  datatype Result<+T> = Ok(value: T) | Err(error: ErrorKind)

  /** A Python value. A dict keeps its entries in insertion order. */
  datatype Value =
    | PyNone
    | PyBool(b: bool)
    | PyInt(i: int)
    | PyFloat(f: real)
    | PyStr(s: string)
    | PyList(items: seq<Value>)
    | PyTuple(elems: seq<Value>)
    | PyDict(entries: seq<(Value, Value)>)

  /** `isinstance(v, int)`: in Python a bool is an int. */
  predicate IsInt(v: Value) {
    v.PyInt? || v.PyBool?
  }

  /** `isinstance(v, float) or isinstance(v, int)`. */
  predicate IsNumber(v: Value) {
    IsInt(v) || v.PyFloat?
  }

  function IntOf(v: Value): int
    requires IsInt(v)
  {
    match v
    case PyInt(i) => i
    case PyBool(b) => if b then 1 else 0
  }

  /** The numeric value Python compares with `<`, `<=` and friends. */
  function NumOf(v: Value): real
    requires IsNumber(v)
  {
    if v.PyFloat? then v.f else IntOf(v) as real
  }

  /** `isinstance(d, dict) and all(isinstance(k, str) for k in d.keys())`. */
  predicate IsStrKeyedDict(v: Value) {
    v.PyDict? && forall k :: 0 <= k < |v.entries| ==> v.entries[k].0.PyStr?
  }

  /** The keys of a dict's entries, in order. */
  function Keys(entries: seq<(Value, Value)>): (ks: seq<Value>)
    ensures |ks| == |entries|
    ensures forall k :: 0 <= k < |entries| ==> ks[k] == entries[k].0
  {
    if entries == [] then [] else [entries[0].0] + Keys(entries[1..])
  }

  /** `d[key]` for a dict whose keys are distinct; None models the KeyError. */
  function Lookup(entries: seq<(Value, Value)>, key: Value): (r: Option<Value>)
    ensures r.Some? <==> key in Keys(entries)
    ensures r.Some? ==> (key, r.value) in entries
  {
    if entries == [] then None
    else if entries[0].0 == key then Some(entries[0].1)
    else Lookup(entries[1..], key)
  }

  /** A dict literal built from string keys. */
  function StrDict(entries: seq<(string, Value)>): (d: Value)
    ensures d.PyDict? && |d.entries| == |entries|
    ensures forall k :: 0 <= k < |entries| ==> d.entries[k] == (PyStr(entries[k].0), entries[k].1)
  {
    PyDict(seq(|entries|, k requires 0 <= k < |entries| => (PyStr(entries[k].0), entries[k].1)))
  }

  /** Looks a key up in a dict built from string keys. */
  function Get(entries: seq<(string, Value)>, key: string): Option<Value> {
    if entries == [] then None
    else if entries[0].0 == key then Some(entries[0].1)
    else Get(entries[1..], key)
  }

  lemma {:induction false} GetAppend(a: seq<(string, Value)>, b: seq<(string, Value)>, key: string)
    ensures Get(a + b, key) == if Get(a, key).Some? then Get(a, key) else Get(b, key)
    decreases |a|
  {
    if a != [] {
      assert (a + b)[0] == a[0];
      assert (a + b)[1..] == a[1..] + b;
      GetAppend(a[1..], b, key);
    } else {
      assert a + b == b;
    }
  }

  /** Looking a string key up in a dict literal finds its first entry with that key. */
  lemma {:induction false} StrDictLookup(entries: seq<(string, Value)>, key: string)
    ensures Lookup(StrDict(entries).entries, PyStr(key)) == Get(entries, key)
    decreases |entries|
  {
    if entries != [] {
      StrDictLookup(entries[1..], key);
      assert StrDict(entries).entries[1..] == StrDict(entries[1..]).entries;
    }
  }

  /** The number of occurrences of `x` in `s` (what `s.count(x)` returns). */
  function Count(s: seq<Value>, x: Value): nat {
    multiset(s)[x]
  }

  /** The position of the first occurrence of `x` (what `s.index(x)` returns). */
  function FirstIndex(s: seq<Value>, x: Value): (i: nat)
    requires x in s
    ensures i < |s| && s[i] == x && x !in s[..i]
  {
    if s[0] == x then 0
    else
      var j := FirstIndex(s[1..], x);
      assert s[..j + 1] == [s[0]] + s[1..][..j];
      1 + j
  }

  /** `s` with its first occurrence of `x` removed (what `list.remove` leaves):
      the values before and after it keep their order. */
  function RemoveFirst(s: seq<Value>, x: Value): (r: seq<Value>)
    requires x in s
    ensures |r| == |s| - 1
    ensures exists i :: 0 <= i < |s| && s[i] == x && x !in s[..i] && r == s[..i] + s[i + 1..]
    ensures multiset(r) == multiset(s) - multiset{x}
    ensures Count(r, x) == Count(s, x) - 1
  {
    var i := FirstIndex(s, x);
    assert s == s[..i] + [x] + s[i + 1..];
    s[..i] + s[i + 1..]
  }

  /** Removing `x` leaves every other value's membership alone. */
  lemma {:induction false} RemoveFirstKeepsOthers(s: seq<Value>, x: Value, y: Value)
    requires x in s && y != x
    ensures y in RemoveFirst(s, x) <==> y in s
  {
    assert y in multiset(s) <==> y in s;
    assert y in multiset(RemoveFirst(s, x)) <==> y in RemoveFirst(s, x);
  }

  /** A Python list object that several owners may hold a reference to. */
  class ListObject {
    var items: seq<Value>

    constructor (items: seq<Value>)
      ensures this.items == items
    {
      this.items := items;
    }

    /** `list.append(x)` (and `list += [x]`). */
    method Append(x: Value)
      modifies this
      ensures items == old(items) + [x]
    {
      items := items + [x];
    }

    /** `list.remove(x)`: drops the first occurrence, or raises ValueError. */
    method Remove(x: Value) returns (r: Result<()>)
      modifies this
      ensures r.Ok? <==> x in old(items)
      ensures r.Err? ==> r.error == ValueError
      ensures items == if x in old(items) then RemoveFirst(old(items), x) else old(items)
    {
      if x !in items {
        return Err(ValueError);
      }
      items := RemoveFirst(items, x);
      return Ok(());
    }
  }
}
