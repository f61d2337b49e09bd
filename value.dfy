/** A document as the JSON or YAML decoder hands it over, and the handful of
    Python operations the extractor applies to it: truthiness, `or`,
    `dict.get`, `in`, indexing, iteration and `len`. A mapping is an
    association list, so the decoder's key order is kept. The decoder yields
    each key of a mapping once (a repeated JSON key keeps only its last
    value), so a first-binding lookup is the dictionary's lookup. */
module Value {
  import opened Base

  datatype V =
    | Null
    | Bool(b: bool)
    | Int(i: int)
    | Real(r: real)
    | Str(s: string)
    | List(items: seq<V>)
    | Obj(fields: seq<(string, V)>)

  /** Python's `bool(v)`: None, False, zero and empty containers are false. */
  predicate Truthy(v: V) {
    match v
    case Null => false
    case Bool(b) => b
    case Int(i) => i != 0
    case Real(r) => r != 0.0
    case Str(s) => s != []
    case List(xs) => xs != []
    case Obj(fs) => fs != []
  }

  /** Python's `a or b`. */
  function Or(a: V, b: V): (r: V)
    ensures Truthy(a) ==> r == a
    ensures !Truthy(a) ==> r == b
  {
    if Truthy(a) then a else b
  }

  function TypeName(v: V): string {
    match v
    case Null => "NoneType"
    case Bool(_) => "bool"
    case Int(_) => "int"
    case Real(_) => "float"
    case Str(_) => "str"
    case List(_) => "list"
    case Obj(_) => "dict"
  }

  predicate HasKey(fields: seq<(string, V)>, k: string) {
    exists i | 0 <= i < |fields| :: fields[i].0 == k
  }

  /** The value stored under `k`: the first entry with that key. */
  function Lookup(fields: seq<(string, V)>, k: string): (r: Option<V>)
    ensures r.Some? <==> HasKey(fields, k)
    ensures r.Some? ==> exists i | 0 <= i < |fields| :: fields[i] == (k, r.value)
  {
    if fields == [] then None
    else if fields[0].0 == k then
      assert fields[0] == (k, fields[0].1);
      Some(fields[0].1)
    else
      var r := Lookup(fields[1..], k);
      assert HasKey(fields, k) ==> fields[0].0 == k || HasKey(fields[1..], k) by {
        if HasKey(fields, k) {
          var i :| 0 <= i < |fields| && fields[i].0 == k;
          if i > 0 { assert fields[1..][i - 1].0 == k; }
        }
      }
      assert r.Some? ==> exists i | 0 <= i < |fields| :: fields[i] == (k, r.value) by {
        if r.Some? {
          var i :| 0 <= i < |fields[1..]| && fields[1..][i] == (k, r.value);
          assert fields[i + 1] == (k, r.value);
        }
      }
      r
  }

  /** `d.get(k, default)` on a mapping. */
  function GetOr(fields: seq<(string, V)>, k: string, default: V): (r: V)
    ensures !HasKey(fields, k) ==> r == default
  {
    match Lookup(fields, k)
    case Some(v) => v
    case None => default
  }

  /** `d.get(k)`, which gives None for a missing key. */
  function Get(fields: seq<(string, V)>, k: string): V {
    GetOr(fields, k, Null)
  }

  /** `d[k] = d.get(k, v)`: adds `k` at the end when it is missing and
      changes nothing otherwise. */
  function SetDefault(fields: seq<(string, V)>, k: string, v: V): (r: seq<(string, V)>)
    ensures HasKey(r, k)
    ensures HasKey(fields, k) ==> r == fields
    ensures !HasKey(fields, k) ==> Lookup(r, k) == Some(v)
  {
    if HasKey(fields, k) then fields
    else
      var r := fields + [(k, v)];
      LookupAppend(fields, k, v);
      assert r[|fields|].0 == k;
      r
  }

  lemma {:induction false} LookupAppend(fields: seq<(string, V)>, k: string, v: V)
    requires !HasKey(fields, k)
    ensures Lookup(fields + [(k, v)], k) == Some(v)
  {
    if fields != [] {
      assert (fields + [(k, v)])[1..] == fields[1..] + [(k, v)];
      assert fields[0].0 != k;
      LookupAppend(fields[1..], k, v);
    }
  }

  /** Python's `key in v` for a string key: a key test on a mapping, an
      element test on a list, a substring test on a string; anything else
      raises TypeError. */
  function In(key: string, v: V): (r: Result<bool>)
    ensures r.Err? <==> !(v.Obj? || v.List? || v.Str?)
    ensures v.Obj? ==> r == Ok(HasKey(v.fields, key))
  {
    match v
    case Obj(fs) => Ok(HasKey(fs, key))
    case List(xs) => Ok(Str(key) in xs)
    case Str(s) => Ok(IsSubstring(key, s))
    case _ => Err(TypeError("argument of type '" + TypeName(v) + "' is not iterable"))
  }

  /** Python's `v[key]` for a string key, where the key is known to be
      present when `v` is a mapping; lists and strings raise TypeError. */
  function Index(v: V, key: string): Result<V> {
    match v
    case Obj(fs) => Ok(Get(fs, key))
    case List(_) => Err(TypeError("list indices must be integers or slices, not str"))
    case Str(_) => Err(TypeError("string indices must be integers, not 'str'"))
    case _ => Err(TypeError("'" + TypeName(v) + "' object is not subscriptable"))
  }

  /** What `for x in v` visits: list elements, mapping keys, or the
      characters of a string; other values are not iterable. */
  function Iter(v: V): (r: Result<seq<V>>)
    ensures v.List? ==> r == Ok(v.items)
    ensures r.Ok? ==> v.List? || v.Obj? || v.Str?
  {
    match v
    case List(xs) => Ok(xs)
    case Obj(fs) => Ok(seq(|fs|, i requires 0 <= i < |fs| => Str(fs[i].0)))
    case Str(s) => Ok(seq(|s|, i requires 0 <= i < |s| => Str([s[i]])))
    case _ => Err(TypeError("'" + TypeName(v) + "' object is not iterable"))
  }

  /** Python's `len(v)`. */
  function Len(v: V): (r: Result<nat>)
    ensures v.List? ==> r == Ok(|v.items|)
    ensures r.Err? <==> !(v.Obj? || v.List? || v.Str?)
  {
    match v
    case List(xs) => Ok(|xs|)
    case Obj(fs) => Ok(|fs|)
    case Str(s) => Ok(|s|)
    case _ => Err(TypeError("object of type '" + TypeName(v) + "' has no len()"))
  }
}
