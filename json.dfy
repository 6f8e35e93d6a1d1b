/** The JSON values that reach the services as request bodies and stored text
    columns, with Python's truthiness. */
module Json {
  import opened Wrappers

  datatype Value =
    | Null
    | Bool(b: bool)
    | Int(i: int)
    | Float(x: real)
    | Str(s: string)
    | List(items: seq<Value>)
    | Obj(fields: Dict)

  /** A Python `dict` with string keys, in insertion order. */
  type Dict = seq<(string, Value)>

  /** `not v` in Python: None, False, zero, and empty strings, lists and dicts. */
  predicate Falsy(v: Value)
  {
    match v
    case Null => true
    case Bool(b) => !b
    case Int(i) => i == 0
    case Float(x) => x == 0.0
    case Str(s) => s == []
    case List(items) => items == []
    case Obj(fields) => fields == []
  }

  predicate HasKey(d: Dict, key: string)
  {
    exists i :: 0 <= i < |d| && d[i].0 == key
  }

  /** `d[key]` when `key in d`. */
  function Lookup(d: Dict, key: string): (r: Option<Value>)
    ensures r.None? <==> !HasKey(d, key)
    ensures r.Some? ==> (key, r.value) in d
  {
    if d == [] then None
    else if d[0].0 == key then Some(d[0].1)
    else Lookup(d[1..], key)
  }

  /** `d.get(key)`: the value, or None when the key is absent. */
  function Get(d: Dict, key: string): Value
  {
    match Lookup(d, key)
    case Some(v) => v
    case None => Null
  }

  function Keys(d: Dict): (r: seq<string>)
    ensures |r| == |d| && forall i :: 0 <= i < |d| ==> r[i] == d[i].0
  {
    seq(|d|, i requires 0 <= i < |d| => d[i].0)
  }

  /** `d[key] = v`: an existing key keeps its place, a new one goes last. */
  function Put(d: Dict, key: string, v: Value): (r: Dict)
    ensures Lookup(r, key) == Some(v)
    ensures forall k :: k != key ==> Lookup(r, k) == Lookup(d, k)
  {
    if d == [] then [(key, v)]
    else if d[0].0 == key then [(key, v)] + d[1..]
    else [d[0]] + Put(d[1..], key, v)
  }

  /** Reading a key back after `d[key] = v`. */
  lemma GetPut(d: Dict, key: string, v: Value, k: string)
    ensures Get(Put(d, key, v), k) == if k == key then v else Get(d, k)
  {
  }
}
