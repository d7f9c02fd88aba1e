/** The Python values the orchestrator handles: JSON documents, agent payloads and
    deployment descriptors, together with the few built-in operations it applies to them
    (`len`, iteration, indexing, `dict.get`). An operation Python would reject with a
    TypeError, KeyError, IndexError or AttributeError yields None here. */
module PyValues {
  import opened Results

  /** A Python value. `Dict` keeps its entries in insertion order, as Python dicts do;
      its keys are distinct strings, as in every dict decoded from JSON. `Bool` and `Float`
      compare with integers as numbers, and a bool is also an integer index, as in Python.
      `Opaque` stands for any other object (None, an SDK record): it has no length, cannot
      be iterated, indexed or compared with an integer. */
  datatype Value =
    | Str(s: string)
    | Int(n: int)
    | Bool(b: bool)
    | Float(x: real)
    | List(items: seq<Value>)
    | Dict(entries: seq<(string, Value)>)
    | Opaque(tag: nat)

  /** The Python operation that raised on a value of the wrong kind. */
  datatype PyOp = LenOp | IterOp | IndexOp | GetOp | CompareOp

  /** What the orchestrator takes from the runtime it cannot see: `json.loads`, which either
      decodes the text or fails with the decoder's error message, and `str(x)` for values
      that are not strings. */
  datatype Host = Host(parseJson: string -> Result<Value, string>, toStr: Value -> string)

  /** `v` used as a list or string index: an int, or a bool, which Python's `bool` subclass
      of `int` makes 0 or 1. None: a float or any other kind is a TypeError there. */
  function AsInt(v: Value): (r: Option<int>)
    ensures r.Some? <==> v.Int? || v.Bool?
  {
    match v
    case Int(n) => Some(n)
    case Bool(b) => Some(if b then 1 else 0)
    case _ => None
  }

  /** The number `v` stands for when compared with an integer (`0 <= v`). None: comparing
      a value of any other kind with an integer is a TypeError. */
  function Numeric(v: Value): (r: Option<real>)
    ensures r.Some? <==> v.Int? || v.Bool? || v.Float?
    ensures AsInt(v).Some? ==> r == Some(AsInt(v).value as real)
    ensures v.Float? ==> r == Some(v.x)
  {
    match v
    case Int(n) => Some(n as real)
    case Bool(b) => Some(if b then 1.0 else 0.0)
    case Float(x) => Some(x)
    case _ => None
  }

  /** `key in d` for a dict with entries `entries`. */
  predicate HasKey(entries: seq<(string, Value)>, key: string) {
    exists i :: 0 <= i < |entries| && entries[i].0 == key
  }

  /** `d[key]` for a dict with entries `entries`; None is a KeyError. */
  function Lookup(entries: seq<(string, Value)>, key: string): (r: Option<Value>)
    ensures r.Some? <==> HasKey(entries, key)
    ensures r.Some? ==> exists i :: 0 <= i < |entries| && entries[i] == (key, r.value)
  {
    if entries == [] then None
    else if entries[0].0 == key then Some(entries[0].1)
    else
      var r := Lookup(entries[1..], key);
      assert r.Some? ==> exists i :: 0 <= i < |entries| && entries[i] == (key, r.value) by {
        if r.Some? {
          var i :| 0 <= i < |entries[1..]| && entries[1..][i] == (key, r.value);
          assert entries[i + 1] == (key, r.value);
        }
      }
      assert HasKey(entries, key) ==> HasKey(entries[1..], key) by {
        if HasKey(entries, key) {
          var i :| 0 <= i < |entries| && entries[i].0 == key;
          assert entries[1..][i - 1].0 == key;
        }
      }
      r
  }

  /** The values `for x in v` visits: a string's one-character strings, a list's items, a
      dict's keys in insertion order. None: the value is not iterable (TypeError). */
  function Elements(v: Value): (r: Option<seq<Value>>)
    ensures r.Some? <==> (v.Str? || v.List? || v.Dict?)
    ensures v.List? ==> r == Some(v.items)
    ensures v.Str? ==> r.Some? && |r.value| == |v.s|
    ensures v.Str? ==> forall i :: 0 <= i < |v.s| ==> r.value[i] == Str([v.s[i]])
    ensures v.Dict? ==> r.Some? && |r.value| == |v.entries|
    ensures v.Dict? ==> forall i :: 0 <= i < |v.entries| ==> r.value[i] == Str(v.entries[i].0)
  {
    match v
    case Str(s) => Some(seq(|s|, i requires 0 <= i < |s| => Str([s[i]])))
    case List(items) => Some(items)
    case Dict(entries) => Some(seq(|entries|, i requires 0 <= i < |entries| => Str(entries[i].0)))
    case _ => None
  }

  /** `len(v)`; None is a TypeError. */
  function Len(v: Value): (r: Option<nat>)
    ensures r.Some? <==> Elements(v).Some?
    ensures r.Some? ==> r.value == |Elements(v).value|
  {
    match v
    case Str(s) => Some(|s|)
    case List(items) => Some(|items|)
    case Dict(entries) => Some(|entries|)
    case _ => None
  }

  /** `v[i]` for a non-negative integer `i`. Strings and lists are indexed by position; a dict
      is looked up with the integer as key, and its keys are strings, so that is a KeyError.
      None is the error Python raises. */
  function IndexAt(v: Value, i: nat): (r: Option<Value>)
    ensures r.Some? <==> (v.Str? || v.List?) && i < Len(v).value
    ensures r.Some? ==> r.value == Elements(v).value[i]
  {
    match v
    case Str(s) => if i < |s| then Some(Str([s[i]])) else None
    case List(items) => if i < |items| then Some(items[i]) else None
    case _ => None
  }

  /** `v.get(key, default)`; None is the AttributeError of a value that is not a dict. */
  function Get(v: Value, key: string, default: Value): (r: Option<Value>)
    ensures r.Some? <==> v.Dict?
    ensures v.Dict? && !HasKey(v.entries, key) ==> r == Some(default)
    ensures v.Dict? && HasKey(v.entries, key) ==>
              r.Some? && exists i :: 0 <= i < |v.entries| && v.entries[i] == (key, r.value)
  {
    match v
    case Dict(entries) =>
      (match Lookup(entries, key)
       case Some(x) => Some(x)
       case None => Some(default))
    case _ => None
  }
}
