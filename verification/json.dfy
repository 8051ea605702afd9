/** JSON values as the control plane holds them: a Python dict keeps insertion order, and `scrub` cuts
    a mapping after its first hundred items, so an object is a sequence of fields. */
module Json {
  import opened Wrappers

  datatype Field = Field(key: string, value: Json)

  datatype Json =
    | Null
    | Bool(b: bool)
    | Int(i: int)
    | Float(f: real)
    | Str(s: string)
    | Arr(items: seq<Json>)
    | Obj(fields: seq<Field>)

  /** The interpreter's own text operations, and the two that name rows and digests as text. Every
      theorem holds whatever these are. */
  datatype Runtime = Runtime(
    str: Json -> string,         // str(value)
    strip: string -> string,     // text.strip()
    secretKey: string -> bool,   // SECRET_KEY_PATTERN.search(key)
    rowOf: string -> nat         // the row an identifier names; a number past the table names none
  )

  /** The position of a key among the fields, or their number when it is absent. */
  function IndexOf(fields: seq<Field>, key: string): (k: nat)
    ensures k <= |fields|
    ensures k < |fields| ==> fields[k].key == key
    ensures forall j :: 0 <= j < k ==> fields[j].key != key
  {
    if fields == [] then 0
    else if fields[0].key == key then 0
    else 1 + IndexOf(fields[1..], key)
  }

  /** dict.get on a value that may not be a dict. */
  function Get(v: Json, key: string): Option<Json> {
    if v.Obj? && IndexOf(v.fields, key) < |v.fields| then Some(v.fields[IndexOf(v.fields, key)].value) else None
  }

  function GetOr(v: Json, key: string, default: Json): Json {
    var got := Get(v, key);
    if got.Some? then got.value else default
  }

  /** dict[key] = value: in place when the key is there, at the end when it is not. */
  function Put(fields: seq<Field>, key: string, value: Json): (r: seq<Field>) {
    var k := IndexOf(fields, key);
    if k < |fields| then fields[k := Field(key, value)] else fields + [Field(key, value)]
  }

  predicate Distinct<T(==)>(xs: seq<T>) {
    forall i, j :: 0 <= i < j < |xs| ==> xs[i] != xs[j]
  }

  predicate UniqueKeys(fields: seq<Field>) {
    forall i, j :: 0 <= i < j < |fields| ==> fields[i].key != fields[j].key
  }

  /** Python's truth value. */
  predicate Truthy(v: Json) {
    match v
    case Null => false
    case Bool(b) => b
    case Int(i) => i != 0
    case Float(f) => f != 0.0
    case Str(s) => s != ""
    case Arr(items) => items != []
    case Obj(fields) => fields != []
  }

  lemma TruthyExactly(v: Json)
    ensures Truthy(v) <==>
      v != Null && v != Bool(false) && v != Int(0) && v != Float(0.0) && v != Str("") && v != Arr([]) && v != Obj([])
  {
  }

  /** The number that a bool, int or float compares as. */
  function Numeric(v: Json): Option<real> {
    match v
    case Bool(b) => Some(if b then 1.0 else 0.0)
    case Int(i) => Some(i as real)
    case Float(f) => Some(f)
    case _ => None
  }

  /** Python's ==: numbers across types, lists in order, dicts whatever their order. */
  predicate PyEq(a: Json, b: Json)
    decreases a
  {
    if Numeric(a).Some? || Numeric(b).Some? then Numeric(a) == Numeric(b)
    else match (a, b)
      case (Arr(xs), Arr(ys)) =>
        |xs| == |ys| && forall i :: 0 <= i < |xs| ==> PyEq(xs[i], ys[i])
      case (Obj(fs), Obj(gs)) =>
        && |fs| == |gs|
        && forall i :: 0 <= i < |fs| ==>
          && IndexOf(gs, fs[i].key) < |gs|
          && PyEq(fs[i].value, gs[IndexOf(gs, fs[i].key)].value)
      case _ => a == b
  }

  /** What == means between values of one kind. */
  lemma PyEqExactly(a: Json, b: Json)
    ensures a.Str? ==> (PyEq(a, b) <==> b == a)
    ensures a.Null? ==> (PyEq(a, b) <==> b == a)
    ensures Numeric(a).Some? && Numeric(b).Some? ==> (PyEq(a, b) <==> Numeric(a) == Numeric(b))
    ensures Numeric(a).Some? != Numeric(b).Some? ==> !PyEq(a, b)
    ensures a.Arr? && b.Arr? ==>
      (PyEq(a, b) <==> |a.items| == |b.items| && forall i :: 0 <= i < |a.items| ==> PyEq(a.items[i], b.items[i]))
  {
  }
}
