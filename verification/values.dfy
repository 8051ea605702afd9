/** JSON values where the order of an object's keys does not matter: canonical text sorts them. */
module Values {
  import opened Wrappers

  datatype Value =
    | Null
    | Bool(b: bool)
    | Int(i: int)
    | Float(f: real)
    | NonFinite // NaN or an infinity
    | Str(s: string)
    | Arr(items: seq<Value>)
    | Obj(fields: map<string, Value>)

  /** The number that a bool, int or float compares as. */
  function Numeric(v: Value): Option<real> {
    match v
    case Bool(b) => Some(if b then 1.0 else 0.0)
    case Int(i) => Some(i as real)
    case Float(f) => Some(f)
    case _ => None
  }

  /** Python's truth value. */
  predicate Truthy(v: Value) {
    match v
    case Null => false
    case Bool(b) => b
    case Int(i) => i != 0
    case Float(f) => f != 0.0
    case NonFinite => true
    case Str(s) => s != ""
    case Arr(items) => items != []
    case Obj(fields) => fields.Keys != {}
  }

  lemma TruthyExactly(v: Value)
    ensures Truthy(v) <==>
      v != Null && v != Bool(false) && v != Int(0) && v != Float(0.0) && v != Str("") && v != Arr([]) && v != Obj(map[])
  {
    assert v.Obj? ==> (v.fields.Keys == {} <==> v.fields == map[]);
  }

  /** Python's ==. */
  predicate PyEq(a: Value, b: Value)
    decreases a
  {
    if Numeric(a).Some? || Numeric(b).Some? then Numeric(a) == Numeric(b)
    else match (a, b)
      case (Arr(xs), Arr(ys)) => |xs| == |ys| && forall i :: 0 <= i < |xs| ==> PyEq(xs[i], ys[i])
      case (Obj(f), Obj(g)) => f.Keys == g.Keys && forall k :: k in f ==> PyEq(f[k], g[k])
      case _ => a == b && !a.NonFinite?
  }

  function Lower(c: char): char {
    if 'A' <= c <= 'Z' then c - 'A' + 'a' else c
  }

  /** casefold, on ASCII text. */
  function Fold(s: string): string {
    seq(|s|, i requires 0 <= i < |s| => Lower(s[i]))
  }

  /** What == means between values of one kind. */
  lemma PyEqExactly(a: Value, b: Value)
    ensures a.Str? || a.Null? ==> (PyEq(a, b) <==> b == a)
    ensures Numeric(a).Some? && Numeric(b).Some? ==> (PyEq(a, b) <==> Numeric(a) == Numeric(b))
    ensures Numeric(a).Some? != Numeric(b).Some? ==> !PyEq(a, b)
    ensures a.Arr? && b.Arr? ==>
      (PyEq(a, b) <==> |a.items| == |b.items| && forall i :: 0 <= i < |a.items| ==> PyEq(a.items[i], b.items[i]))
  {
  }

  /** Casefolding lowers the ASCII capitals and leaves the rest. */
  lemma FoldExactly(s: string)
    ensures |Fold(s)| == |s|
    ensures forall i :: 0 <= i < |s| ==>
      Fold(s)[i] == (if 'A' <= s[i] <= 'Z' then (s[i] as int + 32) as char else s[i])
  {
  }
}
