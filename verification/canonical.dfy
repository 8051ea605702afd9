/** canonical.py: bounded normalization of JSON values, and the digests taken of it. */
module Canonical {
  import opened Wrappers
  import opened Values

  const MAX_DEPTH: nat := 16
  const MAX_ITEMS: nat := 10_000
  const MAX_STRING: nat := 16_384

  /** The object a ledger record's hash is taken of: its three names are constants, so its fields stand for it. */
  datatype Material = Material(prev: Value, sequence: Value, payload: Value)

  /** Unicode's operations on text, SHA-256 of an object's canonical text, and the length in bytes of a value's
      JSON text. */
  datatype Platform = Platform(
    nfkc: string -> string, casefold: string -> string, sha: Material -> string, size: Value -> nat
  )

  /** Digits, lower-case letters and underscores. */
  predicate Plain(s: string) {
    forall i :: 0 <= i < |s| ==> '0' <= s[i] <= '9' || 'a' <= s[i] <= 'z' || s[i] == '_'
  }

  /** NFKC is idempotent (section 3.11 of the Unicode Standard), neither operation moves plain text, and a
      hexadecimal digest is plain. */
  ghost predicate Sane(p: Platform) {
    && (forall s :: p.nfkc(p.nfkc(s)) == p.nfkc(s))
    && (forall s :: Plain(s) ==> p.nfkc(s) == s && p.casefold(s) == s)
    && (forall m :: Plain(p.sha(m)) && |p.sha(m)| == 64)
  }

  predicate Control(c: char) {
    c < ' ' && c != '\t' && c != '\n' && c != '\r'
  }

  predicate TextAccepted(p: Platform, s: string) {
    |p.nfkc(s)| <= MAX_STRING && forall i :: 0 <= i < |p.nfkc(s)| ==> !Control(p.nfkc(s)[i])
  }

  predicate KeysCollide(p: Platform, a: string, b: string) {
    a != b && p.casefold(p.nfkc(a)) == p.casefold(p.nfkc(b))
  }

  predicate KeysApart(p: Platform, keys: set<string>) {
    forall k, l {:trigger KeysCollide(p, k, l)} :: k in keys && l in keys ==> !KeysCollide(p, k, l)
  }

  /** What normalize accepts at a depth. */
  ghost predicate Accepts(p: Platform, v: Value, depth: nat)
    decreases v
  {
    && depth <= MAX_DEPTH
    && match v
      case Str(s) => TextAccepted(p, s)
      case Arr(items) => |items| <= MAX_ITEMS && forall i :: 0 <= i < |items| ==> Accepts(p, items[i], depth + 1)
      case Obj(fields) =>
        && |fields| <= MAX_ITEMS
        && (fields != map[] ==> depth < MAX_DEPTH)
        && (forall k :: k in fields ==> TextAccepted(p, k))
        && KeysApart(p, fields.Keys)
        && forall k :: k in fields ==> Accepts(p, fields[k], depth + 1)
      case NonFinite => false
      case _ => true
  }

  function NormKeys(p: Platform, keys: set<string>): set<string> {
    set k | k in keys :: p.nfkc(k)
  }

  /** The raw key that a normalized key came from. */
  ghost function RawOf(p: Platform, keys: set<string>, k: string): (raw: string)
    requires k in NormKeys(p, keys)
    ensures raw in keys && p.nfkc(raw) == k
  {
    var raw :| raw in keys && p.nfkc(raw) == k;
    raw
  }

  /** What normalize returns: every text in compatibility form, object keys included. */
  ghost function Norm(p: Platform, v: Value, depth: nat): Value
    requires Accepts(p, v, depth)
    decreases v
  {
    match v
    case Str(s) => Str(p.nfkc(s))
    case Arr(items) => Arr(seq(|items|, i requires 0 <= i < |items| => Norm(p, items[i], depth + 1)))
    case Obj(fields) => Obj(map k | k in NormKeys(p, fields.Keys) :: Norm(p, fields[RawOf(p, fields.Keys, k)], depth + 1))
    case _ => v
  }

  /** The two together: what a call of normalize gives, None where it raises. */
  ghost function Normalized(p: Platform, v: Value, depth: nat): Option<Value> {
    if Accepts(p, v, depth) then Some(Norm(p, v, depth)) else None
  }

  // ---- Normalizing twice ----

  /** A value that normalization accepts and leaves as it is. */
  ghost predicate Normal(p: Platform, v: Value, depth: nat) {
    Normalized(p, v, depth) == Some(v)
  }

  lemma NormText(p: Platform, s: string)
    requires Sane(p) && TextAccepted(p, s)
    ensures TextAccepted(p, p.nfkc(s)) && p.nfkc(p.nfkc(s)) == p.nfkc(s)
  {
  }

  lemma NormedKeyIsNew(p: Platform, rest: set<string>, k: string)
    requires KeysApart(p, rest + {k}) && k !in rest
    ensures p.nfkc(k) !in NormKeys(p, rest)
  {
    assert forall l :: l in rest ==> !KeysCollide(p, k, l);
  }

  lemma FewerApart(p: Platform, keys: set<string>, rest: set<string>)
    requires KeysApart(p, keys) && rest <= keys
    ensures KeysApart(p, rest)
  {
  }

  /** Distinct raw keys stay distinct, so an object keeps its size. */
  lemma {:induction false} KeysKeptApart(p: Platform, keys: set<string>)
    requires KeysApart(p, keys)
    ensures |NormKeys(p, keys)| == |keys|
  {
    if keys != {} {
      var k :| k in keys;
      var rest := keys - {k};
      assert keys == rest + {k};
      FewerApart(p, keys, rest);
      KeysKeptApart(p, rest);
      NormKeysAdd(p, rest, k);
      NormedKeyIsNew(p, rest, k);
    }
  }

  lemma NormedKeys(p: Platform, keys: set<string>)
    requires Sane(p) && forall k :: k in keys ==> TextAccepted(p, k)
    requires KeysApart(p, keys)
    ensures |NormKeys(p, keys)| == |keys|
    ensures forall k :: k in NormKeys(p, keys) ==> p.nfkc(k) == k && TextAccepted(p, k)
    ensures KeysApart(p, NormKeys(p, keys))
  {
    KeysKeptApart(p, keys);
    forall k | k in NormKeys(p, keys) ensures p.nfkc(k) == k && TextAccepted(p, k) {
      NormText(p, RawOf(p, keys, k));
    }
    forall k, l | k in NormKeys(p, keys) && l in NormKeys(p, keys) ensures !KeysCollide(p, k, l) {
      assert !KeysCollide(p, RawOf(p, keys, k), RawOf(p, keys, l));
    }
  }

  /** Normalization is idempotent: what it returns it accepts at the same depth, and returns unchanged. */
  lemma {:induction false} NormIdempotent(p: Platform, v: Value, depth: nat)
    requires Sane(p) && Accepts(p, v, depth)
    ensures Normal(p, Norm(p, v, depth), depth)
    decreases v
  {
    match v
    case Str(s) => NormText(p, s);
    case Arr(items) =>
      forall i | 0 <= i < |items|
        ensures Normal(p, Norm(p, items[i], depth + 1), depth + 1)
      {
        NormIdempotent(p, items[i], depth + 1);
      }
      NormListIdempotent(p, items, depth);
    case Obj(fields) =>
      forall k | k in fields
        ensures Normal(p, Norm(p, fields[k], depth + 1), depth + 1)
      {
        NormIdempotent(p, fields[k], depth + 1);
      }
      NormObjectIdempotent(p, fields, depth);
    case _ =>
  }

  /** A raw key's value is found under its normalized key. */
  lemma NormOf(p: Platform, fields: map<string, Value>, depth: nat, raw: string)
    requires Accepts(p, Obj(fields), depth) && raw in fields
    ensures var normal := Norm(p, Obj(fields), depth).fields;
      p.nfkc(raw) in normal && normal[p.nfkc(raw)] == Norm(p, fields[raw], depth + 1)
  {
    assert !KeysCollide(p, RawOf(p, fields.Keys, p.nfkc(raw)), raw);
  }

  lemma FixedKeys(p: Platform, keys: set<string>)
    requires forall k :: k in keys ==> p.nfkc(k) == k
    ensures NormKeys(p, keys) == keys
  {
  }

  lemma NormFixedAt(p: Platform, fields: map<string, Value>, depth: nat, k: string)
    requires Accepts(p, Obj(fields), depth) && k in fields && p.nfkc(k) == k && Normal(p, fields[k], depth + 1)
    ensures k in Norm(p, Obj(fields), depth).fields && Norm(p, Obj(fields), depth).fields[k] == fields[k]
  {
    NormOf(p, fields, depth, k);
  }

  lemma NormKeysOf(p: Platform, fields: map<string, Value>, depth: nat)
    requires Accepts(p, Obj(fields), depth)
    ensures Norm(p, Obj(fields), depth).Obj? && Norm(p, Obj(fields), depth).fields.Keys == NormKeys(p, fields.Keys)
  {
  }

  lemma NormFieldsFixed(p: Platform, fields: map<string, Value>, depth: nat)
    requires Accepts(p, Obj(fields), depth)
    requires forall k :: k in fields ==> p.nfkc(k) == k && Normal(p, fields[k], depth + 1)
    ensures Norm(p, Obj(fields), depth) == Obj(fields)
  {
    NormKeysOf(p, fields, depth);
    FixedKeys(p, fields.Keys);
    var again := Norm(p, Obj(fields), depth).fields;
    forall k | k in fields ensures k in again && again[k] == fields[k] {
      NormFixedAt(p, fields, depth, k);
    }
    SameFields(again, fields);
  }

  lemma NormFixed(p: Platform, fields: map<string, Value>, depth: nat)
    requires Accepts(p, Obj(fields), depth)
    requires forall k :: k in fields ==> p.nfkc(k) == k && Normal(p, fields[k], depth + 1)
    ensures Normal(p, Obj(fields), depth)
  {
    NormFieldsFixed(p, fields, depth);
  }

  lemma SameFields(a: map<string, Value>, b: map<string, Value>)
    requires a.Keys == b.Keys && forall k :: k in b ==> k in a && a[k] == b[k]
    ensures a == b
  {
  }

  lemma NormListIdempotent(p: Platform, items: seq<Value>, depth: nat)
    requires Accepts(p, Arr(items), depth)
    requires forall i :: 0 <= i < |items| ==> Normal(p, Norm(p, items[i], depth + 1), depth + 1)
    ensures Normal(p, Norm(p, Arr(items), depth), depth)
  {
    var normal := Norm(p, Arr(items), depth).items;
    assert Accepts(p, Arr(normal), depth);
    assert Norm(p, Arr(normal), depth).items == normal;
  }

  lemma NormObjectIdempotent(p: Platform, fields: map<string, Value>, depth: nat)
    requires Sane(p) && Accepts(p, Obj(fields), depth)
    requires forall k :: k in fields ==> Normal(p, Norm(p, fields[k], depth + 1), depth + 1)
    ensures Normal(p, Norm(p, Obj(fields), depth), depth)
  {
    var normal := Norm(p, Obj(fields), depth).fields;
    NormedKeys(p, fields.Keys);
    assert normal.Keys == NormKeys(p, fields.Keys) && |normal.Keys| == |normal|;
    forall k | k in normal ensures Normal(p, normal[k], depth + 1) {
      assert normal[k] == Norm(p, fields[RawOf(p, fields.Keys, k)], depth + 1);
    }
    ObjectAccepted(p, normal, depth);
    NormFixed(p, normal, depth);
  }

  lemma ObjectAccepted(p: Platform, fields: map<string, Value>, depth: nat)
    requires |fields| <= MAX_ITEMS && depth <= MAX_DEPTH && (fields != map[] ==> depth < MAX_DEPTH)
    requires forall k :: k in fields ==> TextAccepted(p, k)
    requires KeysApart(p, fields.Keys)
    requires forall k :: k in fields ==> Accepts(p, fields[k], depth + 1)
    ensures Accepts(p, Obj(fields), depth)
  {
  }

  // ---- Objects with plain keys ----

  lemma PlainText(p: Platform, s: string)
    requires Sane(p) && Plain(s) && |s| <= MAX_STRING
    ensures TextAccepted(p, s) && p.nfkc(s) == s && p.casefold(p.nfkc(s)) == s
  {
  }

  predicate PlainKeys(keys: set<string>) {
    forall k {:trigger k in keys} :: k in keys ==> Plain(k) && |k| <= MAX_STRING
  }

  lemma PlainKeysApart(p: Platform, keys: set<string>)
    requires Sane(p) && PlainKeys(keys)
    ensures KeysApart(p, keys) && forall k :: k in keys ==> TextAccepted(p, k) && p.nfkc(k) == k
  {
    forall k | k in keys ensures TextAccepted(p, k) && p.nfkc(k) == k && p.casefold(p.nfkc(k)) == k {
      PlainText(p, k);
    }
  }

  /** An object with plain keys whose values are normal but for one: that one decides, and is the one to change. */
  lemma OneRawValue(p: Platform, v: Value, depth: nat, key: string)
    requires v.Obj? && Sane(p) && PlainKeys(v.fields.Keys) && |v.fields| <= MAX_ITEMS && depth < MAX_DEPTH && key in v.fields
    requires forall k :: k in v.fields && k != key ==> Normal(p, v.fields[k], depth + 1)
    ensures var normal := Normalized(p, v.fields[key], depth + 1);
      Normalized(p, v, depth) == if normal.Some? then Some(Obj(v.fields[key := normal.value])) else None
  {
    PlainKeysApart(p, v.fields.Keys);
    assert Accepts(p, v, depth) == Accepts(p, v.fields[key], depth + 1);
    if Accepts(p, v, depth) {
      OneRawNorm(p, v.fields, depth, key);
    }
  }

  lemma PlainKeysStay(p: Platform, keys: set<string>)
    requires Sane(p) && PlainKeys(keys)
    ensures NormKeys(p, keys) == keys
  {
    PlainKeysApart(p, keys);
  }

  lemma OneRawAt(p: Platform, fields: map<string, Value>, depth: nat, key: string, k: string)
    requires Sane(p) && PlainKeys(fields.Keys) && Accepts(p, Obj(fields), depth) && key in fields && k in fields
    requires k != key ==> Normal(p, fields[k], depth + 1)
    ensures k in Norm(p, Obj(fields), depth).fields
    ensures Norm(p, Obj(fields), depth).fields[k] == if k == key then Norm(p, fields[key], depth + 1) else fields[k]
  {
    PlainText(p, k);
    NormOf(p, fields, depth, k);
  }

  lemma OneRawNorm(p: Platform, fields: map<string, Value>, depth: nat, key: string)
    requires Sane(p) && PlainKeys(fields.Keys) && Accepts(p, Obj(fields), depth) && key in fields
    requires forall k :: k in fields && k != key ==> Normal(p, fields[k], depth + 1)
    ensures Norm(p, Obj(fields), depth) == Obj(fields[key := Norm(p, fields[key], depth + 1)])
  {
    var normal, raw := Norm(p, Obj(fields), depth).fields, Norm(p, fields[key], depth + 1);
    PlainKeysStay(p, fields.Keys);
    forall k | k in fields ensures k in normal && normal[k] == if k == key then raw else fields[k] {
      OneRawAt(p, fields, depth, key, k);
    }
    SameMap(normal, fields, key, raw);
  }

  lemma SameMap(normal: map<string, Value>, fields: map<string, Value>, key: string, raw: Value)
    requires key in fields && normal.Keys == fields.Keys
    requires forall k :: k in fields ==> k in normal && normal[k] == if k == key then raw else fields[k]
    ensures normal == fields[key := raw]
  {
  }

  // ---- What is accepted, seen from the parts of a value ----

  datatype Step = Item(i: nat) | Field(k: string)

  /** The part of a value that a path of list positions and object keys leads to. */
  function At(v: Value, path: seq<Step>): Option<Value> {
    if path == [] then Some(v)
    else
      match (v, path[0])
      case (Arr(items), Item(i)) => if i < |items| then At(items[i], path[1..]) else None
      case (Obj(fields), Field(k)) => if k in fields then At(fields[k], path[1..]) else None
      case _ => None
  }

  /** In compatibility form the text is short enough, and free of control characters but tab and the line ends. */
  predicate Clean(p: Platform, s: string) {
    var normal := p.nfkc(s);
    |normal| <= 16_384 && forall i :: 0 <= i < |normal| ==> normal[i] as int >= 32 || normal[i] in {'\t', '\n', '\r'}
  }

  /** Nothing about this value itself, at its depth, is to be refused. */
  predicate Sound(p: Platform, v: Value, depth: nat) {
    && depth <= 16 && !v.NonFinite?
    && (v.Str? ==> Clean(p, v.s))
    && (v.Arr? ==> |v.items| <= 10_000)
    && (v.Obj? ==> |v.fields| <= 10_000)
    && (v.Obj? ==> forall k :: k in v.fields ==> depth < 16 && Clean(p, k))
    && (v.Obj? ==> CaselessApart(p, v.fields.Keys))
  }

  predicate CaselessApart(p: Platform, keys: set<string>) {
    forall k, l :: k in keys && l in keys && k != l ==> p.casefold(p.nfkc(k)) != p.casefold(p.nfkc(l))
  }

  ghost predicate SoundThroughout(p: Platform, v: Value, depth: nat) {
    forall path :: At(v, path).Some? ==> Sound(p, At(v, path).value, depth + |path|)
  }

  lemma CleanIsAccepted(p: Platform, s: string)
    ensures Clean(p, s) <==> TextAccepted(p, s)
  {
    forall i | 0 <= i < |p.nfkc(s)|
      ensures Control(p.nfkc(s)[i]) <==> !(p.nfkc(s)[i] as int >= 32 || p.nfkc(s)[i] in {'\t', '\n', '\r'})
    {
    }
  }

  /** A value's own limits, and those of its children. */
  lemma AcceptsHere(p: Platform, v: Value, depth: nat)
    ensures Accepts(p, v, depth) <==>
      && Sound(p, v, depth)
      && (v.Arr? ==> forall i :: 0 <= i < |v.items| ==> Accepts(p, v.items[i], depth + 1))
      && (v.Obj? ==> forall k :: k in v.fields ==> Accepts(p, v.fields[k], depth + 1))
  {
    match v
    case Str(s) => CleanIsAccepted(p, s);
    case Obj(fields) =>
      forall k ensures Clean(p, k) <==> TextAccepted(p, k) {
        CleanIsAccepted(p, k);
      }
      ApartExactly(p, fields.Keys);
    case _ =>
  }

  lemma ApartExactly(p: Platform, keys: set<string>)
    ensures KeysApart(p, keys) <==> CaselessApart(p, keys)
  {
    if CaselessApart(p, keys) {
      forall k, l | k in keys && l in keys ensures !KeysCollide(p, k, l) {
      }
    } else {
      var k, l :| k in keys && l in keys && k != l && p.casefold(p.nfkc(k)) == p.casefold(p.nfkc(l));
      assert KeysCollide(p, k, l);
    }
  }

  lemma ChildSound(p: Platform, v: Value, depth: nat, step: Step, child: Value)
    requires SoundThroughout(p, v, depth) && At(v, [step]) == Some(child)
    ensures SoundThroughout(p, child, depth + 1)
  {
    forall path | At(child, path).Some? ensures Sound(p, At(child, path).value, depth + 1 + |path|) {
      var longer := [step] + path;
      assert longer[0] == step && longer[1..] == path && [step][1..] == [];
      assert At(v, longer) == At(child, path) && |longer| == 1 + |path|;
    }
  }

  lemma PartsSound(p: Platform, v: Value, depth: nat)
    requires SoundThroughout(p, v, depth)
    ensures Sound(p, v, depth)
    ensures v.Arr? ==> forall i :: 0 <= i < |v.items| ==> SoundThroughout(p, v.items[i], depth + 1)
    ensures v.Obj? ==> forall k :: k in v.fields ==> SoundThroughout(p, v.fields[k], depth + 1)
  {
    assert At(v, []) == Some(v);
    if v.Arr? {
      forall i | 0 <= i < |v.items| ensures SoundThroughout(p, v.items[i], depth + 1) {
        assert At(v, [Item(i)]) == At(v.items[i], []);
        ChildSound(p, v, depth, Item(i), v.items[i]);
      }
    } else if v.Obj? {
      forall k | k in v.fields ensures SoundThroughout(p, v.fields[k], depth + 1) {
        assert At(v, [Field(k)]) == At(v.fields[k], []);
        ChildSound(p, v, depth, Field(k), v.fields[k]);
      }
    }
  }

  lemma {:induction false} SoundAccepts(p: Platform, v: Value, depth: nat)
    requires SoundThroughout(p, v, depth)
    ensures Accepts(p, v, depth)
    decreases v
  {
    PartsSound(p, v, depth);
    if v.Arr? {
      forall i | 0 <= i < |v.items| ensures Accepts(p, v.items[i], depth + 1) {
        SoundAccepts(p, v.items[i], depth + 1);
      }
    } else if v.Obj? {
      forall k | k in v.fields ensures Accepts(p, v.fields[k], depth + 1) {
        SoundAccepts(p, v.fields[k], depth + 1);
      }
    }
    AcceptsHere(p, v, depth);
  }

  lemma {:induction false} AcceptsPart(p: Platform, v: Value, depth: nat, path: seq<Step>)
    requires Accepts(p, v, depth) && At(v, path).Some?
    ensures Accepts(p, At(v, path).value, depth + |path|)
    decreases |path|
  {
    if path != [] {
      match path[0]
      case Item(i) => AcceptsPart(p, v.items[i], depth + 1, path[1..]);
      case Field(k) => AcceptsPart(p, v.fields[k], depth + 1, path[1..]);
    }
  }

  lemma PartSound(p: Platform, v: Value, depth: nat, path: seq<Step>)
    requires Accepts(p, v, depth) && At(v, path).Some?
    ensures Sound(p, At(v, path).value, depth + |path|)
  {
    AcceptsPart(p, v, depth, path);
    AcceptsHere(p, At(v, path).value, depth + |path|);
  }

  /** A value is accepted if and only if no part of it, at the depth where it stands, is too deep, too long,
      too large, not finite, an unclean text, or an object two of whose keys differ only in form or case. */
  lemma AcceptedExactly(p: Platform, v: Value, depth: nat)
    ensures Accepts(p, v, depth) <==> SoundThroughout(p, v, depth)
  {
    if Accepts(p, v, depth) {
      forall path | At(v, path).Some? ensures Sound(p, At(v, path).value, depth + |path|) {
        PartSound(p, v, depth, path);
      }
    }
    if SoundThroughout(p, v, depth) {
      SoundAccepts(p, v, depth);
    }
  }

  function NormPath(p: Platform, path: seq<Step>): seq<Step> {
    if path == [] then [] else [if path[0].Field? then Field(p.nfkc(path[0].k)) else path[0]] + NormPath(p, path[1..])
  }

  /** The same value but for the form of its texts: a text in compatibility form, any other leaf as it was, a
      list or object of as many parts. */
  ghost predicate NormalFormOf(p: Platform, v: Value, w: Value) {
    match v
    case Str(s) => w == Str(p.nfkc(s))
    case Arr(items) => w.Arr? && |w.items| == |items|
    case Obj(fields) =>
      && w.Obj? && |w.fields| == |fields|
      && forall k :: k in w.fields <==> exists raw :: raw in fields && p.nfkc(raw) == k
    case _ => w == v
  }

  lemma NormForm(p: Platform, v: Value, depth: nat)
    requires Accepts(p, v, depth)
    ensures NormalFormOf(p, v, Norm(p, v, depth))
  {
    if v.Obj? {
      NormKeysOf(p, v.fields, depth);
      KeysKeptApart(p, v.fields.Keys);
      assert |Norm(p, v, depth).fields| == |Norm(p, v, depth).fields.Keys| && |v.fields| == |v.fields.Keys|;
    }
  }

  /** Every part of a value stands normalized in the normalized value, at the same place under normalized keys. */
  lemma {:induction false} NormKeepsParts(p: Platform, v: Value, depth: nat, path: seq<Step>)
    requires Accepts(p, v, depth) && At(v, path).Some?
    ensures At(Norm(p, v, depth), NormPath(p, path)).Some?
    ensures NormalFormOf(p, At(v, path).value, At(Norm(p, v, depth), NormPath(p, path)).value)
    decreases |path|
  {
    if path == [] {
      NormForm(p, v, depth);
    } else {
      var rest := NormPath(p, path[1..]);
      assert NormPath(p, path)[1..] == rest;
      match path[0]
      case Item(i) => NormKeepsParts(p, v.items[i], depth + 1, path[1..]);
      case Field(k) =>
        NormKeepsParts(p, v.fields[k], depth + 1, path[1..]);
        NormOf(p, v.fields, depth, k);
    }
  }

  // ---- The recursion and its loops ----

  method Normalize(p: Platform, v: Value, depth: nat) returns (r: Option<Value>)
    ensures r == Normalized(p, v, depth)
    decreases v, 2
  {
    if depth > MAX_DEPTH {
      return None;
    }
    match v
    case NonFinite => return None;
    case Str(s) => return if TextAccepted(p, s) then Some(Str(p.nfkc(s))) else None;
    case Arr(items) => r := NormalizeItems(p, v, depth);
    case Obj(fields) => r := NormalizeFields(p, v, depth);
    case _ => return Some(v);
  }

  method NormalizeItems(p: Platform, v: Value, depth: nat) returns (r: Option<Value>)
    requires v.Arr? && depth <= MAX_DEPTH
    ensures r == Normalized(p, v, depth)
    decreases v, 0
  {
    if |v.items| > MAX_ITEMS {
      return None;
    }
    var normal := [];
    for i := 0 to |v.items|
      invariant |normal| == i
      invariant forall j :: 0 <= j < i ==> Accepts(p, v.items[j], depth + 1) && normal[j] == Norm(p, v.items[j], depth + 1)
    {
      var item := Normalize(p, v.items[i], depth + 1);
      if item.None? {
        return None;
      }
      normal := normal + [item.value];
    }
    assert normal == Norm(p, v, depth).items;
    return Some(Arr(normal));
  }

  /** No two of the keys collide, and their caseless forms are the ones seen. */
  ghost predicate KeysPassed(p: Platform, done: set<string>, seen: set<string>) {
    && (forall k :: k in done ==> TextAccepted(p, k))
    && KeysApart(p, done)
    && seen == set k | k in done :: p.casefold(p.nfkc(k))
  }

  lemma PassKey(p: Platform, done: set<string>, seen: set<string>, k: string)
    requires KeysPassed(p, done, seen) && k !in done
    ensures p.casefold(p.nfkc(k)) in seen <==> exists l :: l in done && KeysCollide(p, k, l)
    ensures TextAccepted(p, k) && p.casefold(p.nfkc(k)) !in seen ==> KeysPassed(p, done + {k}, seen + {p.casefold(p.nfkc(k))})
  {
  }

  /** Each key's value was accepted, and stands normalized under the normalized key. */
  ghost predicate ValuesPassed(p: Platform, fields: map<string, Value>, depth: nat, done: set<string>, normal: map<string, Value>)
    requires done <= fields.Keys
  {
    && normal.Keys == NormKeys(p, done)
    && forall k :: k in done ==> Accepts(p, fields[k], depth) && normal[p.nfkc(k)] == Norm(p, fields[k], depth)
  }

  lemma PassValue(p: Platform, fields: map<string, Value>, depth: nat, done: set<string>, normal: map<string, Value>, k: string)
    requires done <= fields.Keys && k in fields && ValuesPassed(p, fields, depth, done, normal)
    requires Accepts(p, fields[k], depth) && forall l :: l in done ==> p.nfkc(l) != p.nfkc(k)
    ensures ValuesPassed(p, fields, depth, done + {k}, normal[p.nfkc(k) := Norm(p, fields[k], depth)])
  {
    NormKeysAdd(p, done, k);
  }

  lemma NormKeysAdd(p: Platform, keys: set<string>, k: string)
    ensures NormKeys(p, keys + {k}) == NormKeys(p, keys) + {p.nfkc(k)}
  {
  }

  /** The loop's early exits. */
  lemma KeyRefused(p: Platform, v: Value, depth: nat, k: string)
    requires v.Obj? && k in v.fields
    requires depth >= MAX_DEPTH || !TextAccepted(p, k) || !Accepts(p, v.fields[k], depth + 1)
      || exists l :: l in v.fields && KeysCollide(p, k, l)
    ensures !Accepts(p, v, depth)
  {
  }

  /** One key of the loop: refused, or passed. */
  lemma PassOne(p: Platform, v: Value, depth: nat, done: set<string>, normal: map<string, Value>, seen: set<string>, k: string)
    requires v.Obj? && done <= v.fields.Keys && k in v.fields && k !in done
    requires KeysPassed(p, done, seen) && ValuesPassed(p, v.fields, depth + 1, done, normal)
    ensures var refused := depth >= MAX_DEPTH || !TextAccepted(p, k) || p.casefold(p.nfkc(k)) in seen || !Accepts(p, v.fields[k], depth + 1);
      && (refused ==> !Accepts(p, v, depth))
      && (!refused ==>
        && KeysPassed(p, done + {k}, seen + {p.casefold(p.nfkc(k))})
        && ValuesPassed(p, v.fields, depth + 1, done + {k}, normal[p.nfkc(k) := Norm(p, v.fields[k], depth + 1)]))
  {
    PassKey(p, done, seen, k);
    if depth >= MAX_DEPTH || !TextAccepted(p, k) || p.casefold(p.nfkc(k)) in seen || !Accepts(p, v.fields[k], depth + 1) {
      KeyRefused(p, v, depth, k);
    } else {
      PassValue(p, v.fields, depth + 1, done, normal, k);
    }
  }

  lemma Finish(p: Platform, fields: map<string, Value>, depth: nat, normal: map<string, Value>, seen: set<string>)
    requires |fields| <= MAX_ITEMS && depth <= MAX_DEPTH && (fields != map[] ==> depth < MAX_DEPTH)
    requires KeysPassed(p, fields.Keys, seen) && ValuesPassed(p, fields, depth + 1, fields.Keys, normal)
    ensures Accepts(p, Obj(fields), depth) && Norm(p, Obj(fields), depth) == Obj(normal)
  {
    ObjectAccepted(p, fields, depth);
    PassedAll(p, fields, depth, normal);
  }

  lemma PassedAt(p: Platform, fields: map<string, Value>, depth: nat, normal: map<string, Value>, k: string)
    requires Accepts(p, Obj(fields), depth) && ValuesPassed(p, fields, depth + 1, fields.Keys, normal) && k in normal
    ensures k in Norm(p, Obj(fields), depth).fields && Norm(p, Obj(fields), depth).fields[k] == normal[k]
  {
    var raw := RawOf(p, fields.Keys, k);
    NormOf(p, fields, depth, raw);
  }

  lemma PassedAll(p: Platform, fields: map<string, Value>, depth: nat, normal: map<string, Value>)
    requires Accepts(p, Obj(fields), depth) && ValuesPassed(p, fields, depth + 1, fields.Keys, normal)
    ensures Norm(p, Obj(fields), depth) == Obj(normal)
  {
    NormKeysOf(p, fields, depth);
    var expected := Norm(p, Obj(fields), depth).fields;
    forall k | k in normal ensures k in expected && expected[k] == normal[k] {
      PassedAt(p, fields, depth, normal, k);
    }
    SameFields(expected, normal);
  }

  lemma SubsetSize(part: set<string>, whole: set<string>)
    requires part <= whole
    ensures |part| <= |whole|
  {
    assert whole == part + (whole - part);
  }

  /** One turn of the dictionary loop: None to refuse the object, or the longer result and caseless keys. */
  method NormalizeKey(p: Platform, v: Value, depth: nat, ghost done: set<string>, normal: map<string, Value>, seen: set<string>, k: string)
    returns (r: Option<(map<string, Value>, set<string>)>)
    requires v.Obj? && depth <= MAX_DEPTH && done <= v.fields.Keys && k in v.fields && k !in done
    requires KeysPassed(p, done, seen) && ValuesPassed(p, v.fields, depth + 1, done, normal)
    ensures r.None? ==> !Accepts(p, v, depth)
    ensures r.Some? ==> depth < MAX_DEPTH && KeysPassed(p, done + {k}, r.value.1)
    ensures r.Some? ==> ValuesPassed(p, v.fields, depth + 1, done + {k}, r.value.0)
    decreases v, 0
  {
    var caseless := p.casefold(p.nfkc(k));
    PassOne(p, v, depth, done, normal, seen, k);
    if depth + 1 > MAX_DEPTH || !TextAccepted(p, k) || caseless in seen {
      return None;
    }
    var item := Normalize(p, v.fields[k], depth + 1);
    if item.None? {
      return None;
    }
    return Some((normal[p.nfkc(k) := item.value], seen + {caseless}));
  }

  /** The dictionary branch keeps the keys it has seen in caseless form, and stops at a collision. */
  method NormalizeFields(p: Platform, v: Value, depth: nat) returns (r: Option<Value>)
    requires v.Obj? && depth <= MAX_DEPTH
    ensures r == Normalized(p, v, depth)
    decreases v, 1
  {
    if |v.fields| > MAX_ITEMS {
      return None;
    }
    var normal: map<string, Value> := map[];
    var seen: set<string> := {};
    var done: set<string> := {};
    while done != v.fields.Keys
      invariant done <= v.fields.Keys && (done != {} ==> depth < MAX_DEPTH)
      invariant KeysPassed(p, done, seen)
      invariant ValuesPassed(p, v.fields, depth + 1, done, normal)
      decreases |v.fields.Keys| - |done|
    {
      var k :| k in v.fields && k !in done;
      var next := NormalizeKey(p, v, depth, done, normal, seen, k);
      if next.None? {
        return None;
      }
      SubsetSize(done + {k}, v.fields.Keys);
      normal, seen, done := next.value.0, next.value.1, done + {k};
    }
    Finish(p, v.fields, depth, normal, seen);
    return Some(Obj(normal));
  }
}
