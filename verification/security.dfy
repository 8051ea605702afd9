/** security.py: `scrub`, which bounds a payload and redacts credential-shaped fields before it is stored. */
module Security {
  import opened Wrappers
  import opened Json

  const SCRUB_DEPTH: nat := 6
  const SCRUB_ITEMS: nat := 100
  const SCRUB_KEY: nat := 120
  const SCRUB_TEXT: nat := 4000

  const REDACTED := Str("[REDACTED]")

  function Min(a: nat, b: nat): nat {
    if a <= b then a else b
  }

  function Take(s: string, n: nat): string {
    s[..Min(|s|, n)]
  }

  function DropNul(s: string): string {
    if s == "" then "" else (if s[0] == '\0' then "" else [s[0]]) + DropNul(s[1..])
  }

  function ScrubText(s: string): string {
    Take(DropNul(s), SCRUB_TEXT)
  }

  function Scrub(py: Runtime, v: Json, depth: nat): Json
    decreases v, 0
  {
    if depth > SCRUB_DEPTH then Str("[MAX_DEPTH]")
    else match v
      case Obj(fields) => Obj(ScrubFields(py, v, Min(|fields|, SCRUB_ITEMS), depth))
      case Arr(items) =>
        Arr(seq(Min(|items|, SCRUB_ITEMS), i requires 0 <= i < Min(|items|, SCRUB_ITEMS) => Scrub(py, items[i], depth + 1)))
      case Str(s) => Str(ScrubText(s))
      case _ => v
  }

  /** The value stored under a (bounded) key. */
  function ScrubEntry(py: Runtime, key: string, v: Json, depth: nat): Json
    decreases v, 1
  {
    if py.secretKey(key) then REDACTED else Scrub(py, v, depth + 1)
  }

  /** The dict after the first n items of the mapping v have been copied. */
  function ScrubFields(py: Runtime, v: Json, n: nat, depth: nat): seq<Field>
    requires v.Obj? && n <= |v.fields|
    decreases v, 0, n
  {
    if n == 0 then []
    else
      var key := Take(v.fields[n - 1].key, SCRUB_KEY);
      Put(ScrubFields(py, v, n - 1, depth), key, ScrubEntry(py, key, v.fields[n - 1].value, depth))
  }

  // ---- What scrubbing achieves ----

  /** A payload fit for persistence at this depth: bounded text, lists, mappings and nesting, and nothing
      but the marker under a credential-shaped key. */
  ghost predicate Storable(py: Runtime, v: Json, depth: nat)
    decreases v, 0
  {
    if depth > SCRUB_DEPTH then v == Str("[MAX_DEPTH]")
    else match v
      case Obj(fields) =>
        && |fields| <= SCRUB_ITEMS && UniqueKeys(fields)
        && forall f :: f in fields ==> StorableField(py, f, depth)
      case Arr(items) => |items| <= SCRUB_ITEMS && forall x :: x in items ==> Storable(py, x, depth + 1)
      case Str(s) => |s| <= SCRUB_TEXT && '\0' !in s
      case _ => true
  }

  ghost predicate StorableField(py: Runtime, f: Field, depth: nat)
    decreases f.value, 1
  {
    |f.key| <= SCRUB_KEY && if py.secretKey(f.key) then f.value == REDACTED else Storable(py, f.value, depth + 1)
  }

  lemma {:induction false} DropNulLeavesNone(s: string)
    ensures '\0' !in DropNul(s)
  {
    if s != "" {
      DropNulLeavesNone(s[1..]);
    }
  }

  lemma {:induction false} DropNulFixed(s: string)
    requires '\0' !in s
    ensures DropNul(s) == s
  {
    if s != "" {
      DropNulFixed(s[1..]);
    }
  }

  lemma PutKeepsUniqueKeys(fields: seq<Field>, key: string, value: Json)
    requires UniqueKeys(fields)
    ensures UniqueKeys(Put(fields, key, value))
    ensures |Put(fields, key, value)| <= |fields| + 1
    ensures forall f :: f in Put(fields, key, value) ==> f in fields || f == Field(key, value)
  {
  }

  lemma PutNewKey(fields: seq<Field>, key: string, value: Json)
    requires forall i :: 0 <= i < |fields| ==> fields[i].key != key
    ensures Put(fields, key, value) == fields + [Field(key, value)]
  {
  }

  lemma {:induction false} ScrubFieldsStorable(py: Runtime, v: Json, n: nat, depth: nat)
    requires v.Obj? && n <= |v.fields|
    ensures var r := ScrubFields(py, v, n, depth);
      && |r| <= n && UniqueKeys(r)
      && forall f :: f in r ==> StorableField(py, f, depth)
    decreases v, 0, n
  {
    if n > 0 {
      ScrubFieldsStorable(py, v, n - 1, depth);
      var key := Take(v.fields[n - 1].key, SCRUB_KEY);
      ScrubStorable(py, v.fields[n - 1].value, depth + 1);
      PutKeepsUniqueKeys(ScrubFields(py, v, n - 1, depth), key, ScrubEntry(py, key, v.fields[n - 1].value, depth));
    }
  }

  /** Whatever comes in, what `scrub` returns is fit for persistence. */
  lemma {:induction false} ScrubStorable(py: Runtime, v: Json, depth: nat)
    ensures Storable(py, Scrub(py, v, depth), depth)
    decreases v, 0
  {
    if depth <= SCRUB_DEPTH {
      match v
      case Obj(fields) => ScrubFieldsStorable(py, v, Min(|fields|, SCRUB_ITEMS), depth);
      case Arr(items) =>
        forall i | 0 <= i < Min(|items|, SCRUB_ITEMS) ensures Storable(py, Scrub(py, items[i], depth + 1), depth + 1) {
          ScrubStorable(py, items[i], depth + 1);
        }
      case Str(s) => DropNulLeavesNone(s);
      case _ =>
    }
  }

  lemma PutNext(fields: seq<Field>, n: nat)
    requires n < |fields| && UniqueKeys(fields)
    ensures Put(fields[..n], fields[n].key, fields[n].value) == fields[..n + 1]
  {
    PutNewKey(fields[..n], fields[n].key, fields[n].value);
    assert fields[..n + 1] == fields[..n] + [fields[n]];
  }

  lemma {:induction false} StorableFieldsKept(py: Runtime, w: Json, n: nat, depth: nat)
    requires w.Obj? && n <= |w.fields| && depth <= SCRUB_DEPTH && Storable(py, w, depth)
    ensures ScrubFields(py, w, n, depth) == w.fields[..n]
    decreases w, 0, n
  {
    if n > 0 {
      StorableFieldsKept(py, w, n - 1, depth);
      var f := w.fields[n - 1];
      assert f in w.fields && StorableField(py, f, depth);
      if !py.secretKey(f.key) {
        StorableKept(py, f.value, depth + 1);
      }
      assert ScrubEntry(py, f.key, f.value, depth) == f.value;
      PutNext(w.fields, n - 1);
      assert Take(f.key, SCRUB_KEY) == f.key;
    }
  }

  /** ... and what is already fit passes through untouched: nothing else is lost. */
  lemma {:induction false} StorableKept(py: Runtime, v: Json, depth: nat)
    requires Storable(py, v, depth)
    ensures Scrub(py, v, depth) == v
    decreases v, 0
  {
    if depth <= SCRUB_DEPTH {
      match v
      case Obj(fields) =>
        StorableFieldsKept(py, v, |fields|, depth);
        assert fields[..|fields|] == fields;
      case Arr(items) =>
        forall i | 0 <= i < |items| ensures Scrub(py, items[i], depth + 1) == items[i] {
          assert items[i] in items;
          StorableKept(py, items[i], depth + 1);
        }
        assert Scrub(py, v, depth).items == items;
      case Str(s) => DropNulFixed(s);
      case _ =>
    }
  }

  /** Scrub's fixed points are exactly the storable values, and one pass reaches them: the result that
      was validated is the one that is stored, audited and scrubbed again when it is synchronized. */
  lemma ScrubIdempotent(py: Runtime, v: Json, depth: nat)
    ensures Scrub(py, Scrub(py, v, depth), depth) == Scrub(py, v, depth)
    ensures Scrub(py, v, depth) == v <==> Storable(py, v, depth)
  {
    ScrubStorable(py, v, depth);
    StorableKept(py, Scrub(py, v, depth), depth);
    if Storable(py, v, depth) {
      StorableKept(py, v, depth);
    }
  }

  lemma PutThenGet(fields: seq<Field>, key: string, value: Json, other: string)
    ensures Get(Obj(Put(fields, key, value)), key) == Some(value)
    ensures other != key ==> Get(Obj(Put(fields, key, value)), other) == Get(Obj(fields), other)
  {
    var after := Put(fields, key, value);
    IndexOfIs(after, key, IndexOf(fields, key));
    if other != key {
      if IndexOf(fields, other) < |fields| {
        IndexOfIs(after, other, IndexOf(fields, other));
      }
    }
  }

  lemma IndexOfIs(fields: seq<Field>, key: string, k: nat)
    requires k < |fields| && fields[k].key == key
    requires forall j :: 0 <= j < k ==> fields[j].key != key
    ensures IndexOf(fields, key) == k
  {
  }

  /** The last entry under a key is the one that survives, scrubbed. */
  lemma {:induction false} ScrubFieldsGet(py: Runtime, v: Json, n: nat, i: nat, depth: nat)
    requires v.Obj? && i < n <= |v.fields| && |v.fields[i].key| <= SCRUB_KEY
    requires forall j :: i < j < n ==> Take(v.fields[j].key, SCRUB_KEY) != v.fields[i].key
    ensures Get(Obj(ScrubFields(py, v, n, depth)), v.fields[i].key)
      == Some(ScrubEntry(py, v.fields[i].key, v.fields[i].value, depth))
  {
    var f := v.fields[n - 1];
    var key := Take(f.key, SCRUB_KEY);
    PutThenGet(ScrubFields(py, v, n - 1, depth), key, ScrubEntry(py, key, f.value, depth), v.fields[i].key);
    if i < n - 1 {
      ScrubFieldsGet(py, v, n - 1, i, depth);
    }
  }

  /** What a scrubbed dict of at most a hundred items holds under an ordinary key. */
  lemma ScrubGet(py: Runtime, v: Json, i: nat, depth: nat)
    requires v.Obj? && i < |v.fields| <= SCRUB_ITEMS && depth <= SCRUB_DEPTH && |v.fields[i].key| <= SCRUB_KEY
    requires forall j :: i < j < |v.fields| ==> Take(v.fields[j].key, SCRUB_KEY) != v.fields[i].key
    requires !py.secretKey(v.fields[i].key)
    ensures Get(Scrub(py, v, depth), v.fields[i].key) == Some(Scrub(py, v.fields[i].value, depth + 1))
  {
    ScrubFieldsGet(py, v, |v.fields|, i, depth);
  }

  // ---- What is cut and what is kept ----

  /** Text is scrubbed piece by piece, so every character but NUL is kept, in order. */
  lemma {:induction false} DropNulConcat(a: string, b: string)
    ensures DropNul(a + b) == DropNul(a) + DropNul(b)
  {
    if a == "" {
      assert a + b == b;
    } else {
      DropNulConcat(a[1..], b);
      DropNulFirst(a);
      DropNulFirst(a + b);
      assert (a + b)[1..] == a[1..] + b && (a + b)[0] == a[0];
      Associates(if a[0] == '\0' then "" else [a[0]], DropNul(a[1..]), DropNul(b));
    }
  }

  lemma DropNulFirst(s: string)
    requires s != ""
    ensures DropNul(s) == (if s[0] == '\0' then "" else [s[0]]) + DropNul(s[1..])
  {
  }

  lemma Associates(a: string, b: string, c: string)
    ensures (a + b) + c == a + (b + c)
  {
  }

  /** A text loses its NULs and what lies past four thousand characters; a scalar stays; past the sixth level there
      is a marker. */
  lemma ScrubLeaf(py: Runtime, v: Json, depth: nat)
    ensures depth > 6 ==> Scrub(py, v, depth) == Str("[MAX_DEPTH]")
    ensures depth <= 6 && !v.Obj? && !v.Arr? && !v.Str? ==> Scrub(py, v, depth) == v
    ensures depth <= 6 && v.Str? ==>
      var t := DropNul(v.s); Scrub(py, v, depth) == Str(if |t| <= 4000 then t else t[..4000])
    ensures DropNul("\0") == ""
  {
  }

  /** A list keeps its first hundred items, scrubbed one level down. */
  lemma ScrubList(py: Runtime, v: Json, depth: nat)
    requires v.Arr? && depth <= 6
    ensures var r := Scrub(py, v, depth);
      && r.Arr? && |r.items| == (if |v.items| <= 100 then |v.items| else 100)
      && forall i :: 0 <= i < |r.items| ==> r.items[i] == Scrub(py, v.items[i], depth + 1)
  {
  }

  /** Under a credential-shaped key a scrubbed dict holds the marker, whatever was there. */
  lemma ScrubRedacts(py: Runtime, v: Json, i: nat, depth: nat)
    requires v.Obj? && i < |v.fields| <= SCRUB_ITEMS && depth <= SCRUB_DEPTH && |v.fields[i].key| <= SCRUB_KEY
    requires forall j :: i < j < |v.fields| ==> Take(v.fields[j].key, SCRUB_KEY) != v.fields[i].key
    requires py.secretKey(v.fields[i].key)
    ensures Get(Scrub(py, v, depth), v.fields[i].key) == Some(Str("[REDACTED]"))
  {
    ScrubFieldsGet(py, v, |v.fields|, i, depth);
  }

  /** The source's own shape: a loop that fills a dict, a comprehension over a list. */
  method ScrubValue(py: Runtime, v: Json, depth: nat) returns (r: Json)
    ensures r == Scrub(py, v, depth)
    decreases v
  {
    if depth > SCRUB_DEPTH {
      return Str("[MAX_DEPTH]");
    }
    match v {
      case Obj(fields) =>
        var result: seq<Field> := [];
        var n := Min(|fields|, SCRUB_ITEMS);
        for i := 0 to n
          invariant result == ScrubFields(py, v, i, depth)
        {
          var key := Take(fields[i].key, SCRUB_KEY);
          var entry := REDACTED;
          if !py.secretKey(key) {
            entry := ScrubValue(py, fields[i].value, depth + 1);
          }
          result := Put(result, key, entry);
        }
        return Obj(result);
      case Arr(items) =>
        var result: seq<Json> := [];
        var n := Min(|items|, SCRUB_ITEMS);
        for i := 0 to n
          invariant |result| == i
          invariant forall j :: 0 <= j < i ==> result[j] == Scrub(py, items[j], depth + 1)
        {
          var item := ScrubValue(py, items[i], depth + 1);
          result := result + [item];
        }
        return Arr(result);
      case Str(s) => return Str(ScrubText(s));
      case _ => return v;
    }
  }
}
