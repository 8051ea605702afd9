/** models.py: the timestamp text that the evidence store compares, against the instants it stands for. */
module Timestamps {

  // ---- Text comparison (SQLite's BINARY collation on ASCII) ----

  predicate TextLess(a: string, b: string) {
    b != [] && (a == [] || a[0] < b[0] || (a[0] == b[0] && TextLess(a[1..], b[1..])))
  }

  lemma {:induction false} TextTrichotomy(a: string, b: string)
    ensures TextLess(a, b) || a == b || TextLess(b, a)
    ensures !(TextLess(a, b) && TextLess(b, a)) && !TextLess(a, a)
  {
    if a != [] && b != [] {
      TextTrichotomy(a[1..], b[1..]);
      assert a == [a[0]] + a[1..] && b == [b[0]] + b[1..];
    }
    if a != [] {
      TextTrichotomy(a[1..], a[1..]);
    }
  }

  lemma {:induction false} TextTransitive(a: string, b: string, c: string)
    requires TextLess(a, b) && TextLess(b, c)
    ensures TextLess(a, c)
  {
    if a != [] && a[0] == b[0] == c[0] {
      TextTransitive(a[1..], b[1..], c[1..]);
    }
  }

  /** Fixed-width fields compare one after the other. */
  lemma {:induction false} FieldThenRest(x: string, y: string, s: string, t: string)
    requires |x| == |y|
    ensures TextLess(x + s, y + t) <==> TextLess(x, y) || (x == y && TextLess(s, t))
  {
    if x == [] {
      assert x + s == s && y + t == t;
    } else {
      FieldThenRest(x[1..], y[1..], s, t);
      assert (x + s)[1..] == x[1..] + s && (y + t)[1..] == y[1..] + t;
      assert x == [x[0]] + x[1..] && y == [y[0]] + y[1..];
    }
  }

  // ---- isoformat ----

  /** A number in decimal, zero-padded to a width it fits. */
  function Digits(n: nat, width: nat): (s: string)
    ensures |s| == width
  {
    if width == 0 then "" else Digits(n / 10, width - 1) + [('0' as int + n % 10) as char]
  }

  function Power10(k: nat): (p: nat)
    ensures p > 0
  {
    if k == 0 then 1 else 10 * Power10(k - 1)
  }

  lemma {:induction false} DigitsOrder(m: nat, n: nat, width: nat)
    requires m < Power10(width) && n < Power10(width)
    ensures TextLess(Digits(m, width), Digits(n, width)) <==> m < n
    ensures Digits(m, width) == Digits(n, width) <==> m == n
  {
    if width > 0 {
      DigitsOrder(m / 10, n / 10, width - 1);
      var c, d := [('0' as int + m % 10) as char], [('0' as int + n % 10) as char];
      FieldThenRest(Digits(m / 10, width - 1), Digits(n / 10, width - 1), c, d);
      assert TextLess(c, d) <==> m % 10 < n % 10;
      assert m == 10 * (m / 10) + m % 10 && n == 10 * (n / 10) + n % 10;
      var x, y := Digits(m, width), Digits(n, width);
      assert x[..width - 1] == Digits(m / 10, width - 1) && y[..width - 1] == Digits(n / 10, width - 1);
      assert x[width - 1] == c[0] && y[width - 1] == d[0];
    }
  }

  /** A UTC datetime. */
  datatype Civil = Civil(year: nat, month: nat, day: nat, hour: nat, minute: nat, second: nat, micro: nat)

  predicate InRange(c: Civil) {
    c.year < 10000 && c.month < 100 && c.day < 100 && c.hour < 100 && c.minute < 100 && c.second < 100 && c.micro < 1000000
  }

  /** isoformat().replace("+00:00", "Z"): a fraction appears only when there is one. */
  function Text(c: Civil): string {
    Digits(c.year, 4) + ("-" + (Digits(c.month, 2) + ("-" + (Digits(c.day, 2) + ("T" + (Digits(c.hour, 2) + (":" +
      (Digits(c.minute, 2) + (":" + (Digits(c.second, 2) + Fraction(c.micro)))))))))))
  }

  function Fraction(micro: nat): string {
    if micro == 0 then "Z" else "." + (Digits(micro, 6) + "Z")
  }

  predicate SameSecond(a: Civil, b: Civil) {
    a.year == b.year && a.month == b.month && a.day == b.day && a.hour == b.hour && a.minute == b.minute && a.second == b.second
  }

  /** datetime's own order. */
  predicate Earlier(a: Civil, b: Civil) {
    if a.year != b.year then a.year < b.year
    else if a.month != b.month then a.month < b.month
    else if a.day != b.day then a.day < b.day
    else if a.hour != b.hour then a.hour < b.hour
    else if a.minute != b.minute then a.minute < b.minute
    else if a.second != b.second then a.second < b.second
    else a.micro < b.micro
  }

  lemma NumberThenRest(m: nat, n: nat, width: nat, s: string, t: string)
    requires m < Power10(width) && n < Power10(width)
    ensures TextLess(Digits(m, width) + s, Digits(n, width) + t) <==> m < n || (m == n && TextLess(s, t))
  {
    DigitsOrder(m, n, width);
    FieldThenRest(Digits(m, width), Digits(n, width), s, t);
  }

  lemma SeparatorThenRest(separator: string, s: string, t: string)
    ensures TextLess(separator + s, separator + t) <==> TextLess(s, t)
  {
    FieldThenRest(separator, separator, s, t);
    TextTrichotomy(separator, separator);
  }

  lemma FractionOrder(m: nat, n: nat)
    requires m < 1000000 && n < 1000000
    ensures TextLess(Fraction(m), Fraction(n)) <==> if m == 0 || n == 0 then m != 0 else m < n
  {
    assert Power10(6) == 1000000;
    if m != 0 && n != 0 {
      SeparatorThenRest(".", Digits(m, 6) + "Z", Digits(n, 6) + "Z");
      NumberThenRest(m, n, 6, "Z", "Z");
      TextTrichotomy("Z", "Z");
    }
  }

  /** The stored text sorts as time does, except that within one second an instant with a fraction sorts
      before the instant without one: exactly then do text and time disagree. */
  lemma TextOrder(a: Civil, b: Civil)
    requires InRange(a) && InRange(b)
    ensures TextLess(Text(a), Text(b)) <==>
      if SameSecond(a, b) && (a.micro == 0) != (b.micro == 0) then Earlier(b, a) else Earlier(a, b)
  {
    assert Power10(2) == 100 && Power10(4) == 10000;
    var a6, b6 := Fraction(a.micro), Fraction(b.micro);
    var a5, b5 := Digits(a.second, 2) + a6, Digits(b.second, 2) + b6;
    var a4, b4 := Digits(a.minute, 2) + (":" + a5), Digits(b.minute, 2) + (":" + b5);
    var a3, b3 := Digits(a.hour, 2) + (":" + a4), Digits(b.hour, 2) + (":" + b4);
    var a2, b2 := Digits(a.day, 2) + ("T" + a3), Digits(b.day, 2) + ("T" + b3);
    var a1, b1 := Digits(a.month, 2) + ("-" + a2), Digits(b.month, 2) + ("-" + b2);
    FractionOrder(a.micro, b.micro);
    NumberThenRest(a.second, b.second, 2, a6, b6);
    SeparatorThenRest(":", a5, b5);
    NumberThenRest(a.minute, b.minute, 2, ":" + a5, ":" + b5);
    SeparatorThenRest(":", a4, b4);
    NumberThenRest(a.hour, b.hour, 2, ":" + a4, ":" + b4);
    SeparatorThenRest("T", a3, b3);
    NumberThenRest(a.day, b.day, 2, "T" + a3, "T" + b3);
    SeparatorThenRest("-", a2, b2);
    NumberThenRest(a.month, b.month, 2, "-" + a2, "-" + b2);
    SeparatorThenRest("-", a1, b1);
    NumberThenRest(a.year, b.year, 4, "-" + a1, "-" + b1);
  }

  // ---- Instants ----

  /** An instant as whole seconds and microseconds within the second. */
  datatype Stamp = Stamp(seconds: int, micro: nat)

  predicate Before(a: Stamp, b: Stamp) {
    a.seconds < b.seconds || (a.seconds == b.seconds && a.micro < b.micro)
  }

  /** Exactly one of the two has a fraction, in the same second. */
  predicate Mixed(a: Stamp, b: Stamp) {
    a.seconds == b.seconds && (a.micro == 0) != (b.micro == 0)
  }

  /** How the store orders two instants. */
  predicate StoredBefore(a: Stamp, b: Stamp) {
    if Mixed(a, b) then Before(b, a) else Before(a, b)
  }

  /** Whatever the calendar, as long as over the years it can write it writes later seconds as later dates,
      the order on stored texts is StoredBefore. */
  lemma StoredOrder(calendar: int -> Civil, first: int, last: int, a: Stamp, b: Stamp)
    requires forall s {:trigger calendar(s)} :: first <= s <= last ==> InRange(calendar(s).(micro := 0))
    requires forall s, t :: first <= s < t <= last ==> Earlier(calendar(s).(micro := 0), calendar(t).(micro := 0))
    requires first <= a.seconds <= last && first <= b.seconds <= last
    requires a.micro < 1000000 && b.micro < 1000000
    ensures TextLess(Text(calendar(a.seconds).(micro := a.micro)), Text(calendar(b.seconds).(micro := b.micro)))
      <==> StoredBefore(a, b)
  {
    assert a.seconds < b.seconds ==> Earlier(calendar(a.seconds).(micro := 0), calendar(b.seconds).(micro := 0));
    assert b.seconds < a.seconds ==> Earlier(calendar(b.seconds).(micro := 0), calendar(a.seconds).(micro := 0));
    TextOrder(calendar(a.seconds).(micro := a.micro), calendar(b.seconds).(micro := b.micro));
  }
}
