/** models.py's events, and detection.py's rules and how a rule's conditions read an event. */
module Rules {
  import opened Wrappers
  import opened Values
  import opened Timestamps

  datatype Event = Event(
    eventId: string, timestamp: Stamp, source: string, eventType: string, host: string, user: Option<string>,
    severity: nat, attributes: Value
  )

  datatype Severity = Low | Medium | High | Critical

  datatype Operator = Eq | Ne | In | Contains | StartsWith | EndsWith | Exists | Gte | Lte

  /** A field name: the parts of a dotted attribute path, or an event's own field. */
  datatype Field = Attributes(path: seq<string>) | Own(name: string)

  datatype Condition = Condition(field: Field, operator: Operator, value: Value, caseSensitive: bool)

  datatype Threshold = Threshold(count: int, within: int, groupBy: seq<Field>)

  datatype Rule = Rule(
    ruleId: string, severity: Severity, conditions: seq<Condition>, groupBy: seq<Field>,
    threshold: Option<Threshold>, suppressionSeconds: int, allowSuppression: bool, enabled: bool,
    text: string // title, techniques, tactics and rationale
  )

  /** The limits parse_rule enforces. */
  predicate RuleAccepted(rule: Rule) {
    && 1 <= |rule.conditions| <= 32
    && (rule.threshold.Some? ==>
      && 2 <= rule.threshold.value.count <= 10_000
      && 1 <= rule.threshold.value.within <= 86_400
      && 1 <= |rule.threshold.value.groupBy| <= 4)
    && 1 <= |rule.groupBy| <= 4
    && 0 <= rule.suppressionSeconds <= 86_400
    && (rule.severity == Critical ==> !rule.allowSuppression)
  }

  /** A field's value: JSON, or the timestamp, which no JSON value equals. */
  datatype Actual = Json(value: Value) | Instant(time: Stamp)

  function Walk(v: Value, path: seq<string>): Value
    decreases |path|
  {
    if path == [] then v
    else if !v.Obj? || path[0] !in v.fields then Null
    else Walk(v.fields[path[0]], path[1..])
  }

  /** The values from the first object to the last value along a path. */
  ghost predicate Chain(v: Value, path: seq<string>, chain: seq<Value>) {
    && |chain| == |path| + 1 && chain[0] == v
    && forall i :: 0 <= i < |path| ==>
      chain[i].Obj? && path[i] in chain[i].fields && chain[i + 1] == chain[i].fields[path[i]]
  }

  /** A walk ends where the path's chain of nested objects ends, and without such a chain finds nothing. */
  lemma {:induction false} WalkIsChain(v: Value, path: seq<string>)
    ensures Walk(v, path) != Null ==> exists chain :: Chain(v, path, chain)
    ensures forall chain :: Chain(v, path, chain) ==> chain[|path|] == Walk(v, path)
    decreases |path|
  {
    if path == [] {
      assert Chain(v, path, [v]);
    } else if v.Obj? && path[0] in v.fields {
      var next := v.fields[path[0]];
      WalkIsChain(next, path[1..]);
      if Walk(v, path) != Null {
        var rest :| Chain(next, path[1..], rest);
        assert Chain(v, path, [v] + rest);
      }
      forall chain | Chain(v, path, chain) ensures chain[|path|] == Walk(v, path) {
        assert Chain(next, path[1..], chain[1..]);
      }
    }
  }

  /** The loop over a path's parts: a path of at most six parts leads to the end of its chain of nested objects,
      and a longer one, or one without a chain, to nothing. */
  method WalkPath(attributes: Value, path: seq<string>) returns (value: Value)
    ensures value == if |path| > 6 then Null else Walk(attributes, path)
    ensures value != Null ==> exists chain :: Chain(attributes, path, chain)
    ensures |path| <= 6 ==> forall chain :: Chain(attributes, path, chain) ==> chain[|path|] == value
  {
    if |path| > 6 {
      return Null;
    }
    WalkIsChain(attributes, path);
    value := attributes;
    for i := 0 to |path|
      invariant Walk(value, path[i..]) == Walk(attributes, path)
    {
      if !value.Obj? || path[i] !in value.fields {
        return Null;
      }
      assert path[i..][1..] == path[i + 1..];
      value := value.fields[path[i]];
    }
  }

  function FieldValue(event: Event, field: Field): Actual {
    match field
    case Attributes(path) => Json(if |path| > 6 then Null else Walk(event.attributes, path))
    case Own(name) =>
      if name == "timestamp" then Instant(event.timestamp)
      else if name == "event_id" then Json(Str(event.eventId))
      else if name == "source" then Json(Str(event.source))
      else if name == "event_type" then Json(Str(event.eventType))
      else if name == "host" then Json(Str(event.host))
      else if name == "user" then Json(if event.user.Some? then Str(event.user.value) else Null)
      else if name == "severity" then Json(Int(event.severity))
      else if name == "attributes" then Json(event.attributes)
      else Json(Null)
  }

  function FoldValue(v: Value, caseSensitive: bool): Value {
    if caseSensitive || !v.Str? then v else Str(Fold(v.s))
  }

  predicate Infix(part: string, s: string) {
    exists i :: 0 <= i <= |s| && part <= s[i..]
  }

  predicate Member(v: Value, items: seq<Value>, caseSensitive: bool) {
    exists i :: 0 <= i < |items| && PyEq(v, FoldValue(items[i], caseSensitive))
  }

  predicate IsNumber(v: Value) {
    v.Int? || v.Float?
  }

  function Number(v: Value): real
    requires IsNumber(v)
  {
    if v.Int? then v.i as real else v.f
  }

  predicate ValueMatches(found: Value, c: Condition) {
    var actual, expected := FoldValue(found, c.caseSensitive), FoldValue(c.value, c.caseSensitive);
    match c.operator
    case Exists => (actual != Null) == Truthy(c.value)
    case Eq => PyEq(actual, expected)
    case Ne => !PyEq(actual, expected)
    case In => expected.Arr? && Member(actual, expected.items, c.caseSensitive)
    case Contains =>
      if actual.Str? && expected.Str? then Infix(expected.s, actual.s)
      else actual.Arr? && Member(expected, actual.items, c.caseSensitive)
    case StartsWith => actual.Str? && expected.Str? && expected.s <= actual.s
    case EndsWith => actual.Str? && expected.Str? && |expected.s| <= |actual.s| && actual.s[|actual.s| - |expected.s|..] == expected.s
    case Gte => IsNumber(actual) && IsNumber(expected) && Number(actual) >= Number(expected)
    case Lte => IsNumber(actual) && IsNumber(expected) && Number(actual) <= Number(expected)
  }

  predicate ConditionMatches(event: Event, c: Condition) {
    var found := FieldValue(event, c.field);
    if found.Json? then ValueMatches(found.value, c)
    else if c.operator == Exists then Truthy(c.value)
    else c.operator == Ne
  }

  predicate RuleMatches(event: Event, rule: Rule) {
    forall i :: 0 <= i < |rule.conditions| ==> ConditionMatches(event, rule.conditions[i])
  }

  /** The values an event is grouped by. Their digest is injective, so the values stand for it. */
  function GroupOf(event: Event, fields: seq<Field>): map<Field, Actual> {
    map f | f in fields :: FieldValue(event, f)
  }

  // ---- What a condition asks of an event ----

  /** The event's field has the value: an own field by its name, an attribute at the end of its path. */
  ghost predicate Holds(event: Event, field: Field, v: Value) {
    match field
    case Attributes(path) => |path| <= 6 && exists chain :: Chain(event.attributes, path, chain) && chain[|path|] == v
    case Own(name) =>
      || (name == "event_id" && v == Str(event.eventId)) || (name == "source" && v == Str(event.source))
      || (name == "event_type" && v == Str(event.eventType)) || (name == "host" && v == Str(event.host))
      || (name == "user" && event.user.Some? && v == Str(event.user.value))
      || (name == "severity" && v == Int(event.severity)) || (name == "attributes" && v == event.attributes)
  }

  lemma FieldExactly(event: Event, field: Field, v: Value)
    requires v != Null
    ensures FieldValue(event, field) == Json(v) <==> Holds(event, field, v)
    ensures FieldValue(event, field).Instant? <==> field == Own("timestamp")
  {
    if field.Attributes? {
      WalkIsChain(event.attributes, field.path);
    }
  }

  function Cased(s: string, caseSensitive: bool): string {
    if caseSensitive then s else Fold(s)
  }

  /** A condition on a text: equality, prefix, suffix and part, with or without regard to case. */
  lemma TextConditions(event: Event, c: Condition, s: string, t: string)
    requires Holds(event, c.field, Str(s)) && c.value == Str(t)
    ensures var a, b, met := Cased(s, c.caseSensitive), Cased(t, c.caseSensitive), ConditionMatches(event, c);
      && (c.operator == Eq ==> (met <==> a == b)) && (c.operator == Ne ==> (met <==> a != b))
      && (c.operator == StartsWith ==> (met <==> |b| <= |a| && a[..|b|] == b))
      && (c.operator == EndsWith ==> (met <==> |b| <= |a| && a[|a| - |b|..] == b))
      && (c.operator == Exists ==> (met <==> t != ""))
      && (c.operator in {In, Gte, Lte} ==> !met)
  {
    FieldExactly(event, c.field, Str(s));
    PyEqExactly(Str(Cased(s, c.caseSensitive)), Str(Cased(t, c.caseSensitive)));
  }

  /** A text contains another if and only if the other is a part of it. */
  lemma TextContains(event: Event, c: Condition, s: string, t: string)
    requires Holds(event, c.field, Str(s)) && c.value == Str(t) && c.operator == Contains
    ensures var a, b := Cased(s, c.caseSensitive), Cased(t, c.caseSensitive);
      ConditionMatches(event, c) <==> exists i, j :: 0 <= i <= j <= |a| && a[i..j] == b
  {
    FieldExactly(event, c.field, Str(s));
    InfixExactly(Cased(t, c.caseSensitive), Cased(s, c.caseSensitive));
  }

  lemma InfixExactly(part: string, s: string)
    ensures Infix(part, s) <==> exists i, j :: 0 <= i <= j <= |s| && s[i..j] == part
  {
    if Infix(part, s) {
      var i :| 0 <= i <= |s| && part <= s[i..];
      assert s[i..i + |part|] == s[i..][..|part|] == part;
    }
    if i, j :| 0 <= i <= j <= |s| && s[i..j] == part {
      assert s[i..][..|part|] == part;
    }
  }

  /** A condition on a number: the order of the numbers, whatever their types. */
  lemma NumberConditions(event: Event, c: Condition, v: Value)
    requires Holds(event, c.field, v) && (v.Int? || v.Float?) && (c.value.Int? || c.value.Float?)
    ensures var x, y := if v.Int? then v.i as real else v.f, if c.value.Int? then c.value.i as real else c.value.f;
      var met := ConditionMatches(event, c);
      && (c.operator == Gte ==> (met <==> x >= y)) && (c.operator == Lte ==> (met <==> x <= y))
      && (c.operator == Eq ==> (met <==> x == y)) && (c.operator == Ne ==> (met <==> x != y))
      && (c.operator == Exists ==> (met <==> y != 0.0))
      && (c.operator in {In, Contains, StartsWith, EndsWith} ==> !met)
  {
    FieldExactly(event, c.field, v);
    PyEqExactly(v, c.value);
  }

  /** Two values are the same to a condition: its texts by its regard for case, others by Python's ==. */
  predicate Same(v: Value, w: Value, caseSensitive: bool) {
    if v.Str? && w.Str? then Cased(v.s, caseSensitive) == Cased(w.s, caseSensitive) else PyEq(v, w)
  }

  lemma SameExactly(v: Value, w: Value, caseSensitive: bool)
    ensures PyEq(FoldValue(v, caseSensitive), FoldValue(w, caseSensitive)) <==> Same(v, w, caseSensitive)
  {
    PyEqExactly(FoldValue(v, caseSensitive), FoldValue(w, caseSensitive));
  }

  /** Membership: of the field in the condition's list, and of the condition's value in the field's list. */
  lemma ListConditions(event: Event, c: Condition, v: Value)
    requires Holds(event, c.field, v) && v != Null
    ensures c.operator == In ==> (ConditionMatches(event, c) <==>
      c.value.Arr? && exists i :: 0 <= i < |c.value.items| && Same(v, c.value.items[i], c.caseSensitive))
    ensures c.operator == Contains && v.Arr? ==> (ConditionMatches(event, c) <==>
      exists i :: 0 <= i < |v.items| && Same(c.value, v.items[i], c.caseSensitive))
    ensures v.Bool? || c.value.Bool? ==> c.operator in {Gte, Lte} ==> !ConditionMatches(event, c)
    ensures c.operator == Eq ==> (ConditionMatches(event, c) <==> Same(v, c.value, c.caseSensitive))
    ensures c.operator == Ne ==> (ConditionMatches(event, c) <==> !Same(v, c.value, c.caseSensitive))
  {
    FieldExactly(event, c.field, v);
    SameExactly(v, c.value, c.caseSensitive);
    if c.operator == In && c.value.Arr? {
      forall i | 0 <= i < |c.value.items|
        ensures PyEq(FoldValue(v, c.caseSensitive), FoldValue(c.value.items[i], c.caseSensitive)) <==> Same(v, c.value.items[i], c.caseSensitive)
      {
        SameExactly(v, c.value.items[i], c.caseSensitive);
      }
    }
    if c.operator == Contains && v.Arr? {
      forall i | 0 <= i < |v.items|
        ensures PyEq(FoldValue(c.value, c.caseSensitive), FoldValue(v.items[i], c.caseSensitive)) <==> Same(c.value, v.items[i], c.caseSensitive)
      {
        SameExactly(c.value, v.items[i], c.caseSensitive);
      }
    }
  }

  /** A field that is absent, or null, only meets the conditions that ask for nothing there. */
  lemma AbsentConditions(event: Event, c: Condition)
    requires c.field != Own("timestamp") && forall v :: v != Null ==> !Holds(event, c.field, v)
    ensures var met := ConditionMatches(event, c);
      && (c.operator == Exists ==> (met <==> !Truthy(c.value)))
      && (c.operator == Eq ==> (met <==> c.value == Null)) && (c.operator == Ne ==> (met <==> c.value != Null))
      && (c.operator in {Contains, StartsWith, EndsWith, Gte, Lte} ==> !met)
  {
    var found := FieldValue(event, c.field);
    FieldExactly(event, c.field, Bool(true));
    if found.value != Null {
      FieldExactly(event, c.field, found.value);
    }
    PyEqExactly(Null, FoldValue(c.value, c.caseSensitive));
  }

  /** No JSON value equals the timestamp, and it is there. */
  lemma TimestampConditions(event: Event, c: Condition)
    requires c.field == Own("timestamp")
    ensures ConditionMatches(event, c) <==> c.operator == Ne || (c.operator == Exists && Truthy(c.value))
  {
  }
}
