/** service.py: the work order `create_task` accepts and the result `_validated_completion_result` accepts. */
module Assessments {
  import opened Wrappers
  import opened Json
  import opened Policies
  import opened Security

  /** A list value's items; nothing for any other value. */
  function Items(v: Json): seq<Json> {
    if v.Arr? then v.items else []
  }

  function Elements(xs: seq<string>): set<string> {
    set i | 0 <= i < |xs| :: xs[i]
  }

  // ---- Work orders ----

  /** str(item.get("id", "")).strip() for each item that is a dict. */
  function DeclaredIds(py: Runtime, items: seq<Json>): seq<string> {
    if items == [] then []
    else
      (if items[0].Obj? then [py.strip(py.str(GetOr(items[0], "id", Str(""))))] else []) + DeclaredIds(py, items[1..])
  }

  predicate UniquelyIdentified(py: Runtime, items: seq<Json>) {
    var ids := DeclaredIds(py, items);
    |ids| == |items| && "" !in ids && |Elements(ids)| == |ids|
  }

  predicate IsSha256(text: string) {
    |text| == 64 && forall c :: c in text ==> '0' <= c <= '9' || 'a' <= c <= 'f'
  }

  function Targets(payload: Json): Json {
    GetOr(payload, "targets", Null)
  }

  function Teams(payload: Json): Json {
    GetOr(GetOr(payload, "teamPlan", Null), "teams", Null)
  }

  /** The payload checks of create_task, on the scrubbed payload. */
  predicate WorkOrderOk(py: Runtime, action: Action, payload: Json) {
    match action
    case GateRun => py.strip(py.str(GetOr(payload, "gateId", Str("")))) != ""
    case AssessmentExecute =>
      && Targets(payload).Arr? && Targets(payload).items != [] && UniquelyIdentified(py, Targets(payload).items)
      && Teams(payload).Arr? && Teams(payload).items != [] && UniquelyIdentified(py, Teams(payload).items)
    case EvidenceAnalyze =>
      var size := GetOr(payload, "sizeBytes", Null);
      && Truthy(GetOr(payload, "evidenceId", Null))
      && IsSha256(py.str(GetOr(payload, "sha256", Str(""))))
      && Truthy(GetOr(payload, "mediaKind", Null))
      && (size.Int? ==> size.i >= 0)
      && (size.Int? || size.Bool?)
    case _ => true
  }

  // ---- Completions ----

  /** str(item.get(key)) of every item, in order. */
  function Texts(py: Runtime, items: seq<Json>, key: string): (texts: seq<string>)
    ensures |texts| == |items|
  {
    seq(|items|, i requires 0 <= i < |items| => py.str(GetOr(items[i], key, Null)))
  }

  /** Which items are dicts with a truthy value under the key. */
  function Present(items: seq<Json>, key: string): (flags: seq<bool>)
    ensures |flags| == |items|
  {
    seq(|items|, i requires 0 <= i < |items| => items[i].Obj? && Truthy(GetOr(items[i], key, Null)))
  }

  predicate CompletedItem(x: Json) {
    x.Obj? && GetOr(x, "status", Null) == Str("completed")
  }

  function Completed(items: seq<Json>): (flags: seq<bool>)
    ensures |flags| == |items|
  {
    seq(|items|, i requires 0 <= i < |items| => CompletedItem(items[i]))
  }

  /** A set comprehension over a list: the texts of the items that pass the filter. */
  function Chosen(texts: seq<string>, flags: seq<bool>): set<string>
    requires |texts| == |flags|
  {
    set i | 0 <= i < |texts| && flags[i] :: texts[i]
  }

  function ExpectedIds(py: Runtime, items: seq<Json>): set<string> {
    Chosen(Texts(py, items, "id"), Present(items, "id"))
  }

  function ReportedTargets(py: Runtime, items: seq<Json>): set<string> {
    Chosen(Texts(py, items, "targetId"), Present(items, "targetId"))
  }

  function ReportedTeams(py: Runtime, items: seq<Json>): set<string> {
    Chosen(Texts(py, items, "team"), Completed(items))
  }

  predicate AssessmentAccepted(py: Runtime, payload: Json, clean: Json) {
    && GetOr(clean, "assessmentStatus", Null) == Str("completed")
    && TargetsAccounted(py, payload, GetOr(clean, "targetResults", Null))
    && TeamsAccounted(py, payload, GetOr(clean, "teamResults", Null))
    && Diagnostic(py, clean)
  }

  predicate TargetsAccounted(py: Runtime, payload: Json, targets: Json) {
    && targets.Arr? && targets.items != []
    && (forall x :: x in targets.items ==> CompletedItem(x))
    && |ReportedTargets(py, targets.items)| == |targets.items|
    && ReportedTargets(py, targets.items) == ExpectedIds(py, Items(Targets(payload)))
  }

  predicate TeamsAccounted(py: Runtime, payload: Json, teams: Json) {
    && teams.Arr? && teams.items != []
    && |ReportedTeams(py, teams.items)| == |teams.items|
    && ReportedTeams(py, teams.items) == ExpectedIds(py, Items(Teams(payload)))
  }

  predicate Diagnostic(py: Runtime, clean: Json) {
    var engine := GetOr(clean, "engine", Null);
    var score := GetOr(clean, "score", Null);
    && engine.Str? && py.strip(engine.s) != ""
    && (score.Int? || score.Float?)
    && GetOr(clean, "automaticFailure", Null).Bool?
    && GetOr(clean, "diagnosticOnly", Null) == Bool(true)
    && GetOr(clean, "findings", Null).Arr?
    && GetOr(clean, "recommendations", Null).Arr?
  }

  predicate EvidenceAccepted(payload: Json, clean: Json) {
    var bytes := GetOr(clean, "bytesAnalyzed", Null);
    && PyEq(GetOr(clean, "sha256", Null), GetOr(payload, "sha256", Null))
    && (bytes.Bool? || (bytes.Int? && bytes.i >= 0))
    && PyEq(bytes, GetOr(payload, "sizeBytes", Null))
    && PyEq(GetOr(clean, "mediaKind", Null), GetOr(payload, "mediaKind", Null))
    && GetOr(clean, "suggestions", Null).Arr?
    && GetOr(clean, "findings", Null).Arr?
  }

  predicate GateAccepted(payload: Json, clean: Json) {
    && PyEq(GetOr(clean, "gateId", Null), GetOr(payload, "gateId", Null))
    && GetOr(clean, "passed", Null) == Bool(true)
    && PyEq(GetOr(clean, "returnCode", Null), Int(0))
  }

  /** _validated_completion_result: the scrubbed result, or None for its ValueError. */
  function ValidatedResult(
    py: Runtime, action: Action, payload: Json, grantSha256: Option<string>,
    succeeded: bool, result: Json, error: string
  ): Option<Json> {
    var clean := Scrub(py, result, 0);
    var receipt := GetOr(clean, "executionReceipt", Null);
    if grantSha256.None? || !receipt.Obj? then None
    else if GetOr(receipt, "executionGrantSha256", Null) != Str(grantSha256.value) then None
    else if !succeeded then (if py.strip(error) == "" then None else Some(clean))
    else if error != "" then None
    else if forall f :: f in clean.fields ==> f.key == "executionReceipt" then None
    else if action.AssessmentExecute? && !AssessmentAccepted(py, payload, clean) then None
    else if action.EvidenceAnalyze? && !EvidenceAccepted(payload, clean) then None
    else if action.GateRun? && !GateAccepted(payload, clean) then None
    else Some(clean)
  }

  // ---- Accounting ----

  lemma {:induction false} ElementsCount(xs: seq<string>)
    ensures |Elements(xs)| <= |xs|
    ensures |Elements(xs)| == |xs| <==> Distinct(xs)
  {
    if xs != [] {
      var init, last := xs[..|xs| - 1], xs[|xs| - 1];
      ElementsCount(init);
      DistinctSnoc(init, last);
      assert xs == init + [last];
      assert last in Elements(init) <==> last in init;
      assert Elements(xs) == Elements(init) + {last};
    }
  }

  lemma DistinctSnoc(xs: seq<string>, x: string)
    ensures Distinct(xs + [x]) <==> Distinct(xs) && x !in xs
  {
    var ys := xs + [x];
    if Distinct(ys) {
      forall i, j | 0 <= i < j < |xs| ensures xs[i] != xs[j] {
        assert ys[i] != ys[j];
      }
      forall i | 0 <= i < |xs| ensures xs[i] != x {
        assert ys[i] != ys[|xs|];
      }
    }
  }

  lemma {:induction false} SubsetCount<T>(a: set<T>, b: set<T>)
    requires a <= b
    ensures |a| <= |b|
  {
    if a != {} {
      var x :| x in a;
      SubsetCount(a - {x}, b - {x});
    }
  }

  /** As many chosen texts as items: every item was chosen and no text occurs twice. */
  lemma ChosenCount(texts: seq<string>, flags: seq<bool>)
    requires |texts| == |flags|
    ensures |Chosen(texts, flags)| == |texts| <==> Distinct(texts) && forall i :: 0 <= i < |flags| ==> flags[i]
  {
    ElementsCount(texts);
    SubsetCount(Chosen(texts, flags), Elements(texts));
    if k :| 0 <= k < |flags| && !flags[k] {
      var rest := texts[..k] + texts[k + 1..];
      forall t | t in Chosen(texts, flags) ensures t in Elements(rest) {
        var i :| 0 <= i < |texts| && flags[i] && texts[i] == t;
        assert rest[if i < k then i else i - 1] == t;
      }
      ElementsCount(rest);
      SubsetCount(Chosen(texts, flags), Elements(rest));
    } else {
      assert Chosen(texts, flags) == Elements(texts);
    }
  }

  lemma {:induction false} DistinctMultiset(xs: seq<string>)
    requires Distinct(xs)
    ensures multiset(xs) == multiset(Elements(xs))
  {
    if xs != [] {
      var n := |xs| - 1;
      DistinctMultiset(xs[..n]);
      assert xs == xs[..n] + [xs[n]];
      assert Elements(xs) == Elements(xs[..n]) + {xs[n]};
    }
  }

  /** Distinct reports that cover what was expected are a permutation of what was authorized exactly when
      nothing authorized was left out of the expectation. */
  lemma AccountedExactly(authorized: seq<string>, flags: seq<bool>, reported: seq<string>)
    requires |authorized| == |flags| && Distinct(authorized)
    requires Distinct(reported) && Elements(reported) == Chosen(authorized, flags)
    ensures multiset(reported) == multiset(authorized) <==> forall i :: 0 <= i < |flags| ==> flags[i]
  {
    ElementsCount(reported);
    ChosenCount(authorized, flags);
    DistinctMultiset(reported);
    DistinctMultiset(authorized);
    assert |reported| == |multiset(reported)| && |authorized| == |multiset(authorized)|;
    if forall i :: 0 <= i < |flags| ==> flags[i] {
      assert Elements(reported) == Elements(authorized);
    }
  }

  lemma {:induction false} DeclaredAt(py: Runtime, items: seq<Json>)
    ensures |DeclaredIds(py, items)| <= |items|
    ensures |DeclaredIds(py, items)| == |items| ==> forall i :: 0 <= i < |items| ==>
      items[i].Obj? && DeclaredIds(py, items)[i] == py.strip(py.str(GetOr(items[i], "id", Str(""))))
  {
    if items != [] {
      DeclaredAt(py, items[1..]);
    }
  }

  /** Every item of an accepted list has an "id" key, and their texts are distinct. */
  lemma AuthorizedDistinct(py: Runtime, items: seq<Json>)
    requires UniquelyIdentified(py, items)
    requires py.strip(py.str(Str(""))) == ""
    ensures forall i :: 0 <= i < |items| ==> items[i].Obj? && Get(items[i], "id").Some?
    ensures Distinct(Texts(py, items, "id"))
  {
    DeclaredAt(py, items);
    var ids := DeclaredIds(py, items);
    ElementsCount(ids);
    forall i | 0 <= i < |items|
      ensures items[i].Obj? && Get(items[i], "id").Some? && ids[i] == py.strip(Texts(py, items, "id")[i])
    {
      assert ids[i] in ids;
      assert Get(items[i], "id").Some?;
      assert GetOr(items[i], "id", Str("")) == GetOr(items[i], "id", Null);
    }
    forall i, j | 0 <= i < j < |items| ensures Texts(py, items, "id")[i] != Texts(py, items, "id")[j] {
      assert ids[i] != ids[j];
    }
  }

  function IdText(py: Runtime, x: Json): string {
    py.strip(py.str(GetOr(x, "id", Str(""))))
  }

  /** A non-empty list of dicts whose ids read as distinct texts, none of them blank. */
  ghost predicate Identified(py: Runtime, v: Json) {
    && v.Arr? && v.items != []
    && (forall i :: 0 <= i < |v.items| ==> v.items[i].Obj? && IdText(py, v.items[i]) != "")
    && forall i, j :: 0 <= i < j < |v.items| ==> IdText(py, v.items[i]) != IdText(py, v.items[j])
  }

  lemma {:induction false} DeclaredOfDicts(py: Runtime, items: seq<Json>)
    requires forall i :: 0 <= i < |items| ==> items[i].Obj?
    ensures |DeclaredIds(py, items)| == |items|
    ensures forall i :: 0 <= i < |items| ==> DeclaredIds(py, items)[i] == IdText(py, items[i])
  {
    if items != [] {
      DeclaredOfDicts(py, items[1..]);
      assert forall i :: 0 < i < |items| ==> items[i] == items[1..][i - 1];
    }
  }

  lemma UniquelyExactly(py: Runtime, items: seq<Json>)
    requires items != []
    ensures UniquelyIdentified(py, items) <==> Identified(py, Arr(items))
  {
    var ids := DeclaredIds(py, items);
    ElementsCount(ids);
    DeclaredAt(py, items);
    if forall i :: 0 <= i < |items| ==> items[i].Obj? {
      DeclaredOfDicts(py, items);
      assert Distinct(ids) <==> forall i, j :: 0 <= i < j < |items| ==> IdText(py, items[i]) != IdText(py, items[j]);
      assert "" !in ids <==> forall i :: 0 <= i < |items| ==> ids[i] != "";
    }
  }

  /** What an assessment, a gate run and an analysis need in their work order; other actions need nothing. */
  lemma WorkOrderExactly(py: Runtime, action: Action, payload: Json)
    ensures action.AssessmentExecute? ==>
      (WorkOrderOk(py, action, payload) <==> Identified(py, Targets(payload)) && Identified(py, Teams(payload)))
    ensures action.GateRun? ==>
      (WorkOrderOk(py, action, payload) <==> py.strip(py.str(GetOr(payload, "gateId", Str("")))) != "")
    ensures action.EvidenceAnalyze? ==>
      (WorkOrderOk(py, action, payload) <==> EvidenceOrdered(py, payload))
    ensures action !in {AssessmentExecute, GateRun, EvidenceAnalyze} ==> WorkOrderOk(py, action, payload)
  {
    if Targets(payload).Arr? && Targets(payload).items != [] {
      UniquelyExactly(py, Targets(payload).items);
    }
    if Teams(payload).Arr? && Teams(payload).items != [] {
      UniquelyExactly(py, Teams(payload).items);
    }
    Sha256Exactly(py.str(GetOr(payload, "sha256", Str(""))));
  }

  lemma Sha256Exactly(sha: string)
    ensures IsSha256(sha) <==> |sha| == 64 && forall i :: 0 <= i < 64 ==> '0' <= sha[i] <= '9' || 'a' <= sha[i] <= 'f'
  {
    if |sha| == 64 && IsSha256(sha) {
      assert forall i :: 0 <= i < 64 ==> sha[i] in sha;
    }
  }

  /** An id and a kind, sixty-four lower-case hexadecimal digits, and a size that is no negative number. */
  ghost predicate EvidenceOrdered(py: Runtime, payload: Json) {
    var sha, size := py.str(GetOr(payload, "sha256", Str(""))), GetOr(payload, "sizeBytes", Null);
    && Truthy(GetOr(payload, "evidenceId", Null)) && Truthy(GetOr(payload, "mediaKind", Null))
    && |sha| == 64 && (forall i :: 0 <= i < 64 ==> '0' <= sha[i] <= '9' || 'a' <= sha[i] <= 'f')
    && (size.Bool? || (size.Int? && size.i >= 0))
  }

  /** Every authorized item is expected back: its id is truthy. An id such as 0 or null passes the creation
      check as text but is dropped from the expected set. */
  predicate IdsTruthy(items: seq<Json>) {
    forall i :: 0 <= i < |items| ==> Truthy(GetOr(items[i], "id", Null))
  }

  /** An accepted assessment reports no target and no team twice, all completed; and the reports are a
      permutation of what the work order authorizes exactly when the work order's ids are truthy. */
  lemma AssessmentAccounting(py: Runtime, payload: Json, clean: Json)
    requires py.strip(py.str(Str(""))) == ""
    requires WorkOrderOk(py, AssessmentExecute, payload) && AssessmentAccepted(py, payload, clean)
    ensures var targets, results := Targets(payload).items, GetOr(clean, "targetResults", Null).items;
      && (forall x :: x in results ==> CompletedItem(x))
      && Distinct(Texts(py, results, "targetId"))
      && (multiset(Texts(py, results, "targetId")) == multiset(Texts(py, targets, "id")) <==> IdsTruthy(targets))
    ensures var teams, results := Teams(payload).items, GetOr(clean, "teamResults", Null).items;
      && (forall x :: x in results ==> CompletedItem(x))
      && Distinct(Texts(py, results, "team"))
      && (multiset(Texts(py, results, "team")) == multiset(Texts(py, teams, "id")) <==> IdsTruthy(teams))
  {
    var results := GetOr(clean, "targetResults", Null).items;
    ListAccounting(py, Targets(payload).items, results, "targetId", Present(results, "targetId"));
    TeamAccounting(py, payload, clean);
  }

  lemma AllCompleted(results: seq<Json>)
    requires forall i :: 0 <= i < |results| ==> Completed(results)[i]
    ensures forall x :: x in results ==> CompletedItem(x)
  {
    forall x | x in results ensures CompletedItem(x) {
      var i :| 0 <= i < |results| && results[i] == x;
      assert Completed(results)[i];
    }
  }

  lemma TeamAccounting(py: Runtime, payload: Json, clean: Json)
    requires py.strip(py.str(Str(""))) == ""
    requires WorkOrderOk(py, AssessmentExecute, payload) && AssessmentAccepted(py, payload, clean)
    ensures var teams, results := Teams(payload).items, GetOr(clean, "teamResults", Null).items;
      && (forall x :: x in results ==> CompletedItem(x))
      && Distinct(Texts(py, results, "team"))
      && (multiset(Texts(py, results, "team")) == multiset(Texts(py, teams, "id")) <==> IdsTruthy(teams))
  {
    var results := GetOr(clean, "teamResults", Null).items;
    ListAccounting(py, Teams(payload).items, results, "team", Completed(results));
    AllCompleted(results);
  }

  lemma ListAccounting(py: Runtime, items: seq<Json>, results: seq<Json>, key: string, flags: seq<bool>)
    requires py.strip(py.str(Str(""))) == "" && UniquelyIdentified(py, items)
    requires |flags| == |results| && |Chosen(Texts(py, results, key), flags)| == |results|
    requires Chosen(Texts(py, results, key), flags) == ExpectedIds(py, items)
    ensures forall i :: 0 <= i < |flags| ==> flags[i]
    ensures Distinct(Texts(py, results, key))
    ensures multiset(Texts(py, results, key)) == multiset(Texts(py, items, "id")) <==> IdsTruthy(items)
  {
    AuthorizedDistinct(py, items);
    ChosenCount(Texts(py, results, key), flags);
    assert Elements(Texts(py, results, key)) == Chosen(Texts(py, results, key), flags);
    AccountedExactly(Texts(py, items, "id"), Present(items, "id"), Texts(py, results, key));
    forall i | 0 <= i < |items| ensures Present(items, "id")[i] <==> Truthy(GetOr(items[i], "id", Null)) {
    }
  }

  /** A work order whose second target has the id 0 is accepted at creation, yet a result is only expected
      to report the first. */
  lemma DroppedTarget(py: Runtime)
    requires py.str(Str("a")) == "a" && py.str(Int(0)) == "0"
    requires py.strip("a") == "a" && py.strip("0") == "0"
    ensures var items := [Obj([Field("id", Str("a"))]), Obj([Field("id", Int(0))])];
      && UniquelyIdentified(py, items) && !IdsTruthy(items)
      && Texts(py, items, "id") == ["a", "0"] && ExpectedIds(py, items) == {"a"}
  {
    var items := [Obj([Field("id", Str("a"))]), Obj([Field("id", Int(0))])];
    assert DeclaredIds(py, items[1..]) == ["0"];
    assert DeclaredIds(py, items) == ["a", "0"];
    ElementsCount(["a", "0"]);
    assert !Truthy(GetOr(items[1], "id", Null));
    var texts, flags := Texts(py, items, "id"), Present(items, "id");
    assert texts == ["a", "0"] && flags == [true, false];
    forall t | t in Chosen(texts, flags) ensures t == "a" {
      var i :| 0 <= i < 2 && flags[i] && texts[i] == t;
    }
    assert flags[0] && texts[0] == "a";
  }
}
