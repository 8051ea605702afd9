/** Concrete runs of the service, which show that what the theorems leave open does happen. */
module Scenarios {
  import opened Wrappers
  import opened Json
  import opened Policies
  import opened Security
  import opened Assessments
  import opened Tasks

  // ---- Runs, call by call ----

  lemma RunSnoc(env: Platform, s: State, calls: seq<Call>, call: Call)
    ensures Run(env, s, calls + [call]) == Step(env, Run(env, s, calls), call)
  {
    assert (calls + [call])[..|calls|] == calls;
  }

  lemma RunCall(env: Platform, s: State, calls: seq<Call>, call: Call, after: State)
    requires Perform(env, Run(env, s, calls), call) == Success(after)
    ensures Run(env, s, calls + [call]) == after
  {
    RunSnoc(env, s, calls, call);
  }

  lemma PerformDecide(env: Platform, s: State, user: Id, role: Role, t: Id, approve: bool, at: Reading)
    ensures Perform(env, s, Decide(user, role, t, approve, at)) == DecideTask(s, user, role, t, approve, at)
  {
  }

  lemma PerformCreate(env: Platform, s: State, user: Id, role: Role, o: Order, at: Instant)
    ensures Perform(env, s, Create(user, role, o, at)) == CreateTask(env, s, user, role, o, at)
  {
  }

  lemma PerformLease(env: Platform, s: State, connector: Id, pick: Option<Id>, at: Instant)
    requires LeaseTask(env, s, connector, pick, at).Success?
    ensures Perform(env, s, LeaseNext(connector, pick, at)) == Success(LeaseTask(env, s, connector, pick, at).value.state)
  {
  }

  lemma PerformComplete(env: Platform, s: State, connector: Id, t: Id, token: nat, c: Completion, at: Instant)
    ensures Perform(env, s, Complete(connector, t, token, c, at)) == CompleteTask(env, s, connector, t, token, c, at)
  {
  }

  // ---- A high-risk action approved by its requester ----

  function RiskyOrder(): Order {
    Order(TaskExecute, None, None, None, Obj([]), false)
  }

  /** One high-risk row of user 7 and its approval. */
  predicate Risky(s: State, status: Status) {
    && |s.tasks| == |s.approvals| == 1 && s.tasks[0].status == status && s.tasks[0].risk == High
    && s.tasks[0].requestedBy == 7 && s.approvals[0].task == 0
  }

  lemma RiskyCreated(env: Platform, programs: set<Id>)
    ensures var r := CreateTask(env, Fresh(programs), 7, Admin, RiskyOrder(), 0);
      && r.Success? && Risky(r.value, AwaitingApproval)
      && r.value.approvals[0].status == Pending && r.value.approvals[0].expiresAt == APPROVAL_SECONDS
  {
    assert Scrub(env.py, Obj([]), 0) == Obj([]);
    assert CheckOrder(env, Fresh(programs), Admin, RiskyOrder()).Success?;
  }

  lemma RiskyApproved(s: State)
    requires Risky(s, AwaitingApproval) && s.approvals[0].status == Pending && s.approvals[0].expiresAt == APPROVAL_SECONDS
    ensures var r := DecideTask(s, 7, Admin, 0, true, Reading(1, 1));
      && r.Success? && Risky(r.value, Queued)
      && r.value.approvals[0].status == Approved && r.value.approvals[0].decidedBy == Some(7)
  {
    assert PendingApproval(s.approvals, 0) == 0;
  }

  /** User 7 creates a high-risk task, approves it, and it is queued. */
  lemma RequesterApprovesHighRisk(env: Platform, programs: set<Id>) returns (calls: seq<Call>)
    ensures var s := Run(env, Fresh(programs), calls);
      && |s.tasks| == |s.approvals| == 1 && s.tasks[0].status == Queued && s.tasks[0].risk == High
      && s.approvals[0].task == 0 && s.approvals[0].status == Approved
      && s.approvals[0].decidedBy == Some(s.tasks[0].requestedBy)
  {
    var create, decide := Create(7, Admin, RiskyOrder(), 0), Decide(7, Admin, 0, true, Reading(1, 1));
    var s1 := CreateTask(env, Fresh(programs), 7, Admin, RiskyOrder(), 0);
    RiskyCreated(env, programs);
    PerformCreate(env, Fresh(programs), 7, Admin, RiskyOrder(), 0);
    RunCall(env, Fresh(programs), [], create, s1.value);
    RiskyApproved(s1.value);
    PerformDecide(env, s1.value, 7, Admin, 0, true, Reading(1, 1));
    calls := [] + [create] + [decide];
    RunCall(env, Fresh(programs), [] + [create], decide, DecideTask(s1.value, 7, Admin, 0, true, Reading(1, 1)).value);
  }

  /** The clock may pass the deadline between the check and the stamp: a run at whose end an approval is stored
      with a decision time after its expiry. */
  lemma StampAfterDeadline(env: Platform, programs: set<Id>) returns (calls: seq<Call>)
    ensures var s := Run(env, Fresh(programs), calls);
      && |s.tasks| == |s.approvals| == 1 && s.tasks[0].status == Queued && s.approvals[0].status == Approved
      && s.approvals[0].decidedAt == Some(s.approvals[0].expiresAt + 1)
  {
    var clock := Reading(APPROVAL_SECONDS, APPROVAL_SECONDS + 1);
    var create, decide := Create(7, Admin, RiskyOrder(), 0), Decide(8, Admin, 0, true, clock);
    var s1 := CreateTask(env, Fresh(programs), 7, Admin, RiskyOrder(), 0);
    RiskyCreated(env, programs);
    PerformCreate(env, Fresh(programs), 7, Admin, RiskyOrder(), 0);
    RunCall(env, Fresh(programs), [], create, s1.value);
    assert PendingApproval(s1.value.approvals, 0) == 0;
    PerformDecide(env, s1.value, 8, Admin, 0, true, clock);
    calls := [] + [create] + [decide];
    RunCall(env, Fresh(programs), [] + [create], decide, DecideTask(s1.value, 8, Admin, 0, true, clock).value);
  }

  // ---- An assessment on two targets that succeeds with one report ----

  const NAMES: set<string> := {
    "targets", "teamPlan", "teams", "id", "targetId", "team", "status", "assessmentStatus", "targetResults", "teamResults",
    "engine", "score", "automaticFailure", "diagnosticOnly", "findings", "recommendations",
    "executionReceipt", "executionGrantSha256"
  }

  /** The interpreter reads plain texts as themselves, no key used here looks like a credential, digests are
      sixty-four characters, and a lease lasts. */
  ghost predicate Ordinary(env: Platform) {
    && env.py.str(Str("a")) == "a" && env.py.str(Int(0)) == "0" && env.py.str(Str("red")) == "red"
    && env.py.strip("a") == "a" && env.py.strip("0") == "0" && env.py.strip("red") == "red"
    && (forall k :: k in NAMES ==> !env.py.secretKey(k))
    && (forall m {:trigger env.hex(m)} :: |env.hex(m)| == 64 && '\0' !in env.hex(m))
    && env.leaseSeconds >= 0
  }

  /** A work order on the targets a and 0 for the team red. */
  function TwoTargets(): Json {
    Obj([
      Field("targets", Arr([Obj([Field("id", Str("a"))]), Obj([Field("id", Int(0))])])),
      Field("teamPlan", Obj([Field("teams", Arr([Obj([Field("id", Str("red"))])]))]))])
  }

  lemma TeamExpected(py: Runtime)
    requires py.str(Str("red")) == "red" && py.strip("red") == "red"
    ensures var items := [Obj([Field("id", Str("red"))])];
      UniquelyIdentified(py, items) && ExpectedIds(py, items) == {"red"}
  {
    var items := [Obj([Field("id", Str("red"))])];
    assert items[1..] == [];
    IndexOfIs(items[0].fields, "id", 0);
    assert GetOr(items[0], "id", Null) == Str("red") && Truthy(Str("red"));
    assert DeclaredIds(py, items) == ["red"];
    ElementsCount(["red"]);
    assert |items| == 1 && Texts(py, items, "id")[0] == "red" && Present(items, "id")[0];
    assert Texts(py, items, "id") == ["red"] && Present(items, "id") == [true];
    forall t ensures t in Chosen(["red"], [true]) <==> t == "red" {
      assert ["red"][0] == "red" && [true][0];
    }
  }

  lemma TwoTargetsAccepted(env: Platform)
    requires Ordinary(env)
    ensures WorkOrderOk(env.py, AssessmentExecute, TwoTargets())
    ensures |Targets(TwoTargets()).items| == 2 && !IdsTruthy(Targets(TwoTargets()).items)
    ensures ExpectedIds(env.py, Items(Targets(TwoTargets()))) == {"a"}
    ensures ExpectedIds(env.py, Items(Teams(TwoTargets()))) == {"red"}
  {
    var payload := TwoTargets();
    var plan := payload.fields[1].value;
    DroppedTarget(env.py);
    TeamExpected(env.py);
    IndexOfIs(payload.fields, "targets", 0);
    IndexOfIs(payload.fields, "teamPlan", 1);
    IndexOfIs(plan.fields, "teams", 0);
    assert Targets(payload) == Arr([Obj([Field("id", Str("a"))]), Obj([Field("id", Int(0))])]);
    assert Teams(payload) == Arr([Obj([Field("id", Str("red"))])]);
  }

  // ---- Values that scrub leaves alone ----

  lemma StorableObject(py: Runtime, fields: seq<Field>, depth: nat)
    requires depth <= SCRUB_DEPTH && |fields| <= SCRUB_ITEMS && UniqueKeys(fields)
    requires forall i :: 0 <= i < |fields| ==>
      |fields[i].key| <= SCRUB_KEY && !py.secretKey(fields[i].key) && Storable(py, fields[i].value, depth + 1)
    ensures Storable(py, Obj(fields), depth)
  {
    forall f | f in fields ensures StorableField(py, f, depth) {
      var i :| 0 <= i < |fields| && fields[i] == f;
    }
  }

  lemma StorableOne(py: Runtime, key: string, value: Json, depth: nat)
    requires depth <= SCRUB_DEPTH && |key| <= SCRUB_KEY && !py.secretKey(key) && Storable(py, value, depth + 1)
    ensures Storable(py, Obj([Field(key, value)]), depth)
  {
    StorableObject(py, [Field(key, value)], depth);
  }

  lemma TargetsStorable(py: Runtime)
    requires !py.secretKey("id")
    ensures Storable(py, TwoTargets().fields[0].value, 1)
  {
    StorableOne(py, "id", Str("a"), 2);
    StorableOne(py, "id", Int(0), 2);
  }

  lemma PlanStorable(py: Runtime)
    requires !py.secretKey("id") && !py.secretKey("teams")
    ensures Storable(py, TwoTargets().fields[1].value, 1)
  {
    StorableOne(py, "id", Str("red"), 3);
    StorableOne(py, "teams", Arr([Obj([Field("id", Str("red"))])]), 1);
  }

  lemma TwoTargetsStorable(env: Platform)
    requires Ordinary(env)
    ensures Scrub(env.py, TwoTargets(), 0) == TwoTargets()
  {
    TargetsStorable(env.py);
    PlanStorable(env.py);
    StorableObject(env.py, TwoTargets().fields, 0);
    StorableKept(env.py, TwoTargets(), 0);
  }

  /** A work order that creation accepts as it is: two targets, of which a report must name one. */
  ghost predicate TwoTargetOrder(env: Platform, payload: Json) {
    && Scrub(env.py, payload, 0) == payload && WorkOrderOk(env.py, AssessmentExecute, payload)
    && |Targets(payload).items| == 2 && !IdsTruthy(Targets(payload).items)
    && ExpectedIds(env.py, Items(Targets(payload))) == {"a"} && ExpectedIds(env.py, Items(Teams(payload))) == {"red"}
  }

  lemma ThePayload(env: Platform) returns (payload: Json)
    requires Ordinary(env)
    ensures TwoTargetOrder(env, payload)
  {
    payload := TwoTargets();
    TwoTargetsStorable(env);
    TwoTargetsAccepted(env);
  }

  // ---- The report ----

  function Completed1(key: string, id: string): Json {
    Obj([Field(key, Str(id)), Field("status", Str("completed"))])
  }

  function Receipt1(sha: string): Json {
    Obj([Field("executionGrantSha256", Str(sha))])
  }

  /** A complete report of the target a and the team red, under the grant's digest. */
  function Report(sha: string): Json {
    Obj([
      Field("assessmentStatus", Str("completed")),
      Field("targetResults", Arr([Completed1("targetId", "a")])), Field("teamResults", Arr([Completed1("team", "red")])),
      Field("engine", Str("red")), Field("score", Int(0)), Field("automaticFailure", Bool(false)),
      Field("diagnosticOnly", Bool(true)), Field("findings", Arr([])), Field("recommendations", Arr([])),
      Field("executionReceipt", Receipt1(sha))])
  }

  lemma ReportUnique(sha: string)
    ensures UniqueKeys(Report(sha).fields)
  {
  }

  /** Each name finds its own field. */
  lemma ReportFields(sha: string, k: nat)
    requires k < |Report(sha).fields|
    ensures GetOr(Report(sha), Report(sha).fields[k].key, Null) == Report(sha).fields[k].value
  {
    ReportUnique(sha);
    IndexOfIs(Report(sha).fields, Report(sha).fields[k].key, k);
  }

  /** What completion reads of the report. */
  predicate Reads(r: Json, sha: string) {
    && GetOr(r, "assessmentStatus", Null) == Str("completed")
    && GetOr(r, "targetResults", Null) == Arr([Completed1("targetId", "a")])
    && GetOr(r, "teamResults", Null) == Arr([Completed1("team", "red")])
    && GetOr(r, "engine", Null) == Str("red") && GetOr(r, "score", Null) == Int(0)
    && GetOr(r, "automaticFailure", Null) == Bool(false) && GetOr(r, "diagnosticOnly", Null) == Bool(true)
    && GetOr(r, "findings", Null) == Arr([]) && GetOr(r, "recommendations", Null) == Arr([])
    && GetOr(r, "executionReceipt", Null) == Receipt1(sha)
  }

  lemma ReportReads(sha: string)
    ensures Reads(Report(sha), sha)
  {
    ReportFields(sha, 0);
    ReportFields(sha, 1);
    ReportFields(sha, 2);
    ReportFields(sha, 3);
    ReportFields(sha, 4);
    ReportFields(sha, 5);
    ReportFields(sha, 6);
    ReportFields(sha, 7);
    ReportFields(sha, 8);
    ReportFields(sha, 9);
  }

  lemma OneReport(py: Runtime, id: string, key: string)
    requires py.str(Str(id)) == id != "" && key != "status"
    ensures var report := Completed1(key, id);
      && CompletedItem(report) && Present([report], key) == [true] && Completed([report]) == [true]
      && Texts(py, [report], key) == [id] && Chosen([id], [true]) == {id}
  {
    var report := Completed1(key, id);
    IndexOfIs(report.fields, key, 0);
    IndexOfIs(report.fields, "status", 1);
    forall t ensures t in Chosen([id], [true]) <==> t == id {
      assert [id][0] == id && [true][0];
    }
  }

  lemma ReadsTargets(py: Runtime, payload: Json)
    requires py.str(Str("a")) == "a" && ExpectedIds(py, Items(Targets(payload))) == {"a"}
    ensures TargetsAccounted(py, payload, Arr([Completed1("targetId", "a")]))
  {
    OneReport(py, "a", "targetId");
  }

  lemma ReadsTeams(py: Runtime, payload: Json)
    requires py.str(Str("red")) == "red" && ExpectedIds(py, Items(Teams(payload))) == {"red"}
    ensures TeamsAccounted(py, payload, Arr([Completed1("team", "red")]))
  {
    OneReport(py, "red", "team");
  }

  lemma ReadsAccepted(py: Runtime, payload: Json, r: Json, sha: string)
    requires py.str(Str("a")) == "a" && py.str(Str("red")) == "red" && py.strip("red") == "red" && Reads(r, sha)
    requires ExpectedIds(py, Items(Targets(payload))) == {"a"} && ExpectedIds(py, Items(Teams(payload))) == {"red"}
    ensures AssessmentAccepted(py, payload, r)
  {
    ReadsTargets(py, payload);
    ReadsTeams(py, payload);
  }

  lemma PartsStorable(env: Platform, sha: string)
    requires Ordinary(env) && |sha| == 64 && '\0' !in sha
    ensures Storable(env.py, Completed1("targetId", "a"), 2) && Storable(env.py, Completed1("team", "red"), 2)
    ensures Storable(env.py, Receipt1(sha), 1)
  {
    StorableObject(env.py, Completed1("targetId", "a").fields, 2);
    StorableObject(env.py, Completed1("team", "red").fields, 2);
    StorableOne(env.py, "executionGrantSha256", Str(sha), 1);
  }

  lemma ReportStorable(env: Platform, sha: string)
    requires Ordinary(env) && |sha| == 64 && '\0' !in sha
    ensures Scrub(env.py, Report(sha), 0) == Report(sha)
  {
    PartsStorable(env, sha);
    ReportUnique(sha);
    var fields := Report(sha).fields;
    forall i | 0 <= i < |fields|
      ensures |fields[i].key| <= SCRUB_KEY && !env.py.secretKey(fields[i].key) && Storable(env.py, fields[i].value, 1)
    {
      ReportFieldStorable(env, sha, i);
    }
    StorableObject(env.py, fields, 0);
    StorableKept(env.py, Report(sha), 0);
  }

  lemma ReportFieldStorable(env: Platform, sha: string, i: nat)
    requires Ordinary(env) && i < |Report(sha).fields|
    requires Storable(env.py, Completed1("targetId", "a"), 2) && Storable(env.py, Completed1("team", "red"), 2)
    requires Storable(env.py, Receipt1(sha), 1)
    ensures var f := Report(sha).fields[i];
      |f.key| <= SCRUB_KEY && !env.py.secretKey(f.key) && Storable(env.py, f.value, 1)
  {
    assert Report(sha).fields[i].key in NAMES;
  }

  lemma ReceiptReads(sha: string)
    ensures GetOr(Receipt1(sha), "executionGrantSha256", Null) == Str(sha)
  {
    IndexOfIs(Receipt1(sha).fields, "executionGrantSha256", 0);
  }

  /** An accepted report under the grant's digest, which scrub leaves alone, is the validated result. */
  lemma AcceptedIsValidated(py: Runtime, payload: Json, r: Json, sha: string)
    requires AssessmentAccepted(py, payload, r) && r.Obj? && Scrub(py, r, 0) == r
    requires GetOr(r, "executionReceipt", Null) == Receipt1(sha)
    requires exists f :: f in r.fields && f.key != "executionReceipt"
    ensures ValidatedResult(py, AssessmentExecute, payload, Some(sha), true, r, "") == Some(r)
  {
    ReceiptReads(sha);
  }

  lemma TheReport(env: Platform, payload: Json, sha: string) returns (r: Json)
    requires Ordinary(env) && TwoTargetOrder(env, payload) && |sha| == 64 && '\0' !in sha
    ensures ValidatedResult(env.py, AssessmentExecute, payload, Some(sha), true, r, "") == Some(r)
    ensures GetOr(r, "targetResults", Null).Arr? && |GetOr(r, "targetResults", Null).items| == 1
  {
    r := Report(sha);
    ReportStorable(env, sha);
    ReportReads(sha);
    assert r.fields[0] in r.fields;
    ReadsAccepted(env.py, payload, r, sha);
    AcceptedIsValidated(env.py, payload, r, sha);
  }

  // ---- The assessment's run ----

  /** One connector, which holds the capability. */
  predicate Provisioned(s: State) {
    && s.connectors == [Connector({Act(AssessmentExecute)}, false)] && s.tasks == [] && s.approvals == []
    && s.secrets == 1 && !Prohibits(s)
  }

  /** One row: the assessment on two targets, with its approval. */
  predicate HasAssessment(s: State, payload: Json, status: Status) {
    && s.connectors == [Connector({Act(AssessmentExecute)}, false)] && s.secrets == 1 && !Prohibits(s)
    && |s.tasks| == 1 && s.tasks[0].action == AssessmentExecute && s.tasks[0].payload == payload
    && s.tasks[0].risk == High && s.tasks[0].connector == Some(0) && s.tasks[0].agent.None? && s.tasks[0].status == status
  }

  predicate Leased(env: Platform, s: State, payload: Json) {
    && |s.tasks| == 1 && LiveConnector(s, 0) && HoldsLease(s, 0, 0) && s.tasks[0].leaseTokenHash == Some(Digest(1))
    && s.tasks[0].lockedUntil == Some(env.leaseSeconds)
    && s.tasks[0].action == AssessmentExecute && s.tasks[0].payload == payload
    && s.tasks[0].grant.Some? && s.tasks[0].grant.value.sha256 == env.hex(s.tasks[0].grant.value.material)
  }

  lemma ProvisionRun(env: Platform, programs: set<Id>) returns (calls: seq<Call>)
    ensures Provisioned(Run(env, Fresh(programs), calls))
  {
    var provision := Provision(Owner, {Act(AssessmentExecute)});
    calls := [] + [provision];
    RunSnoc(env, Fresh(programs), [], provision);
    assert CreateConnector(Fresh(programs), Owner, {Act(AssessmentExecute)}).Success?;
  }

  function TheOrder(payload: Json): Order {
    Order(AssessmentExecute, Some(0), None, None, payload, false)
  }

  lemma OrderChecked(env: Platform, s: State, payload: Json)
    requires TwoTargetOrder(env, payload) && Provisioned(s)
    ensures CheckOrder(env, s, Owner, TheOrder(payload)) ==
      Success(ActionPolicy(High, true, false, Act(AssessmentExecute), true))
  {
  }

  lemma CreateStep(env: Platform, s: State, payload: Json)
    requires TwoTargetOrder(env, payload) && Provisioned(s)
    ensures var r := CreateTask(env, s, 1, Owner, TheOrder(payload), 0);
      && r.Success? && HasAssessment(r.value, payload, AwaitingApproval)
      && r.value.approvals == [Approval(0, 1, Pending, APPROVAL_SECONDS, None, None, None)]
  {
    OrderChecked(env, s, payload);
  }

  lemma CreateRun(env: Platform, programs: set<Id>, payload: Json) returns (calls: seq<Call>)
    requires TwoTargetOrder(env, payload)
    ensures var s := Run(env, Fresh(programs), calls);
      HasAssessment(s, payload, AwaitingApproval) && s.approvals == [Approval(0, 1, Pending, APPROVAL_SECONDS, None, None, None)]
  {
    var before := ProvisionRun(env, programs);
    var create := Create(1, Owner, TheOrder(payload), 0);
    var s := Run(env, Fresh(programs), before);
    calls := before + [create];
    CreateStep(env, s, payload);
    PerformCreate(env, s, 1, Owner, TheOrder(payload), 0);
    RunCall(env, Fresh(programs), before, create, CreateTask(env, s, 1, Owner, TheOrder(payload), 0).value);
  }

  lemma DecideStep(s: State, payload: Json)
    requires HasAssessment(s, payload, AwaitingApproval) && s.approvals == [Approval(0, 1, Pending, APPROVAL_SECONDS, None, None, None)]
    ensures var r := DecideTask(s, 2, Owner, 0, true, Reading(0, 0)); r.Success? && HasAssessment(r.value, payload, Queued)
  {
    assert PendingApproval(s.approvals, 0) == 0;
  }

  lemma DecideRun(env: Platform, programs: set<Id>, payload: Json) returns (calls: seq<Call>)
    requires TwoTargetOrder(env, payload)
    ensures HasAssessment(Run(env, Fresh(programs), calls), payload, Queued)
  {
    var before := CreateRun(env, programs, payload);
    var decide := Decide(2, Owner, 0, true, Reading(0, 0));
    var s := Run(env, Fresh(programs), before);
    calls := before + [decide];
    DecideStep(s, payload);
    PerformDecide(env, s, 2, Owner, 0, true, Reading(0, 0));
    RunCall(env, Fresh(programs), before, decide, DecideTask(s, 2, Owner, 0, true, Reading(0, 0)).value);
  }

  lemma LeaseStep(env: Platform, s: State, payload: Json)
    requires HasAssessment(s, payload, Queued)
    ensures var r := LeaseTask(env, s, 0, Some(0), 0); r.Success? && Leased(env, r.value.state, payload)
  {
    assert Leasable(Reclaim(s, 0, 0), 0, 0);
  }

  lemma LeaseRun(env: Platform, programs: set<Id>, payload: Json) returns (calls: seq<Call>)
    requires TwoTargetOrder(env, payload)
    ensures Leased(env, Run(env, Fresh(programs), calls), payload)
  {
    var before := DecideRun(env, programs, payload);
    var lease := LeaseNext(0, Some(0), 0);
    var s := Run(env, Fresh(programs), before);
    calls := before + [lease];
    LeaseStep(env, s, payload);
    PerformLease(env, s, 0, Some(0), 0);
    RunCall(env, Fresh(programs), before, lease, LeaseTask(env, s, 0, Some(0), 0).value.state);
  }

  lemma CompleteStep(env: Platform, s: State, payload: Json, r: Json)
    requires Ordinary(env) && Leased(env, s, payload)
    requires ValidatedResult(env.py, AssessmentExecute, payload, GrantSha256(s.tasks[0]), true, r, "") == Some(r)
    ensures var done := CompleteTask(env, s, 0, 0, 1, Completion(true, r, ""), 0);
      && done.Success? && |done.value.tasks| == 1 && done.value.tasks[0].action == AssessmentExecute
      && done.value.tasks[0].status == Succeeded && done.value.tasks[0].payload == payload && done.value.tasks[0].result == r
  {
  }

  /** The failing side of the accounting is reachable: a run at whose end a succeeded assessment's stored result
      reports one of the two targets of its work order. */
  lemma DroppedTargetRun(env: Platform, programs: set<Id>) returns (calls: seq<Call>)
    requires Ordinary(env)
    ensures var s := Run(env, Fresh(programs), calls);
      && |s.tasks| == 1 && s.tasks[0].action == AssessmentExecute && s.tasks[0].status == Succeeded
      && Targets(s.tasks[0].payload).Arr? && GetOr(s.tasks[0].result, "targetResults", Null).Arr?
      && |Targets(s.tasks[0].payload).items| == 2 && |GetOr(s.tasks[0].result, "targetResults", Null).items| == 1
      && !IdsTruthy(Targets(s.tasks[0].payload).items)
  {
    var payload := ThePayload(env);
    var before := LeaseRun(env, programs, payload);
    var s := Run(env, Fresh(programs), before);
    var r := TheReport(env, payload, s.tasks[0].grant.value.sha256);
    var complete := Complete(0, 0, 1, Completion(true, r, ""), 0);
    calls := before + [complete];
    CompleteStep(env, s, payload, r);
    PerformComplete(env, s, 0, 0, 1, Completion(true, r, ""), 0);
    RunCall(env, Fresh(programs), before, complete, CompleteTask(env, s, 0, 0, 1, Completion(true, r, ""), 0).value);
  }
}
