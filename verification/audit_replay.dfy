/** The tenant's audit events as a record of its tasks: replaying them rebuilds every status, and each result
    they commit to is the one that was validated. */
module AuditReplay {
  import opened Wrappers
  import opened Json
  import opened Policies
  import opened Security
  import opened Assessments
  import opened Tasks
  import opened TaskProtocol
  import opened Effects

  // ---- Statuses ----

  function Apply(statuses: seq<Status>, e: AuditBody): (r: seq<Status>)
    ensures |statuses| <= |r|
  {
    match e
    case TaskCreated(task, approvalRequired) =>
      statuses + [if approvalRequired then AwaitingApproval else Queued]
    case TaskDecided(task, approved) => Mark(statuses, task, if approved then Queued else Rejected)
    case TaskLeased(task, _) => Mark(statuses, task, Running)
    case TaskBlocked(task) => Mark(statuses, task, Blocked)
    case TaskCompleted(task, succeeded, _) => Mark(statuses, task, if succeeded then Succeeded else Failed)
    case SafetyChanged(_, after) =>
      if after in {Restricted, Halted}
      then seq(|statuses|, t requires 0 <= t < |statuses| => if statuses[t] in {Queued, Running} then Blocked else statuses[t])
      else statuses
    case _ => statuses
  }

  function Mark(statuses: seq<Status>, task: Id, status: Status): (r: seq<Status>)
    ensures |r| == |statuses|
  {
    if task < |statuses| then statuses[task := status] else statuses
  }

  function Replay(audit: seq<AuditBody>): seq<Status> {
    if audit == [] then [] else Apply(Replay(audit[..|audit| - 1]), audit[|audit| - 1])
  }

  lemma ReplaySnoc(audit: seq<AuditBody>, e: AuditBody)
    ensures Replay(audit + [e]) == Apply(Replay(audit), e)
  {
    assert (audit + [e])[..|audit|] == audit;
  }

  /** The only unaudited move is an expired lease going back to the queue. */
  predicate Agrees(replayed: Status, actual: Status) {
    replayed == actual || (replayed == Running && actual == Queued)
  }

  ghost predicate ReplayOk(s: State) {
    && |Replay(s.audit)| == |s.tasks|
    && forall t :: 0 <= t < |s.tasks| ==> Agrees(Replay(s.audit)[t], s.tasks[t].status)
  }

  lemma ReplayReclaim(s: State, connector: Id, now: Instant)
    requires ReplayOk(s)
    ensures ReplayOk(Reclaim(s, connector, now))
  {
  }

  /** A call that appends one event, which says what became of the rows. */
  lemma ReplayOne(s: State, s': State, e: AuditBody)
    requires ReplayOk(s) && s'.audit == s.audit + [e]
    requires |Apply(Replay(s.audit), e)| == |s'.tasks|
    requires forall t :: 0 <= t < |s'.tasks| ==> Agrees(Apply(Replay(s.audit), e)[t], s'.tasks[t].status)
    ensures ReplayOk(s')
  {
    ReplaySnoc(s.audit, e);
  }

  lemma ReplayLease(env: Platform, s: State, connector: Id, pick: Option<Id>, now: Instant)
    requires ReplayOk(s) && LeaseTask(env, s, connector, pick, now).Success?
    ensures ReplayOk(LeaseTask(env, s, connector, pick, now).value.state)
  {
    if !Prohibits(s) {
      var r, s' := Reclaim(s, connector, now), LeaseTask(env, s, connector, pick, now).value.state;
      ReplayReclaim(s, connector, now);
      if s' != r {
        ReplayOne(r, s', s'.audit[|r.audit|]);
      }
    }
  }

  lemma ReplayCreate(env: Platform, s: State, user: Id, role: Role, o: Order, now: Instant)
    requires ReplayOk(s) && CreateTask(env, s, user, role, o, now).Success?
    ensures ReplayOk(CreateTask(env, s, user, role, o, now).value)
  {
    var s' := CreateTask(env, s, user, role, o, now).value;
    ReplayOne(s, s', s'.audit[|s.audit|]);
  }

  lemma ReplayDecide(s: State, user: Id, role: Role, task: Id, approve: bool, now: Reading)
    requires ReplayOk(s) && DecideTask(s, user, role, task, approve, now).Success?
    ensures ReplayOk(DecideTask(s, user, role, task, approve, now).value)
  {
    ReplayOne(s, DecideTask(s, user, role, task, approve, now).value, TaskDecided(task, approve));
  }

  lemma ReplaySafety(s: State, role: Role, level: SafetyLevel)
    requires ReplayOk(s) && UpdateSafety(s, role, level).Success?
    ensures ReplayOk(UpdateSafety(s, role, level).value)
  {
    ReplayOne(s, UpdateSafety(s, role, level).value, SafetyChanged(s.safety, level));
  }

  lemma ReplayComplete(env: Platform, s: State, connector: Id, task: Id, token: nat, c: Completion, now: Instant)
    requires ReplayOk(s) && CompleteTask(env, s, connector, task, token, c, now).Success?
    ensures ReplayOk(CompleteTask(env, s, connector, task, token, c, now).value)
  {
    var s' := CompleteTask(env, s, connector, task, token, c, now).value;
    ReplayOne(s, s', s'.audit[|s.audit|]);
  }

  /** A call whose events say nothing of tasks, and which leaves their statuses alone. */
  lemma ReplayElse(s: State, s': State, more: seq<AuditBody>)
    requires ReplayOk(s) && s'.audit == s.audit + more && |more| <= 1
    requires forall e :: e in more ==> e.ConnectorCreated? || e.ConnectorRevoked?
    requires |s'.tasks| == |s.tasks| && forall t :: 0 <= t < |s.tasks| ==> s'.tasks[t].status == s.tasks[t].status
    ensures ReplayOk(s')
  {
    if more == [] {
      assert s'.audit == s.audit;
    } else {
      assert more == [more[0]] && more[0] in more;
      ReplayOne(s, s', more[0]);
    }
  }

  lemma ReplayStep(env: Platform, s: State, call: Call)
    requires ReplayOk(s)
    ensures ReplayOk(Step(env, s, call))
  {
    if Perform(env, s, call).Success? {
      match call
      case Create(user, role, order, at) => ReplayCreate(env, s, user, role, order, at);
      case Decide(user, role, task, approve, clock) => ReplayDecide(s, user, role, task, approve, clock);
      case Provision(role, capabilities) => ReplayElse(s, CreateConnector(s, role, capabilities).value, [ConnectorCreated(|s.connectors|)]);
      case Revoke(role, connector) => ReplayElse(s, RevokeConnector(s, role, connector).value, [ConnectorRevoked(connector)]);
      case SetSafety(role, level) => ReplaySafety(s, role, level);
      case LeaseNext(connector, pick, at) => ReplayLease(env, s, connector, pick, at);
      case Complete(connector, task, token, completion, at) => ReplayComplete(env, s, connector, task, token, completion, at);
      case Beat(connector, capabilities, reports) => ReplayElse(s, Heartbeat(s, connector, capabilities, reports).value, []);
      case Renew(connector, task, token, at) => ReplayElse(s, RenewLease(env, s, connector, task, token, at).value, []);
    }
  }

  /** In every reachable workspace the audit events alone rebuild every task's status, up to a reclaimed
      lease; no running, awaiting or final task is ever misreported. */
  lemma {:induction false} ReplayRebuilds(env: Platform, programs: set<Id>, calls: seq<Call>)
    ensures var s := Run(env, Fresh(programs), calls);
      && |Replay(s.audit)| == |s.tasks|
      && forall t :: 0 <= t < |s.tasks| ==> Agrees(Replay(s.audit)[t], s.tasks[t].status)
  {
    if calls != [] {
      ReplayRebuilds(env, programs, calls[..|calls| - 1]);
      ReplayStep(env, Run(env, Fresh(programs), calls[..|calls| - 1]), calls[|calls| - 1]);
    }
  }

  // ---- Results ----

  ghost predicate Finished(t: Task) {
    t.status in {Succeeded, Failed}
  }

  /** Event i records the completion of task t, with the result its row holds. */
  ghost predicate Records(s: State, i: nat, t: Id) {
    && i < |s.audit| && t < |s.tasks|
    && s.audit[i] == TaskCompleted(t, s.tasks[t].status == Succeeded, s.tasks[t].result)
  }

  ghost predicate ResultOk(env: Platform, t: Task) {
    && WorkOrderOk(env.py, t.action, t.payload)
    && (Finished(t) ==> Scrub(env.py, t.result, 0) == t.result && AnswersGrant(t.result, t.grant))
    && (t.status == Succeeded && t.action.AssessmentExecute? ==> AssessmentAccepted(env.py, t.payload, t.result))
    && (t.status == Succeeded && t.action.GateRun? ==> GateAccepted(t.payload, t.result))
    && (t.status == Succeeded && t.action.EvidenceAnalyze? ==> EvidenceAccepted(t.payload, t.result))
  }

  ghost predicate ResultsOk(env: Platform, s: State) {
    && (forall t :: 0 <= t < |s.tasks| ==> ResultOk(env, s.tasks[t]))
    && (forall t :: 0 <= t < |s.tasks| && Finished(s.tasks[t]) ==> exists i :: Records(s, i, t))
    && (forall i :: 0 <= i < |s.audit| && s.audit[i].TaskCompleted? ==>
      && s.audit[i].task < |s.tasks| && Finished(s.tasks[s.audit[i].task]) && Records(s, i, s.audit[i].task))
    && (forall i, j :: 0 <= i < j < |s.audit| && s.audit[i].TaskCompleted? && s.audit[j].TaskCompleted? ==>
      s.audit[i].task != s.audit[j].task)
  }

  /** A call other than a completion touches no result, no work order and no finished row. */
  lemma UntouchedResults(env: Platform, s: State, s': State)
    requires ResultsOk(env, s) && |s.tasks| <= |s'.tasks|
    requires s.audit <= s'.audit && forall i :: |s.audit| <= i < |s'.audit| ==> !s'.audit[i].TaskCompleted?
    requires forall t :: 0 <= t < |s.tasks| ==>
      && s'.tasks[t].action == s.tasks[t].action && s'.tasks[t].payload == s.tasks[t].payload
      && s'.tasks[t].result == s.tasks[t].result
      && (Finished(s.tasks[t]) || Finished(s'.tasks[t]) ==>
        s'.tasks[t].status == s.tasks[t].status && s'.tasks[t].grant == s.tasks[t].grant)
    requires forall t :: |s.tasks| <= t < |s'.tasks| ==> ResultOk(env, s'.tasks[t]) && !Finished(s'.tasks[t])
    ensures ResultsOk(env, s')
  {
    forall t | 0 <= t < |s'.tasks| ensures ResultOk(env, s'.tasks[t]) {
      assert t < |s.tasks| ==> ResultOk(env, s.tasks[t]);
    }
    forall t | 0 <= t < |s'.tasks| && Finished(s'.tasks[t]) ensures exists i :: Records(s', i, t) {
      var i :| Records(s, i, t);
      assert Records(s', i, t);
    }
    forall i | 0 <= i < |s'.audit| && s'.audit[i].TaskCompleted?
      ensures s'.audit[i].task < |s'.tasks| && Finished(s'.tasks[s'.audit[i].task]) && Records(s', i, s'.audit[i].task)
    {
      assert i < |s.audit| && Records(s, i, s.audit[i].task);
    }
  }

  lemma CompletedRowOk(env: Platform, s: State, connector: Id, task: Id, token: nat, c: Completion, now: Instant)
    requires ResultsOk(env, s) && CompleteTask(env, s, connector, task, token, c, now).Success?
    ensures ResultOk(env, CompleteTask(env, s, connector, task, token, c, now).value.tasks[task])
  {
    assert ResultOk(env, s.tasks[task]);
    ScrubIdempotent(env.py, c.result, 0);
    ValidatedExactly(env, s.tasks[task], c);
  }

  /** One row finished, and one event that records it. */
  ghost predicate OneFinished(env: Platform, s: State, s': State, task: Id) {
    && ResultsOk(env, s) && task < |s.tasks| == |s'.tasks| && !Finished(s.tasks[task])
    && s'.tasks == s.tasks[task := s'.tasks[task]] && ResultOk(env, s'.tasks[task]) && Finished(s'.tasks[task])
    && s'.audit == s.audit + [TaskCompleted(task, s'.tasks[task].status == Succeeded, s'.tasks[task].result)]
  }

  lemma FinishedRecorded(env: Platform, s: State, s': State, task: Id, t: Id)
    requires OneFinished(env, s, s', task) && t < |s'.tasks| && Finished(s'.tasks[t])
    ensures exists i :: Records(s', i, t)
  {
    if t == task {
      assert Records(s', |s.audit|, t);
    } else {
      var i :| Records(s, i, t);
      assert Records(s', i, t);
    }
  }

  /** No earlier event recorded the row. */
  lemma RecordedBefore(env: Platform, s: State, s': State, task: Id, i: nat)
    requires OneFinished(env, s, s', task) && i < |s.audit| && s.audit[i].TaskCompleted?
    ensures s.audit[i].task != task && Records(s', i, s.audit[i].task)
  {
    assert Records(s, i, s.audit[i].task);
  }

  lemma OneMoreRecord(env: Platform, s: State, s': State, task: Id)
    requires OneFinished(env, s, s', task)
    ensures ResultsOk(env, s')
  {
    forall t | 0 <= t < |s'.tasks| ensures ResultOk(env, s'.tasks[t]) {
      assert ResultOk(env, s.tasks[t]);
    }
    forall t | 0 <= t < |s'.tasks| && Finished(s'.tasks[t]) ensures exists i :: Records(s', i, t) {
      FinishedRecorded(env, s, s', task, t);
    }
    forall i | 0 <= i < |s.audit| && s.audit[i].TaskCompleted?
      ensures s.audit[i].task != task && Records(s', i, s.audit[i].task)
    {
      RecordedBefore(env, s, s', task, i);
    }
  }

  lemma CompleteRecords(env: Platform, s: State, connector: Id, task: Id, token: nat, c: Completion, now: Instant)
    requires ResultsOk(env, s) && CompleteTask(env, s, connector, task, token, c, now).Success?
    ensures ResultsOk(env, CompleteTask(env, s, connector, task, token, c, now).value)
  {
    CompletedRowOk(env, s, connector, task, token, c, now);
    OneMoreRecord(env, s, CompleteTask(env, s, connector, task, token, c, now).value, task);
  }

  lemma ReclaimResults(env: Platform, s: State, connector: Id, now: Instant)
    requires ResultsOk(env, s)
    ensures ResultsOk(env, Reclaim(s, connector, now))
  {
    UntouchedResults(env, s, Reclaim(s, connector, now));
  }

  /** One unfinished row moved, under an event that is no completion. */
  lemma OneRowMoved(env: Platform, s: State, s': State, t: Id, e: AuditBody)
    requires ResultsOk(env, s) && t < |s.tasks| == |s'.tasks| && s'.tasks == s.tasks[t := s'.tasks[t]] && s'.audit == s.audit + [e]
    requires !e.TaskCompleted? && !Finished(s.tasks[t]) && !Finished(s'.tasks[t])
    requires s'.tasks[t].action == s.tasks[t].action && s'.tasks[t].payload == s.tasks[t].payload && s'.tasks[t].result == s.tasks[t].result
    ensures ResultsOk(env, s')
  {
    UntouchedResults(env, s, s');
  }

  lemma LeaseResults(env: Platform, s: State, connector: Id, pick: Option<Id>, now: Instant)
    requires ResultsOk(env, s) && LeaseTask(env, s, connector, pick, now).Success?
    ensures ResultsOk(env, LeaseTask(env, s, connector, pick, now).value.state)
  {
    if !Prohibits(s) {
      var r := Reclaim(s, connector, now);
      ReclaimResults(env, s, connector, now);
      if pick.Some? && Leasable(r, connector, pick.value) {
        LeaseRowResults(env, r, connector, pick.value, now);
      }
    }
  }

  lemma LeaseRowResults(env: Platform, r: State, connector: Id, t: Id, now: Instant)
    requires ResultsOk(env, r) && connector < |r.connectors| && Leasable(r, connector, t)
    requires LeaseRow(env, r, connector, t, now).Success?
    ensures ResultsOk(env, LeaseRow(env, r, connector, t, now).value.state)
  {
    var s' := LeaseRow(env, r, connector, t, now).value.state;
    OneRowMoved(env, r, s', t, s'.audit[|r.audit|]);
  }

  lemma CreateResults(env: Platform, s: State, user: Id, role: Role, o: Order, now: Instant)
    requires ResultsOk(env, s) && CreateTask(env, s, user, role, o, now).Success?
    ensures ResultsOk(env, CreateTask(env, s, user, role, o, now).value)
  {
    UntouchedResults(env, s, CreateTask(env, s, user, role, o, now).value);
  }

  lemma DecideResults(env: Platform, s: State, user: Id, role: Role, task: Id, approve: bool, now: Reading)
    requires ResultsOk(env, s) && DecideTask(s, user, role, task, approve, now).Success?
    ensures ResultsOk(env, DecideTask(s, user, role, task, approve, now).value)
  {
    UntouchedResults(env, s, DecideTask(s, user, role, task, approve, now).value);
  }

  lemma SafetyResults(env: Platform, s: State, role: Role, level: SafetyLevel)
    requires ResultsOk(env, s) && UpdateSafety(s, role, level).Success?
    ensures ResultsOk(env, UpdateSafety(s, role, level).value)
  {
    UntouchedResults(env, s, UpdateSafety(s, role, level).value);
  }

  lemma RenewResults(env: Platform, s: State, connector: Id, task: Id, token: nat, now: Instant)
    requires ResultsOk(env, s) && RenewLease(env, s, connector, task, token, now).Success?
    ensures ResultsOk(env, RenewLease(env, s, connector, task, token, now).value)
  {
    UntouchedResults(env, s, RenewLease(env, s, connector, task, token, now).value);
  }

  lemma ResultsStep(env: Platform, s: State, call: Call)
    requires ResultsOk(env, s)
    ensures ResultsOk(env, Step(env, s, call))
  {
    if Perform(env, s, call).Success? {
      match call
      case Complete(connector, task, token, completion, at) => CompleteRecords(env, s, connector, task, token, completion, at);
      case LeaseNext(connector, pick, at) => LeaseResults(env, s, connector, pick, at);
      case Create(user, role, order, at) => CreateResults(env, s, user, role, order, at);
      case Decide(user, role, task, approve, clock) => DecideResults(env, s, user, role, task, approve, clock);
      case SetSafety(role, level) => SafetyResults(env, s, role, level);
      case Renew(connector, task, token, at) => RenewResults(env, s, connector, task, token, at);
      case Provision(role, capabilities) => UntouchedResults(env, s, CreateConnector(s, role, capabilities).value);
      case Revoke(role, connector) => UntouchedResults(env, s, RevokeConnector(s, role, connector).value);
      case Beat(connector, capabilities, reports) => UntouchedResults(env, s, Heartbeat(s, connector, capabilities, reports).value);
    }
  }

  lemma {:induction false} ReachableResults(env: Platform, programs: set<Id>, calls: seq<Call>)
    ensures ResultsOk(env, Run(env, Fresh(programs), calls))
  {
    if calls != [] {
      ReachableResults(env, programs, calls[..|calls| - 1]);
      ResultsStep(env, Run(env, Fresh(programs), calls[..|calls| - 1]), calls[|calls| - 1]);
    }
  }

  /** A task completes at most once, and is finished exactly when one audit event records it; that event
      commits to the stored result, which a further scrub (as the synchronization does) leaves as it is. */
  lemma CompletesOnce(env: Platform, s: State, t: Id)
    requires Reachable(env, s) && t < |s.tasks|
    ensures s.tasks[t].status in {Succeeded, Failed} <==> exists i :: Records(s, i, t)
    ensures forall i, j :: 0 <= i < j < |s.audit| ==>
      !(s.audit[i].TaskCompleted? && s.audit[j].TaskCompleted? && s.audit[i].task == s.audit[j].task)
    ensures s.tasks[t].status in {Succeeded, Failed} ==> Scrub(env.py, s.tasks[t].result, 0) == s.tasks[t].result
  {
    var programs, calls :| s == Run(env, Fresh(programs), calls);
    ReachableResults(env, programs, calls);
    if i: nat :| Records(s, i, t) {
      assert s.audit[i].TaskCompleted? && s.audit[i].task == t;
    }
  }

  lemma ReachableRow(env: Platform, s: State, t: Id)
    requires Reachable(env, s) && t < |s.tasks|
    ensures ResultOk(env, s.tasks[t])
  {
    var programs, calls :| s == Run(env, Fresh(programs), calls);
    ReachableResults(env, programs, calls);
    assert ResultOk(env, s.tasks[t]);
  }

  /** In every reachable workspace each finished row has a grant, and its stored result holds the receipt of that
      very grant. */
  lemma StoredResultAnswersGrant(env: Platform, s: State, t: Id)
    requires Reachable(env, s) && t < |s.tasks| && s.tasks[t].status in {Succeeded, Failed}
    ensures s.tasks[t].grant.Some?
    ensures Get(s.tasks[t].result, "executionReceipt").Some? && Get(s.tasks[t].result, "executionReceipt").value.Obj?
    ensures Get(Get(s.tasks[t].result, "executionReceipt").value, "executionGrantSha256") == Some(Str(s.tasks[t].grant.value.sha256))
  {
    ReachableRow(env, s, t);
  }

  /** A completion whose result lacks the lease's own receipt changes nothing. */
  lemma ForeignReceiptChangesNothing(env: Platform, s: State, connector: Id, t: Id, token: nat, c: Completion, now: Instant)
    requires t < |s.tasks| ==> !AnswersGrant(Scrub(env.py, c.result, 0), s.tasks[t].grant)
    ensures Step(env, s, Complete(connector, t, token, c, now)) == s
  {
    CompleteExactly(env, s, connector, t, token, c, now);
  }

  /** In every reachable workspace a succeeded gate run passed its own gate, with return code zero. */
  lemma SucceededGate(env: Platform, s: State, t: Id)
    requires Reachable(env, s) && t < |s.tasks| && s.tasks[t].action.GateRun? && s.tasks[t].status == Succeeded
    ensures GetOr(s.tasks[t].result, "passed", Null) == Bool(true)
    ensures Numeric(GetOr(s.tasks[t].result, "returnCode", Null)) == Some(0.0)
    ensures PyEq(GetOr(s.tasks[t].result, "gateId", Null), GetOr(s.tasks[t].payload, "gateId", Null))
    ensures env.py.strip(env.py.str(GetOr(s.tasks[t].payload, "gateId", Str("")))) != ""
  {
    ReachableRow(env, s, t);
  }

  /** In every reachable workspace a succeeded analysis is of the very bytes that were ordered. */
  lemma SucceededAnalysis(env: Platform, s: State, t: Id)
    requires Reachable(env, s) && t < |s.tasks| && s.tasks[t].action.EvidenceAnalyze? && s.tasks[t].status == Succeeded
    ensures var x, r := s.tasks[t].payload, s.tasks[t].result;
      && PyEq(GetOr(r, "sha256", Null), GetOr(x, "sha256", Null))
      && PyEq(GetOr(r, "bytesAnalyzed", Null), GetOr(x, "sizeBytes", Null))
      && PyEq(GetOr(r, "mediaKind", Null), GetOr(x, "mediaKind", Null))
      && GetOr(r, "suggestions", Null).Arr? && GetOr(r, "findings", Null).Arr?
      && Numeric(GetOr(r, "bytesAnalyzed", Null)).Some? && Numeric(GetOr(r, "bytesAnalyzed", Null)).value >= 0.0
  {
    ReachableRow(env, s, t);
  }

  /** In every reachable workspace a succeeded assessment names its engine and score, and stays diagnostic. */
  lemma SucceededIsDiagnostic(env: Platform, s: State, t: Id)
    requires Reachable(env, s) && t < |s.tasks| && s.tasks[t].action.AssessmentExecute? && s.tasks[t].status == Succeeded
    ensures var r := s.tasks[t].result;
      && GetOr(r, "assessmentStatus", Null) == Str("completed")
      && GetOr(r, "engine", Null).Str? && env.py.strip(GetOr(r, "engine", Null).s) != ""
      && (GetOr(r, "score", Null).Int? || GetOr(r, "score", Null).Float?)
      && GetOr(r, "automaticFailure", Null).Bool? && GetOr(r, "diagnosticOnly", Null) == Bool(true)
      && GetOr(r, "findings", Null).Arr? && GetOr(r, "recommendations", Null).Arr?
  {
    ReachableRow(env, s, t);
  }

  /** In every reachable workspace a succeeded assessment's stored result reports each target and team at most
      once, all completed, and reports a permutation of the authorized ones exactly when the ids are truthy. */
  lemma SucceededAssessment(env: Platform, s: State, t: Id)
    requires Reachable(env, s) && t < |s.tasks|
    requires env.py.strip(env.py.str(Str(""))) == ""
    requires s.tasks[t].action.AssessmentExecute? && s.tasks[t].status == Succeeded
    ensures Targets(s.tasks[t].payload).Arr? && GetOr(s.tasks[t].result, "targetResults", Null).Arr?
    ensures var targets, results := Targets(s.tasks[t].payload).items, GetOr(s.tasks[t].result, "targetResults", Null).items;
      && (forall x :: x in results ==> CompletedItem(x))
      && Distinct(Texts(env.py, results, "targetId"))
      && (multiset(Texts(env.py, results, "targetId")) == multiset(Texts(env.py, targets, "id")) <==> IdsTruthy(targets))
    ensures Teams(s.tasks[t].payload).Arr? && GetOr(s.tasks[t].result, "teamResults", Null).Arr?
    ensures var teams, results := Teams(s.tasks[t].payload).items, GetOr(s.tasks[t].result, "teamResults", Null).items;
      && (forall x :: x in results ==> CompletedItem(x))
      && Distinct(Texts(env.py, results, "team"))
      && (multiset(Texts(env.py, results, "team")) == multiset(Texts(env.py, teams, "id")) <==> IdsTruthy(teams))
  {
    ReachableRow(env, s, t);
    AssessmentAccounting(env.py, s.tasks[t].payload, s.tasks[t].result);
  }
}
