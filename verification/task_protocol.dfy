/** Safety of the governed task protocol over every run. */
module TaskProtocol {
  import opened Wrappers
  import opened Policies
  import opened Assessments
  import opened Tasks
  import opened TaskInvariants

  ghost predicate Reachable(env: Platform, s: State) {
    exists programs, calls :: s == Run(env, Fresh(programs), calls)
  }

  lemma ReachableStep(env: Platform, s: State, call: Call)
    requires Reachable(env, s)
    ensures Reachable(env, Step(env, s, call))
  {
    var programs, calls :| s == Run(env, Fresh(programs), calls);
    var more := calls + [call];
    assert more[..|calls|] == calls;
    assert Step(env, s, call) == Run(env, Fresh(programs), more);
  }

  lemma FreshReachable(env: Platform, programs: set<Id>)
    ensures Reachable(env, Fresh(programs))
  {
    assert Fresh(programs) == Run(env, Fresh(programs), []);
  }

  lemma ReachableIsOk(env: Platform, s: State)
    requires Reachable(env, s)
    ensures Inv(env, s)
  {
    var programs, calls :| s == Run(env, Fresh(programs), calls);
    ReachableInv(env, programs, calls);
  }

  // ---- Who authorized the work ----

  /** A human said yes in time, and not the requester when the action is critical. */
  ghost predicate AuthorizedBy(s: State, t: Id, a: Id)
    requires t < |s.tasks|
  {
    && a < |s.approvals| && s.approvals[a].task == t && s.approvals[a].status == Approved
    && s.approvals[a].checkedAt.Some? && s.approvals[a].checkedAt.value <= s.approvals[a].expiresAt
    && s.approvals[a].decidedBy.Some?
    && (s.tasks[t].risk == Critical ==> s.approvals[a].decidedBy.value != s.tasks[t].requestedBy)
  }

  /** No governed task is queued, leased or finished without its approval; and a critical live task follows
      a succeeded dry run of the same action that some other human approved on its own. */
  lemma GovernedWorkIsAuthorized(env: Platform, s: State, t: Id)
    requires Reachable(env, s) && t < |s.tasks|
    requires s.tasks[t].status !in {AwaitingApproval, Rejected}
    ensures s.tasks[t].approvalRequired ==> exists a :: AuthorizedBy(s, t, a)
    ensures s.tasks[t].risk == Critical ==> s.tasks[t].approvalRequired
    ensures s.tasks[t].risk == Critical && !s.tasks[t].dryRun ==>
      exists d: nat, b: nat :: DryRunOf(s, d, t) && s.tasks[d].risk == Critical && AuthorizedBy(s, d, b)
  {
    ReachableIsOk(env, s);
    assert TaskOk(env, s, t);
    if s.tasks[t].approvalRequired {
      var a := TheApproval(env, s, t);
    }
    if s.tasks[t].risk == Critical && !s.tasks[t].dryRun {
      var d :| DryRunOf(s, d, t);
      assert TaskOk(env, s, d);
      var b := TheApproval(env, s, d);
    }
  }

  lemma TheApproval(env: Platform, s: State, t: Id) returns (a: Id)
    requires Inv(env, s) && t < |s.tasks| && s.tasks[t].approvalRequired
    requires s.tasks[t].status !in {AwaitingApproval, Rejected}
    ensures AuthorizedBy(s, t, a)
  {
    assert HasApproval(s, t);
    a :| 0 <= a < |s.approvals| && s.approvals[a].task == t;
    assert ApprovalOk(s, s.approvals[a]);
  }

  /** Row a holds the undecided approval of task t, which expires at the deadline. */
  ghost predicate Undecided(env: Platform, s: State, t: Id, a: Id, deadline: Instant) {
    && Inv(env, s) && t < |s.tasks| && a < |s.approvals|
    && s.approvals[a].task == t && s.approvals[a].status == Pending && s.approvals[a].expiresAt == deadline
  }

  lemma LateDecisionRefused(env: Platform, s: State, t: Id, a: Id, deadline: Instant, user: Id, role: Role, approve: bool, now: Reading)
    requires Undecided(env, s, t, a, deadline) && now.check > deadline
    ensures DecideTask(s, user, role, t, approve, now).Failure?
  {
    var k := PendingApproval(s.approvals, t);
    assert k < |s.approvals| ==> k == a;
  }

  lemma StaysUndecided(env: Platform, s: State, t: Id, a: Id, deadline: Instant, call: Call)
    requires Undecided(env, s, t, a, deadline)
    requires call.Decide? && call.task == t ==> call.clock.check > deadline
    ensures Undecided(env, Step(env, s, call), t, a, deadline)
  {
    StepKeeps(env, s, call);
    if call.Decide? && call.task == t {
      LateDecisionRefused(env, s, t, a, deadline, call.user, call.role, call.approve, call.clock);
    }
  }

  /** The write of the expired branch never lasts: over any run whose decisions on the task come after the
      deadline, the approval stays pending and the task stays open instead of rejected. */
  lemma {:induction false} ExpiredStaysOpen(env: Platform, s: State, t: Id, a: Id, deadline: Instant, calls: seq<Call>)
    requires Undecided(env, s, t, a, deadline)
    requires forall c :: c in calls && c.Decide? && c.task == t ==> c.clock.check > deadline
    ensures Undecided(env, Run(env, s, calls), t, a, deadline)
    ensures Run(env, s, calls).tasks[t].status == AwaitingApproval
  {
    if calls != [] {
      ExpiredStaysOpen(env, s, t, a, deadline, calls[..|calls| - 1]);
      StaysUndecided(env, Run(env, s, calls[..|calls| - 1]), t, a, deadline, calls[|calls| - 1]);
    }
    assert ApprovalOk(Run(env, s, calls), Run(env, s, calls).approvals[a]);
  }

  /** Of an undecided approval in time, the requester's own decision is refused if and only if the action is
      critical. */
  lemma RequesterRefusedExactly(env: Platform, s: State, t: Id, a: Id, deadline: Instant, role: Role, approve: bool, now: Reading)
    requires Undecided(env, s, t, a, deadline) && now.check <= deadline && Permits(role, TasksApprove)
    ensures DecideTask(s, s.tasks[t].requestedBy, role, t, approve, now).Failure? <==> s.tasks[t].risk == Critical
  {
    assert ApprovalOk(s, s.approvals[a]);
    assert PendingApproval(s.approvals, t) == a;
  }

  /** While the workspace is restricted or halted nothing runs; the kill switch is on exactly when halted. */
  lemma NothingRunsWhileRestricted(env: Platform, s: State)
    requires Reachable(env, s)
    ensures s.killSwitch <==> s.safety == Halted
    ensures s.safety in {Restricted, Halted} ==> forall t :: 0 <= t < |s.tasks| ==> s.tasks[t].status != Running
  {
    ReachableIsOk(env, s);
  }

  // ---- The life cycle ----

  predicate Final(status: Status) {
    status in {Succeeded, Failed, Rejected, Blocked}
  }

  /** The moves one service call can give a task. */
  predicate Moves(before: Status, after: Status) {
    || after == before
    || (before == AwaitingApproval && after in {Queued, Rejected})
    || (before == Queued && after in {Running, Blocked})
    || (before == Running && after in {Queued, Succeeded, Failed, Blocked})
  }

  lemma LeaseMovesRow(env: Platform, s: State, connector: Id, pick: Option<Id>, now: Instant, t: Id)
    requires LeaseTask(env, s, connector, pick, now).Success? && t < |s.tasks|
    ensures var s' := LeaseTask(env, s, connector, pick, now).value.state;
      t < |s'.tasks| && Moves(s.tasks[t].status, s'.tasks[t].status)
  {
  }

  lemma CompleteMovesRow(env: Platform, s: State, connector: Id, task: Id, token: nat, c: Completion, now: Instant, t: Id)
    requires CompleteTask(env, s, connector, task, token, c, now).Success? && t < |s.tasks|
    ensures var s' := CompleteTask(env, s, connector, task, token, c, now).value;
      t < |s'.tasks| && Moves(s.tasks[t].status, s'.tasks[t].status)
  {
  }

  lemma LifeCycle(env: Platform, s: State, call: Call, t: Id)
    requires t < |s.tasks|
    ensures t < |Step(env, s, call).tasks| && Moves(s.tasks[t].status, Step(env, s, call).tasks[t].status)
  {
    if Perform(env, s, call).Success? {
      match call
      case LeaseNext(connector, pick, at) => LeaseMovesRow(env, s, connector, pick, at, t);
      case Complete(connector, task, token, completion, at) => CompleteMovesRow(env, s, connector, task, token, completion, at, t);
      case _ =>
    }
  }

  /** Succeeded, failed, rejected and blocked are final over any further run. */
  lemma {:induction false} FinalForever(env: Platform, s: State, t: Id, calls: seq<Call>)
    requires Inv(env, s) && t < |s.tasks| && Final(s.tasks[t].status)
    ensures Inv(env, Run(env, s, calls))
    ensures t < |Run(env, s, calls).tasks| && Run(env, s, calls).tasks[t].status == s.tasks[t].status
  {
    if calls != [] {
      var before := Run(env, s, calls[..|calls| - 1]);
      FinalForever(env, s, t, calls[..|calls| - 1]);
      StepKeeps(env, before, calls[|calls| - 1]);
      LifeCycle(env, before, calls[|calls| - 1], t);
    }
  }

  // ---- Leases ----

  /** The deadline is all that a valid completion of a held lease depends on. */
  lemma CompletableExactly(env: Platform, s: State, connector: Id, t: Id, token: nat, c: Completion, now: Instant)
    requires LiveConnector(s, connector) && HoldsLease(s, connector, t) && s.tasks[t].leaseTokenHash == Some(Digest(token))
    requires ValidatedResult(env.py, s.tasks[t].action, s.tasks[t].payload, GrantSha256(s.tasks[t]), c.succeeded, c.result, c.error).Some?
    ensures CompleteTask(env, s, connector, t, token, c, now).Success? <==> !Expired(s.tasks[t], now)
  {
  }

  /** At any instant a running task's lease is either completable or reclaimable, never both: given the
      right connector, token and a valid result, completion succeeds exactly when the connector's next
      lease call at that instant would leave the task running. */
  lemma LeaseIsCompletableOrReclaimable(env: Platform, s: State, connector: Id, t: Id, token: nat, c: Completion, now: Instant)
    requires Reachable(env, s) && LiveConnector(s, connector)
    requires t < |s.tasks| && s.tasks[t].status == Running && s.tasks[t].connector == Some(connector)
    requires s.tasks[t].leaseTokenHash == Some(Digest(token))
    requires ValidatedResult(env.py, s.tasks[t].action, s.tasks[t].payload, GrantSha256(s.tasks[t]), c.succeeded, c.result, c.error).Some?
    ensures s.tasks[t].lockedUntil.Some?
    ensures CompleteTask(env, s, connector, t, token, c, now).Success? <==> Reclaim(s, connector, now).tasks[t].status == Running
    ensures Reclaim(s, connector, now).tasks[t].status == Queued <==> s.tasks[t].lockedUntil.value < now
  {
    ReachableIsOk(env, s);
    assert TaskOk(env, s, t);
    CompletableExactly(env, s, connector, t, token, c, now);
    assert Reclaim(s, connector, now).tasks[t] == ReclaimOne(s.tasks[t], connector, now);
  }

  /** The token is no longer the one the row stores, and no later lease can issue it. */
  ghost predicate Dead(s: State, t: Id, token: nat) {
    t < |s.tasks| && token < s.secrets && s.tasks[t].leaseTokenHash != Some(Digest(token))
  }

  lemma {:induction false} DeadForever(env: Platform, s: State, t: Id, token: nat, calls: seq<Call>)
    requires Dead(s, t, token)
    ensures Dead(Run(env, s, calls), t, token)
  {
    if calls != [] {
      DeadForever(env, s, t, token, calls[..|calls| - 1]);
      DeadStep(env, Run(env, s, calls[..|calls| - 1]), t, token, calls[|calls| - 1]);
    }
  }

  lemma DeadLease(env: Platform, s: State, t: Id, token: nat, connector: Id, pick: Option<Id>, now: Instant)
    requires Dead(s, t, token) && LeaseTask(env, s, connector, pick, now).Success?
    ensures Dead(LeaseTask(env, s, connector, pick, now).value.state, t, token)
  {
  }

  lemma DeadStep(env: Platform, s: State, t: Id, token: nat, call: Call)
    requires Dead(s, t, token)
    ensures Dead(Step(env, s, call), t, token)
  {
    if Perform(env, s, call).Success? {
      match call
      case LeaseNext(connector, pick, at) => DeadLease(env, s, t, token, connector, pick, at);
      case _ =>
    }
  }

  /** Once a task has been leased again, no run lets the earlier lease's token complete or renew it. */
  lemma StaleTokenNeverWorks(
    env: Platform, s: State, connector: Id, t: Id, token: nat, pick: Option<Id>, at: Instant, again: Lease, calls: seq<Call>,
    c: Completion, now: Instant
  )
    requires t < |s.tasks| && token < s.secrets
    requires LeaseTask(env, s, connector, pick, at) == Success(again) && again.leased.Some? && again.leased.value.0 == t
    ensures var later := Run(env, again.state, calls);
      && CompleteTask(env, later, connector, t, token, c, now).Failure?
      && RenewLease(env, later, connector, t, token, now).Failure?
  {
    DeadForever(env, again.state, t, token, calls);
  }

  /** Entering a restricted or halted mode ends a lease but leaves its token's digest in the row ... */
  lemma BlockingKeepsDigest(env: Platform, s: State, role: Role, level: SafetyLevel, t: Id)
    requires Inv(env, s) && t < |s.tasks| && s.tasks[t].status == Running
    requires Permits(role, SafetyManage) && level in {Restricted, Halted}
    ensures UpdateSafety(s, role, level).Success?
    ensures var row := UpdateSafety(s, role, level).value.tasks[t];
      row.status == Blocked && row.lockedUntil.None? && row.leaseTokenHash.Some? && row.leaseTokenHash == s.tasks[t].leaseTokenHash
  {
    assert TaskOk(env, s, t);
  }

  /** ... and over any further run no token, that one included, completes or renews a blocked row. */
  lemma BlockedLeaseIsOver(env: Platform, s: State, t: Id, calls: seq<Call>, connector: Id, token: nat, c: Completion, now: Instant)
    requires Inv(env, s) && t < |s.tasks| && s.tasks[t].status == Blocked
    ensures var later := Run(env, s, calls);
      && CompleteTask(env, later, connector, t, token, c, now).Failure?
      && RenewLease(env, later, connector, t, token, now).Failure?
  {
    FinalForever(env, s, t, calls);
  }

  // ---- Grants ----

  /** Over any run a connector's capabilities only shrink. */
  lemma {:induction false} CapabilitiesShrink(env: Platform, s: State, connector: Id, calls: seq<Call>)
    requires connector < |s.connectors|
    ensures var later := Run(env, s, calls).connectors;
      && connector < |later| && later[connector].capabilities <= s.connectors[connector].capabilities
      && (s.connectors[connector].revoked ==> later[connector].revoked)
  {
    if calls != [] {
      CapabilitiesShrink(env, s, connector, calls[..|calls| - 1]);
      var before := Run(env, s, calls[..|calls| - 1]);
      assert before.connectors[connector].capabilities >= Step(env, before, calls[|calls| - 1]).connectors[connector].capabilities;
    }
  }
}
