/** What every service call keeps, and so what holds in every reachable workspace. */
module TaskInvariants {
  import opened Wrappers
  import opened Policies
  import opened Tasks

  ghost predicate GrantOk(env: Platform, t: Id, x: Task) {
    && x.grant.Some? && x.grant.value.sha256 == env.hex(x.grant.value.material)
    && var m := x.grant.value.material;
      && m.taskId == t && Some(m.connectorId) == x.connector && m.agentId == x.agent && m.action == x.action
      && m.policy == x.policy && m.effectiveCapabilities == {x.policy.terms.connectorCapability}
  }

  /** One row agrees with the catalog, and holds a lease exactly while it runs. */
  ghost predicate TaskOk(env: Platform, s: State, t: Id)
    requires t < |s.tasks|
  {
    var x := s.tasks[t];
    && ActionPolicyOf(x.action) == Some(x.policy.terms) && x.policy.action == x.action
    && x.risk == x.policy.terms.risk && x.approvalRequired == x.policy.terms.approvalRequired
    && (x.status in {AwaitingApproval, Rejected} ==> x.approvalRequired)
    && (x.status == Running ==> x.leaseTokenHash.Some? && x.connector.Some? && GrantOk(env, t, x))
    && (x.status == Running <==> x.lockedUntil.Some?)
    && (x.leaseTokenHash.Some? ==> x.leaseTokenHash.value.secret < s.secrets && x.status in {Running, Blocked})
  }

  ghost predicate TasksOk(env: Platform, s: State) {
    forall t :: 0 <= t < |s.tasks| ==> TaskOk(env, s, t)
  }

  ghost predicate SafetyOk(s: State) {
    && (s.killSwitch <==> s.safety == Halted)
    && (Prohibits(s) ==> forall t :: 0 <= t < |s.tasks| ==> s.tasks[t].status != Running)
  }

  ghost predicate ApprovalOk(s: State, a: Approval) {
    && a.task < |s.tasks| && s.tasks[a.task].approvalRequired && a.requestedBy == s.tasks[a.task].requestedBy
    && (a.status == Pending <==> s.tasks[a.task].status == AwaitingApproval)
    && (a.status == Denied <==> s.tasks[a.task].status == Rejected)
    && (a.status != Pending ==>
      && a.decidedBy.Some? && a.decidedAt.Some? && a.checkedAt.Some? && a.checkedAt.value <= a.expiresAt
      && (s.tasks[a.task].risk == Critical ==> a.decidedBy.value != a.requestedBy))
  }

  ghost predicate HasApproval(s: State, t: Id) {
    exists a :: 0 <= a < |s.approvals| && s.approvals[a].task == t
  }

  ghost predicate ApprovalsOk(s: State) {
    && (forall a :: 0 <= a < |s.approvals| ==> ApprovalOk(s, s.approvals[a]))
    && (forall a, b :: 0 <= a < b < |s.approvals| ==> s.approvals[a].task != s.approvals[b].task)
    && (forall t :: 0 <= t < |s.tasks| && s.tasks[t].approvalRequired ==> HasApproval(s, t))
  }

  /** The row d is a succeeded dry run of the action. */
  ghost predicate DryRunOf(s: State, d: Id, t: Id)
    requires t < |s.tasks|
  {
    d < t && s.tasks[d].action == s.tasks[t].action && s.tasks[d].dryRun && s.tasks[d].status == Succeeded
  }

  ghost predicate DryRunsOk(s: State) {
    forall t :: 0 <= t < |s.tasks| && s.tasks[t].policy.terms.dryRunRequired && !s.tasks[t].dryRun ==>
      exists d :: DryRunOf(s, d, t)
  }

  ghost predicate Inv(env: Platform, s: State) {
    TasksOk(env, s) && SafetyOk(s) && ApprovalsOk(s) && DryRunsOk(s)
  }

  lemma CreateKeeps(env: Platform, s: State, user: Id, role: Role, o: Order, now: Instant)
    requires Inv(env, s) && CreateTask(env, s, user, role, o, now).Success?
    ensures Inv(env, CreateTask(env, s, user, role, o, now).value)
  {
    var s' := CreateTask(env, s, user, role, o, now).value;
    var n := |s.tasks|;
    forall t | 0 <= t < |s'.tasks| ensures TaskOk(env, s', t) {
      assert t < n ==> s'.tasks[t] == s.tasks[t] && TaskOk(env, s, t);
    }
    forall t | 0 <= t < |s'.tasks| && s'.tasks[t].approvalRequired ensures HasApproval(s', t) {
      if t < n {
        assert HasApproval(s, t);
        var a :| 0 <= a < |s.approvals| && s.approvals[a].task == t;
        assert s'.approvals[a].task == t;
      } else {
        assert s'.approvals[|s.approvals|].task == t;
      }
    }
    forall a | 0 <= a < |s'.approvals| ensures ApprovalOk(s', s'.approvals[a]) {
      assert a < |s.approvals| ==> ApprovalOk(s, s.approvals[a]);
    }
    forall t | 0 <= t < |s'.tasks| && s'.tasks[t].policy.terms.dryRunRequired && !s'.tasks[t].dryRun
      ensures exists d :: DryRunOf(s', d, t)
    {
      if t < n {
        var d :| DryRunOf(s, d, t);
        assert DryRunOf(s', d, t);
      } else {
        var d := DryRunReference(env.py, s'.tasks[t].payload);
        assert DryRunOf(s', d, t);
      }
    }
  }

  /** What any call but a creation or a decision does to the rows: their count, identity and approval stand,
      and each status moves along the live part of the life cycle. */
  ghost predicate LiveMove(x: Task, y: Task) {
    && y.action == x.action && y.policy == x.policy && y.risk == x.risk && y.requestedBy == x.requestedBy
    && y.approvalRequired == x.approvalRequired && y.dryRun == x.dryRun
    && (y.status == x.status || (x.status in {Queued, Running} && y.status in {Queued, Running, Succeeded, Failed, Blocked}))
  }

  lemma LiveMovesKeep(s: State, s': State)
    requires ApprovalsOk(s) && DryRunsOk(s)
    requires s'.approvals == s.approvals && |s'.tasks| == |s.tasks|
    requires forall t :: 0 <= t < |s.tasks| ==> LiveMove(s.tasks[t], s'.tasks[t])
    ensures ApprovalsOk(s') && DryRunsOk(s')
  {
    forall a | 0 <= a < |s'.approvals| ensures ApprovalOk(s', s'.approvals[a]) {
      assert ApprovalOk(s, s.approvals[a]);
    }
    forall t | 0 <= t < |s'.tasks| && s'.tasks[t].approvalRequired ensures HasApproval(s', t) {
      assert HasApproval(s, t);
    }
    forall t | 0 <= t < |s'.tasks| && s'.tasks[t].policy.terms.dryRunRequired && !s'.tasks[t].dryRun
      ensures exists d :: DryRunOf(s', d, t)
    {
      var d :| DryRunOf(s, d, t);
      assert DryRunOf(s', d, t);
    }
  }

  lemma DecisionRecorded(env: Platform, s: State, user: Id, role: Role, task: Id, approve: bool, now: Reading)
    requires Inv(env, s) && DecideTask(s, user, role, task, approve, now).Success?
    ensures ApprovalsOk(DecideTask(s, user, role, task, approve, now).value)
  {
    var s' := DecideTask(s, user, role, task, approve, now).value;
    var p := PendingApproval(s.approvals, task);
    forall a | 0 <= a < |s'.approvals| ensures ApprovalOk(s', s'.approvals[a]) {
      assert ApprovalOk(s, s.approvals[a]);
      assert a != p ==> s.approvals[a].task != task;
    }
    forall t | 0 <= t < |s'.tasks| && s'.tasks[t].approvalRequired ensures HasApproval(s', t) {
      assert HasApproval(s, t);
      var a :| 0 <= a < |s.approvals| && s.approvals[a].task == t;
      assert s'.approvals[a].task == t;
    }
  }

  lemma DecideKeeps(env: Platform, s: State, user: Id, role: Role, task: Id, approve: bool, now: Reading)
    requires Inv(env, s) && DecideTask(s, user, role, task, approve, now).Success?
    ensures Inv(env, DecideTask(s, user, role, task, approve, now).value)
  {
    var s' := DecideTask(s, user, role, task, approve, now).value;
    DecisionRecorded(env, s, user, role, task, approve, now);
    forall t | 0 <= t < |s'.tasks| ensures TaskOk(env, s', t) {
      assert TaskOk(env, s, t);
    }
    forall t | 0 <= t < |s'.tasks| && s'.tasks[t].policy.terms.dryRunRequired && !s'.tasks[t].dryRun
      ensures exists d :: DryRunOf(s', d, t)
    {
      var d :| DryRunOf(s, d, t);
      assert DryRunOf(s', d, t);
    }
  }

  lemma SafetyKeeps(env: Platform, s: State, role: Role, level: SafetyLevel)
    requires Inv(env, s) && UpdateSafety(s, role, level).Success?
    ensures Inv(env, UpdateSafety(s, role, level).value)
  {
    var s' := UpdateSafety(s, role, level).value;
    forall t | 0 <= t < |s'.tasks| ensures TaskOk(env, s', t) {
      assert TaskOk(env, s, t);
    }
    LiveMovesKeep(s, s');
  }

  lemma ReclaimKeeps(env: Platform, s: State, connector: Id, now: Instant)
    requires Inv(env, s)
    ensures Inv(env, Reclaim(s, connector, now))
  {
    var r := Reclaim(s, connector, now);
    forall t | 0 <= t < |r.tasks| ensures TaskOk(env, r, t) {
      assert TaskOk(env, s, t);
    }
    LiveMovesKeep(s, r);
  }

  lemma LeaseKeeps(env: Platform, s: State, connector: Id, pick: Option<Id>, now: Instant)
    requires Inv(env, s) && LeaseTask(env, s, connector, pick, now).Success?
    ensures Inv(env, LeaseTask(env, s, connector, pick, now).value.state)
  {
    if !Prohibits(s) {
      var r := Reclaim(s, connector, now);
      ReclaimKeeps(env, s, connector, now);
      var s' := LeaseTask(env, s, connector, pick, now).value.state;
      if s' != r {
        assert TaskOk(env, r, pick.value);
        OneRowKeeps(env, r, s', pick.value);
      }
    }
  }

  /** A call that moves one row along and issues secrets keeps the rest. */
  lemma OneRowKeeps(env: Platform, s: State, s': State, p: Id)
    requires Inv(env, s) && p < |s.tasks| == |s'.tasks|
    requires s'.tasks == s.tasks[p := s'.tasks[p]] && LiveMove(s.tasks[p], s'.tasks[p])
    requires s'.approvals == s.approvals && s'.secrets >= s.secrets
    requires s'.safety == s.safety && s'.killSwitch == s.killSwitch && (Prohibits(s) ==> s'.tasks[p].status != Running)
    requires TaskOk(env, s', p)
    ensures Inv(env, s')
  {
    forall t | 0 <= t < |s'.tasks| ensures TaskOk(env, s', t) {
      assert TaskOk(env, s, t);
    }
    LiveMovesKeep(s, s');
  }

  lemma RenewKeeps(env: Platform, s: State, connector: Id, task: Id, token: nat, now: Instant)
    requires Inv(env, s) && RenewLease(env, s, connector, task, token, now).Success?
    ensures Inv(env, RenewLease(env, s, connector, task, token, now).value)
  {
    var s' := RenewLease(env, s, connector, task, token, now).value;
    forall t | 0 <= t < |s'.tasks| ensures TaskOk(env, s', t) {
      assert TaskOk(env, s, t);
    }
    LiveMovesKeep(s, s');
  }

  lemma CompleteKeeps(env: Platform, s: State, connector: Id, task: Id, token: nat, c: Completion, now: Instant)
    requires Inv(env, s) && CompleteTask(env, s, connector, task, token, c, now).Success?
    ensures Inv(env, CompleteTask(env, s, connector, task, token, c, now).value)
  {
    var s' := CompleteTask(env, s, connector, task, token, c, now).value;
    forall t | 0 <= t < |s'.tasks| ensures TaskOk(env, s', t) {
      assert TaskOk(env, s, t);
    }
    LiveMovesKeep(s, s');
  }

  /** A call that leaves tasks, approvals and safety alone. */
  lemma RestKeeps(env: Platform, s: State, s': State)
    requires Inv(env, s) && s'.tasks == s.tasks && s'.approvals == s.approvals && s'.secrets >= s.secrets
    requires s'.safety == s.safety && s'.killSwitch == s.killSwitch
    ensures Inv(env, s')
  {
    forall t | 0 <= t < |s'.tasks| ensures TaskOk(env, s', t) {
      assert TaskOk(env, s, t);
    }
    LiveMovesKeep(s, s');
  }

  /** Every service call keeps the invariant, and a refused one changes nothing. */
  lemma StepKeeps(env: Platform, s: State, call: Call)
    requires Inv(env, s)
    ensures Inv(env, Step(env, s, call))
    ensures Perform(env, s, call).Failure? ==> Step(env, s, call) == s
  {
    if Perform(env, s, call).Success? {
      match call
      case Create(user, role, order, at) => CreateKeeps(env, s, user, role, order, at);
      case Decide(user, role, task, approve, clock) => DecideKeeps(env, s, user, role, task, approve, clock);
      case SetSafety(role, level) => SafetyKeeps(env, s, role, level);
      case LeaseNext(connector, pick, at) => LeaseKeeps(env, s, connector, pick, at);
      case Renew(connector, task, token, at) => RenewKeeps(env, s, connector, task, token, at);
      case Complete(connector, task, token, completion, at) => CompleteKeeps(env, s, connector, task, token, completion, at);
      case Provision(role, capabilities) => RestKeeps(env, s, CreateConnector(s, role, capabilities).value);
      case Revoke(role, connector) => RestKeeps(env, s, RevokeConnector(s, role, connector).value);
      case Beat(connector, capabilities, reports) => RestKeeps(env, s, Heartbeat(s, connector, capabilities, reports).value);
    }
  }

  lemma {:induction false} ReachableInv(env: Platform, programs: set<Id>, calls: seq<Call>)
    ensures Inv(env, Run(env, Fresh(programs), calls))
  {
    if calls != [] {
      ReachableInv(env, programs, calls[..|calls| - 1]);
      StepKeeps(env, Run(env, Fresh(programs), calls[..|calls| - 1]), calls[|calls| - 1]);
    }
  }
}
