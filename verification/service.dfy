/** service.py as it runs: calls that check, then assign the workspace's rows. Each is proved to do exactly
    what its specification in Tasks says, and to lead from reachable workspaces to reachable ones, so what
    TaskProtocol and its neighbours prove of reachable workspaces holds between any two calls. */
module Service {
  import opened Wrappers
  import opened Json
  import opened Policies
  import opened Security
  import opened Assessments
  import opened Tasks
  import opened TaskProtocol
  import opened Effects
  import opened AuditReplay

  // ---- What a successful call reaches, and what that entails ----

  lemma CreateReaches(env: Platform, s: State, user: Id, role: Role, o: Order, now: Instant)
    requires Reachable(env, s)
    ensures var r := Tasks.CreateTask(env, s, user, role, o, now); r.Success? ==> Reachable(env, r.value)
  {
    ReachableStep(env, s, Create(user, role, o, now));
  }

  lemma DecideReaches(env: Platform, s: State, user: Id, role: Role, task: Id, approve: bool, now: Reading)
    requires Reachable(env, s)
    ensures var r := Tasks.DecideTask(s, user, role, task, approve, now); r.Success? ==> Reachable(env, r.value)
  {
    ReachableStep(env, s, Decide(user, role, task, approve, now));
  }

  lemma ProvisionReaches(env: Platform, s: State, role: Role, capabilities: set<Capability>)
    requires Reachable(env, s)
    ensures var r := Tasks.CreateConnector(s, role, capabilities); r.Success? ==> Reachable(env, r.value)
  {
    ReachableStep(env, s, Provision(role, capabilities));
  }

  lemma RevokeReaches(env: Platform, s: State, role: Role, connector: Id)
    requires Reachable(env, s)
    ensures var r := Tasks.RevokeConnector(s, role, connector); r.Success? ==> Reachable(env, r.value)
  {
    ReachableStep(env, s, Revoke(role, connector));
  }

  /** After a safety change the switch agrees with the level, and a restricted workspace runs nothing. */
  lemma SafetyReaches(env: Platform, s: State, role: Role, level: SafetyLevel)
    requires Reachable(env, s)
    ensures var r := Tasks.UpdateSafety(s, role, level); r.Success? ==> Reachable(env, r.value) && Quiet(r.value)
  {
    ReachableStep(env, s, SetSafety(role, level));
    var r := Tasks.UpdateSafety(s, role, level);
    if r.Success? {
      NothingRunsWhileRestricted(env, r.value);
    }
  }

  ghost predicate Quiet(s: State) {
    && (s.killSwitch <==> s.safety == Halted)
    && (s.safety in {Restricted, Halted} ==> forall t :: 0 <= t < |s.tasks| ==> s.tasks[t].status != Running)
  }

  lemma BeatReaches(env: Platform, s: State, connector: Id, capabilities: set<Capability>, reports: seq<AgentReport>)
    requires Reachable(env, s)
    ensures var r := Tasks.Heartbeat(s, connector, capabilities, reports); r.Success? ==> Reachable(env, r.value)
  {
    ReachableStep(env, s, Beat(connector, capabilities, reports));
  }

  /** A leased row runs, under an approval given in time when it needs one; its grant names its action's capability
      alone, which its connector holds, and its agent too if it names one. */
  ghost predicate RunsAuthorized(s: State, connector: Id, t: Id) {
    && t < |s.tasks| && s.tasks[t].status == Running && s.tasks[t].connector == Some(connector)
    && (s.tasks[t].approvalRequired ==> exists a :: AuthorizedBy(s, t, a))
    && s.tasks[t].grant.Some? && s.tasks[t].grant.value.material.effectiveCapabilities == {Act(s.tasks[t].action)}
    && ConnectorHolds(s, connector, s.tasks[t]) && AgentHolds(s, connector, s.tasks[t])
  }

  lemma LeaseReaches(env: Platform, s: State, connector: Id, pick: Option<Id>, now: Instant)
    requires Reachable(env, s)
    ensures var r := Tasks.LeaseTask(env, s, connector, pick, now); r.Success? ==> Reachable(env, r.value.state)
  {
    ReachableStep(env, s, LeaseNext(connector, pick, now));
  }

  lemma LeasedRunsAuthorized(env: Platform, s: State, connector: Id, pick: Option<Id>, now: Instant)
    requires Reachable(env, s)
    ensures var r := Tasks.LeaseTask(env, s, connector, pick, now);
      && (r.Success? ==> Reachable(env, r.value.state))
      && (r.Success? && r.value.leased.Some? ==> RunsAuthorized(r.value.state, connector, r.value.leased.value.0))
  {
    LeaseReaches(env, s, connector, pick, now);
    var r := Tasks.LeaseTask(env, s, connector, pick, now);
    if r.Success? && r.value.leased.Some? {
      GovernedWorkIsAuthorized(env, r.value.state, r.value.leased.value.0);
    }
  }

  lemma RenewReaches(env: Platform, s: State, connector: Id, task: Id, token: nat, now: Instant)
    requires Reachable(env, s)
    ensures var r := Tasks.RenewLease(env, s, connector, task, token, now); r.Success? ==> Reachable(env, r.value)
  {
    ReachableStep(env, s, Renew(connector, task, token, now));
  }

  /** A completed row is final, its result is fit for storage, and exactly one audit event records it. */
  ghost predicate RecordedOnce(env: Platform, s: State, t: Id) {
    && t < |s.tasks| && s.tasks[t].status in {Succeeded, Failed} && Scrub(env.py, s.tasks[t].result, 0) == s.tasks[t].result
    && exists i :: Records(s, i, t) && OnlyRecord(s, i, t)
  }

  ghost predicate OnlyRecord(s: State, i: nat, t: Id) {
    forall j :: 0 <= j < |s.audit| && s.audit[j].TaskCompleted? && s.audit[j].task == t ==> j == i
  }

  lemma CompleteReaches(env: Platform, s: State, connector: Id, task: Id, token: nat, c: Completion, now: Instant)
    requires Reachable(env, s)
    ensures var r := Tasks.CompleteTask(env, s, connector, task, token, c, now); r.Success? ==> Reachable(env, r.value)
  {
    ReachableStep(env, s, Complete(connector, task, token, c, now));
  }

  lemma FinishedIsRecordedOnce(env: Platform, s: State, t: Id)
    requires Reachable(env, s) && t < |s.tasks| && s.tasks[t].status in {Succeeded, Failed}
    ensures RecordedOnce(env, s, t)
  {
    CompletesOnce(env, s, t);
    var i :| Records(s, i, t);
    assert OnlyRecord(s, i, t);
  }

  lemma CompletedIsRecordedOnce(env: Platform, s: State, connector: Id, task: Id, token: nat, c: Completion, now: Instant)
    requires Reachable(env, s)
    ensures var r := Tasks.CompleteTask(env, s, connector, task, token, c, now);
      r.Success? ==> Reachable(env, r.value) && RecordedOnce(env, r.value, task)
  {
    CompleteReaches(env, s, connector, task, token, c, now);
    var r := Tasks.CompleteTask(env, s, connector, task, token, c, now);
    if r.Success? {
      FinishedIsRecordedOnce(env, r.value, task);
    }
  }

  // ---- The calls ----

  class Workspace {
    const env: Platform
    var safety: SafetyLevel
    var killSwitch: bool
    var tasks: seq<Task>
    var approvals: seq<Approval>
    var connectors: seq<Connector>
    var agents: seq<Agent>
    var programs: set<Id>
    var secrets: nat
    var audit: seq<AuditBody>

    function View(): State
      reads this
    {
      State(safety, killSwitch, tasks, approvals, connectors, agents, programs, secrets, audit)
    }

    /** The workspace is one that service calls lead to. */
    ghost predicate Valid()
      reads this
    {
      Reachable(env, View())
    }

    constructor (env: Platform, programs: set<Id>)
      ensures View() == Fresh(programs) && this.env == env && Valid()
    {
      this.env := env;
      this.programs := programs;
      safety, killSwitch, secrets := Normal, false, 0;
      tasks, approvals, connectors, agents, audit := [], [], [], [], [];
      FreshReachable(env, programs);
    }

    method IssueSecret() returns (token: nat)
      modifies this`secrets
      ensures token == old(secrets) && secrets == token + 1
    {
      token := secrets;
      secrets := secrets + 1;
    }

    /** create_task's checks, on the scrubbed payload. What passes is a listed action, asked for by a permitted
        role in an open workspace; a live run of an action that wants a dry run names one that succeeded; and the
        connector is live and capable. */
    method CheckOrder(role: Role, o: Order, clean: Json) returns (r: Result<ActionPolicy, Refusal>)
      requires clean == Scrub(env.py, o.payload, 0)
      ensures r == Tasks.CheckOrder(env, View(), role, o)
      ensures r.Success? ==> Some(r.value) == ActionPolicyOf(o.action) && Permits(role, TasksCreate) && !Prohibits(View())
      ensures r.Success? && r.value.dryRunRequired && !o.dryRun ==>
        exists d :: 0 <= d < |tasks| && tasks[d].action == o.action && tasks[d].dryRun && tasks[d].status == Succeeded
      ensures r.Success? && o.connector.Some? ==>
        && o.connector.value < |connectors| && !connectors[o.connector.value].revoked
        && r.value.connectorCapability in connectors[o.connector.value].capabilities
    {
      if !Permits(role, TasksCreate) || killSwitch || safety in {Restricted, Halted} {
        return Failure(PermissionDenied);
      }
      var policy := ActionPolicyOf(o.action);
      if policy.None? {
        return Failure(InvalidRequest);
      }
      if !WorkOrderOk(env.py, o.action, clean) {
        return Failure(InvalidRequest);
      }
      if policy.value.dryRunRequired && !o.dryRun && !ValidatedDryRun(View(), o.action, DryRunReference(env.py, clean)) {
        return Failure(PermissionDenied);
      }
      if o.connector.Some? {
        if !LiveConnector(View(), o.connector.value) {
          return Failure(InvalidRequest);
        }
        if policy.value.connectorCapability !in connectors[o.connector.value].capabilities {
          return Failure(PermissionDenied);
        }
      }
      if o.agent.Some? {
        if o.connector.None? || o.agent.value >= |agents| || agents[o.agent.value].connector != o.connector.value {
          return Failure(InvalidRequest);
        }
        if policy.value.connectorCapability !in agents[o.agent.value].capabilities {
          return Failure(PermissionDenied);
        }
      }
      if o.program.Some? && o.program.value !in programs {
        return Failure(InvalidRequest);
      }
      return Success(policy.value);
    }

    method CreateTask(user: Id, role: Role, o: Order, now: Instant) returns (r: Result<Id, Refusal>)
      requires Valid()
      modifies this
      ensures Valid()
      ensures var spec := Tasks.CreateTask(env, old(View()), user, role, o, now);
        match spec
        case Success(s) => View() == s && r == Success(|old(tasks)|)
        case Failure(e) => View() == old(View()) && r == Failure(e)
    {
      CreateReaches(env, View(), user, role, o, now);
      var clean := ScrubValue(env.py, o.payload, 0);
      var checked := CheckOrder(role, o, clean);
      if checked.Failure? {
        return Failure(checked.error);
      }
      var policy, id := checked.value, |tasks|;
      var status := if policy.approvalRequired then AwaitingApproval else Queued;
      tasks := tasks + [Task(o.connector, o.agent, user, o.action, policy.risk, status, clean,
                             Receipt(env, o.action, policy), None, o.dryRun, policy.approvalRequired,
                             None, None, Obj([]), None, now, None)];
      if policy.approvalRequired {
        approvals := approvals + [Approval(id, user, Pending, now + APPROVAL_SECONDS, None, None, None)];
      }
      audit := audit + [TaskCreated(id, policy.approvalRequired)];
      assert approvals == old(approvals) +
        if policy.approvalRequired then [Approval(id, user, Pending, now + APPROVAL_SECONDS, None, None, None)] else [];
      return Success(id);
    }

    method DecideTask(user: Id, role: Role, task: Id, approve: bool, now: Reading) returns (r: Result<(), Refusal>)
      requires Valid()
      modifies this
      ensures Valid()
      ensures match Tasks.DecideTask(old(View()), user, role, task, approve, now)
        case Success(s) => View() == s && r.Success?
        case Failure(e) => View() == old(View()) && r == Failure(e)
    {
      DecideReaches(env, View(), user, role, task, approve, now);
      if !Permits(role, TasksApprove) {
        return Failure(PermissionDenied);
      }
      if task >= |tasks| || tasks[task].status != AwaitingApproval {
        return Failure(InvalidRequest);
      }
      var a := PendingApproval(approvals, task);
      if a == |approvals| {
        return Failure(InvalidRequest);
      }
      if approvals[a].expiresAt < now.check || (tasks[task].risk == Critical && tasks[task].requestedBy == user) {
        return Failure(PermissionDenied);
      }
      approvals := approvals[a := approvals[a].(
        status := if approve then Approved else Denied, decidedBy := Some(user), decidedAt := Some(now.stamp),
        checkedAt := Some(now.check))];
      tasks := tasks[task := tasks[task].(status := if approve then Queued else Rejected)];
      audit := audit + [TaskDecided(task, approve)];
      return Success(());
    }

    method CreateConnector(role: Role, capabilities: set<Capability>) returns (r: Result<Id, Refusal>)
      requires Valid()
      modifies this
      ensures Valid()
      ensures match Tasks.CreateConnector(old(View()), role, capabilities)
        case Success(s) => View() == s && r == Success(|old(connectors)|)
        case Failure(e) => View() == old(View()) && r == Failure(e)
    {
      ProvisionReaches(env, View(), role, capabilities);
      if !Permits(role, ConnectorsManage) {
        return Failure(PermissionDenied);
      }
      if exists c :: c in capabilities && !KnownCapability(c) {
        return Failure(InvalidRequest);
      }
      var token := IssueSecret();
      connectors := connectors + [Connector(capabilities, false)];
      audit := audit + [ConnectorCreated(|connectors| - 1)];
      return Success(|connectors| - 1);
    }

    method RevokeConnector(role: Role, connector: Id) returns (r: Result<(), Refusal>)
      requires Valid()
      modifies this
      ensures Valid()
      ensures match Tasks.RevokeConnector(old(View()), role, connector)
        case Success(s) => View() == s && r.Success?
        case Failure(e) => View() == old(View()) && r == Failure(e)
    {
      RevokeReaches(env, View(), role, connector);
      if !Permits(role, ConnectorsManage) {
        return Failure(PermissionDenied);
      }
      if connector >= |connectors| {
        return Failure(InvalidRequest);
      }
      connectors := connectors[connector := connectors[connector].(revoked := true)];
      var replaced := IssueSecret();
      audit := audit + [ConnectorRevoked(connector)];
      return Success(());
    }

    method UpdateSafety(role: Role, level: SafetyLevel) returns (r: Result<(), Refusal>)
      requires Valid()
      modifies this
      ensures Valid()
      ensures r.Success? ==> Quiet(View())
      ensures match Tasks.UpdateSafety(old(View()), role, level)
        case Success(s) => View() == s && r.Success?
        case Failure(e) => View() == old(View()) && r == Failure(e)
    {
      SafetyReaches(env, View(), role, level);
      if !Permits(role, SafetyManage) {
        return Failure(PermissionDenied);
      }
      var before := safety;
      safety := level;
      killSwitch := level == Halted;
      if level in {Restricted, Halted} {
        var rows := tasks;
        tasks := seq(|rows|, t requires 0 <= t < |rows| => BlockLive(rows[t], level));
      }
      audit := audit + [SafetyChanged(before, level)];
      return Success(());
    }

    method Heartbeat(connector: Id, capabilities: set<Capability>, reports: seq<AgentReport>) returns (r: Result<(), Refusal>)
      requires Valid()
      modifies this
      ensures Valid()
      ensures match Tasks.Heartbeat(old(View()), connector, capabilities, reports)
        case Success(s) => View() == s && r.Success?
        case Failure(e) => View() == old(View()) && r == Failure(e)
    {
      BeatReaches(env, View(), connector, capabilities, reports);
      if !LiveConnector(View(), connector) {
        return Failure(NotAuthenticated);
      }
      var held := connectors[connector].capabilities;
      if capabilities != {} {
        held := set c | c in capabilities && c in held && KnownCapability(c);
      }
      var rows := agents;
      for i := 0 to |reports|
        invariant rows == ReportAgents(agents, connector, held, reports, i)
      {
        var k := FindAgent(agents, connector, reports[i].externalId);
        var row := Agent(connector, reports[i].externalId, reports[i].capabilities * held);
        if k < |agents| {
          rows := rows[k := row];
        } else {
          rows := rows + [row];
        }
      }
      if AgentsUnique(agents) && !AgentsUnique(rows) {
        return Failure(IntegrityViolation);
      }
      connectors := connectors[connector := connectors[connector].(capabilities := held)];
      agents := rows;
      return Success(());
    }

    /** SELECT ... ORDER BY created_at LIMIT 1 over the connector's queued rows. */
    method SelectOldestQueued(connector: Id) returns (pick: Option<Id>)
      ensures OldestQueued(View(), connector, pick)
    {
      pick := None;
      for t := 0 to |tasks|
        invariant pick.Some? ==> pick.value < t && Leasable(View(), connector, pick.value)
        invariant forall u :: 0 <= u < t && Leasable(View(), connector, u) ==>
          pick.Some? && tasks[pick.value].createdAt <= tasks[u].createdAt
      {
        if Leasable(View(), connector, t) && (pick.None? || tasks[t].createdAt < tasks[pick.value].createdAt) {
          pick := Some(t);
        }
      }
    }

    /** Rechecks the picked row's capability, and leases or blocks it. */
    method LeaseRow(connector: Id, t: Id, now: Instant) returns (r: Result<Option<(Id, nat)>, Refusal>)
      requires connector < |connectors| && t < |tasks|
      modifies this`tasks, this`secrets, this`audit
      ensures match Tasks.LeaseRow(env, old(View()), connector, t, now)
        case Success(lease) => View() == lease.state && r == Success(lease.leased)
        case Failure(e) => View() == old(View()) && r == Failure(e)
    {
      var policy := ActionPolicyOf(tasks[t].action);
      if policy.None? {
        return Failure(InvalidRequest);
      }
      var error := Incapable(View(), connector, tasks[t], policy.value.connectorCapability);
      if error.Some? {
        tasks := tasks[t := tasks[t].(status := Blocked, error := error)];
        audit := audit + [TaskBlocked(t)];
        return Success(None);
      }
      var until := now + env.leaseSeconds;
      var material := Material(View(), connector, t, policy.value, now, until);
      var token := IssueSecret();
      tasks := tasks[t := tasks[t].(
        leaseTokenHash := Some(Digest(token)), lockedUntil := Some(until), status := Running,
        grant := Some(Grant(material, env.hex(material))))];
      audit := audit + [TaskLeased(t, env.hex(material))];
      return Success(Some((t, token)));
    }

    /** Reclaim, pick and lease; a refusal rolls the reclaim back. */
    method LeaseTask(connector: Id, now: Instant) returns (r: Result<Option<(Id, nat)>, Refusal>, ghost pick: Option<Id>)
      requires Valid()
      modifies this
      ensures Valid()
      ensures match Tasks.LeaseTask(env, old(View()), connector, pick, now)
        case Success(lease) => View() == lease.state && r == Success(lease.leased)
        case Failure(e) => View() == old(View()) && r == Failure(e)
      ensures r.Success? && !Prohibits(old(View())) ==> OldestQueued(Reclaim(old(View()), connector, now), connector, pick)
      ensures r.Success? && r.value.Some? ==> RunsAuthorized(View(), connector, r.value.value.0)
    {
      pick := None;
      if !LiveConnector(View(), connector) {
        return Failure(NotAuthenticated), pick;
      }
      if killSwitch || safety in {Restricted, Halted} {
        return Success(None), pick;
      }
      var rows := tasks;
      tasks := seq(|rows|, t requires 0 <= t < |rows| => ReclaimOne(rows[t], connector, now));
      assert View() == Reclaim(old(View()), connector, now);
      var oldest := SelectOldestQueued(connector);
      pick := oldest;
      LeasedRunsAuthorized(env, old(View()), connector, pick, now);
      if oldest.None? {
        return Success(None), pick;
      }
      r := LeaseRow(connector, oldest.value, now);
      if r.Failure? {
        tasks := rows;
      }
    }

    method RenewLease(connector: Id, task: Id, token: nat, now: Instant) returns (r: Result<(), Refusal>)
      requires Valid()
      modifies this
      ensures Valid()
      ensures match Tasks.RenewLease(env, old(View()), connector, task, token, now)
        case Success(s) => View() == s && r.Success?
        case Failure(e) => View() == old(View()) && r == Failure(e)
    {
      RenewReaches(env, View(), connector, task, token, now);
      if !LiveConnector(View(), connector) {
        return Failure(NotAuthenticated);
      }
      if !HoldsLease(View(), connector, task) || tasks[task].leaseTokenHash != Some(Digest(token)) {
        return Failure(PermissionDenied);
      }
      var lockedUntil := tasks[task].lockedUntil;
      if lockedUntil.None? || lockedUntil.value <= now || killSwitch || safety in {Restricted, Halted} {
        return Failure(PermissionDenied);
      }
      tasks := tasks[task := tasks[task].(lockedUntil := Some(now + env.leaseSeconds))];
      return Success(());
    }

    /** complete_task's checks: the scrubbed result of a live lease, under its token and before its deadline. */
    method CheckCompletion(connector: Id, task: Id, token: nat, c: Completion, now: Instant) returns (r: Result<Json, Refusal>)
      ensures r == Tasks.CheckCompletion(env, View(), connector, task, token, c, now)
      ensures r.Success? ==>
        && task < |tasks| && tasks[task].status == Running && tasks[task].connector == Some(connector)
        && tasks[task].leaseTokenHash == Some(Digest(token)) && r.value == Scrub(env.py, c.result, 0)
    {
      if !LiveConnector(View(), connector) {
        return Failure(NotAuthenticated);
      }
      if !HoldsLease(View(), connector, task) {
        return Failure(InvalidRequest);
      }
      if tasks[task].leaseTokenHash.value != Digest(token) {
        return Failure(PermissionDenied);
      }
      if tasks[task].lockedUntil.Some? && tasks[task].lockedUntil.value < now {
        return Failure(PermissionDenied);
      }
      var clean := ValidatedResult(env.py, tasks[task].action, tasks[task].payload, GrantSha256(tasks[task]),
                                   c.succeeded, c.result, c.error);
      if clean.None? {
        return Failure(InvalidRequest);
      }
      return Success(clean.value);
    }

    method CompleteTask(connector: Id, task: Id, token: nat, c: Completion, now: Instant) returns (r: Result<(), Refusal>)
      requires Valid()
      modifies this
      ensures Valid()
      ensures r.Success? ==> RecordedOnce(env, View(), task)
      ensures match Tasks.CompleteTask(env, old(View()), connector, task, token, c, now)
        case Success(s) => View() == s && r.Success?
        case Failure(e) => View() == old(View()) && r == Failure(e)
    {
      CompletedIsRecordedOnce(env, View(), connector, task, token, c, now);
      var checked := CheckCompletion(connector, task, token, c, now);
      if checked.Failure? {
        return Failure(checked.error);
      }
      var error := Take(c.error, 4000);
      var status := if c.succeeded then Succeeded else Failed;
      tasks := tasks[task := tasks[task].(
        status := status, result := checked.value, error := if error == "" then None else Some(error),
        completedAt := Some(now), lockedUntil := None, leaseTokenHash := None)];
      audit := audit + [TaskCompleted(task, c.succeeded, checked.value)];
      return Success(());
    }
  }
}
