/** What each service call demands of its caller and of the rows, and what it changes, in terms of the rows. */
module Effects {
  import opened Wrappers
  import opened Json
  import opened Policies
  import opened Security
  import opened Assessments
  import opened Tasks
  import opened TaskInvariants
  import opened TaskProtocol

  // ---- Roles and the catalog ----

  /** Who may do what. */
  lemma RolesExactly(role: Role)
    ensures Permits(role, TasksCreate) <==> role in {Owner, Admin, Operator}
    ensures Permits(role, TasksApprove) <==> role in {Owner, Admin, Approver}
    ensures Permits(role, ConnectorsManage) <==> role in {Owner, Admin}
    ensures Permits(role, SafetyManage) <==> role in {Owner, Admin}
  {
  }

  const CRITICAL: set<Action> := {
    SecretRotate, IncidentContain, DeploymentRelease, ShadowAiBlock, IdentityAccessRevoke, EndpointIsolate, NetworkBlock,
    CloudQuarantine, DataQuarantine
  }

  const UNAPPROVED: set<Action> := {ObserveStatus, EvidenceCollect, EvidenceAnalyze}

  /** Every listed action needs the capability of its own name; all but three need an approval, and exactly the
      critical ones a dry run before the live run. */
  lemma CatalogExactly(action: Action)
    ensures ActionPolicyOf(action).None? <==> action.Unlisted?
    ensures var p := ActionPolicyOf(action);
      p.Some? ==>
        && p.value.connectorCapability == Act(action)
        && (p.value.approvalRequired <==> action !in UNAPPROVED)
        && (p.value.dryRunRequired <==> action in CRITICAL) && (p.value.risk == Critical <==> action in CRITICAL)
        && (p.value.risk == Low <==> action == ObserveStatus)
        && (p.value.risk == Medium <==> action in {EvidenceCollect, EvidenceAnalyze})
        && (p.value.reversible <==> action !in {TaskExecute, VulnerabilityRemediate, IncidentNotify, SecretRotate})
  {
  }

  // ---- Rows that stand ----

  /** The two states differ in tasks, approvals and audit at most. */
  predicate SameElsewhere(s: State, s': State) {
    && s'.safety == s.safety && s'.killSwitch == s.killSwitch && s'.connectors == s.connectors && s'.agents == s.agents
    && s'.programs == s.programs && s'.secrets == s.secrets
  }

  predicate OtherTasksStand(s: State, s': State, t: Id) {
    |s'.tasks| == |s.tasks| && forall u :: 0 <= u < |s.tasks| && u != t ==> s'.tasks[u] == s.tasks[u]
  }

  // ---- create_task ----

  /** The connector that the order names is there, not revoked, and holds the action's capability. */
  predicate ConnectorServes(s: State, o: Order) {
    o.connector.Some? ==>
      && o.connector.value < |s.connectors| && !s.connectors[o.connector.value].revoked
      && Act(o.action) in s.connectors[o.connector.value].capabilities
  }

  /** The agent that the order names belongs to that connector and holds the capability. */
  predicate AgentServes(s: State, o: Order) {
    o.agent.Some? ==>
      && o.connector.Some? && o.agent.value < |s.agents| && s.agents[o.agent.value].connector == o.connector.value
      && Act(o.action) in s.agents[o.agent.value].capabilities
  }

  /** The payload names a succeeded dry run of the same action. */
  predicate DryRunBefore(env: Platform, s: State, o: Order) {
    var d := env.py.rowOf(env.py.str(GetOr(Scrub(env.py, o.payload, 0), "validatedDryRunTaskId", Str(""))));
    d < |s.tasks| && s.tasks[d].action == o.action && s.tasks[d].dryRun && s.tasks[d].status == Succeeded
  }

  /** An order is accepted if and only if all of this holds. */
  lemma CreateExactly(env: Platform, s: State, user: Id, role: Role, o: Order, now: Instant)
    ensures CreateTask(env, s, user, role, o, now).Success? <==>
      && role in {Owner, Admin, Operator} && !s.killSwitch && s.safety !in {Restricted, Halted}
      && !o.action.Unlisted? && WorkOrderOk(env.py, o.action, Scrub(env.py, o.payload, 0))
      && (o.action in CRITICAL && !o.dryRun ==> DryRunBefore(env, s, o))
      && ConnectorServes(s, o) && AgentServes(s, o)
      && (o.program.Some? ==> o.program.value in s.programs)
  {
    RolesExactly(role);
    CatalogExactly(o.action);
    assert CreateTask(env, s, user, role, o, now).Success? <==> CheckOrder(env, s, role, o).Success?;
  }

  /** The request itself is in order: a listed action with the payload it asks for. */
  predicate WellFormed(env: Platform, o: Order) {
    !o.action.Unlisted? && WorkOrderOk(env.py, o.action, Scrub(env.py, o.payload, 0))
  }

  predicate MayCreate(s: State, role: Role) {
    role in {Owner, Admin, Operator} && !s.killSwitch && s.safety !in {Restricted, Halted}
  }

  /** How an order is refused: a caller who may not create, an order without its dry run and a connector or agent
      without the capability are denied; an order that is malformed or names what is not there is invalid. */
  lemma CreateRefusals(env: Platform, s: State, user: Id, role: Role, o: Order, now: Instant)
    ensures var r := CreateTask(env, s, user, role, o, now);
      var ready := MayCreate(s, role) && WellFormed(env, o) && (o.action in CRITICAL && !o.dryRun ==> DryRunBefore(env, s, o));
      && (!MayCreate(s, role) ==> r == Failure(PermissionDenied))
      && (MayCreate(s, role) && !WellFormed(env, o) ==> r == Failure(InvalidRequest))
      && (MayCreate(s, role) && WellFormed(env, o) && !ready ==> r == Failure(PermissionDenied))
      && (ready && o.connector.Some? && !LiveConnector(s, o.connector.value) ==> r == Failure(InvalidRequest))
      && (ready && o.connector.Some? && LiveConnector(s, o.connector.value) && !ConnectorServes(s, o) ==>
        r == Failure(PermissionDenied))
      && (ready && o.connector.None? && o.agent.Some? ==> r == Failure(InvalidRequest))
      && (ready && ConnectorServes(s, o) && AgentServes(s, o) && o.program.Some? && o.program.value !in s.programs ==>
        r == Failure(InvalidRequest))
  {
    RolesExactly(role);
    CatalogExactly(o.action);
  }

  /** The same for the agent, once the connector serves. */
  lemma AgentRefusals(env: Platform, s: State, user: Id, role: Role, o: Order, now: Instant)
    requires MayCreate(s, role) && WellFormed(env, o) && (o.action in CRITICAL && !o.dryRun ==> DryRunBefore(env, s, o))
    requires o.connector.Some? && ConnectorServes(s, o) && o.agent.Some? && !AgentServes(s, o)
    ensures CreateTask(env, s, user, role, o, now) ==
      if o.agent.value < |s.agents| && s.agents[o.agent.value].connector == o.connector.value
      then Failure(PermissionDenied) else Failure(InvalidRequest)
  {
    CatalogExactly(o.action);
  }

  /** One row is added, as ordered, awaiting approval if the action needs one, with a day for the decision. */
  lemma CreateEffects(env: Platform, s: State, user: Id, role: Role, o: Order, now: Instant)
    requires CreateTask(env, s, user, role, o, now).Success?
    ensures var s', n := CreateTask(env, s, user, role, o, now).value, |s.tasks|;
      && SameElsewhere(s, s') && |s'.tasks| == n + 1 && s'.tasks[..n] == s.tasks
      && var x := s'.tasks[n];
        && x.action == o.action && x.connector == o.connector && x.agent == o.agent && x.dryRun == o.dryRun
        && x.requestedBy == user && x.payload == Scrub(env.py, o.payload, 0) && x.createdAt == now
        && x.grant.None? && x.leaseTokenHash.None? && x.lockedUntil.None? && x.error.None? && x.completedAt.None?
        && x.status == (if o.action in UNAPPROVED then Queued else AwaitingApproval)
    ensures var s', n := CreateTask(env, s, user, role, o, now).value, |s.tasks|;
      && s'.audit == s.audit + [TaskCreated(n, o.action !in UNAPPROVED)]
      && (o.action in UNAPPROVED ==> s'.approvals == s.approvals)
      && (o.action !in UNAPPROVED ==>
        s'.approvals == s.approvals + [Approval(n, user, Pending, now + 24 * 60 * 60, None, None, None)])
  {
    CatalogExactly(o.action);
    assert ActionPolicyOf(o.action) == Some(CheckOrder(env, s, role, o).value);
  }

  /** The row carries the terms of its action as the catalog has them today, and the revision that serves them if
      that is a commit's forty hexadecimal digits. */
  lemma CreatedPolicy(env: Platform, s: State, user: Id, role: Role, o: Order, now: Instant)
    requires CreateTask(env, s, user, role, o, now).Success?
    ensures var x, revision := CreateTask(env, s, user, role, o, now).value.tasks[|s.tasks|], env.buildRevision;
      && Some(x.policy.terms) == ActionPolicyOf(o.action) && x.policy.action == o.action
      && x.risk == x.policy.terms.risk && (x.approvalRequired <==> o.action !in UNAPPROVED)
      && x.policy.buildRevision ==
        if |revision| == 40 && forall c :: c in revision ==> '0' <= c <= '9' || 'a' <= c <= 'f' then revision else "development"
  {
    CatalogExactly(o.action);
    assert ActionPolicyOf(o.action) == Some(CheckOrder(env, s, role, o).value);
  }

  // ---- decide_task ----

  /** A decision succeeds if and only if the caller may approve, the row awaits approval, its pending approval has
      not expired, and a critical row has another requester. */
  lemma DecideExactly(env: Platform, s: State, user: Id, role: Role, t: Id, approve: bool, now: Reading)
    requires Inv(env, s)
    ensures DecideTask(s, user, role, t, approve, now).Success? <==>
      && role in {Owner, Admin, Approver} && t < |s.tasks| && s.tasks[t].status == AwaitingApproval
      && (exists a :: 0 <= a < |s.approvals| && s.approvals[a].task == t && now.check <= s.approvals[a].expiresAt)
      && !(s.tasks[t].risk == Critical && s.tasks[t].requestedBy == user)
  {
    RolesExactly(role);
    if t < |s.tasks| && s.tasks[t].status == AwaitingApproval {
      AwaitsOne(env, s, t);
    }
  }

  /** A row that awaits approval has one approval row, and that one is pending. */
  lemma AwaitsOne(env: Platform, s: State, t: Id)
    requires Inv(env, s) && t < |s.tasks| && s.tasks[t].status == AwaitingApproval
    ensures var p := PendingApproval(s.approvals, t);
      p < |s.approvals| && forall a :: 0 <= a < |s.approvals| && s.approvals[a].task == t ==> a == p
  {
    assert TaskOk(env, s, t) && HasApproval(s, t);
    var a :| 0 <= a < |s.approvals| && s.approvals[a].task == t;
    assert ApprovalOk(s, s.approvals[a]);
  }

  /** A caller without the role, a late decision and a requester's own critical row are denied; a row that awaits no
      approval is an invalid request. */
  lemma DecideRefusals(env: Platform, s: State, user: Id, role: Role, t: Id, approve: bool, now: Reading)
    requires Inv(env, s)
    ensures var r := DecideTask(s, user, role, t, approve, now);
      && (role !in {Owner, Admin, Approver} ==> r == Failure(PermissionDenied))
      && (role in {Owner, Admin, Approver} && !(t < |s.tasks| && s.tasks[t].status == AwaitingApproval) ==>
        r == Failure(InvalidRequest))
      && (role in {Owner, Admin, Approver} && t < |s.tasks| && s.tasks[t].status == AwaitingApproval && r.Failure? ==>
        r == Failure(PermissionDenied))
  {
    RolesExactly(role);
    if t < |s.tasks| && s.tasks[t].status == AwaitingApproval {
      AwaitsOne(env, s, t);
    }
  }

  /** An approval queues the row and a denial rejects it; the approval says which, who decided and when, and nothing
      else moves. */
  lemma DecideEffects(env: Platform, s: State, user: Id, role: Role, t: Id, approve: bool, now: Reading, a: Id)
    requires Inv(env, s) && DecideTask(s, user, role, t, approve, now).Success?
    requires a < |s.approvals| && s.approvals[a].task == t
    ensures var s' := DecideTask(s, user, role, t, approve, now).value;
      && SameElsewhere(s, s') && OtherTasksStand(s, s', t)
      && s'.tasks[t] == s.tasks[t].(status := if approve then Queued else Rejected)
      && s'.approvals == s.approvals[a := Approval(t, s.approvals[a].requestedBy, if approve then Approved else Denied,
        s.approvals[a].expiresAt, Some(user), Some(now.stamp), Some(now.check))]
      && s'.audit == s.audit + [TaskDecided(t, approve)]
  {
    assert ApprovalOk(s, s.approvals[a]);
    assert PendingApproval(s.approvals, t) == a;
  }

  /** A denied row stays rejected over any further run, and no lease call hands it out. */
  lemma DeniedForever(env: Platform, s: State, user: Id, role: Role, t: Id, now: Reading, calls: seq<Call>, connector: Id, pick: Option<Id>, at: Instant)
    requires Inv(env, s) && DecideTask(s, user, role, t, false, now).Success?
    ensures var later := Run(env, DecideTask(s, user, role, t, false, now).value, calls);
      && t < |later.tasks| && later.tasks[t].status == Rejected
      && var lease := LeaseTask(env, later, connector, pick, at);
        lease.Success? && lease.value.leased.Some? ==> lease.value.leased.value.0 != t
  {
    DecideKeeps(env, s, user, role, t, false, now);
    FinalForever(env, DecideTask(s, user, role, t, false, now).value, t, calls);
    RejectedNotLeased(env, Run(env, DecideTask(s, user, role, t, false, now).value, calls), t, connector, pick, at);
  }

  lemma RejectedNotLeased(env: Platform, s: State, t: Id, connector: Id, pick: Option<Id>, at: Instant)
    requires t < |s.tasks| && s.tasks[t].status == Rejected
    ensures var lease := LeaseTask(env, s, connector, pick, at);
      lease.Success? && lease.value.leased.Some? ==> lease.value.leased.value.0 != t
  {
  }

  // ---- Connectors ----

  /** Managing connectors and the safety level is denied to other roles; what is not there or not known is an
      invalid request. */
  lemma ManageRefusals(s: State, role: Role, capabilities: set<Capability>, connector: Id, level: SafetyLevel)
    ensures role !in {Owner, Admin} ==>
      && CreateConnector(s, role, capabilities) == RevokeConnector(s, role, connector) == Failure(PermissionDenied)
      && UpdateSafety(s, role, level) == Failure(PermissionDenied)
    ensures role in {Owner, Admin} ==>
      && (CreateConnector(s, role, capabilities).Failure? ==> CreateConnector(s, role, capabilities).error == InvalidRequest)
      && (RevokeConnector(s, role, connector).Failure? ==> RevokeConnector(s, role, connector).error == InvalidRequest)
  {
    RolesExactly(role);
  }

  lemma ProvisionExactly(s: State, role: Role, capabilities: set<Capability>)
    ensures CreateConnector(s, role, capabilities).Success? <==>
      && role in {Owner, Admin}
      && forall c :: c in capabilities ==> (c.Act? && !c.action.Unlisted?) || (c.Observe? && c.name in OBSERVATIONS)
    ensures CreateConnector(s, role, capabilities).Success? ==>
      var s' := CreateConnector(s, role, capabilities).value;
      && s'.connectors == s.connectors + [Connector(capabilities, false)] && s'.secrets == s.secrets + 1
      && s'.tasks == s.tasks && s'.approvals == s.approvals && s'.agents == s.agents && s'.safety == s.safety
      && s'.killSwitch == s.killSwitch && s'.programs == s.programs
      && s'.audit == s.audit + [ConnectorCreated(|s.connectors|)]
  {
    RolesExactly(role);
  }

  lemma RevokeExactly(s: State, role: Role, connector: Id)
    ensures RevokeConnector(s, role, connector).Success? <==> role in {Owner, Admin} && connector < |s.connectors|
    ensures RevokeConnector(s, role, connector).Success? ==>
      var s' := RevokeConnector(s, role, connector).value;
      && |s'.connectors| == |s.connectors|
      && s'.connectors[connector].revoked && s'.connectors[connector].capabilities == s.connectors[connector].capabilities
      && (forall c :: 0 <= c < |s.connectors| && c != connector ==> s'.connectors[c] == s.connectors[c])
      && s'.tasks == s.tasks && s'.approvals == s.approvals && s'.agents == s.agents && s'.safety == s.safety
      && s'.killSwitch == s.killSwitch && s'.programs == s.programs && s'.audit == s.audit + [ConnectorRevoked(connector)]
  {
    RolesExactly(role);
  }

  /** Once revoked, a connector is refused by every connector call over any further run. */
  lemma RevokedForever(env: Platform, s: State, role: Role, connector: Id, calls: seq<Call>, call: Call)
    requires RevokeConnector(s, role, connector).Success?
    requires
      || (call.Beat? && call.connector == connector) || (call.LeaseNext? && call.connector == connector)
      || (call.Renew? && call.connector == connector) || (call.Complete? && call.connector == connector)
    ensures Perform(env, Run(env, RevokeConnector(s, role, connector).value, calls), call) == Failure(NotAuthenticated)
  {
    RevokeExactly(s, role, connector);
    CapabilitiesShrink(env, RevokeConnector(s, role, connector).value, connector, calls);
  }

  /** A heartbeat's connector keeps, of what it held, what it reports and is known; all of it when it reports none. */
  lemma HeartbeatEffects(s: State, connector: Id, capabilities: set<Capability>, reports: seq<AgentReport>)
    requires Heartbeat(s, connector, capabilities, reports).Success?
    ensures connector < |s.connectors| && !s.connectors[connector].revoked
    ensures var s' := Heartbeat(s, connector, capabilities, reports).value;
      && |s'.connectors| == |s.connectors| && !s'.connectors[connector].revoked
      && (forall c :: c in s'.connectors[connector].capabilities <==>
        c in s.connectors[connector].capabilities && (capabilities == {} || (c in capabilities && KnownCapability(c))))
      && (forall d :: 0 <= d < |s.connectors| && d != connector ==> s'.connectors[d] == s.connectors[d])
      && s'.tasks == s.tasks && s'.approvals == s.approvals && s'.safety == s.safety && s'.killSwitch == s.killSwitch
      && s'.programs == s.programs && s'.secrets == s.secrets && s'.audit == s.audit
      && s'.agents == ReportAgents(s.agents, connector, s'.connectors[connector].capabilities, reports, |reports|)
  {
  }

  /** A heartbeat is refused exactly to an unknown or revoked connector, or when it would store one agent twice. */
  lemma HeartbeatExactly(s: State, connector: Id, capabilities: set<Capability>, reports: seq<AgentReport>)
    requires AgentsUnique(s.agents)
    ensures Heartbeat(s, connector, capabilities, reports).Success? <==>
      && connector < |s.connectors| && !s.connectors[connector].revoked
      && AgentsUnique(ReportAgents(s.agents, connector, HeldAfter(s.connectors[connector].capabilities, capabilities), reports, |reports|))
    ensures Heartbeat(s, connector, capabilities, reports).Failure? ==>
      Heartbeat(s, connector, capabilities, reports).error ==
        if connector < |s.connectors| && !s.connectors[connector].revoked then IntegrityViolation else NotAuthenticated
  {
  }

  lemma {:induction false} FindsAgent(agents: seq<Agent>, connector: Id, externalId: string, k: nat)
    requires k < |agents| && SameAgent(agents[k], connector, externalId)
    ensures FindAgent(agents, connector, externalId) <= k
  {
    if k > 0 {
      FindsAgent(agents[1..], connector, externalId, k - 1);
    }
  }

  /** What a heartbeat leaves of row k: the last report about it as far as the connector holds it, or the row as it
      was. */
  ghost predicate RowReported(a: Agent, row: Agent, connector: Id, held: set<Capability>, reports: seq<AgentReport>, n: nat)
    requires n <= |reports|
  {
    && (!ReportedAmong(a, connector, reports, n) ==> row == a)
    && forall i :: 0 <= i < n && LastReport(a, connector, reports, i, n) ==>
      row == Agent(connector, reports[i].externalId, reports[i].capabilities * held)
  }

  lemma RowReportedStep(a: Agent, row: Agent, connector: Id, held: set<Capability>, reports: seq<AgentReport>, n: nat)
    requires 0 < n <= |reports|
    requires if SameAgent(a, connector, reports[n - 1].externalId)
      then row == Agent(connector, reports[n - 1].externalId, reports[n - 1].capabilities * held)
      else RowReported(a, row, connector, held, reports, n - 1)
    ensures RowReported(a, row, connector, held, reports, n)
  {
    if SameAgent(a, connector, reports[n - 1].externalId) {
      forall i | 0 <= i < n && LastReport(a, connector, reports, i, n) ensures i == n - 1 {
      }
    } else {
      OneMoreReport(a, connector, reports, n);
    }
  }

  /** A stored agent that is reported holds what its last report says as far as the connector holds it, and one that
      is not reported stands. */
  lemma {:induction false} StoredAgentReported(stored: seq<Agent>, connector: Id, held: set<Capability>, reports: seq<AgentReport>, n: nat, k: nat)
    requires n <= |reports| && AgentsUnique(stored) && k < |stored|
    ensures RowReported(stored[k], ReportAgents(stored, connector, held, reports, n)[k], connector, held, reports, n)
  {
    if n > 0 {
      StoredAgentReported(stored, connector, held, reports, n - 1, k);
      FindsOnly(stored, connector, reports[n - 1].externalId, k);
      RowReportedStep(stored[k], ReportAgents(stored, connector, held, reports, n)[k], connector, held, reports, n);
    }
  }

  ghost predicate NoRowFrom(a: Agent, agents: seq<Agent>, from: nat) {
    forall j :: from <= j < |agents| ==> !SameAgent(a, agents[j].connector, agents[j].externalId)
  }

  /** No second row is made for a stored agent. */
  lemma {:induction false} StoredAgentOnce(stored: seq<Agent>, connector: Id, held: set<Capability>, reports: seq<AgentReport>, n: nat, k: nat)
    requires n <= |reports| && AgentsUnique(stored) && k < |stored|
    ensures NoRowFrom(stored[k], ReportAgents(stored, connector, held, reports, n), |stored|)
  {
    if n > 0 {
      StoredAgentOnce(stored, connector, held, reports, n - 1, k);
      FindsOnly(stored, connector, reports[n - 1].externalId, k);
    }
  }

  lemma FindsOnly(agents: seq<Agent>, connector: Id, externalId: string, k: nat)
    requires AgentsUnique(agents) && k < |agents|
    ensures FindAgent(agents, connector, externalId) == k <==> SameAgent(agents[k], connector, externalId)
  {
    if SameAgent(agents[k], connector, externalId) {
      FindsAgent(agents, connector, externalId, k);
    }
  }

  lemma OneMoreReport(a: Agent, connector: Id, reports: seq<AgentReport>, n: nat)
    requires 0 < n <= |reports| && !SameAgent(a, connector, reports[n - 1].externalId)
    ensures ReportedAmong(a, connector, reports, n) <==> ReportedAmong(a, connector, reports, n - 1)
    ensures forall i :: 0 <= i < n && LastReport(a, connector, reports, i, n) ==> i < n - 1 && LastReport(a, connector, reports, i, n - 1)
  {
  }

  predicate SameAgent(a: Agent, connector: Id, externalId: string) {
    a.connector == connector && a.externalId == externalId
  }

  predicate ReportedAmong(a: Agent, connector: Id, reports: seq<AgentReport>, n: nat)
    requires n <= |reports|
  {
    exists i :: 0 <= i < n && SameAgent(a, connector, reports[i].externalId)
  }

  /** Report i is the last of the first n that is about the agent. */
  predicate LastReport(a: Agent, connector: Id, reports: seq<AgentReport>, i: nat, n: nat)
    requires i < n <= |reports|
  {
    SameAgent(a, connector, reports[i].externalId) && forall j :: i < j < n ==> !SameAgent(a, connector, reports[j].externalId)
  }

  lemma AgentsStayUnique(env: Platform, s: State, call: Call)
    requires AgentsUnique(s.agents)
    ensures AgentsUnique(Step(env, s, call).agents)
  {
  }

  /** In every reachable workspace a connector has at most one row for each of its agents. */
  lemma {:induction false} ReachableAgentsUnique(env: Platform, programs: set<Id>, calls: seq<Call>)
    ensures AgentsUnique(Run(env, Fresh(programs), calls).agents)
  {
    if calls != [] {
      ReachableAgentsUnique(env, programs, calls[..|calls| - 1]);
      AgentsStayUnique(env, Run(env, Fresh(programs), calls[..|calls| - 1]), calls[|calls| - 1]);
    }
  }

  // ---- update_safety ----

  /** The level asked for is stored, the switch is on for a halt only, and a restricted or halted workspace has its
      queued and running rows blocked, and no other touched. */
  lemma SafetyExactly(s: State, role: Role, level: SafetyLevel)
    ensures UpdateSafety(s, role, level).Success? <==> role in {Owner, Admin}
    ensures UpdateSafety(s, role, level).Success? ==>
      var s' := UpdateSafety(s, role, level).value;
      && s'.safety == level && (s'.killSwitch <==> level == Halted) && s'.audit == s.audit + [SafetyChanged(s.safety, level)]
      && s'.approvals == s.approvals && s'.connectors == s.connectors && s'.agents == s.agents && s'.programs == s.programs
      && s'.secrets == s.secrets && |s'.tasks| == |s.tasks|
      && forall t :: 0 <= t < |s.tasks| ==>
        if level in {Restricted, Halted} && s.tasks[t].status in {Queued, Running}
        then
          && s'.tasks[t].error == Some("workspace entered " + LevelName(level) + " safety mode")
          && s'.tasks[t] == s.tasks[t].(status := Blocked, error := s'.tasks[t].error, lockedUntil := None)
        else s'.tasks[t] == s.tasks[t]
  {
    RolesExactly(role);
  }

  lemma LevelNames()
    ensures LevelName(Normal) == "normal" && LevelName(Cautious) == "cautious"
    ensures LevelName(Restricted) == "restricted" && LevelName(Halted) == "halted"
  {
  }

  // ---- lease_task ----

  /** The agent that a row names, if any, is a stored agent of the connector and holds the row's capability. */
  predicate AgentHolds(s: State, connector: Id, x: Task) {
    x.agent.Some? ==>
      && x.agent.value < |s.agents| && s.agents[x.agent.value].connector == connector
      && Act(x.action) in s.agents[x.agent.value].capabilities
  }

  predicate ConnectorHolds(s: State, connector: Id, x: Task) {
    connector < |s.connectors| && Act(x.action) in s.connectors[connector].capabilities
  }

  /** The connector's expired leases return to the queue without token or deadline, and no other row moves. */
  predicate Reclaimed(x: Task, y: Task, connector: Id, now: Instant) {
    if x.connector == Some(connector) && x.status == Running && x.lockedUntil.Some? && x.lockedUntil.value < now
    then y == x.(status := Queued, leaseTokenHash := None, lockedUntil := None)
    else y == x
  }

  /** A lease call is refused to an unknown or revoked connector, and hands out nothing while the workspace is
      restricted, halted or switched off. */
  lemma LeaseRefused(env: Platform, s: State, connector: Id, pick: Option<Id>, now: Instant)
    ensures connector >= |s.connectors| || s.connectors[connector].revoked ==>
      LeaseTask(env, s, connector, pick, now) == Failure(NotAuthenticated)
    ensures LiveConnector(s, connector) && (s.killSwitch || s.safety in {Restricted, Halted}) ==>
      LeaseTask(env, s, connector, pick, now) == Success(Lease(s, None))
  {
  }

  /** The picked row is leased if and only if its connector and its agent hold the capability. */
  lemma LeaseExactly(env: Platform, s: State, connector: Id, t: Id, now: Instant)
    requires Inv(env, s) && LiveConnector(s, connector) && !Prohibits(s) && Leasable(Reclaim(s, connector, now), connector, t)
    ensures var r := LeaseTask(env, s, connector, Some(t), now);
      && r.Success? && |r.value.state.tasks| == |s.tasks|
      && (r.value.leased.Some? <==> ConnectorHolds(s, connector, s.tasks[t]) && AgentHolds(s, connector, s.tasks[t]))
      && (r.value.leased.Some? ==> r.value.leased.value == (t, s.secrets))
      && (forall u :: 0 <= u < |s.tasks| && u != t ==> Reclaimed(s.tasks[u], r.value.state.tasks[u], connector, now))
  {
    assert TaskOk(env, s, t);
    CatalogExactly(s.tasks[t].action);
  }

  /** A row whose connector or agent lacks the capability is blocked with its reason, and nothing is issued. */
  lemma IncapableIsBlocked(env: Platform, s: State, connector: Id, t: Id, now: Instant)
    requires Inv(env, s) && LiveConnector(s, connector) && !Prohibits(s) && Leasable(Reclaim(s, connector, now), connector, t)
    requires !(ConnectorHolds(s, connector, s.tasks[t]) && AgentHolds(s, connector, s.tasks[t]))
    ensures LeaseTask(env, s, connector, Some(t), now).Success?
    ensures var r := LeaseTask(env, s, connector, Some(t), now).value;
      && r.leased.None? && SameElsewhere(s, r.state) && r.state.approvals == s.approvals
      && r.state.tasks[t].error == Some(
        if ConnectorHolds(s, connector, s.tasks[t]) then "agent capability revoked before lease"
        else "connector capability revoked before lease")
      && r.state.tasks[t] ==
        s.tasks[t].(status := Blocked, error := r.state.tasks[t].error, leaseTokenHash := None, lockedUntil := None)
      && r.state.audit == s.audit + [TaskBlocked(t)]
  {
    assert TaskOk(env, s, t);
    CatalogExactly(s.tasks[t].action);
  }

  /** A leased row runs until the lease's deadline under a fresh secret, and its grant says what was authorized. */
  lemma LeaseEffects(env: Platform, s: State, connector: Id, t: Id, now: Instant)
    requires Inv(env, s) && LiveConnector(s, connector) && !Prohibits(s) && Leasable(Reclaim(s, connector, now), connector, t)
    requires ConnectorHolds(s, connector, s.tasks[t]) && AgentHolds(s, connector, s.tasks[t])
    ensures LeaseTask(env, s, connector, Some(t), now).Success?
    ensures var s' := LeaseTask(env, s, connector, Some(t), now).value.state;
      && s'.secrets == s.secrets + 1 && SameElsewhere(s, s'.(secrets := s.secrets)) && s'.approvals == s.approvals
      && s'.tasks[t] == s.tasks[t].(status := Running, leaseTokenHash := Some(Digest(s.secrets)),
        lockedUntil := Some(now + env.leaseSeconds), grant := s'.tasks[t].grant)
      && s'.tasks[t].grant.Some? && s'.audit == s.audit + [TaskLeased(t, s'.tasks[t].grant.value.sha256)]
      && var g, x := s'.tasks[t].grant.value, s.tasks[t];
        && g.sha256 == env.hex(g.material)
        && g.material.taskId == t && g.material.connectorId == connector && g.material.agentId == x.agent
        && g.material.action == x.action && g.material.effectiveCapabilities == {Act(x.action)}
        && g.material.risk == x.risk && g.material.approvalRequired == x.approvalRequired && g.material.dryRun == x.dryRun
        && g.material.reversible == x.policy.terms.reversible
        && g.material.issuedAt == now && g.material.expiresAt == now + env.leaseSeconds && g.material.policy == x.policy
  {
    assert TaskOk(env, s, t);
    CatalogExactly(s.tasks[t].action);
  }

  // ---- renew_task_lease ----

  /** The row is leased to this live connector under this token. */
  predicate HeldUnder(s: State, connector: Id, t: Id, token: nat) {
    && connector < |s.connectors| && !s.connectors[connector].revoked
    && t < |s.tasks| && s.tasks[t].connector == Some(connector) && s.tasks[t].status == Running
    && s.tasks[t].leaseTokenHash == Some(Digest(token))
  }

  /** A lease is renewed if and only if it is held, its deadline is still ahead and the workspace is open; the
      deadline is then a full lease from now, and nothing else moves. */
  lemma RenewExactly(env: Platform, s: State, connector: Id, t: Id, token: nat, now: Instant)
    ensures RenewLease(env, s, connector, t, token, now).Success? <==>
      && HeldUnder(s, connector, t, token) && s.tasks[t].lockedUntil.Some? && now < s.tasks[t].lockedUntil.value
      && !s.killSwitch && s.safety !in {Restricted, Halted}
    ensures RenewLease(env, s, connector, t, token, now).Success? ==>
      var s' := RenewLease(env, s, connector, t, token, now).value;
      && SameElsewhere(s, s') && OtherTasksStand(s, s', t) && s'.approvals == s.approvals && s'.audit == s.audit
      && s'.tasks[t] == s.tasks[t].(lockedUntil := Some(now + env.leaseSeconds))
  {
  }

  /** A connector that is not live is not authenticated; any other refusal of a renewal is a denial. */
  lemma RenewRefusals(env: Platform, s: State, connector: Id, t: Id, token: nat, now: Instant)
    requires RenewLease(env, s, connector, t, token, now).Failure?
    ensures RenewLease(env, s, connector, t, token, now).error ==
      if connector < |s.connectors| && !s.connectors[connector].revoked then PermissionDenied else NotAuthenticated
  {
  }

  // ---- complete_task ----

  /** The result holds the receipt of the row's own grant. */
  predicate AnswersGrant(result: Json, grant: Option<Grant>) {
    && grant.Some? && Get(result, "executionReceipt").Some? && Get(result, "executionReceipt").value.Obj?
    && Get(Get(result, "executionReceipt").value, "executionGrantSha256") == Some(Str(grant.value.sha256))
  }

  /** A failure says why; a success reports no error, something besides its receipt, and what its action asks. */
  ghost predicate OutcomeOk(env: Platform, x: Task, c: Completion) {
    var clean := Scrub(env.py, c.result, 0);
    if !c.succeeded then env.py.strip(c.error) != ""
    else
      && c.error == "" && clean.Obj? && (exists f :: f in clean.fields && f.key != "executionReceipt")
      && (x.action.AssessmentExecute? ==> AssessmentAccepted(env.py, x.payload, clean))
      && (x.action.EvidenceAnalyze? ==> EvidenceAccepted(x.payload, clean))
      && (x.action.GateRun? ==> GateAccepted(x.payload, clean))
  }

  /** A completion succeeds if and only if the lease is held, its deadline has not passed, the result answers the
      lease's own grant and the outcome is in order. */
  lemma CompleteExactly(env: Platform, s: State, connector: Id, t: Id, token: nat, c: Completion, now: Instant)
    ensures CompleteTask(env, s, connector, t, token, c, now).Success? <==>
      && HeldUnder(s, connector, t, token)
      && (s.tasks[t].lockedUntil.Some? ==> now <= s.tasks[t].lockedUntil.value)
      && AnswersGrant(Scrub(env.py, c.result, 0), s.tasks[t].grant) && OutcomeOk(env, s.tasks[t], c)
  {
    if HeldUnder(s, connector, t, token) {
      ValidatedExactly(env, s.tasks[t], c);
    }
  }

  /** The row is leased to this connector, under whatever token. */
  predicate LeasedTo(s: State, connector: Id, t: Id) {
    && t < |s.tasks| && s.tasks[t].connector == Some(connector) && s.tasks[t].status == Running
    && s.tasks[t].leaseTokenHash.Some?
  }

  /** A connector that is not live is not authenticated; a row not leased to it and a result that is not in order are
      invalid; another token and a late report are denied. */
  lemma CompleteRefusals(env: Platform, s: State, connector: Id, t: Id, token: nat, c: Completion, now: Instant)
    requires CompleteTask(env, s, connector, t, token, c, now).Failure?
    ensures CompleteTask(env, s, connector, t, token, c, now).error ==
      if !(connector < |s.connectors| && !s.connectors[connector].revoked) then NotAuthenticated
      else if LeasedTo(s, connector, t)
        && (!HeldUnder(s, connector, t, token) || (s.tasks[t].lockedUntil.Some? && s.tasks[t].lockedUntil.value < now))
        then PermissionDenied
      else InvalidRequest
  {
  }

  lemma ValidatedExactly(env: Platform, x: Task, c: Completion)
    ensures var r := ValidatedResult(env.py, x.action, x.payload, GrantSha256(x), c.succeeded, c.result, c.error);
      && (r.Some? <==> AnswersGrant(Scrub(env.py, c.result, 0), x.grant) && OutcomeOk(env, x, c))
      && (r.Some? ==> r.value == Scrub(env.py, c.result, 0))
  {
  }

  /** The row is final as reported, without lease, and holds the scrubbed result; nothing else moves. */
  lemma CompleteEffects(env: Platform, s: State, connector: Id, t: Id, token: nat, c: Completion, now: Instant)
    requires CompleteTask(env, s, connector, t, token, c, now).Success?
    ensures var s' := CompleteTask(env, s, connector, t, token, c, now).value;
      && SameElsewhere(s, s') && OtherTasksStand(s, s', t) && s'.approvals == s.approvals
      && s'.tasks[t].status == (if c.succeeded then Succeeded else Failed)
      && s'.tasks[t].result == Scrub(env.py, c.result, 0) && s'.tasks[t].completedAt == Some(now)
      && s'.tasks[t].leaseTokenHash.None? && s'.tasks[t].lockedUntil.None?
      && s'.tasks[t].error == (if c.error == "" then None else Some(c.error[..Min(|c.error|, 4000)]))
      && s'.tasks[t].action == s.tasks[t].action && s'.tasks[t].payload == s.tasks[t].payload
      && s'.tasks[t].grant == s.tasks[t].grant && s'.tasks[t].connector == s.tasks[t].connector
      && s'.audit == s.audit + [TaskCompleted(t, c.succeeded, Scrub(env.py, c.result, 0))]
  {
    ValidatedExactly(env, s.tasks[t], c);
  }
}
