/** service.py: one workspace's tables, and what each service call makes of them. A call is one database
    transaction: it yields a new state, or a refusal that leaves the old one. */
module Tasks {
  import opened Wrappers
  import opened Json
  import opened Policies
  import opened Security
  import opened Assessments

  type Id = nat          // a row of its table; a number past the table names no row
  type Instant = int

  datatype Status = AwaitingApproval | Queued | Running | Succeeded | Failed | Rejected | Blocked

  datatype SafetyLevel = Normal | Cautious | Restricted | Halted

  /** What lease_task commits to; the worker recomputes its digest. */
  datatype GrantMaterial = GrantMaterial(
    taskId: Id, connectorId: Id, agentId: Option<Id>, action: Action,
    effectiveCapabilities: set<Capability>, risk: Risk, approvalRequired: bool, dryRun: bool, reversible: bool,
    issuedAt: Instant, expiresAt: Instant, policy: PolicyReceipt
  )

  datatype Grant = Grant(material: GrantMaterial, sha256: string)

  /** A keyed digest of an issued secret; secrets are numbered in the order they are issued. */
  datatype Digest = Digest(secret: nat)

  datatype Task = Task(
    connector: Option<Id>, agent: Option<Id>, requestedBy: Id,
    action: Action, risk: Risk, status: Status,
    payload: Json, policy: PolicyReceipt, grant: Option<Grant>,
    dryRun: bool, approvalRequired: bool,
    leaseTokenHash: Option<Digest>, lockedUntil: Option<Instant>,
    result: Json, error: Option<string>,
    createdAt: Instant, completedAt: Option<Instant>
  )

  datatype ApprovalStatus = Pending | Approved | Denied

  datatype Approval = Approval(
    task: Id, requestedBy: Id, status: ApprovalStatus, expiresAt: Instant,
    decidedBy: Option<Id>, decidedAt: Option<Instant>,
    checkedAt: Option<Instant> // the reading the deadline was checked against, which no column keeps
  )

  datatype Connector = Connector(capabilities: set<Capability>, revoked: bool)

  datatype Agent = Agent(connector: Id, externalId: string, capabilities: set<Capability>)

  datatype AgentReport = AgentReport(externalId: string, capabilities: set<Capability>)

  /** The task protocol's entries in the tenant's audit chain, oldest first. */
  datatype AuditBody =
    | TaskCreated(task: Id, approvalRequired: bool)
    | TaskDecided(task: Id, approved: bool)
    | TaskLeased(task: Id, grantSha256: string)
    | TaskBlocked(task: Id)
    | TaskCompleted(task: Id, succeeded: bool, result: Json)
    | SafetyChanged(before: SafetyLevel, after: SafetyLevel)
    | ConnectorCreated(connector: Id)
    | ConnectorRevoked(connector: Id)

  datatype State = State(
    safety: SafetyLevel, killSwitch: bool,
    tasks: seq<Task>, approvals: seq<Approval>, connectors: seq<Connector>, agents: seq<Agent>, programs: set<Id>,
    secrets: nat, // how many secrets have been issued
    audit: seq<AuditBody>
  )

  datatype Refusal = NotAuthenticated | PermissionDenied | InvalidRequest | IntegrityViolation

  type Outcome = Result<State, Refusal>

  /** Settings and the interpreter. */
  datatype Platform = Platform(
    py: Runtime,
    hex: GrantMaterial -> string, // SHA-256 of the canonical JSON, in hexadecimal
    leaseSeconds: int,
    buildRevision: string
  )

  const APPROVAL_SECONDS := 24 * 60 * 60

  function Fresh(programs: set<Id>): State {
    State(Normal, false, [], [], [], [], programs, 0, [])
  }

  predicate Prohibits(s: State) {
    s.killSwitch || s.safety in {Restricted, Halted}
  }

  // ---- Human calls ----

  predicate ValidatedDryRun(s: State, action: Action, id: Id) {
    id < |s.tasks| && s.tasks[id].action == action && s.tasks[id].dryRun && s.tasks[id].status == Succeeded
  }

  predicate LiveConnector(s: State, id: Id) {
    id < |s.connectors| && !s.connectors[id].revoked
  }

  function Receipt(env: Platform, action: Action, terms: ActionPolicy): PolicyReceipt {
    var revision := env.buildRevision;
    var pinned := |revision| == 40 && forall c :: c in revision ==> '0' <= c <= '9' || 'a' <= c <= 'f';
    PolicyReceipt(action, terms, if pinned then revision else "development")
  }

  datatype Order = Order(
    action: Action, connector: Option<Id>, agent: Option<Id>, program: Option<Id>, payload: Json, dryRun: bool
  )

  /** create_task's checks, in order. */
  function CheckOrder(env: Platform, s: State, role: Role, o: Order): Result<ActionPolicy, Refusal> {
    var policy := ActionPolicyOf(o.action);
    var clean := Scrub(env.py, o.payload, 0);
    if !Permits(role, TasksCreate) then Failure(PermissionDenied)
    else if Prohibits(s) then Failure(PermissionDenied)
    else if policy.None? then Failure(InvalidRequest)
    else if !WorkOrderOk(env.py, o.action, clean) then Failure(InvalidRequest)
    else if policy.value.dryRunRequired && !o.dryRun && !ValidatedDryRun(s, o.action, DryRunReference(env.py, clean))
      then Failure(PermissionDenied)
    else if o.connector.Some? && !LiveConnector(s, o.connector.value) then Failure(InvalidRequest)
    else if o.connector.Some? && policy.value.connectorCapability !in s.connectors[o.connector.value].capabilities
      then Failure(PermissionDenied)
    else if o.agent.Some? && o.connector.None? then Failure(InvalidRequest)
    else if o.agent.Some? && !(o.agent.value < |s.agents| && s.agents[o.agent.value].connector == o.connector.value)
      then Failure(InvalidRequest)
    else if o.agent.Some? && policy.value.connectorCapability !in s.agents[o.agent.value].capabilities
      then Failure(PermissionDenied)
    else if o.program.Some? && o.program.value !in s.programs then Failure(InvalidRequest)
    else Success(policy.value)
  }

  /** The row named by the payload's validatedDryRunTaskId. */
  function DryRunReference(py: Runtime, clean: Json): Id {
    py.rowOf(py.str(GetOr(clean, "validatedDryRunTaskId", Str(""))))
  }

  function CreateTask(env: Platform, s: State, user: Id, role: Role, o: Order, now: Instant): Outcome {
    var policy :- CheckOrder(env, s, role, o);
    var task := Task(o.connector, o.agent, user, o.action, policy.risk,
                     if policy.approvalRequired then AwaitingApproval else Queued,
                     Scrub(env.py, o.payload, 0), Receipt(env, o.action, policy), None,
                     o.dryRun, policy.approvalRequired, None, None, Obj([]), None, now, None);
    Success(s.(
      tasks := s.tasks + [task],
      approvals := s.approvals +
        if policy.approvalRequired then [Approval(|s.tasks|, user, Pending, now + APPROVAL_SECONDS, None, None, None)] else [],
      audit := s.audit + [TaskCreated(|s.tasks|, policy.approvalRequired)]))
  }

  /** The first pending approval of a task, or the number of rows when there is none. */
  function PendingApproval(approvals: seq<Approval>, task: Id): (k: nat)
    ensures k <= |approvals|
    ensures k < |approvals| ==> approvals[k].task == task && approvals[k].status == Pending
    ensures forall j :: 0 <= j < k ==> !(approvals[j].task == task && approvals[j].status == Pending)
  {
    if approvals == [] then 0
    else if approvals[0].task == task && approvals[0].status == Pending then 0
    else 1 + PendingApproval(approvals[1..], task)
  }

  /** decide_task reads the clock twice: to check the deadline, and to stamp the decision. */
  datatype Reading = Reading(check: Instant, stamp: Instant)

  /** decide_task. The expired branch writes before it raises; the transaction takes those writes back. */
  function DecideTask(s: State, user: Id, role: Role, task: Id, approve: bool, now: Reading): Outcome {
    if !Permits(role, TasksApprove) then Failure(PermissionDenied)
    else if !(task < |s.tasks| && s.tasks[task].status == AwaitingApproval) then Failure(InvalidRequest)
    else
      var a := PendingApproval(s.approvals, task);
      if a == |s.approvals| then Failure(InvalidRequest)
      else if s.approvals[a].expiresAt < now.check then Failure(PermissionDenied)
      else if s.tasks[task].risk == Critical && s.tasks[task].requestedBy == user then Failure(PermissionDenied)
      else Success(s.(
        tasks := s.tasks[task := s.tasks[task].(status := if approve then Queued else Rejected)],
        approvals := s.approvals[a := s.approvals[a].(
          status := if approve then Approved else Denied, decidedBy := Some(user), decidedAt := Some(now.stamp),
          checkedAt := Some(now.check))],
        audit := s.audit + [TaskDecided(task, approve)]))
  }

  function CreateConnector(s: State, role: Role, capabilities: set<Capability>): Outcome {
    if !Permits(role, ConnectorsManage) then Failure(PermissionDenied)
    else if exists c :: c in capabilities && !KnownCapability(c) then Failure(InvalidRequest)
    else Success(s.(
      connectors := s.connectors + [Connector(capabilities, false)],
      secrets := s.secrets + 1,
      audit := s.audit + [ConnectorCreated(|s.connectors|)]))
  }

  function RevokeConnector(s: State, role: Role, connector: Id): Outcome {
    if !Permits(role, ConnectorsManage) then Failure(PermissionDenied)
    else if connector >= |s.connectors| then Failure(InvalidRequest)
    else Success(s.(
      connectors := s.connectors[connector := s.connectors[connector].(revoked := true)],
      secrets := s.secrets + 1,
      audit := s.audit + [ConnectorRevoked(connector)]))
  }

  function LevelName(level: SafetyLevel): string {
    match level
    case Normal => "normal"
    case Cautious => "cautious"
    case Restricted => "restricted"
    case Halted => "halted"
  }

  /** update_safety's bulk update of one row; the lease token's digest stays behind. */
  function BlockLive(t: Task, level: SafetyLevel): Task {
    if t.status in {Queued, Running}
    then t.(status := Blocked, error := Some("workspace entered " + LevelName(level) + " safety mode"), lockedUntil := None)
    else t
  }

  function UpdateSafety(s: State, role: Role, level: SafetyLevel): Outcome {
    if !Permits(role, SafetyManage) then Failure(PermissionDenied)
    else Success(s.(
      safety := level,
      killSwitch := level == Halted,
      tasks := if level in {Restricted, Halted}
        then seq(|s.tasks|, t requires 0 <= t < |s.tasks| => BlockLive(s.tasks[t], level))
        else s.tasks,
      audit := s.audit + [SafetyChanged(s.safety, level)]))
  }

  // ---- Connector calls ----

  /** The agent row of this connector with the external id, among the rows already stored. */
  function FindAgent(agents: seq<Agent>, connector: Id, externalId: string): (k: nat)
    ensures k <= |agents|
    ensures k < |agents| ==> agents[k].connector == connector && agents[k].externalId == externalId
  {
    if agents == [] then 0
    else if agents[0].connector == connector && agents[0].externalId == externalId then 0
    else 1 + FindAgent(agents[1..], connector, externalId)
  }

  /** The agent table after the first n reports; a lookup sees only the rows that were stored before the call. */
  function ReportAgents(stored: seq<Agent>, connector: Id, held: set<Capability>, reports: seq<AgentReport>, n: nat): (r: seq<Agent>)
    requires n <= |reports|
    ensures |stored| <= |r| && forall k :: 0 <= k < |stored| ==> r[k].connector == stored[k].connector
  {
    if n == 0 then stored
    else
      var agents := ReportAgents(stored, connector, held, reports, n - 1);
      var report := reports[n - 1];
      var k := FindAgent(stored, connector, report.externalId);
      var row := Agent(connector, report.externalId, report.capabilities * held);
      if k < |stored| then agents[k := row] else agents + [row]
  }

  /** The row is one stored before the call, or it is made of one of the first n reports. */
  ghost predicate Reported(stored: seq<Agent>, connector: Id, held: set<Capability>, reports: seq<AgentReport>, n: nat, r: seq<Agent>, k: nat)
    requires n <= |reports| && k < |r|
  {
    || (k < |stored| && r[k] == stored[k])
    || exists i :: 0 <= i < n && r[k] == Agent(connector, reports[i].externalId, reports[i].capabilities * held)
  }

  /** A heartbeat's rows: stored rows stay with their connector and external id; every row that changed or is
      new holds a report's capabilities as far as the connector holds them; and every report has its row. */
  lemma {:induction false} ReportedAgents(stored: seq<Agent>, connector: Id, held: set<Capability>, reports: seq<AgentReport>, n: nat)
    requires n <= |reports|
    ensures var r := ReportAgents(stored, connector, held, reports, n);
      && (forall k :: 0 <= k < |stored| ==> r[k].connector == stored[k].connector && r[k].externalId == stored[k].externalId)
      && (forall k :: 0 <= k < |r| ==> Reported(stored, connector, held, reports, n, r, k))
      && forall i :: 0 <= i < n ==> HasRow(r, connector, reports[i].externalId)
  {
    if n > 0 {
      var before, r := ReportAgents(stored, connector, held, reports, n - 1), ReportAgents(stored, connector, held, reports, n);
      ReportedAgents(stored, connector, held, reports, n - 1);
      var found := FindAgent(stored, connector, reports[n - 1].externalId);
      var at := if found < |stored| then found else |before|;
      assert r[at] == Agent(connector, reports[n - 1].externalId, reports[n - 1].capabilities * held);
      forall k | 0 <= k < |r| ensures Reported(stored, connector, held, reports, n, r, k) {
        assert k != at ==> r[k] == before[k] && Reported(stored, connector, held, reports, n - 1, before, k);
      }
      forall i | 0 <= i < n ensures HasRow(r, connector, reports[i].externalId) {
        if i < n - 1 {
          assert HasRow(before, connector, reports[i].externalId);
          var k :| 0 <= k < |before| && before[k].connector == connector && before[k].externalId == reports[i].externalId;
          assert r[k].connector == connector && r[k].externalId == reports[i].externalId;
        }
      }
    }
  }

  ghost predicate HasRow(agents: seq<Agent>, connector: Id, externalId: string) {
    exists k :: 0 <= k < |agents| && agents[k].connector == connector && agents[k].externalId == externalId
  }

  predicate AgentsUnique(agents: seq<Agent>) {
    forall i, j :: 0 <= i < j < |agents| ==>
      !(agents[i].connector == agents[j].connector && agents[i].externalId == agents[j].externalId)
  }

  /** A heartbeat may report fewer capabilities, never more than the human provisioned. */
  function HeldAfter(held: set<Capability>, reported: set<Capability>): set<Capability> {
    if reported == {} then held else set c | c in reported && c in held && KnownCapability(c)
  }

  function Heartbeat(s: State, connector: Id, capabilities: set<Capability>, reports: seq<AgentReport>): Outcome {
    if !LiveConnector(s, connector) then Failure(NotAuthenticated)
    else
      var held := HeldAfter(s.connectors[connector].capabilities, capabilities);
      var agents := ReportAgents(s.agents, connector, held, reports, |reports|);
      if AgentsUnique(s.agents) && !AgentsUnique(agents) then Failure(IntegrityViolation)
      else Success(s.(connectors := s.connectors[connector := s.connectors[connector].(capabilities := held)], agents := agents))
  }

  predicate Expired(t: Task, now: Instant) {
    t.status == Running && t.lockedUntil.Some? && t.lockedUntil.value < now
  }

  function ReclaimOne(t: Task, connector: Id, now: Instant): Task {
    if t.connector == Some(connector) && Expired(t, now)
    then t.(status := Queued, leaseTokenHash := None, lockedUntil := None)
    else t
  }

  /** lease_task's bulk update: the connector's expired leases return to the queue. */
  function Reclaim(s: State, connector: Id, now: Instant): State {
    s.(tasks := seq(|s.tasks|, t requires 0 <= t < |s.tasks| => ReclaimOne(s.tasks[t], connector, now)))
  }

  predicate Leasable(s: State, connector: Id, t: Id) {
    t < |s.tasks| && s.tasks[t].connector == Some(connector) && s.tasks[t].status == Queued
  }

  /** What `order_by(created_at).limit(1)` may return; ties are the database's choice. */
  predicate OldestQueued(s: State, connector: Id, pick: Option<Id>) {
    match pick
    case None => forall t :: 0 <= t < |s.tasks| ==> !Leasable(s, connector, t)
    case Some(p) =>
      Leasable(s, connector, p) &&
      forall t :: 0 <= t < |s.tasks| && Leasable(s, connector, t) ==> s.tasks[p].createdAt <= s.tasks[t].createdAt
  }

  function Material(s: State, connector: Id, t: Id, policy: ActionPolicy, now: Instant, until: Instant): GrantMaterial
    requires t < |s.tasks|
  {
    var task := s.tasks[t];
    GrantMaterial(t, connector, task.agent, task.action, {policy.connectorCapability}, policy.risk,
                  policy.approvalRequired, task.dryRun, policy.reversible, now, until, task.policy)
  }

  /** The connector, or the task's agent, no longer holds the capability. */
  function Incapable(s: State, connector: Id, task: Task, capability: Capability): Option<string>
    requires connector < |s.connectors|
  {
    if capability !in s.connectors[connector].capabilities then Some("connector capability revoked before lease")
    else if task.agent.Some? && !(
        && task.agent.value < |s.agents|
        && s.agents[task.agent.value].connector == connector
        && capability in s.agents[task.agent.value].capabilities)
      then Some("agent capability revoked before lease")
    else None
  }

  /** The reply of lease_task: the task and the secret that completes it. */
  datatype Lease = Lease(state: State, leased: Option<(Id, nat)>)

  /** What becomes of the queued row that was picked. */
  function LeaseRow(env: Platform, r: State, connector: Id, t: Id, now: Instant): Result<Lease, Refusal>
    requires connector < |r.connectors| && t < |r.tasks|
  {
    var task := r.tasks[t];
    var policy := ActionPolicyOf(task.action);
    if policy.None? then Failure(InvalidRequest)
    else if Incapable(r, connector, task, policy.value.connectorCapability).Some? then
      Success(Lease(r.(
        tasks := r.tasks[t := task.(
          status := Blocked, error := Incapable(r, connector, task, policy.value.connectorCapability))],
        audit := r.audit + [TaskBlocked(t)]), None))
    else
      var until := now + env.leaseSeconds;
      var material := Material(r, connector, t, policy.value, now, until);
      Success(Lease(r.(
        tasks := r.tasks[t := task.(
          status := Running, leaseTokenHash := Some(Digest(r.secrets)), lockedUntil := Some(until),
          grant := Some(Grant(material, env.hex(material))))],
        secrets := r.secrets + 1,
        audit := r.audit + [TaskLeased(t, env.hex(material))]), Some((t, r.secrets))))
  }

  function LeaseTask(env: Platform, s: State, connector: Id, pick: Option<Id>, now: Instant): Result<Lease, Refusal> {
    if !LiveConnector(s, connector) then Failure(NotAuthenticated)
    else if Prohibits(s) then Success(Lease(s, None))
    else
      var r := Reclaim(s, connector, now);
      if pick.None? || !Leasable(r, connector, pick.value) then Success(Lease(r, None))
      else LeaseRow(env, r, connector, pick.value, now)
  }

  predicate HoldsLease(s: State, connector: Id, task: Id) {
    && task < |s.tasks| && s.tasks[task].connector == Some(connector)
    && s.tasks[task].status == Running && s.tasks[task].leaseTokenHash.Some?
  }

  function RenewLease(env: Platform, s: State, connector: Id, task: Id, token: nat, now: Instant): Outcome {
    if !LiveConnector(s, connector) then Failure(NotAuthenticated)
    else if !HoldsLease(s, connector, task) then Failure(PermissionDenied)
    else if s.tasks[task].leaseTokenHash.value != Digest(token) then Failure(PermissionDenied)
    else if s.tasks[task].lockedUntil.None? || s.tasks[task].lockedUntil.value <= now then Failure(PermissionDenied)
    else if Prohibits(s) then Failure(PermissionDenied)
    else Success(s.(tasks := s.tasks[task := s.tasks[task].(lockedUntil := Some(now + env.leaseSeconds))]))
  }

  datatype Completion = Completion(succeeded: bool, result: Json, error: string)

  function GrantSha256(t: Task): Option<string> {
    if t.grant.Some? then Some(t.grant.value.sha256) else None
  }

  /** complete_task's checks, in order: the result to store. */
  function CheckCompletion(env: Platform, s: State, connector: Id, task: Id, token: nat, c: Completion, now: Instant): (r: Result<Json, Refusal>)
    ensures r.Success? ==> task < |s.tasks|
  {
    if !LiveConnector(s, connector) then Failure(NotAuthenticated)
    else if !HoldsLease(s, connector, task) then Failure(InvalidRequest)
    else if s.tasks[task].leaseTokenHash.value != Digest(token) then Failure(PermissionDenied)
    else if Expired(s.tasks[task], now) then Failure(PermissionDenied)
    else
      var row := s.tasks[task];
      var clean := ValidatedResult(env.py, row.action, row.payload, GrantSha256(row), c.succeeded, c.result, c.error);
      if clean.None? then Failure(InvalidRequest) else Success(clean.value)
  }

  function CompleteTask(env: Platform, s: State, connector: Id, task: Id, token: nat, c: Completion, now: Instant): Outcome {
    var clean :- CheckCompletion(env, s, connector, task, token, c, now);
    var error := Take(c.error, 4000);
    Success(s.(
      tasks := s.tasks[task := s.tasks[task].(
        status := if c.succeeded then Succeeded else Failed, result := clean,
        error := if error == "" then None else Some(error), completedAt := Some(now),
        lockedUntil := None, leaseTokenHash := None)],
      audit := s.audit + [TaskCompleted(task, c.succeeded, clean)]))
  }

  // ---- Runs ----

  datatype Call =
    | Create(user: Id, role: Role, order: Order, at: Instant)
    | Decide(user: Id, role: Role, task: Id, approve: bool, clock: Reading)
    | Provision(role: Role, capabilities: set<Capability>)
    | Revoke(role: Role, connector: Id)
    | SetSafety(role: Role, level: SafetyLevel)
    | Beat(connector: Id, capabilities: set<Capability>, reports: seq<AgentReport>)
    | LeaseNext(connector: Id, pick: Option<Id>, at: Instant)
    | Renew(connector: Id, task: Id, token: nat, at: Instant)
    | Complete(connector: Id, task: Id, token: nat, completion: Completion, at: Instant)

  function Perform(env: Platform, s: State, call: Call): Outcome {
    match call
    case Create(user, role, order, at) => CreateTask(env, s, user, role, order, at)
    case Decide(user, role, task, approve, clock) => DecideTask(s, user, role, task, approve, clock)
    case Provision(role, capabilities) => CreateConnector(s, role, capabilities)
    case Revoke(role, connector) => RevokeConnector(s, role, connector)
    case SetSafety(role, level) => UpdateSafety(s, role, level)
    case Beat(connector, capabilities, reports) => Heartbeat(s, connector, capabilities, reports)
    case LeaseNext(connector, pick, at) =>
      var lease :- LeaseTask(env, s, connector, pick, at);
      Success(lease.state)
    case Renew(connector, task, token, at) => RenewLease(env, s, connector, task, token, at)
    case Complete(connector, task, token, completion, at) => CompleteTask(env, s, connector, task, token, completion, at)
  }

  /** One transaction: a refusal rolls back. */
  function Step(env: Platform, s: State, call: Call): State {
    var outcome := Perform(env, s, call);
    if outcome.Success? then outcome.value else s
  }

  function Run(env: Platform, s: State, calls: seq<Call>): State {
    if calls == [] then s else Step(env, Run(env, s, calls[..|calls| - 1]), calls[|calls| - 1])
  }
}
