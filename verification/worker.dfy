/** worker.py: the connector's own check of a lease's execution grant, and the receipt it returns. */
module Worker {
  import opened Wrappers
  import opened Json
  import opened Policies
  import opened Security
  import opened Tasks
  import opened TaskInvariants
  import opened TaskProtocol

  /** The fields of a serialized task that the worker reads. */
  datatype WorkOrder = WorkOrder(id: Id, action: Action, payload: Json, executionGrant: Option<Grant>)

  function Serialize(s: State, t: Id): WorkOrder
    requires t < |s.tasks|
  {
    WorkOrder(t, s.tasks[t].action, s.tasks[t].payload, s.tasks[t].grant)
  }

  /** _validate_execution_grant; None is its PermissionError. */
  function ValidateExecutionGrant(env: Platform, order: WorkOrder): Option<Grant> {
    if order.executionGrant.None? then None
    else
      var grant := order.executionGrant.value;
      var policy := grant.material.policy;
      if grant.sha256 != env.hex(grant.material) then None
      else if grant.material.taskId != order.id || grant.material.action != order.action then None
      else if policy.action != order.action then None
      else if policy.terms.connectorCapability !in grant.material.effectiveCapabilities then None
      else Some(grant)
  }

  /** The parts of a receipt that do not come from the grant's digest. */
  datatype Boundary = Boundary(policySha256: string, summary: Json)

  function ExecutionReceipt(order: WorkOrder, b: Boundary): Json {
    var sha := if order.executionGrant.Some? then Str(order.executionGrant.value.sha256) else Null;
    var revision := if order.executionGrant.Some? then Str(order.executionGrant.value.material.policy.buildRevision) else Null;
    Obj([
      Field("schema", Str("aegis.execution-receipt/1.0")),
      Field("executionGrantSha256", sha),
      Field("policyContentSha256", Str(b.policySha256)),
      Field("policyBuildRevision", revision),
      Field("connectorVersion", Str("1.0.0")),
      Field("connectorBoundary", b.summary)])
  }

  /** What SECRET_KEY_PATTERN and SHA-256 guarantee of the texts a receipt carries. */
  ghost predicate ReceiptTexts(env: Platform) {
    && !env.py.secretKey("executionReceipt") && !env.py.secretKey("executionGrantSha256")
    && forall m {:trigger env.hex(m)} :: |env.hex(m)| == 64 && '\0' !in env.hex(m)
  }

  lemma ReceiptSurvives(env: Platform, order: WorkOrder, b: Boundary, rest: seq<Field>)
    requires ReceiptTexts(env) && order.executionGrant.Some?
    requires order.executionGrant.value.sha256 == env.hex(order.executionGrant.value.material)
    requires |rest| < SCRUB_ITEMS
    ensures var clean := Scrub(env.py, Obj(rest + [Field("executionReceipt", ExecutionReceipt(order, b))]), 0);
      && GetOr(clean, "executionReceipt", Null).Obj?
      && GetOr(GetOr(clean, "executionReceipt", Null), "executionGrantSha256", Null) == Str(order.executionGrant.value.sha256)
  {
    var receipt := ExecutionReceipt(order, b);
    var sha := order.executionGrant.value.sha256;
    ScrubGet(env.py, Obj(rest + [Field("executionReceipt", receipt)]), |rest|, 0);
    assert receipt.fields[1].key == "executionGrantSha256";
    ScrubGet(env.py, receipt, 1, 1);
    DropNulFixed(sha);
    assert ScrubText(sha) == sha;
  }

  /** A leased task's grant names exactly one capability, which its connector holds as the lease is given,
      and passes the worker's check. */
  lemma GrantPassesWorker(env: Platform, s: State, connector: Id, pick: Option<Id>, at: Instant, lease: Lease)
    requires Reachable(env, s)
    requires LeaseTask(env, s, connector, pick, at) == Success(lease) && lease.leased.Some?
    ensures var t := lease.leased.value.0;
      && t < |lease.state.tasks| && lease.state.tasks[t].grant.Some?
      && ValidateExecutionGrant(env, Serialize(lease.state, t)) == lease.state.tasks[t].grant
      && connector < |lease.state.connectors|
    ensures var t := lease.leased.value.0;
      var capability := lease.state.tasks[t].policy.terms.connectorCapability;
      && lease.state.tasks[t].grant.value.material.effectiveCapabilities == {capability}
      && capability in lease.state.connectors[connector].capabilities
  {
    ReachableIsOk(env, s);
    LeaseKeeps(env, s, connector, pick, at);
    var t := lease.leased.value.0;
    assert TaskOk(env, lease.state, t);
  }

  /** The grant of a running row passes for that row and its action only: borrowed for any other order, edited
      so that its digest changes, or signed for a policy whose action or capability it does not cover, it is
      refused. */
  lemma GrantIsNotTransferable(env: Platform, s: State, t: Id, order: WorkOrder, material: GrantMaterial)
    requires Reachable(env, s) && t < |s.tasks| && s.tasks[t].status == Running
    ensures s.tasks[t].grant.Some?
    ensures order.executionGrant == s.tasks[t].grant && ValidateExecutionGrant(env, order).Some? ==>
      order.id == t && order.action == s.tasks[t].action
    ensures env.hex(material) != env.hex(s.tasks[t].grant.value.material) ==>
      ValidateExecutionGrant(env, order.(executionGrant := Some(Grant(material, s.tasks[t].grant.value.sha256)))) == None
    ensures material.policy.terms.connectorCapability !in material.effectiveCapabilities || material.policy.action != order.action ==>
      ValidateExecutionGrant(env, order.(executionGrant := Some(Grant(material, env.hex(material))))) == None
    ensures ValidateExecutionGrant(env, order.(executionGrant := None)) == None
  {
    ReachableIsOk(env, s);
    assert TaskOk(env, s, t);
  }

  const ERROR_LIMIT: nat := 4000

  /** The connector's client cuts the error text, so that the request schema accepts it. */
  function Sent(error: string): string {
    Take(error, ERROR_LIMIT)
  }

  /** The receipt the worker returns matches the server's active grant: whatever else a failed run reports, its
      error text as sent is within the schema's limit, and the report completes the lease if and only if it
      comes before the deadline and what was sent of the text is not blank. */
  lemma FailureIsNeverLost(
    env: Platform, s: State, connector: Id, t: Id, token: nat, b: Boundary, rest: seq<Field>, error: string, now: Instant
  )
    requires Reachable(env, s) && ReceiptTexts(env) && LiveConnector(s, connector)
    requires t < |s.tasks| && s.tasks[t].status == Running && s.tasks[t].connector == Some(connector)
    requires s.tasks[t].leaseTokenHash == Some(Digest(token))
    requires |rest| < SCRUB_ITEMS
    ensures s.tasks[t].lockedUntil.Some? && |Sent(error)| <= ERROR_LIMIT
    ensures var result := Obj(rest + [Field("executionReceipt", ExecutionReceipt(Serialize(s, t), b))]);
      var done := CompleteTask(env, s, connector, t, token, Completion(false, result, Sent(error)), now);
      done.Success? <==> now <= s.tasks[t].lockedUntil.value && env.py.strip(Sent(error)) != ""
  {
    ReachableIsOk(env, s);
    assert TaskOk(env, s, t);
    ReceiptSurvives(env, Serialize(s, t), b, rest);
  }
}
