/** policies.py: roles, the deny-by-default action catalog and the policy receipt a task is created under. */
module Policies {
  import opened Wrappers

  datatype Role = Owner | Admin | Operator | Approver | Auditor | Viewer | UnknownRole(name: string)

  /** The permissions that the task protocol asks for. */
  datatype Permission = TasksCreate | TasksApprove | ConnectorsManage | SafetyManage

  predicate Permits(role: Role, permission: Permission) {
    match role
    case Owner => true
    case Admin => true
    case Operator => permission == TasksCreate
    case Approver => permission == TasksApprove
    case _ => false
  }

  datatype Risk = Low | Medium | High | Critical

  datatype Action =
    | ObserveStatus | EvidenceCollect | EvidenceAnalyze
    | AssessmentExecute | GateRun | FindingValidate | TaskExecute
    | IncidentContain | DeploymentRelease | ShadowAiBlock | IdentityAccessRevoke | EndpointIsolate
    | NetworkBlock | CloudQuarantine | DataQuarantine | SecretRotate
    | ArtifactQuarantine | VulnerabilityRemediate | PolicyException | IncidentNotify | RecoveryRestoreDrill
    | Unlisted(name: string)

  /** A connector holds action names and observation names; the catalog names each action's capability
      after the action. */
  datatype Capability = Act(action: Action) | Observe(name: string)

  datatype ActionPolicy = ActionPolicy(
    risk: Risk,
    approvalRequired: bool,
    dryRunRequired: bool,
    connectorCapability: Capability,
    reversible: bool
  )

  function ActionPolicyOf(action: Action): Option<ActionPolicy> {
    match action
    case Unlisted(_) => None
    case ObserveStatus => Some(ActionPolicy(Low, false, false, Act(action), true))
    case EvidenceCollect => Some(ActionPolicy(Medium, false, false, Act(action), true))
    case EvidenceAnalyze => Some(ActionPolicy(Medium, false, false, Act(action), true))
    case TaskExecute => Some(ActionPolicy(High, true, false, Act(action), false))
    case VulnerabilityRemediate => Some(ActionPolicy(High, true, false, Act(action), false))
    case IncidentNotify => Some(ActionPolicy(High, true, false, Act(action), false))
    case SecretRotate => Some(ActionPolicy(Critical, true, true, Act(action), false))
    case IncidentContain => Some(ActionPolicy(Critical, true, true, Act(action), true))
    case DeploymentRelease => Some(ActionPolicy(Critical, true, true, Act(action), true))
    case ShadowAiBlock => Some(ActionPolicy(Critical, true, true, Act(action), true))
    case IdentityAccessRevoke => Some(ActionPolicy(Critical, true, true, Act(action), true))
    case EndpointIsolate => Some(ActionPolicy(Critical, true, true, Act(action), true))
    case NetworkBlock => Some(ActionPolicy(Critical, true, true, Act(action), true))
    case CloudQuarantine => Some(ActionPolicy(Critical, true, true, Act(action), true))
    case DataQuarantine => Some(ActionPolicy(Critical, true, true, Act(action), true))
    case _ => Some(ActionPolicy(High, true, false, Act(action), true))
  }

  const OBSERVATIONS: set<string> := {
    "shadow_ai.assets", "shadow_ai.usage", "telemetry.network", "telemetry.endpoint", "telemetry.dlp",
    "telemetry.code", "telemetry.identity", "telemetry.ai-gateway", "telemetry.agent", "telemetry.cloud",
    "telemetry.saas", "telemetry.asset", "telemetry.vulnerability", "telemetry.email", "telemetry.dns",
    "telemetry.api", "telemetry.container", "telemetry.kubernetes", "telemetry.secrets", "telemetry.backup",
    "telemetry.threat-intel", "telemetry.third-party", "telemetry.privacy"
  }

  /** Membership of CONNECTOR_CAPABILITIES. */
  predicate KnownCapability(c: Capability) {
    match c
    case Act(action) => !action.Unlisted?
    case Observe(name) => name in OBSERVATIONS
  }

  /** The policy material that governed a task when it was created. */
  datatype PolicyReceipt = PolicyReceipt(action: Action, terms: ActionPolicy, buildRevision: string)
}
