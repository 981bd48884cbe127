/** Entities of the outbound delivery lifecycle and the pure rules that guard it. */
module OutboundModel {
  import opened Common

  datatype Status = Pending | Delivered | Failed | Cancelled | Expired

  datatype ApprovalStatus = AwaitingDecision | Approved | Rejected | Executed

  datatype Priority = Low | Normal | High | Urgent

  datatype ActionType = SendMessage | SendMedia

  datatype FailureClass = Temporary | Permanent | Authentication | RateLimit | Validation | Unknown

  datatype AuditKind =
    | CreatedEvent
    | AttemptedEvent
    | DeliveredEvent
    | FailedEvent
    | RetriedEvent
    | CancelledEvent
    | ExpiredEvent
    | ArchivedEvent
    | UnarchivedEvent

  datatype Account = Account(workspace: Id, provider: string, active: bool)

  datatype Action = Action(
    workspace: Id,
    account: Id,
    target: string,
    actionType: ActionType,
    content: string,
    payload: string,
    correlation: Option<string>,
    key: string,
    requiresApproval: bool,
    approval: Option<Id>,
    status: Status,
    priority: Priority,
    owner: Option<string>,
    archivedAt: Option<Time>,
    deliveryId: Option<string>,
    deliveredAt: Option<Time>,
    failedAt: Option<Time>,
    cancelledAt: Option<Time>,
    notBefore: Option<Time>,
    expiresAt: Option<Time>,
    expiredAt: Option<Time>,
    failureCode: Option<string>,
    failureMessage: Option<string>,
    failureClass: Option<FailureClass>,
    createdAt: Time)

  datatype Actor = Actor(user: Id, membership: Id, workspace: Id)

  datatype Decision = Decision(actor: Actor, note: Option<string>, at: Time)

  /** `lead` is absent exactly for the approvals that gate an outbound action. */
  datatype Approval = Approval(
    lead: Option<Id>, status: ApprovalStatus, decision: Option<Decision>, createdAt: Time)

  datatype Attempt = Attempt(
    id: Id,
    workspace: Id,
    account: Id,
    action: Id,
    number: nat,
    status: Status,
    deliveryId: Option<string>,
    startedAt: Time,
    completedAt: Option<Time>,
    failureCode: Option<string>,
    failureMessage: Option<string>,
    failureClass: Option<FailureClass>)

  datatype AuditEvent = AuditEvent(
    id: Id, workspace: Id, account: Id, action: Id, kind: AuditKind, at: Time)

  // ---- the state-transition guard -------------------------------------------------

  function AllowedTargets(source: Status): set<Status> {
    match source
    case Pending => {Cancelled, Expired, Delivered, Failed}
    case Failed => {Delivered, Failed}
    case Delivered => {}
    case Cancelled => {}
    case Expired => {}
  }

  predicate CanTransition(source: Status, target: Status) {
    target in AllowedTargets(source)
  }

  predicate IsTerminal(status: Status) {
    AllowedTargets(status) == {}
  }

  function EventForTarget(source: Status, target: Status): AuditKind
    requires CanTransition(source, target)
  {
    match target
    case Delivered => DeliveredEvent
    case Failed => FailedEvent
    case Cancelled => CancelledEvent
    case Expired => ExpiredEvent
  }

  // ---- time gates -----------------------------------------------------------------

  predicate IsExpired(a: Action, now: Time) {
    a.expiresAt.Some? && a.expiresAt.value <= now
  }

  predicate IsBeforeNotBefore(a: Action, now: Time) {
    a.notBefore.Some? && now < a.notBefore.value
  }

  // ---- delivery adapters ----------------------------------------------------------

  /** What one adapter attempt reports; an adapter may fill the fields in any way. */
  datatype AdapterResult = AdapterResult(
    delivered: bool,
    deliveryId: Option<string>,
    code: Option<string>,
    message: Option<string>,
    classification: Option<FailureClass>)

  /** The foreign call itself: it returns some result or raises. */
  datatype AdapterReply = Raised | Returned(result: AdapterResult)

  datatype Capabilities = Capabilities(supported: set<ActionType>, maxContent: Option<nat>)

  /** An adapter may lack the capability attribute, carry an ill-typed one, or declare it. */
  datatype Declaration = Undeclared | IllTyped | Declared(capabilities: Capabilities)

  type Registry = map<string, Declaration>

  const DEFAULT_CAPABILITIES := Capabilities({SendMessage}, None)

  function CapabilitiesFor(registry: Registry, provider: string): Option<Capabilities> {
    if provider !in registry then None
    else match registry[provider]
         case Undeclared => Some(DEFAULT_CAPABILITIES)
         case IllTyped => None
         case Declared(c) => Some(c)
  }

  const GENERIC_CLASSIFICATIONS: map<string, FailureClass> := map[
    "adapter_execution_failed" := Temporary,
    "adapter_not_configured" := Permanent,
    "adapter_capabilities_unavailable" := Permanent,
    "unsupported_action_type" := Validation,
    "content_too_long" := Validation,
    "authentication_failed" := Authentication,
    "rate_limited" := RateLimit,
    "validation_failed" := Validation,
    "temporary_failure" := Temporary,
    "permanent_failure" := Permanent
  ]

  function ClassifyFailureCode(code: string): FailureClass {
    var name := Lower(Strip(code));
    if name in GENERIC_CLASSIFICATIONS then GENERIC_CLASSIFICATIONS[name] else Unknown
  }

  /** A failure that the delivery service produces itself. */
  function InternalFailure(code: string, message: string): AdapterResult {
    AdapterResult(false, None, Some(code), Some(message), Some(ClassifyFailureCode(code)))
  }

  function ValidateAction(registry: Registry, provider: string, a: Action): Option<AdapterResult> {
    var capabilities := CapabilitiesFor(registry, provider);
    if capabilities.None? then
      Some(InternalFailure("adapter_capabilities_unavailable",
                           "Delivery adapter capabilities are unavailable"))
    else if a.actionType !in capabilities.value.supported then
      Some(InternalFailure("unsupported_action_type",
                           "Outbound action type is not supported by this delivery adapter"))
    else if capabilities.value.maxContent.Some? && |a.content| > capabilities.value.maxContent.value then
      Some(InternalFailure("content_too_long",
                           "Outbound action content exceeds the delivery adapter limit"))
    else None
  }

  /** The failure reported without any adapter I/O, if there is one. */
  function RefusedBeforeAdapter(registry: Registry, provider: string, a: Action): Option<AdapterResult> {
    if provider !in registry then
      Some(InternalFailure("adapter_not_configured",
                           "No delivery adapter is configured for this provider"))
    else ValidateAction(registry, provider, a)
  }

  function ReplyResult(reply: AdapterReply): AdapterResult {
    match reply
    case Raised => InternalFailure("adapter_execution_failed", "Delivery adapter execution failed")
    case Returned(result) => result
  }
}
