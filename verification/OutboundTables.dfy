/** The tables that the outbound services share, and what each service call does to them.

    Every function here is one committed transaction: it returns the tables after the call
    and what the caller is told. `OutboundService` performs the same calls step by step. */
module OutboundTables {
  import opened Common
  import opened OutboundModel
  import opened RetryPolicy

  /** One call into an adapter, with the linked approval as it stood at that moment. The call is
      an outside effect: it stays made when the transaction around it does not commit. */
  datatype AdapterCall = AdapterCall(
    action: Id, number: nat, requiresApproval: bool, approval: Option<ApprovalStatus>, delivered: bool, committed: bool)

  datatype Tables = Tables(
    accounts: map<Id, Account>,
    leads: map<Id, Id>,
    actions: map<Id, Action>,
    approvals: map<Id, Approval>,
    attempts: seq<Attempt>,
    audit: seq<AuditEvent>,
    calls: seq<AdapterCall>,
    sent: seq<Id>,
    nextId: Id)

  const EMPTY := Tables(map[], map[], map[], map[], [], [], [], [], 0)

  datatype Error =
    | AccountNotFound
    | AccountInactive
    | ActionNotFound
    | ActionExpired
    | AlreadyProcessed
    | NotReady
    | ApprovalIsRequired
    | ApprovalWasRejected
    | NotRetryable
    | RetryDenied(reason: Denial)
    | RetryCodeRejected
    | NotCancellable
    | KeyConflict
    | AlreadyArchived
    | NotArchivable
    | NotArchived
    | ActorMismatch
    | ApprovalNotFound
    | AlreadyDecided
    | ChannelFailed
    | LeadNotFound
    | CommitFailed

  datatype Outcome = Ok(id: Id) | Removed(count: nat) | Refused(error: Error)

  // ---- queries --------------------------------------------------------------------

  predicate HasAccount(s: Tables, workspace: Id, account: Id) {
    account in s.accounts && s.accounts[account].workspace == workspace
  }

  predicate HasAction(s: Tables, workspace: Id, account: Id, id: Id) {
    id in s.actions && s.actions[id].workspace == workspace && s.actions[id].account == account
  }

  /** The join of an action with its account inside one workspace. */
  predicate HasJoinedAction(s: Tables, workspace: Id, id: Id) {
    id in s.actions && s.actions[id].workspace == workspace && HasAccount(s, workspace, s.actions[id].account)
  }

  /** `max(attempt_number)`, or 0 without rows. */
  function MaxAttemptNumber(attempts: seq<Attempt>, id: Id): nat {
    if attempts == [] then 0
    else
      var last := attempts[|attempts| - 1];
      var rest := MaxAttemptNumber(attempts[..|attempts| - 1], id);
      if last.action == id && last.number > rest then last.number else rest
  }

  function LinkedStatus(s: Tables, a: Action): Option<ApprovalStatus> {
    if a.approval.Some? && a.approval.value in s.approvals
    then Some(s.approvals[a.approval.value].status) else None
  }

  datatype Gate = Open | Unavailable | StillPending | WasRejected | NotApproved

  /** The approval gate of one action as a workspace sees it. */
  function ApprovalGate(s: Tables, workspace: Id, a: Action): Gate {
    if !a.requiresApproval then Open
    else if a.workspace != workspace then Unavailable
    else match LinkedStatus(s, a)
         case None => Unavailable
         case Some(AwaitingDecision) => StillPending
         case Some(Rejected) => WasRejected
         case Some(Approved) => Open
         case Some(Executed) => NotApproved
  }

  // ---- shared effects -------------------------------------------------------------

  function Stamp(s: Tables, id: Id, kinds: seq<AuditKind>, now: Time): seq<AuditEvent>
    requires id in s.actions
  {
    var a := s.actions[id];
    seq(|kinds|, i requires 0 <= i < |kinds| =>
      AuditEvent(|s.audit| + i, a.workspace, a.account, id, kinds[i], now))
  }

  /** Overwrites one action and records its audit events. */
  function Touch(s: Tables, id: Id, a: Action, kinds: seq<AuditKind>, now: Time): Tables
    requires id in s.actions
  {
    s.(actions := s.actions[id := a], audit := s.audit + Stamp(s, id, kinds, now))
  }

  function OrDefault(text: Option<string>, default: string): string {
    if text.None? || text.value == "" then default else text.value
  }

  /** The action after one attempt has reported. */
  function Settled(a: Action, result: AdapterResult, now: Time): Action {
    if result.delivered then
      a.(status := Delivered, deliveryId := result.deliveryId, deliveredAt := Some(now), failedAt := None,
         failureCode := None, failureMessage := None, failureClass := None)
    else
      a.(status := Failed, deliveryId := None, deliveredAt := None, failedAt := Some(now),
         failureCode := Some(OrDefault(result.code, "delivery_failed")),
         failureMessage := Some(OrDefault(result.message, "Delivery failed")),
         failureClass := result.classification)
  }

  /** The attempt row that belongs to a settled action: it carries the same outcome. */
  function SettledAttempt(s: Tables, id: Id, settled: Action, now: Time): Attempt {
    Attempt(|s.attempts|, settled.workspace, settled.account, id, MaxAttemptNumber(s.attempts, id) + 1,
            settled.status, settled.deliveryId, now, Some(now),
            settled.failureCode, settled.failureMessage, settled.failureClass)
  }

  function AttemptKinds(retried: bool, delivered: bool): seq<AuditKind> {
    var closing := if delivered then DeliveredEvent else FailedEvent;
    if retried then [RetriedEvent, AttemptedEvent, closing] else [AttemptedEvent, closing]
  }

  /** One attempt that ended with `result`: a new numbered row, the outcome on both rows. */
  function Concluded(s: Tables, id: Id, retried: bool, called: bool, result: AdapterResult, now: Time): Tables
    requires id in s.actions
  {
    var a := s.actions[id];
    var settled := Settled(a, result, now);
    var row := SettledAttempt(s, id, settled, now);
    var call := AdapterCall(id, row.number, a.requiresApproval, LinkedStatus(s, a), result.delivered, true);
    Touch(s, id, settled, AttemptKinds(retried, result.delivered), now)
      .(attempts := s.attempts + [row],
        calls := if called then s.calls + [call] else s.calls)
  }

  /** An attempt whose transaction is rolled back: of the call to the adapter nothing is stored. */
  function Lost(s: Tables, id: Id, result: AdapterResult): Tables
    requires id in s.actions
  {
    var a := s.actions[id];
    s.(calls := s.calls + [
      AdapterCall(id, MaxAttemptNumber(s.attempts, id) + 1, a.requiresApproval, LinkedStatus(s, a), result.delivered, false)])
  }

  /** The adapter is called unless the registry refuses the action before any I/O. */
  function Attempted(s: Tables, id: Id, retried: bool, registry: Registry, reply: AdapterReply, commits: bool, now: Time): Tables
    requires id in s.actions && s.actions[id].account in s.accounts
  {
    var a := s.actions[id];
    var refusal := RefusedBeforeAdapter(registry, s.accounts[a.account].provider, a);
    if refusal.Some? then (if commits then Concluded(s, id, retried, false, refusal.value, now) else s)
    else if commits then Concluded(s, id, retried, true, ReplyResult(reply), now)
    else Lost(s, id, ReplyResult(reply))
  }

  function Ended(id: Id, commits: bool): Outcome {
    if commits then Ok(id) else Refused(CommitFailed)
  }

  // ---- creation -------------------------------------------------------------------

  datatype Draft = Draft(
    target: string,
    actionType: ActionType,
    content: string,
    payload: string,
    correlation: Option<string>,
    key: string,
    expiresAt: Option<Time>,
    requiresApproval: bool,
    notBefore: Option<Time>)

  /** An empty correlation id counts as none. */
  function NormalizedCorrelation(text: Option<string>): Option<string> {
    if text.None? || text.value == "" then None else Some(Strip(text.value))
  }

  /** `_matches`: the expiry and not-before of the stored action are not compared. */
  predicate Matches(a: Action, d: Draft) {
    && a.target == Strip(d.target)
    && a.actionType == d.actionType
    && a.content == d.content
    && a.payload == d.payload
    && a.correlation == NormalizedCorrelation(d.correlation)
    && a.requiresApproval == d.requiresApproval
  }

  predicate HoldsKey(s: Tables, workspace: Id, account: Id, key: string, id: Id) {
    HasAction(s, workspace, account, id) && s.actions[id].key == key
  }

  function FreshAction(workspace: Id, account: Id, d: Draft, approval: Option<Id>, now: Time): Action {
    Action(workspace, account, Strip(d.target), d.actionType, d.content, d.payload,
           NormalizedCorrelation(d.correlation), Strip(d.key), d.requiresApproval, approval,
           Pending, Normal, None, None, None, None, None, None, d.notBefore, d.expiresAt, None,
           None, None, None, now)
  }

  /** The new action takes the next identifier, its approval (if any) the one after. */
  function Inserted(s: Tables, workspace: Id, account: Id, d: Draft, now: Time): Tables {
    var id := s.nextId;
    var approvalId := s.nextId + 1;
    var link := if d.requiresApproval then Some(approvalId) else None;
    var event := AuditEvent(|s.audit|, workspace, account, id, CreatedEvent, now);
    s.(actions := s.actions[id := FreshAction(workspace, account, d, link, now)],
       approvals := if d.requiresApproval
                    then s.approvals[approvalId := Approval(None, AwaitingDecision, None, now)]
                    else s.approvals,
       audit := s.audit + [event],
       nextId := s.nextId + 2)
  }

  ghost function Create(s: Tables, workspace: Id, account: Id, d: Draft, now: Time): (Tables, Outcome) {
    if !HasAccount(s, workspace, account) then (s, Refused(AccountNotFound))
    else if !s.accounts[account].active then (s, Refused(AccountInactive))
    else if exists id :: HoldsKey(s, workspace, account, Strip(d.key), id) then
      var id :| HoldsKey(s, workspace, account, Strip(d.key), id);
      if Matches(s.actions[id], d) then (s, Ok(id)) else (s, Refused(KeyConflict))
    else (Inserted(s, workspace, account, d, now), Ok(s.nextId))
  }

  // ---- delivery -------------------------------------------------------------------

  function Deliver(s: Tables, workspace: Id, account: Id, id: Id,
                   registry: Registry, reply: AdapterReply, commits: bool, now: Time): (Tables, Outcome)
  {
    if !HasAccount(s, workspace, account) then (s, Refused(AccountNotFound))
    else if !s.accounts[account].active then (s, Refused(AccountInactive))
    else if !HasAction(s, workspace, account, id) then (s, Refused(ActionNotFound))
    else
      var a := s.actions[id];
      if a.status == Pending && IsExpired(a, now) then
        if commits then
          (Touch(s, id, a.(status := Expired, expiredAt := Some(now)), [ExpiredEvent], now), Refused(ActionExpired))
        else (s, Refused(CommitFailed))
      else if a.status != Pending then (s, Refused(AlreadyProcessed))
      else if IsBeforeNotBefore(a, now) then (s, Refused(NotReady))
      else
        match ApprovalGate(s, workspace, a)
        case Open => (Attempted(s, id, false, registry, reply, commits, now), Ended(id, commits))
        case WasRejected => (s, Refused(ApprovalWasRejected))
        case _ => (s, Refused(ApprovalIsRequired))
  }

  function Retry(s: Tables, workspace: Id, account: Id, id: Id, policy: Policy,
                 registry: Registry, reply: AdapterReply, commits: bool, now: Time): (Tables, Outcome)
  {
    if !HasAccount(s, workspace, account) then (s, Refused(AccountNotFound))
    else if !s.accounts[account].active then (s, Refused(AccountInactive))
    else if !HasAction(s, workspace, account, id) then (s, Refused(ActionNotFound))
    else
      var a := s.actions[id];
      if a.status != Failed then (s, Refused(NotRetryable))
      else
        match Evaluate(policy, MaxAttemptNumber(s.attempts, id), a.failureCode, a.failureClass)
        case CodeRejected => (s, Refused(RetryCodeRejected))
        case Denied(reason) => (s, Refused(RetryDenied(reason)))
        case Allowed => (Attempted(s, id, true, registry, reply, commits, now), Ended(id, commits))
  }

  function Cancel(s: Tables, workspace: Id, account: Id, id: Id, now: Time): (Tables, Outcome) {
    if !HasAccount(s, workspace, account) then (s, Refused(AccountNotFound))
    else if !HasAction(s, workspace, account, id) then (s, Refused(ActionNotFound))
    else
      var a := s.actions[id];
      if !CanTransition(a.status, Cancelled) then (s, Refused(NotCancellable))
      else (Touch(s, id, a.(status := Cancelled, cancelledAt := Some(now)), [CancelledEvent], now), Ok(id))
  }

  // ---- approval decisions ---------------------------------------------------------

  predicate InScope(s: Tables, workspace: Id, approval: Id) {
    && approval in s.approvals
    && var lead := s.approvals[approval].lead;
       || (lead.Some? && lead.value in s.leads && s.leads[lead.value] == workspace)
       || exists id :: id in s.actions && s.actions[id].approval == Some(approval) && s.actions[id].workspace == workspace
  }

  function Decide(s: Tables, approval: Id, status: ApprovalStatus, actor: Actor, note: Option<string>, now: Time): Tables
    requires approval in s.approvals
  {
    var decided := s.approvals[approval].(status := status, decision := Some(Decision(actor, note, now)));
    s.(approvals := s.approvals[approval := decided])
  }

  function PendingDecisionError(s: Tables, workspace: Id, approval: Id, actor: Actor): Option<Error> {
    if actor.workspace != workspace then Some(ActorMismatch)
    else if !InScope(s, workspace, approval) then Some(ApprovalNotFound)
    else if s.approvals[approval].status != AwaitingDecision then Some(AlreadyDecided)
    else None
  }

  /** Approving a lead's message sends it first and stores the decision last; when that commit
      fails the message is out and the approval still undecided. Approving an outbound action
      only opens its gate. */
  function Approve(s: Tables, workspace: Id, approval: Id, actor: Actor, note: Option<string>,
                   channelDelivers: bool, commits: bool, now: Time): (Tables, Outcome)
  {
    var error := PendingDecisionError(s, workspace, approval, actor);
    if error.Some? then (s, Refused(error.value))
    else if s.approvals[approval].lead.None? then
      (if commits then Decide(s, approval, Approved, actor, note, now) else s, Ended(approval, commits))
    else if !channelDelivers then (s, Refused(ChannelFailed))
    else
      var t := if commits then Decide(s, approval, Executed, actor, note, now) else s;
      (t.(sent := s.sent + [approval]), Ended(approval, commits))
  }

  function Reject(s: Tables, workspace: Id, approval: Id, actor: Actor, note: Option<string>, now: Time): (Tables, Outcome) {
    var error := PendingDecisionError(s, workspace, approval, actor);
    if error.Some? then (s, Refused(error.value))
    else (Decide(s, approval, Rejected, actor, note, now), Ok(approval))
  }

  // ---- archiving and maintenance --------------------------------------------------

  function Archive(s: Tables, workspace: Id, id: Id, now: Time): (Tables, Outcome) {
    if !HasJoinedAction(s, workspace, id) then (s, Refused(ActionNotFound))
    else
      var a := s.actions[id];
      if a.archivedAt.Some? then (s, Refused(AlreadyArchived))
      else if !IsTerminal(a.status) then (s, Refused(NotArchivable))
      else (Touch(s, id, a.(archivedAt := Some(now)), [ArchivedEvent], now), Ok(id))
  }

  function Unarchive(s: Tables, workspace: Id, id: Id, now: Time): (Tables, Outcome) {
    if !HasJoinedAction(s, workspace, id) then (s, Refused(ActionNotFound))
    else
      var a := s.actions[id];
      if a.archivedAt.None? then (s, Refused(NotArchived))
      else (Touch(s, id, a.(archivedAt := None), [UnarchivedEvent], now), Ok(id))
  }

  function SetPriority(s: Tables, workspace: Id, id: Id, priority: Priority): (Tables, Outcome) {
    if !HasJoinedAction(s, workspace, id) then (s, Refused(ActionNotFound))
    else (s.(actions := s.actions[id := s.actions[id].(priority := priority)]), Ok(id))
  }

  function SetOwner(s: Tables, workspace: Id, id: Id, owner: Option<string>): (Tables, Outcome) {
    if !HasJoinedAction(s, workspace, id) then (s, Refused(ActionNotFound))
    else (s.(actions := s.actions[id := s.actions[id].(owner := owner)]), Ok(id))
  }

  predicate IsCleanable(a: Action, workspace: Id, cutoff: Time) {
    && a.workspace == workspace
    && a.status in {Expired, Cancelled}
    && a.expiresAt.Some? && a.expiresAt.value < cutoff
    && a.archivedAt.None?
  }

  function Cleanable(s: Tables, workspace: Id, cutoff: Time): set<Id> {
    set id | id in s.actions && IsCleanable(s.actions[id], workspace, cutoff)
  }

  function Cleanup(s: Tables, workspace: Id, cutoff: Time): (Tables, Outcome) {
    var doomed := Cleanable(s, workspace, cutoff);
    (s.(actions := s.actions - doomed), Removed(|doomed|))
  }

  // ---- what the rest of the application contributes -------------------------------

  function AddAccount(s: Tables, workspace: Id, provider: string): (Tables, Outcome) {
    (s.(accounts := s.accounts[s.nextId := Account(workspace, Strip(provider), true)], nextId := s.nextId + 1), Ok(s.nextId))
  }

  function SetActive(s: Tables, workspace: Id, account: Id, active: bool): (Tables, Outcome) {
    if !HasAccount(s, workspace, account) then (s, Refused(AccountNotFound))
    else (s.(accounts := s.accounts[account := s.accounts[account].(active := active)]), Ok(account))
  }

  function AddLead(s: Tables, workspace: Id): (Tables, Outcome) {
    (s.(leads := s.leads[s.nextId := workspace], nextId := s.nextId + 1), Ok(s.nextId))
  }

  /** A conversation turn asks a human to approve its reply to a lead. */
  function RequestLeadApproval(s: Tables, lead: Id, now: Time): (Tables, Outcome) {
    if lead !in s.leads then (s, Refused(LeadNotFound))
    else
      (s.(approvals := s.approvals[s.nextId := Approval(Some(lead), AwaitingDecision, None, now)],
          nextId := s.nextId + 1), Ok(s.nextId))
  }

  // ---- runs -----------------------------------------------------------------------

  datatype Command =
    | DoAddAccount(workspace: Id, provider: string)
    | DoSetActive(workspace: Id, account: Id, active: bool)
    | DoAddLead(workspace: Id)
    | DoRequestLeadApproval(lead: Id, now: Time)
    | DoCreate(workspace: Id, account: Id, draft: Draft, now: Time)
    | DoDeliver(workspace: Id, account: Id, id: Id, registry: Registry, reply: AdapterReply, commits: bool, now: Time)
    | DoRetry(workspace: Id, account: Id, id: Id, policy: Policy, registry: Registry, reply: AdapterReply, commits: bool, now: Time)
    | DoCancel(workspace: Id, account: Id, id: Id, now: Time)
    | DoApprove(workspace: Id, approval: Id, actor: Actor, note: Option<string>, channelDelivers: bool, commits: bool, now: Time)
    | DoReject(workspace: Id, approval: Id, actor: Actor, note: Option<string>, now: Time)
    | DoArchive(workspace: Id, id: Id, now: Time)
    | DoUnarchive(workspace: Id, id: Id, now: Time)
    | DoSetPriority(workspace: Id, id: Id, priority: Priority)
    | DoSetOwner(workspace: Id, id: Id, owner: Option<string>)
    | DoCleanup(workspace: Id, cutoff: Time)

  ghost function Step(s: Tables, c: Command): (Tables, Outcome) {
    match c
    case DoAddAccount(w, provider) => AddAccount(s, w, provider)
    case DoSetActive(w, account, active) => SetActive(s, w, account, active)
    case DoAddLead(w) => AddLead(s, w)
    case DoRequestLeadApproval(lead, now) => RequestLeadApproval(s, lead, now)
    case DoCreate(w, account, draft, now) => Create(s, w, account, draft, now)
    case DoDeliver(w, account, id, registry, reply, commits, now) => Deliver(s, w, account, id, registry, reply, commits, now)
    case DoRetry(w, account, id, policy, registry, reply, commits, now) => Retry(s, w, account, id, policy, registry, reply, commits, now)
    case DoCancel(w, account, id, now) => Cancel(s, w, account, id, now)
    case DoApprove(w, approval, actor, note, delivers, commits, now) => Approve(s, w, approval, actor, note, delivers, commits, now)
    case DoReject(w, approval, actor, note, now) => Reject(s, w, approval, actor, note, now)
    case DoArchive(w, id, now) => Archive(s, w, id, now)
    case DoUnarchive(w, id, now) => Unarchive(s, w, id, now)
    case DoSetPriority(w, id, priority) => SetPriority(s, w, id, priority)
    case DoSetOwner(w, id, owner) => SetOwner(s, w, id, owner)
    case DoCleanup(w, cutoff) => Cleanup(s, w, cutoff)
  }

  /** The tables after any sequence of calls, whatever their arguments and foreign outcomes. */
  ghost function RunFrom(s: Tables, cs: seq<Command>): Tables {
    if cs == [] then s else Step(RunFrom(s, cs[..|cs| - 1]), cs[|cs| - 1]).0
  }

  ghost function Run(cs: seq<Command>): Tables {
    RunFrom(EMPTY, cs)
  }
}
