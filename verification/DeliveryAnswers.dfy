/** What delivering and retrying answer, told from the stored fields alone. */
module DeliveryAnswers {
  import opened Common
  import opened OutboundModel
  import opened RetryPolicy
  import opened OutboundTables
  import opened OutboundInvariant
  import opened OutboundPreservation
  import opened OutboundCreation
  import opened OutboundEffects

  // ---- what decides -------------------------------------------------------------------------

  /** An adapter is registered whose declared constraints the action meets; an adapter that
      declares none takes text messages of any length. */
  predicate Takes(registry: Registry, provider: string, actionType: ActionType, content: string) {
    && provider in registry
    && match registry[provider]
       case Undeclared => actionType == SendMessage
       case IllTyped => false
       case Declared(c) => actionType in c.supported && (c.maxContent.Some? ==> |content| <= c.maxContent.value)
  }

  lemma TakesIsNotRefused(registry: Registry, provider: string, a: Action)
    ensures RefusedBeforeAdapter(registry, provider, a).None? <==> Takes(registry, provider, a.actionType, a.content)
  {
    hide InternalFailure;
  }

  /** The stored status of the approval that the action is linked to. */
  predicate LinkedTo(s: Tables, a: Action, status: ApprovalStatus) {
    a.approval.Some? && a.approval.value in s.approvals && s.approvals[a.approval.value].status == status
  }

  /** The action has this status and belongs to an active account, both of the workspace. */
  predicate HasStatusOn(s: Tables, workspace: Id, account: Id, id: Id, status: Status) {
    && account in s.accounts && s.accounts[account].workspace == workspace && s.accounts[account].active
    && id in s.actions && s.actions[id].workspace == workspace && s.actions[id].account == account
    && s.actions[id].status == status
  }

  lemma {:induction false} LowerKeepsPlain(name: string)
    requires forall i :: 0 <= i < |name| ==> 'a' <= name[i] <= 'z' || name[i] == '_'
    ensures Lower(name) == name
  {
    if name != "" {
      LowerKeepsPlain(name[1..]);
      assert name == [name[0]] + name[1..];
    }
  }

  lemma PlainNameIsItself(name: string)
    requires name != "" && forall i :: 0 <= i < |name| ==> 'a' <= name[i] <= 'z' || name[i] == '_'
    ensures Lower(Strip(name)) == name
  {
    assert StripLeft(name) == name;
    assert StripRight(name) == name;
    LowerKeepsPlain(name);
  }

  lemma MissingAdapterIsPermanent()
    ensures ClassifyFailureCode("adapter_not_configured") == Permanent
  {
    hide Lower, Strip;
    PlainNameIsItself("adapter_not_configured");
  }

  lemma MissingCapabilitiesArePermanent()
    ensures ClassifyFailureCode("adapter_capabilities_unavailable") == Permanent
  {
    hide Lower, Strip;
    PlainNameIsItself("adapter_capabilities_unavailable");
  }

  lemma RaisingIsTemporary()
    ensures ClassifyFailureCode("adapter_execution_failed") == Temporary
  {
    hide Lower, Strip;
    PlainNameIsItself("adapter_execution_failed");
  }

  lemma UnsupportedTypeIsValidation()
    ensures ClassifyFailureCode("unsupported_action_type") == Validation
  {
    hide Lower, Strip;
    PlainNameIsItself("unsupported_action_type");
  }

  lemma TooLongIsValidation()
    ensures ClassifyFailureCode("content_too_long") == Validation
  {
    hide Lower, Strip;
    PlainNameIsItself("content_too_long");
  }

  lemma ReportedClasses()
    ensures ClassifyFailureCode("authentication_failed") == Authentication && ClassifyFailureCode("rate_limited") == RateLimit
    ensures ClassifyFailureCode("validation_failed") == Validation
    ensures ClassifyFailureCode("temporary_failure") == Temporary && ClassifyFailureCode("permanent_failure") == Permanent
  {
    hide Lower, Strip;
    PlainNameIsItself("authentication_failed");
    PlainNameIsItself("rate_limited");
    PlainNameIsItself("validation_failed");
    PlainNameIsItself("temporary_failure");
    PlainNameIsItself("permanent_failure");
  }

  /** The failure that is stored when no adapter is called, and when the adapter raises. */
  function OwnFailure(registry: Registry, provider: string, actionType: ActionType): (string, FailureClass) {
    if provider !in registry then ("adapter_not_configured", Permanent)
    else if registry[provider].IllTyped? then ("adapter_capabilities_unavailable", Permanent)
    else if actionType !in (if registry[provider].Declared? then registry[provider].capabilities.supported else {SendMessage}) then
      ("unsupported_action_type", Validation)
    else ("content_too_long", Validation)
  }

  /** The action and the attempt row show that this failure was stored at this time. */
  predicate StoresFailure(a: Action, code: string, kind: Option<FailureClass>, now: Time) {
    && a.status == Failed && a.failedAt == Some(now) && a.deliveryId.None? && a.deliveredAt.None?
    && a.failureCode == Some(code) && a.failureClass == kind
  }

  /** A failure that the service produces itself is stored as it is. */
  lemma InternalStores(a: Action, code: string, message: string, kind: FailureClass, now: Time)
    requires code != "" && ClassifyFailureCode(code) == kind
    ensures StoresFailure(Settled(a, InternalFailure(code, message), now), code, Some(kind), now)
  {
    hide ClassifyFailureCode;
  }

  lemma RefusalStores(registry: Registry, provider: string, a: Action, now: Time)
    requires RefusedBeforeAdapter(registry, provider, a).Some?
    ensures
      var (code, kind) := OwnFailure(registry, provider, a.actionType);
      StoresFailure(Settled(a, RefusedBeforeAdapter(registry, provider, a).value, now), code, Some(kind), now)
  {
    hide ClassifyFailureCode, InternalFailure, Settled, StoresFailure;
    if provider !in registry {
      MissingAdapterIsPermanent();
      InternalStores(a, "adapter_not_configured", "No delivery adapter is configured for this provider", Permanent, now);
    } else if registry[provider].IllTyped? {
      MissingCapabilitiesArePermanent();
      InternalStores(a, "adapter_capabilities_unavailable", "Delivery adapter capabilities are unavailable", Permanent, now);
    } else if a.actionType !in (if registry[provider].Declared? then registry[provider].capabilities.supported else {SendMessage}) {
      UnsupportedTypeIsValidation();
      InternalStores(a, "unsupported_action_type",
                     "Outbound action type is not supported by this delivery adapter", Validation, now);
    } else {
      TooLongIsValidation();
      InternalStores(a, "content_too_long", "Outbound action content exceeds the delivery adapter limit", Validation, now);
    }
  }

  lemma RaisedStores(a: Action, now: Time)
    ensures StoresFailure(Settled(a, ReplyResult(Raised), now), "adapter_execution_failed", Some(Temporary), now)
  {
    hide ClassifyFailureCode, InternalFailure, Settled, StoresFailure;
    RaisingIsTemporary();
    InternalStores(a, "adapter_execution_failed", "Delivery adapter execution failed", Temporary, now);
  }

  /** What the adapter's own outcome stores, with defaults for a failure without code or message. */
  predicate StoresOutcome(a: Action, result: AdapterResult, now: Time) {
    if result.delivered then
      && a.status == Delivered && a.deliveryId == result.deliveryId && a.deliveredAt == Some(now)
      && a.failedAt.None? && a.failureCode.None? && a.failureMessage.None? && a.failureClass.None?
    else
      && StoresFailure(a, if result.code.None? || result.code.value == "" then "delivery_failed" else result.code.value,
                       result.classification, now)
      && a.failureMessage == (if result.message.None? || result.message.value == "" then Some("Delivery failed") else result.message)
  }

  lemma ReplyStores(a: Action, result: AdapterResult, now: Time)
    ensures StoresOutcome(Settled(a, ReplyResult(Returned(result)), now), result, now)
  {
  }

  lemma AttemptedSettles(s: Tables, id: Id, retried: bool, registry: Registry, reply: AdapterReply, now: Time)
    requires id in s.actions && s.actions[id].account in s.accounts
    ensures
      var refusal := RefusedBeforeAdapter(registry, s.accounts[s.actions[id].account].provider, s.actions[id]);
      Attempted(s, id, retried, registry, reply, true, now).actions
      == s.actions[id := Settled(s.actions[id], if refusal.Some? then refusal.value else ReplyResult(reply), now)]
  {
    hide RefusedBeforeAdapter, ReplyResult, LinkedStatus, MaxAttemptNumber, Stamp, Settled;
  }

  /** What a committed attempt stores: the adapter's own outcome, or the service's failure when
      the adapter raised or was not called. */
  predicate StoredAs(b: Action, a: Action, provider: string, registry: Registry, reply: AdapterReply, now: Time) {
    if !Takes(registry, provider, a.actionType, a.content) then
      var (code, kind) := OwnFailure(registry, provider, a.actionType);
      StoresFailure(b, code, Some(kind), now)
    else if reply.Raised? then StoresFailure(b, "adapter_execution_failed", Some(Temporary), now)
    else StoresOutcome(b, reply.result, now)
  }

  lemma AttemptStores(s: Tables, account: Id, id: Id, retried: bool, registry: Registry, reply: AdapterReply, now: Time)
    requires id in s.actions && account in s.accounts && s.actions[id].account == account
    ensures
      var t := Attempted(s, id, retried, registry, reply, true, now);
      id in t.actions && StoredAs(t.actions[id], s.actions[id], s.accounts[account].provider, registry, reply, now)
  {
    hide RefusedBeforeAdapter, Takes, OwnFailure, Attempted, Settled, ReplyResult, StoresFailure, StoresOutcome;
    var a, provider := s.actions[id], s.accounts[account].provider;
    TakesIsNotRefused(registry, provider, a);
    AttemptedSettles(s, id, retried, registry, reply, now);
    if RefusedBeforeAdapter(registry, provider, a).Some? {
      RefusalStores(registry, provider, a, now);
    } else if reply.Raised? {
      RaisedStores(a, now);
    } else {
      ReplyStores(a, reply.result, now);
    }
  }

  /** One attempt was made: the adapter is called exactly when it takes the action, and the
      attempt and its outcome are stored exactly when the commit succeeds. */
  ghost predicate AttemptMade(s: Tables, answered: (Tables, Outcome), account: Id, id: Id,
                              registry: Registry, reply: AdapterReply, commits: bool, now: Time)
    requires account in s.accounts && id in s.actions
  {
    var (t, outcome) := answered;
    var a, provider := s.actions[id], s.accounts[account].provider;
    && outcome == (if commits then Ok(id) else Refused(CommitFailed))
    && |t.attempts| == |s.attempts| + (if commits then 1 else 0)
    && |t.calls| == |s.calls| + (if Takes(registry, provider, a.actionType, a.content) then 1 else 0)
    && (Takes(registry, provider, a.actionType, a.content) ==>
          && t.calls[|s.calls|].action == id && t.calls[|s.calls|].committed == commits
          && t.calls[|s.calls|].delivered == (reply.Returned? && reply.result.delivered))
    && (commits ==> id in t.actions && StoredAs(t.actions[id], a, provider, registry, reply, now))
    && (!commits ==> t.actions == s.actions && t.audit == s.audit)
  }

  lemma ReplyDelivers(reply: AdapterReply)
    ensures ReplyResult(reply).delivered == (reply.Returned? && reply.result.delivered)
  {
    hide ClassifyFailureCode;
  }

  lemma AttemptedIsMade(s: Tables, account: Id, id: Id, retried: bool, registry: Registry, reply: AdapterReply, commits: bool, now: Time)
    requires id in s.actions && account in s.accounts && s.actions[id].account == account
    ensures AttemptMade(s, (Attempted(s, id, retried, registry, reply, commits, now), Ended(id, commits)), account, id,
                        registry, reply, commits, now)
  {
    hide RefusedBeforeAdapter, Takes, StoredAs, LinkedStatus, MaxAttemptNumber, Stamp, ReplyResult, Settled;
    ReplyDelivers(reply);
    TakesIsNotRefused(registry, s.accounts[account].provider, s.actions[id]);
    AttemptStores(s, account, id, retried, registry, reply, now);
  }

  // ---- delivering ----------------------------------------------------------------------------

  /** The answer to delivering a pending action on an active account: past its expiry it expires,
      before its not-before time it is not ready, in between its linked approval decides. */
  lemma DeliverAnswers(s: Tables, workspace: Id, account: Id, id: Id, registry: Registry, reply: AdapterReply, commits: bool, now: Time)
    requires HasStatusOn(s, workspace, account, id, Pending)
    ensures
      var a := s.actions[id];
      var (t, outcome) := Deliver(s, workspace, account, id, registry, reply, commits, now);
      var expired := a.expiresAt.Some? && a.expiresAt.value <= now;
      var early := a.notBefore.Some? && now < a.notBefore.value;
      && (expired && commits <==> outcome == Refused(ActionExpired))
      && (expired && commits ==> t.actions == s.actions[id := a.(status := Expired, expiredAt := Some(now))] && t.calls == s.calls)
      && (expired && !commits ==> t == s && outcome == Refused(CommitFailed))
      && (!expired && early <==> outcome == Refused(NotReady))
      && (!expired && early ==> t == s)
      && (!expired && !early && a.requiresApproval && LinkedTo(s, a, AwaitingDecision) ==> outcome == Refused(ApprovalIsRequired))
      && (!expired && !early && a.requiresApproval && LinkedTo(s, a, Rejected) <==> outcome == Refused(ApprovalWasRejected))
      && (outcome in {Refused(ApprovalIsRequired), Refused(ApprovalWasRejected)} ==> t == s)
      && (!expired && !early && (!a.requiresApproval || LinkedTo(s, a, Approved)) ==>
            AttemptMade(s, (t, outcome), account, id, registry, reply, commits, now))
      && (outcome == Refused(ApprovalIsRequired) <==>
            !expired && !early && a.requiresApproval && !LinkedTo(s, a, Approved) && !LinkedTo(s, a, Rejected))
  {
    hide Attempted, AttemptMade, Stamp;
    AttemptedIsMade(s, account, id, false, registry, reply, commits, now);
  }

  /** The other answers: lookups first, then an inactive account, then a status that is not pending. */
  lemma DeliverRefusals(s: Tables, workspace: Id, account: Id, id: Id, registry: Registry, reply: AdapterReply, commits: bool, now: Time)
    ensures
      var (t, outcome) := Deliver(s, workspace, account, id, registry, reply, commits, now);
      var known := account in s.accounts && s.accounts[account].workspace == workspace;
      var found := id in s.actions && s.actions[id].workspace == workspace && s.actions[id].account == account;
      && (outcome == Refused(AccountNotFound) <==> !known)
      && (outcome == Refused(AccountInactive) <==> known && !s.accounts[account].active)
      && (outcome == Refused(ActionNotFound) <==> known && s.accounts[account].active && !found)
      && (outcome == Refused(AlreadyProcessed) <==> known && s.accounts[account].active && found && s.actions[id].status != Pending)
      && (!HasStatusOn(s, workspace, account, id, Pending) ==> t == s)
  {
    hide Attempted, IsExpired, IsBeforeNotBefore, ApprovalGate, Stamp;
  }

  /** Over every run: an adapter is called to deliver an action only from the not-before time of
      the request that created it on, and only before its expiry. */
  lemma DeliveredInWindow(before: seq<Command>, workspace: Id, account: Id, d: Draft, created: Time,
                          after: seq<Command>, c: Command)
    requires Create(Run(before), workspace, account, d, created).1 == Ok(Run(before).nextId)
    requires c.DoDeliver? && c.id == Run(before).nextId
    requires CallMade(RunFrom(Create(Run(before), workspace, account, d, created).0, after), c).Some?
    ensures d.notBefore.Some? ==> d.notBefore.value <= c.now
    ensures d.expiresAt.Some? ==> c.now < d.expiresAt.value
  {
    var s := Create(Run(before), workspace, account, d, created).0;
    var t := RunFrom(s, after);
    FreshIsDrafted(before, workspace, account, d, created);
    hide Run, RunFrom, Create;
    RunKeepsContent(s, after);
    DeliverRefusals(t, c.workspace, c.account, c.id, c.registry, c.reply, c.commits, c.now);
    if HasStatusOn(t, c.workspace, c.account, c.id, Pending) {
      DeliverAnswers(t, c.workspace, c.account, c.id, c.registry, c.reply, c.commits, c.now);
    }
    hide Deliver, AttemptMade;
  }

  lemma FreshIsDrafted(before: seq<Command>, workspace: Id, account: Id, d: Draft, created: Time)
    requires Create(Run(before), workspace, account, d, created).1 == Ok(Run(before).nextId)
    ensures
      var s, id := Create(Run(before), workspace, account, d, created).0, Run(before).nextId;
      id in s.actions && id < s.nextId && s.actions[id].notBefore == d.notBefore && s.actions[id].expiresAt == d.expiresAt
  {
    hide Run, Strip, NormalizedCorrelation, Matches;
    ReachableIsValid(before);
  }

  // ---- retrying ------------------------------------------------------------------------------

  /** The answer to retrying a failed action on an active account, decided by the policy's own
      fields, the largest stored attempt number and the stored code and class. */
  lemma RetryAnswers(s: Tables, workspace: Id, account: Id, id: Id, policy: Policy,
                     registry: Registry, reply: AdapterReply, commits: bool, now: Time)
    requires HasStatusOn(s, workspace, account, id, Failed)
    ensures
      var a := s.actions[id];
      var (t, outcome) := Retry(s, workspace, account, id, policy, registry, reply, commits, now);
      var spent := MaxAttemptNumber(s.attempts, id) >= policy.maximumAttempts;
      var unsafe := a.failureCode.Some? && !IsSafeCode(Lower(Strip(a.failureCode.value)));
      var deniedCode := a.failureCode.Some? && !unsafe && Lower(Strip(a.failureCode.value)) in policy.deniedCodes;
      var deniedClass := a.failureClass.Some? && a.failureClass.value in policy.deniedClasses;
      && (outcome == Refused(RetryDenied(MaximumAttemptsReached)) <==> spent)
      && (outcome == Refused(RetryCodeRejected) <==> !spent && unsafe)
      && (outcome == Refused(RetryDenied(CodeNotRetryable)) <==> !spent && deniedCode)
      && (outcome == Refused(RetryDenied(ClassificationNotRetryable)) <==> !spent && !unsafe && !deniedCode && deniedClass)
      && (spent || unsafe || deniedCode || deniedClass ==> t == s)
      && (!spent && !unsafe && !deniedCode && !deniedClass ==> AttemptMade(s, (t, outcome), account, id, registry, reply, commits, now))
  {
    hide Attempted, AttemptMade, IsSafeCode, Lower, Strip, MaxAttemptNumber;
    AttemptedIsMade(s, account, id, true, registry, reply, commits, now);
  }

  lemma RetryRefusals(s: Tables, workspace: Id, account: Id, id: Id, policy: Policy,
                      registry: Registry, reply: AdapterReply, commits: bool, now: Time)
    ensures
      var (t, outcome) := Retry(s, workspace, account, id, policy, registry, reply, commits, now);
      var known := account in s.accounts && s.accounts[account].workspace == workspace;
      var found := id in s.actions && s.actions[id].workspace == workspace && s.actions[id].account == account;
      && (outcome == Refused(AccountNotFound) <==> !known)
      && (outcome == Refused(AccountInactive) <==> known && !s.accounts[account].active)
      && (outcome == Refused(ActionNotFound) <==> known && s.accounts[account].active && !found)
      && (outcome == Refused(NotRetryable) <==> known && s.accounts[account].active && found && s.actions[id].status != Failed)
      && (!HasStatusOn(s, workspace, account, id, Failed) ==> t == s)
  {
    hide Attempted, Evaluate;
  }

  /** Over every run: no retry is stored, and no adapter called for one, at the policy's maximum
      or on a failure code or class that the policy denies. */
  lemma RetriesRespectPolicy(before: seq<Command>, c: Command)
    requires c.DoRetry?
    requires Step(Run(before), c).1 == Ok(c.id) || CallMade(Run(before), c).Some?
    ensures
      var s := Run(before);
      && c.id in s.actions && s.actions[c.id].status == Failed
      && |AttemptsOf(s.attempts, c.id)| < c.policy.maximumAttempts
      && (s.actions[c.id].failureCode.Some? ==> Lower(Strip(s.actions[c.id].failureCode.value)) !in c.policy.deniedCodes)
      && (s.actions[c.id].failureClass.Some? ==> s.actions[c.id].failureClass.value !in c.policy.deniedClasses)
  {
    var s := Run(before);
    ReachableIsValid(before);
    hide Run, Valid, IsSafeCode, Lower, Strip, MaxAttemptNumber, AttemptMade;
    RetryRefusals(s, c.workspace, c.account, c.id, c.policy, c.registry, c.reply, c.commits, c.now);
    assert HasStatusOn(s, c.workspace, c.account, c.id, Failed);
    RetryAnswers(s, c.workspace, c.account, c.id, c.policy, c.registry, c.reply, c.commits, c.now);
    hide Retry;
    LiveNumbers(s, c.id);
  }

  lemma LiveNumbers(s: Tables, id: Id)
    requires Valid(s) && id in s.actions
    ensures MaxAttemptNumber(s.attempts, id) == |AttemptsOf(s.attempts, id)|
  {
    LiveAttempts(s, id);
  }
}
