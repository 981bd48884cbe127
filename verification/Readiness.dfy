/** The read models that predict what a delivery or a retry would do. */
module Readiness {
  import opened Common
  import opened OutboundModel
  import opened RetryPolicy
  import opened RetryDelay
  import opened OutboundTables
  import opened AuditReplay
  import opened OutboundInvariant

  // ---- the status view -------------------------------------------------------------------

  /** `count(*)` over the attempt rows of one action in its workspace and account. */
  function CountRows(attempts: seq<Attempt>, workspace: Id, account: Id, id: Id): nat {
    if attempts == [] then 0
    else
      var row := attempts[|attempts| - 1];
      CountRows(attempts[..|attempts| - 1], workspace, account, id)
      + if row.workspace == workspace && row.account == account && row.action == id then 1 else 0
  }

  datatype StatusView = StatusView(attempts: nat, eligibility: Eligibility, nextRetryAt: Option<Time>)

  function ViewStatus(s: Tables, id: Id, policy: Policy, delay: DelayPolicy, now: Time): StatusView
    requires id in s.actions
  {
    var a := s.actions[id];
    var count := CountRows(s.attempts, a.workspace, a.account, id);
    var policyVerdict := EvaluateAction(policy, a, count);
    var next := if policyVerdict == Allowed then NextRetryAt(delay, a.failedAt, count) else None;
    var eligibility := if next.Some? && next.value > now then Denied(DelayNotElapsed) else policyVerdict;
    StatusView(count, eligibility, next)
  }

  lemma {:induction false} CountIsRows(attempts: seq<Attempt>, workspace: Id, account: Id, id: Id)
    requires forall i :: 0 <= i < |attempts| && attempts[i].action == id ==>
               attempts[i].workspace == workspace && attempts[i].account == account
    ensures CountRows(attempts, workspace, account, id) == |AttemptsOf(attempts, id)|
  {
    if attempts != [] {
      CountIsRows(attempts[..|attempts| - 1], workspace, account, id);
    }
  }

  /** The reader's count of rows is the writer's largest attempt number. */
  lemma CountAgreesWithMax(s: Tables, id: Id)
    requires Valid(s) && id in s.actions
    ensures CountRows(s.attempts, s.actions[id].workspace, s.actions[id].account, id) == MaxAttemptNumber(s.attempts, id)
  {
    assert AttemptsOwned(s);
    LiveAttempts(s, id);
    hide Valid, LogReplays;
    CountIsRows(s.attempts, s.actions[id].workspace, s.actions[id].account, id);
  }

  predicate DelayElapsed(delay: DelayPolicy, failedAt: Option<Time>, attempts: nat, now: Time) {
    var next := NextRetryAt(delay, failedAt, attempts);
    next.None? || next.value <= now
  }

  /** A next retry time exists exactly for failed actions that the policy still allows. */
  lemma NextRetryExistsIffRetryable(s: Tables, id: Id, policy: Policy, delay: DelayPolicy, now: Time)
    requires Valid(s) && id in s.actions
    ensures var a := s.actions[id];
            ViewStatus(s, id, policy, delay, now).nextRetryAt.Some?
            <==> a.status == Failed && Evaluate(policy, MaxAttemptNumber(s.attempts, id), a.failureCode, a.failureClass) == Allowed
  {
    CountAgreesWithMax(s, id);
    LiveAttempts(s, id);
    hide Valid, LogReplays, Replay, Evaluate, CountRows;
  }

  // ---- readiness -------------------------------------------------------------------------

  datatype Reason =
    | AccountIsInactive
    | RetryNotEligible
    | ActionIsCancelled
    | ActionIsExpired
    | ActionAlreadyDelivered
    | NotBeforeNotReached
    | ApprovalUnavailable
    | ApprovalPending
    | ApprovalRejected
    | ApprovalNotApproved
    | CapabilityMismatch

  datatype Report = NotFound(error: Error) | PolicyRaised | Report(reasons: seq<Reason>, nextRetryAt: Option<Time>)

  predicate IsReady(r: Report) {
    r.Report? && r.reasons == []
  }

  function GateReason(gate: Gate): Reason
    requires gate != Open
  {
    match gate
    case Unavailable => ApprovalUnavailable
    case StillPending => ApprovalPending
    case WasRejected => ApprovalRejected
    case NotApproved => ApprovalNotApproved
  }

  /** Everything that readiness looks at. */
  datatype Facts = Facts(
    active: bool, status: Status, eligibility: Eligibility, expired: bool, early: bool, gate: Gate, capable: bool)

  function FactsOf(s: Tables, workspace: Id, id: Id, view: StatusView, registry: Registry, now: Time): Facts
    requires id in s.actions && s.actions[id].account in s.accounts
  {
    var a := s.actions[id];
    Facts(s.accounts[a.account].active, a.status, view.eligibility, IsExpired(a, now), IsBeforeNotBefore(a, now),
          ApprovalGate(s, workspace, a), ValidateAction(registry, s.accounts[a.account].provider, a).None?)
  }

  /** A failed action is due when the policy allows it and its delay has run out. */
  predicate IsCandidate(f: Facts) {
    f.status == Pending || (f.status == Failed && f.eligibility == Allowed)
  }

  /** Which reason blocks the action, stated one reason at a time. */
  predicate Blocks(f: Facts, reason: Reason) {
    match reason
    case AccountIsInactive => !f.active
    case RetryNotEligible => f.status == Failed && f.eligibility != Allowed
    case ActionIsCancelled => f.status == Cancelled
    case ActionIsExpired => f.status == Expired || (IsCandidate(f) && f.expired)
    case ActionAlreadyDelivered => f.status == Delivered
    case NotBeforeNotReached => IsCandidate(f) && f.early
    case CapabilityMismatch => IsCandidate(f) && !f.capable
    case _ => IsCandidate(f) && f.gate != Open && reason == GateReason(f.gate)
  }

  /** The order in which reasons are reported; reasons of equal rank exclude each other. */
  function Order(reason: Reason): nat {
    match reason
    case AccountIsInactive => 0
    case RetryNotEligible => 1
    case ActionIsCancelled => 1
    case ActionAlreadyDelivered => 1
    case ActionIsExpired => 2
    case NotBeforeNotReached => 3
    case CapabilityMismatch => 5
    case _ => 4
  }

  ghost predicate IsOrdered(reasons: seq<Reason>) {
    forall i, j :: 0 <= i < j < |reasons| ==> Order(reasons[i]) < Order(reasons[j])
  }

  /** Appends one more reason if it applies. */
  method AddIf(reasons: seq<Reason>, applies: bool, reason: Reason) returns (more: seq<Reason>)
    requires IsOrdered(reasons) && forall earlier :: earlier in reasons ==> Order(earlier) < Order(reason)
    ensures IsOrdered(more)
    ensures forall other :: other in more <==> other in reasons || (applies && other == reason)
  {
    more := reasons;
    if applies {
      more := reasons + [reason];
    }
  }

  /** The reasons that the status itself gives; a candidate is checked further. */
  method StatusReasons(f: Facts) returns (reasons: seq<Reason>, candidate: bool)
    ensures candidate <==> IsCandidate(f)
    ensures forall reason :: reason in reasons <==>
      || (reason == AccountIsInactive && !f.active)
      || (reason == RetryNotEligible && f.status == Failed && f.eligibility != Allowed)
      || (reason == ActionIsCancelled && f.status == Cancelled)
      || (reason == ActionIsExpired && f.status == Expired)
      || (reason == ActionAlreadyDelivered && f.status == Delivered)
    ensures IsOrdered(reasons)
  {
    candidate := false;
    reasons := AddIf([], !f.active, AccountIsInactive);
    if f.status == Pending {
      candidate := true;
    } else if f.status == Failed {
      if f.eligibility == Allowed {
        candidate := true;
      } else {
        reasons := AddIf(reasons, true, RetryNotEligible);
      }
    } else if f.status == Cancelled {
      reasons := AddIf(reasons, true, ActionIsCancelled);
    } else if f.status == Expired {
      reasons := AddIf(reasons, true, ActionIsExpired);
    } else {
      reasons := AddIf(reasons, true, ActionAlreadyDelivered);
    }
  }

  method CollectReasons(f: Facts) returns (reasons: seq<Reason>)
    ensures forall reason :: reason in reasons <==> Blocks(f, reason)
    ensures IsOrdered(reasons)
  {
    var candidate;
    reasons, candidate := StatusReasons(f);
    hide IsOrdered;
    if candidate {
      reasons := AddIf(reasons, f.expired, ActionIsExpired);
      reasons := AddIf(reasons, f.early, NotBeforeNotReached);
      if f.gate != Open {
        reasons := AddIf(reasons, true, GateReason(f.gate));
      }
      reasons := AddIf(reasons, !f.capable, CapabilityMismatch);
    }
  }

  method EvaluateReadiness(s: Tables, workspace: Id, account: Id, id: Id,
                           policy: Policy, delay: DelayPolicy, registry: Registry, now: Time)
    returns (r: Report)
    ensures !HasAccount(s, workspace, account) ==> r == NotFound(AccountNotFound)
    ensures HasAccount(s, workspace, account) && !HasAction(s, workspace, account, id) ==> r == NotFound(ActionNotFound)
    ensures HasAccount(s, workspace, account) && HasAction(s, workspace, account, id) ==>
      && (r == PolicyRaised <==> ViewStatus(s, id, policy, delay, now).eligibility == CodeRejected)
      && (IsReady(r) <==> Ready(s, workspace, id, policy, delay, registry, now))
      && (r.Report? ==>
            var view := ViewStatus(s, id, policy, delay, now);
            && r.nextRetryAt == view.nextRetryAt
            && IsOrdered(r.reasons)
            && forall reason :: reason in r.reasons <==> Blocks(FactsOf(s, workspace, id, view, registry, now), reason))
  {
    hide ViewStatus, FactsOf, Blocks;
    if account !in s.accounts || s.accounts[account].workspace != workspace { return NotFound(AccountNotFound); }
    if id !in s.actions || s.actions[id].workspace != workspace || s.actions[id].account != account {
      return NotFound(ActionNotFound);
    }
    var view := ViewStatus(s, id, policy, delay, now);
    if view.eligibility == CodeRejected { return PolicyRaised; }
    var f := FactsOf(s, workspace, id, view, registry, now);
    var reasons := CollectReasons(f);
    if reasons != [] {
      assert Blocks(f, reasons[0]);
    }
    return Report(reasons, view.nextRetryAt);
  }

  /** The verdict: the policy does not raise and no reason blocks. */
  ghost predicate Ready(s: Tables, workspace: Id, id: Id, policy: Policy, delay: DelayPolicy, registry: Registry, now: Time)
    requires id in s.actions && s.actions[id].account in s.accounts
  {
    var view := ViewStatus(s, id, policy, delay, now);
    && view.eligibility != CodeRejected
    && forall reason :: !Blocks(FactsOf(s, workspace, id, view, registry, now), reason)
  }

  lemma UnblockedIff(f: Facts)
    ensures (forall reason :: !Blocks(f, reason)) <==>
      f.active && IsCandidate(f) && !f.expired && !f.early && f.gate == Open && f.capable
  {
    if forall reason :: !Blocks(f, reason) {
      assert !Blocks(f, AccountIsInactive) && !Blocks(f, RetryNotEligible) && !Blocks(f, ActionIsCancelled);
      assert !Blocks(f, ActionIsExpired) && !Blocks(f, ActionAlreadyDelivered) && !Blocks(f, NotBeforeNotReached);
      assert !Blocks(f, CapabilityMismatch);
      assert f.gate != Open ==> !Blocks(f, GateReason(f.gate));
    }
  }

  // ---- readiness against the guards --------------------------------------------------------

  /** The registry refuses before any I/O exactly when the readiness capability check fails. */
  lemma RefusalIsCapabilityFailure(registry: Registry, provider: string, a: Action)
    ensures RefusedBeforeAdapter(registry, provider, a).None? <==> ValidateAction(registry, provider, a).None?
  {
    hide InternalFailure;
  }

  lemma AttemptedReaches(s: Tables, id: Id, retried: bool, registry: Registry, reply: AdapterReply, commits: bool, now: Time)
    requires id in s.actions && s.actions[id].account in s.accounts
    ensures Attempted(s, id, retried, registry, reply, commits, now).calls != s.calls
            <==> ValidateAction(registry, s.accounts[s.actions[id].account].provider, s.actions[id]).None?
  {
    hide ValidateAction, RefusedBeforeAdapter, ReplyResult, Settled, Stamp, LinkedStatus, MaxAttemptNumber;
    var provider := s.accounts[s.actions[id].account].provider;
    RefusalIsCapabilityFailure(registry, provider, s.actions[id]);
  }

  /** The guards of `deliver_pending_action`, taken together. */
  lemma DeliverReachesAdapterIff(s: Tables, workspace: Id, account: Id, id: Id,
                                 registry: Registry, reply: AdapterReply, commits: bool, now: Time)
    requires HasAccount(s, workspace, account) && HasAction(s, workspace, account, id)
    ensures var a := s.actions[id];
            Deliver(s, workspace, account, id, registry, reply, commits, now).0.calls != s.calls
            <==> && s.accounts[account].active && a.status == Pending
                 && !IsExpired(a, now) && !IsBeforeNotBefore(a, now)
                 && ApprovalGate(s, workspace, a) == Open
                 && ValidateAction(registry, s.accounts[account].provider, a).None?
  {
    hide Attempted, ValidateAction, ApprovalGate, Stamp, IsExpired, IsBeforeNotBefore;
    AttemptedReaches(s, id, false, registry, reply, commits, now);
  }

  lemma RetryReachesAdapterIff(s: Tables, workspace: Id, account: Id, id: Id, policy: Policy,
                               registry: Registry, reply: AdapterReply, commits: bool, now: Time)
    requires HasAccount(s, workspace, account) && HasAction(s, workspace, account, id)
    ensures var a := s.actions[id];
            Retry(s, workspace, account, id, policy, registry, reply, commits, now).0.calls != s.calls
            <==> && s.accounts[account].active && a.status == Failed
                 && Evaluate(policy, MaxAttemptNumber(s.attempts, id), a.failureCode, a.failureClass) == Allowed
                 && ValidateAction(registry, s.accounts[account].provider, a).None?
  {
    hide Attempted, ValidateAction, Evaluate, MaxAttemptNumber;
    AttemptedReaches(s, id, true, registry, reply, commits, now);
  }

  /** A pending action is ready exactly when delivering it now would reach the adapter. */
  lemma PendingReadyIffDelivers(s: Tables, workspace: Id, account: Id, id: Id, policy: Policy, delay: DelayPolicy,
                                registry: Registry, reply: AdapterReply, commits: bool, now: Time)
    requires HasAccount(s, workspace, account) && HasAction(s, workspace, account, id)
    requires s.actions[id].status == Pending
    ensures Ready(s, workspace, id, policy, delay, registry, now)
            <==> Deliver(s, workspace, account, id, registry, reply, commits, now).0.calls != s.calls
  {
    DeliverReachesAdapterIff(s, workspace, account, id, registry, reply, commits, now);
    var view := ViewStatus(s, id, policy, delay, now);
    assert view.eligibility == Denied(ActionIsNotFailed);
    UnblockedIff(FactsOf(s, workspace, id, view, registry, now));
    hide Deliver, ValidateAction, ApprovalGate, ViewStatus, Blocks, IsExpired, IsBeforeNotBefore;
  }

  /** A failed action is ready exactly when retrying it now would reach the adapter and, which
      the retry itself ignores, it is not expired, not early, and its delay has run out. */
  lemma FailedReadyIff(s: Tables, workspace: Id, account: Id, id: Id, policy: Policy, delay: DelayPolicy,
                       registry: Registry, reply: AdapterReply, commits: bool, now: Time)
    requires Valid(s) && HasAccount(s, workspace, account) && HasAction(s, workspace, account, id)
    requires s.actions[id].status == Failed
    ensures var a := s.actions[id];
            Ready(s, workspace, id, policy, delay, registry, now)
            <==> && Retry(s, workspace, account, id, policy, registry, reply, commits, now).0.calls != s.calls
                 && !IsExpired(a, now) && !IsBeforeNotBefore(a, now)
                 && DelayElapsed(delay, a.failedAt, MaxAttemptNumber(s.attempts, id), now)
  {
    var a := s.actions[id];
    hide Valid, Retry, ValidateAction, ApprovalGate, ViewStatus, Blocks, IsExpired, IsBeforeNotBefore, Evaluate, DelayElapsed;
    var view := ViewStatus(s, id, policy, delay, now);
    RetryReachesAdapterIff(s, workspace, account, id, policy, registry, reply, commits, now);
    FailedEligibleIff(s, id, policy, delay, now);
    FailedGateIsOpen(s, workspace, id);
    UnblockedIff(FactsOf(s, workspace, id, view, registry, now));
  }

  lemma FailedGateIsOpen(s: Tables, workspace: Id, id: Id)
    requires Valid(s) && id in s.actions && s.actions[id].status == Failed && s.actions[id].workspace == workspace
    ensures ApprovalGate(s, workspace, s.actions[id]) == Open
  {
  }

  lemma FailedEligibleIff(s: Tables, id: Id, policy: Policy, delay: DelayPolicy, now: Time)
    requires Valid(s) && id in s.actions && s.actions[id].status == Failed
    ensures var a := s.actions[id];
            ViewStatus(s, id, policy, delay, now).eligibility == Allowed
            <==> && Evaluate(policy, MaxAttemptNumber(s.attempts, id), a.failureCode, a.failureClass) == Allowed
                 && DelayElapsed(delay, a.failedAt, MaxAttemptNumber(s.attempts, id), now)
  {
    CountAgreesWithMax(s, id);
    LiveAttempts(s, id);
    hide Valid, LogReplays, Replay, Evaluate, CountRows, MaxAttemptNumber, DelaySeconds;
  }

  /** Terminal actions are never ready, and neither operation touches them. */
  lemma TerminalIsInert(s: Tables, workspace: Id, account: Id, id: Id, policy: Policy, delay: DelayPolicy,
                        registry: Registry, reply: AdapterReply, commits: bool, now: Time)
    requires HasAccount(s, workspace, account) && HasAction(s, workspace, account, id)
    requires IsTerminal(s.actions[id].status)
    ensures !Ready(s, workspace, id, policy, delay, registry, now)
    ensures Deliver(s, workspace, account, id, registry, reply, commits, now).0 == s
    ensures Retry(s, workspace, account, id, policy, registry, reply, commits, now).0 == s
  {
    var view := ViewStatus(s, id, policy, delay, now);
    UnblockedIff(FactsOf(s, workspace, id, view, registry, now));
    hide ValidateAction, ApprovalGate, Evaluate, ViewStatus, Attempted, Blocks, IsExpired, IsBeforeNotBefore;
  }
}
