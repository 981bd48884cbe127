/** What each readiness reason says about the stored fields. */
module ReadinessAnswers {
  import opened Common
  import opened OutboundModel
  import opened RetryPolicy
  import opened RetryDelay
  import opened OutboundTables
  import opened Readiness
  import opened DeliveryAnswers

  /** The action may be delivered or retried as far as its status and the retry policy go. */
  predicate IsDue(a: Action, eligibility: Eligibility) {
    a.status == Pending || (a.status == Failed && eligibility == Allowed)
  }

  /** Each reason blocks under exactly one condition on the action, its account, its linked approval,
      the clock and the adapter. */
  lemma ReasonsMean(s: Tables, workspace: Id, account: Id, id: Id, view: StatusView, registry: Registry, now: Time)
    requires account in s.accounts && s.accounts[account].workspace == workspace
    requires id in s.actions && s.actions[id].workspace == workspace && s.actions[id].account == account
    ensures
      var a, f := s.actions[id], FactsOf(s, workspace, id, view, registry, now);
      var due := IsDue(a, view.eligibility);
      var gated := due && a.requiresApproval;
      && (Blocks(f, AccountIsInactive) <==> !s.accounts[account].active)
      && (Blocks(f, RetryNotEligible) <==> a.status == Failed && view.eligibility != Allowed)
      && (Blocks(f, ActionIsCancelled) <==> a.status == Cancelled)
      && (Blocks(f, ActionAlreadyDelivered) <==> a.status == Delivered)
      && (Blocks(f, ActionIsExpired) <==> a.status == Expired || (due && a.expiresAt.Some? && a.expiresAt.value <= now))
      && (Blocks(f, NotBeforeNotReached) <==> due && a.notBefore.Some? && now < a.notBefore.value)
      && (Blocks(f, ApprovalPending) <==> gated && LinkedTo(s, a, AwaitingDecision))
      && (Blocks(f, ApprovalRejected) <==> gated && LinkedTo(s, a, Rejected))
      && (Blocks(f, ApprovalNotApproved) <==> gated && LinkedTo(s, a, Executed))
      && (Blocks(f, ApprovalUnavailable) <==> gated && (a.approval.None? || a.approval.value !in s.approvals))
      && (Blocks(f, CapabilityMismatch) <==> due && !Takes(registry, s.accounts[account].provider, a.actionType, a.content))
  {
    hide Blocks, IsCandidate, ValidateAction, RefusedBeforeAdapter, ApprovalGate, Takes, LinkedTo;
    var f := FactsOf(s, workspace, id, view, registry, now);
    StatusBlocks(f);
    WindowBlocks(f);
    GateBlocks(f);
    CandidateIsDue(s, workspace, id, view, registry, now);
    RefusalIsCapabilityFailure(registry, s.accounts[account].provider, s.actions[id]);
    TakesIsNotRefused(registry, s.accounts[account].provider, s.actions[id]);
    GateMeans(s, workspace, s.actions[id]);
  }

  lemma StatusBlocks(f: Facts)
    ensures Blocks(f, AccountIsInactive) <==> !f.active
    ensures Blocks(f, RetryNotEligible) <==> f.status == Failed && f.eligibility != Allowed
    ensures Blocks(f, ActionIsCancelled) <==> f.status == Cancelled
    ensures Blocks(f, ActionAlreadyDelivered) <==> f.status == Delivered
  {
  }

  lemma WindowBlocks(f: Facts)
    ensures Blocks(f, ActionIsExpired) <==> f.status == Expired || (IsCandidate(f) && f.expired)
    ensures Blocks(f, NotBeforeNotReached) <==> IsCandidate(f) && f.early
    ensures Blocks(f, CapabilityMismatch) <==> IsCandidate(f) && !f.capable
  {
  }

  lemma GateBlocks(f: Facts)
    ensures Blocks(f, ApprovalPending) <==> IsCandidate(f) && f.gate == StillPending
    ensures Blocks(f, ApprovalRejected) <==> IsCandidate(f) && f.gate == WasRejected
    ensures Blocks(f, ApprovalNotApproved) <==> IsCandidate(f) && f.gate == NotApproved
    ensures Blocks(f, ApprovalUnavailable) <==> IsCandidate(f) && f.gate == Unavailable
  {
  }

  lemma CandidateIsDue(s: Tables, workspace: Id, id: Id, view: StatusView, registry: Registry, now: Time)
    requires id in s.actions && s.actions[id].account in s.accounts
    ensures IsCandidate(FactsOf(s, workspace, id, view, registry, now)) <==> IsDue(s.actions[id], view.eligibility)
  {
    hide ValidateAction, ApprovalGate;
  }

  lemma GateMeans(s: Tables, workspace: Id, a: Action)
    requires a.workspace == workspace
    ensures ApprovalGate(s, workspace, a) == StillPending <==> a.requiresApproval && LinkedTo(s, a, AwaitingDecision)
    ensures ApprovalGate(s, workspace, a) == WasRejected <==> a.requiresApproval && LinkedTo(s, a, Rejected)
    ensures ApprovalGate(s, workspace, a) == NotApproved <==> a.requiresApproval && LinkedTo(s, a, Executed)
    ensures ApprovalGate(s, workspace, a) == Unavailable <==>
      a.requiresApproval && (a.approval.None? || a.approval.value !in s.approvals)
  {
  }
}
