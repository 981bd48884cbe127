/** What holds after every sequence of outbound service calls. */
module OutboundTheorems {
  import opened Common
  import opened OutboundModel
  import opened RetryPolicy
  import opened OutboundTables
  import opened AuditReplay
  import opened OutboundInvariant
  import opened OutboundPreservation

  // ---- adapter calls -------------------------------------------------------------------

  /** Every adapter call ever made for a gated action, also by a retry, found it approved. */
  lemma EveryAdapterCallWasApproved(cs: seq<Command>, call: AdapterCall)
    requires call in Run(cs).calls && call.requiresApproval
    ensures call.approval == Some(Approved)
  {
    hide RunFrom;
    ReachableIsValid(cs);
  }

  // ---- the audit log -------------------------------------------------------------------

  /** Replaying its events rebuilds a live action; no action, live or removed, has a bad log. */
  lemma AuditLogRebuildsActions(cs: seq<Command>, id: Id)
    ensures !Replay(EventsOf(Run(cs).audit, id)).Illegal?
    ensures id in Run(cs).actions ==>
      && Replay(EventsOf(Run(cs).audit, id)) == Recorded(Run(cs), id)
      && WellShaped(Recorded(Run(cs), id))
  {
    hide RunFrom, WellShaped, Replay;
    ReachableIsValid(cs);
    if id in Run(cs).actions {
      LiveAttempts(Run(cs), id);
    }
  }

  // ---- attempt numbers -----------------------------------------------------------------

  ghost predicate PoliciesWithin(cs: seq<Command>, m: nat) {
    forall i :: 0 <= i < |cs| && cs[i].DoRetry? ==> cs[i].policy.maximumAttempts <= m
  }

  ghost predicate AttemptsWithin(s: Tables, m: nat) {
    forall id: Id :: MaxAttemptNumber(s.attempts, id) <= m
  }

  lemma AttemptedStaysWithin(s: Tables, id: Id, retried: bool, registry: Registry, reply: AdapterReply, commits: bool, now: Time, m: nat)
    requires id in s.actions && s.actions[id].account in s.accounts
    requires AttemptsWithin(s, m) && MaxAttemptNumber(s.attempts, id) < m
    ensures AttemptsWithin(Attempted(s, id, retried, registry, reply, commits, now), m)
  {
    hide Concluded, RefusedBeforeAdapter, ReplyResult;
    var refusal := RefusedBeforeAdapter(registry, s.accounts[s.actions[id].account].provider, s.actions[id]);
    var result := if refusal.Some? then refusal.value else ReplyResult(reply);
    ConcludedNumbers(s, id, retried, refusal.None?, result, now);
  }

  lemma DeliverStaysWithin(s: Tables, w: Id, account: Id, id: Id, registry: Registry, reply: AdapterReply, commits: bool, now: Time, m: nat)
    requires LogReplays(s) && AttemptsWithin(s, m) && m >= 1
    ensures AttemptsWithin(Deliver(s, w, account, id, registry, reply, commits, now).0, m)
  {
    hide Attempted, LogReplays, LinkedStatus, Stamp;
    if HasAccount(s, w, account) && HasAction(s, w, account, id) && s.actions[id].status == Pending {
      LiveAttempts(s, id);
      AttemptedStaysWithin(s, id, false, registry, reply, commits, now, m);
    }
  }

  lemma RetryStaysWithin(s: Tables, w: Id, account: Id, id: Id, policy: Policy,
                          registry: Registry, reply: AdapterReply, commits: bool, now: Time, m: nat)
    requires AttemptsWithin(s, m) && policy.maximumAttempts <= m
    ensures AttemptsWithin(Retry(s, w, account, id, policy, registry, reply, commits, now).0, m)
  {
    hide Attempted, NormalizeCode;
    if Retry(s, w, account, id, policy, registry, reply, true, now).1.Ok? {
      AttemptedStaysWithin(s, id, true, registry, reply, commits, now, m);
    }
  }

  lemma StepStaysWithin(s: Tables, c: Command, m: nat)
    requires LogReplays(s) && AttemptsWithin(s, m) && m >= 1
    requires c.DoRetry? ==> c.policy.maximumAttempts <= m
    ensures AttemptsWithin(Step(s, c).0, m)
  {
    hide LogReplays, AttemptsWithin, Strip, Deliver, Retry, Stamp, Matches, HoldsKey;
    match c {
      case DoDeliver(w, account, id, registry, reply, commits, now) =>
        DeliverStaysWithin(s, w, account, id, registry, reply, commits, now, m);
      case DoRetry(w, account, id, policy, registry, reply, commits, now) =>
        RetryStaysWithin(s, w, account, id, policy, registry, reply, commits, now, m);
      case _ => SameAttempts(s, Step(s, c).0, m);
    }
  }

  lemma SameAttempts(s: Tables, t: Tables, m: nat)
    requires AttemptsWithin(s, m)
    ensures t.attempts == s.attempts ==> AttemptsWithin(t, m)
  {
  }

  lemma {:induction false} RunStaysWithin(cs: seq<Command>, m: nat)
    requires m >= 1 && PoliciesWithin(cs, m)
    ensures AttemptsWithin(Run(cs), m)
  {
    if cs != [] {
      var front := cs[..|cs| - 1];
      assert cs[|cs| - 1].DoRetry? ==> cs[|cs| - 1].policy.maximumAttempts <= m;
      RunStaysWithin(front, m);
      ReachableIsValid(front);
      assert LogReplays(Run(front));
      hide Valid, LogReplays, AttemptsWithin, Step;
      StepStaysWithin(Run(front), cs[|cs| - 1], m);
    }
  }

  ghost predicate RowsDecideStatus(rows: seq<Attempt>, status: Status) {
    && (forall i :: 0 <= i < |rows| ==> rows[i].number == i + 1)
    && (forall i :: 0 <= i < |rows| - 1 ==> rows[i].status == Failed)
    && (rows == [] <==> status in {Pending, Cancelled, Expired})
    && (rows != [] ==> rows[|rows| - 1].status == status)
  }

  lemma RecordedRowsDecide(s: Tables, id: Id)
    requires LogReplays(s) && id in s.actions
    ensures RowsDecideStatus(AttemptsOf(s.attempts, id), s.actions[id].status)
  {
    hide LogReplays, Replay, AttemptsOf, EventsOf, MaxAttemptNumber;
    LiveAttempts(s, id);
    var rows := AttemptsOf(s.attempts, id);
    var marks := MarksOf(rows);
    assert forall i :: 0 <= i < |rows| ==> marks[i].status == rows[i].status;
  }

  /** The rows of a live action are 1..n: the largest number is their count, at most the
      largest maximum any retry was allowed; all but the last failed, the last one decides. */
  lemma AttemptNumbering(cs: seq<Command>, m: nat, id: Id)
    requires m >= 1 && PoliciesWithin(cs, m) && id in Run(cs).actions
    ensures var s := Run(cs);
            var rows := AttemptsOf(s.attempts, id);
            && |rows| == MaxAttemptNumber(s.attempts, id) <= m
            && RowsDecideStatus(rows, s.actions[id].status)
  {
    ReachableIsValid(cs);
    RunStaysWithin(cs, m);
    var s := Run(cs);
    assert LogReplays(s);
    hide Run, Valid, LogReplays, RowsDecideStatus, WellShaped, Recorded;
    LiveAttempts(s, id);
    RecordedRowsDecide(s, id);
  }

  // ---- decisions -----------------------------------------------------------------------

  lemma StepLetsDecisionsStand(s: Tables, c: Command)
    requires RowsLinked(s)
    ensures DecisionsStand(s, Step(s, c).0)
  {
    hide Attempted, Touch, Strip, Evaluate, HoldsKey, Matches, ApprovalGate, IsExpired, IsBeforeNotBefore;
    if c.DoDeliver? || c.DoRetry? {
      AttemptLeavesApprovals(s, c.workspace, c.account, c.id, c.registry, c.reply, c.commits, c.now);
    } else if c.DoCancel? || c.DoArchive? || c.DoUnarchive? {
      TouchLeavesApprovals(s);
    } else if c.DoApprove? || c.DoReject? {
      DecisionsLetStand(s, c);
    }
  }

  lemma PendingIsUndecided(s: Tables, workspace: Id, approval: Id, actor: Actor)
    requires PendingDecisionError(s, workspace, approval, actor).None?
    ensures approval in s.approvals && s.approvals[approval].status == AwaitingDecision
  {
  }

  lemma ApproveLetsStand(s: Tables, workspace: Id, approval: Id, actor: Actor, note: Option<string>,
                         delivers: bool, commits: bool, now: Time)
    ensures DecisionsStand(s, Approve(s, workspace, approval, actor, note, delivers, commits, now).0)
  {
    hide PendingDecisionError;
    if PendingDecisionError(s, workspace, approval, actor).None? {
      PendingIsUndecided(s, workspace, approval, actor);
    }
  }

  lemma RejectLetsStand(s: Tables, workspace: Id, approval: Id, actor: Actor, note: Option<string>, now: Time)
    ensures DecisionsStand(s, Reject(s, workspace, approval, actor, note, now).0)
  {
    hide PendingDecisionError;
    if PendingDecisionError(s, workspace, approval, actor).None? {
      PendingIsUndecided(s, workspace, approval, actor);
    }
  }

  lemma DecisionsLetStand(s: Tables, c: Command)
    requires c.DoApprove? || c.DoReject?
    ensures DecisionsStand(s, Step(s, c).0)
  {
    hide Approve, Reject, DecisionsStand;
    if c.DoApprove? {
      ApproveLetsStand(s, c.workspace, c.approval, c.actor, c.note, c.channelDelivers, c.commits, c.now);
    } else {
      RejectLetsStand(s, c.workspace, c.approval, c.actor, c.note, c.now);
    }
  }

  lemma TouchLeavesApprovals(s: Tables)
    ensures forall id, a, kinds, now | id in s.actions :: Touch(s, id, a, kinds, now).approvals == s.approvals
  {
  }

  lemma AttemptLeavesApprovals(s: Tables, w: Id, account: Id, id: Id, registry: Registry, reply: AdapterReply, commits: bool, now: Time)
    ensures HasAccount(s, w, account) && HasAction(s, w, account, id) ==>
      && Attempted(s, id, true, registry, reply, commits, now).approvals == s.approvals
      && Attempted(s, id, false, registry, reply, commits, now).approvals == s.approvals
      && (forall a, kinds :: Touch(s, id, a, kinds, now).approvals == s.approvals)
  {
    hide RefusedBeforeAdapter, ReplyResult;
  }

  lemma {:induction false} RunLetsDecisionsStand(s: Tables, cs: seq<Command>)
    requires Valid(s)
    ensures DecisionsStand(s, RunFrom(s, cs))
  {
    if cs != [] {
      var front := cs[..|cs| - 1];
      RunLetsDecisionsStand(s, front);
      RunKeepsValid(s, front);
      var t := RunFrom(s, front);
      assert RowsLinked(t);
      hide Valid, RowsLinked, Step;
      StepLetsDecisionsStand(t, cs[|cs| - 1]);
    }
  }

  /** A decision, once taken, is never revised. */
  lemma DecisionsAreFinal(before: seq<Command>, after: seq<Command>, p: Id)
    requires p in Run(before).approvals && Run(before).approvals[p].status != AwaitingDecision
    ensures var t := RunFrom(Run(before), after);
            p in t.approvals && t.approvals[p] == Run(before).approvals[p]
  {
    ReachableIsValid(before);
    RunLetsDecisionsStand(Run(before), after);
    hide Run, RunFrom;
  }

  /** The approval of an attempted action stays approved for good. */
  lemma AttemptedActionsStayApproved(before: seq<Command>, after: seq<Command>, id: Id)
    requires id in Run(before).actions
    requires Run(before).actions[id].status in {Failed, Delivered} && Run(before).actions[id].requiresApproval
    ensures var p := Run(before).actions[id].approval;
            p.Some? && p.value in RunFrom(Run(before), after).approvals
            && RunFrom(Run(before), after).approvals[p.value].status == Approved
  {
    ReachableIsValid(before);
    assert LinkSound(Run(before), id);
    assert LinkedStatus(Run(before), Run(before).actions[id]) == Some(Approved);
    DecisionsAreFinal(before, after, Run(before).actions[id].approval.value);
  }
}
