/** The outcome that an action shows is the outcome that its newest attempt row recorded. */
module OutboundOutcomes {
  import opened Common
  import opened OutboundModel
  import opened RetryPolicy
  import opened OutboundTables
  import opened AuditReplay
  import opened OutboundInvariant
  import opened OutboundPreservation
  import opened OutboundTheorems

  predicate SameOutcome(a: Action, b: Action) {
    && a.deliveryId == b.deliveryId
    && a.failureCode == b.failureCode
    && a.failureMessage == b.failureMessage
    && a.failureClass == b.failureClass
  }

  /** What a status allows: a failure has a code and a message, everything else has none. */
  predicate OutcomeFits(a: Action) {
    && (a.status == Failed ==> a.failureCode.Some? && a.failureCode.value != "" && a.failureMessage.Some? && a.failureMessage.value != "")
    && (a.status != Failed ==> a.failureCode.None? && a.failureMessage.None? && a.failureClass.None?)
    && (a.status != Delivered ==> a.deliveryId.None?)
  }

  predicate RowCarries(row: Attempt, a: Action) {
    && row.status == a.status
    && row.deliveryId == a.deliveryId
    && row.failureCode == a.failureCode
    && row.failureMessage == a.failureMessage
    && row.failureClass == a.failureClass
  }

  ghost predicate Mirrored(s: Tables, id: Id)
    requires id in s.actions
  {
    var rows := AttemptsOf(s.attempts, id);
    OutcomeFits(s.actions[id]) && (rows != [] ==> RowCarries(rows[|rows| - 1], s.actions[id]))
  }

  ghost predicate AllMirrored(s: Tables) {
    forall id :: id in s.actions ==> Mirrored(s, id)
  }

  /** From `s` to `t` nothing was attempted: outcomes stand, new actions have none yet, and
      only an action without attempts can have changed its status. */
  ghost predicate Quiet(s: Tables, t: Tables) {
    && t.attempts == s.attempts
    && forall id :: id in t.actions ==>
         if id in s.actions then
           && SameOutcome(s.actions[id], t.actions[id])
           && (t.actions[id].status == s.actions[id].status
               || (s.actions[id].status == Pending && t.actions[id].status in {Cancelled, Expired}))
         else t.actions[id].status == Pending && OutcomeFits(t.actions[id])
  }

  lemma QuietKeepsOutcomes(s: Tables, t: Tables)
    requires AttemptsOwned(s) && LogReplays(s) && AllMirrored(s) && Quiet(s, t)
    ensures AllMirrored(t)
  {
    hide LogReplays;
    forall id | id in t.actions ensures Mirrored(t, id) {
      AttemptsOfFromTable(s.attempts, id);
      if id in s.actions {
        RecordedRowsDecide(s, id);
        assert Mirrored(s, id);
      }
    }
  }

  /** The row of the attempt carries the outcome of its action. */
  lemma ConcludedCarries(s: Tables, id: Id, retried: bool, called: bool, result: AdapterResult, now: Time)
    requires id in s.actions
    ensures
      var t := Concluded(s, id, retried, called, result, now);
      && |t.attempts| == |s.attempts| + 1 && t.attempts == s.attempts + [t.attempts[|s.attempts|]]
      && t.attempts[|s.attempts|].action == id && t.actions == s.actions[id := t.actions[id]]
      && OutcomeFits(t.actions[id]) && RowCarries(t.attempts[|s.attempts|], t.actions[id])
  {
    hide Stamp, LinkedStatus, AttemptKinds, MaxAttemptNumber;
  }

  lemma ConcludedKeepsOutcomes(s: Tables, id: Id, retried: bool, called: bool, result: AdapterResult, now: Time)
    requires id in s.actions && AllMirrored(s)
    ensures AllMirrored(Concluded(s, id, retried, called, result, now))
  {
    hide Concluded, AttemptsOf, OutcomeFits, RowCarries;
    var t := Concluded(s, id, retried, called, result, now);
    ConcludedCarries(s, id, retried, called, result, now);
    forall other | other in t.actions ensures Mirrored(t, other) {
      AttemptsOfAppend(s.attempts, t.attempts[|s.attempts|], other);
      assert other != id ==> Mirrored(s, other);
    }
  }

  lemma LostKeepsOutcomes(s: Tables, id: Id, result: AdapterResult)
    requires id in s.actions && AllMirrored(s)
    ensures AllMirrored(Lost(s, id, result))
  {
    hide LinkedStatus, MaxAttemptNumber, AttemptsOf;
    forall other | other in s.actions ensures Mirrored(Lost(s, id, result), other) {
      assert Mirrored(s, other);
    }
  }

  lemma AttemptedKeepsOutcomes(s: Tables, id: Id, retried: bool, registry: Registry, reply: AdapterReply, commits: bool, now: Time)
    requires id in s.actions && s.actions[id].account in s.accounts && AllMirrored(s)
    ensures AllMirrored(Attempted(s, id, retried, registry, reply, commits, now))
  {
    hide Concluded, Lost, AllMirrored, RefusedBeforeAdapter, ReplyResult;
    LostKeepsOutcomes(s, id, ReplyResult(reply));
    var refusal := RefusedBeforeAdapter(registry, s.accounts[s.actions[id].account].provider, s.actions[id]);
    ConcludedKeepsOutcomes(s, id, retried, refusal.None?, if refusal.Some? then refusal.value else ReplyResult(reply), now);
  }

  lemma ClosingKeepsOutcomes(s: Tables, id: Id, now: Time)
    requires AttemptsOwned(s) && LogReplays(s) && AllMirrored(s)
    requires id in s.actions && s.actions[id].status == Pending
    ensures AllMirrored(Touch(s, id, s.actions[id].(status := Expired, expiredAt := Some(now)), [ExpiredEvent], now))
    ensures AllMirrored(Touch(s, id, s.actions[id].(status := Cancelled, cancelledAt := Some(now)), [CancelledEvent], now))
  {
    hide Stamp, AttemptsOwned, LogReplays, AllMirrored;
    QuietKeepsOutcomes(s, Touch(s, id, s.actions[id].(status := Expired, expiredAt := Some(now)), [ExpiredEvent], now));
    QuietKeepsOutcomes(s, Touch(s, id, s.actions[id].(status := Cancelled, cancelledAt := Some(now)), [CancelledEvent], now));
  }

  lemma LifecycleKeepsOutcomes(s: Tables, c: Command)
    requires AttemptsOwned(s) && LogReplays(s) && AllMirrored(s)
    requires c.DoDeliver? || c.DoRetry? || c.DoCancel?
    ensures AllMirrored(Step(s, c).0)
  {
    hide AllMirrored, Attempted, Touch, Evaluate, ApprovalGate, IsExpired, IsBeforeNotBefore, LogReplays, AttemptsOwned;
    if HasAccount(s, c.workspace, c.account) && HasAction(s, c.workspace, c.account, c.id) {
      if s.actions[c.id].status == Pending {
        ClosingKeepsOutcomes(s, c.id, c.now);
      }
      if !c.DoCancel? {
        AttemptedKeepsOutcomes(s, c.id, c.DoRetry?, c.registry, c.reply, c.commits, c.now);
      }
    }
  }

  lemma CreationIsQuiet(s: Tables, workspace: Id, account: Id, d: Draft, now: Time)
    requires RowsLinked(s)
    ensures Quiet(s, Create(s, workspace, account, d, now).0)
  {
    hide Strip, NormalizedCorrelation, HoldsKey, Matches;
    assert s.nextId !in s.actions;
    hide RowsLinked;
  }

  lemma QuietSelf(s: Tables)
    ensures Quiet(s, s)
  {
  }

  lemma RelabelIsQuiet(s: Tables, t: Tables, id: Id)
    requires id in s.actions && id in t.actions && t.actions == s.actions[id := t.actions[id]] && t.attempts == s.attempts
    requires SameOutcome(s.actions[id], t.actions[id]) && s.actions[id].status == t.actions[id].status
    ensures Quiet(s, t)
  {
  }

  lemma MaintenanceIsQuiet(s: Tables, c: Command)
    requires c.DoArchive? || c.DoUnarchive? || c.DoSetPriority? || c.DoSetOwner?
    ensures Quiet(s, Step(s, c).0)
  {
    hide Stamp, Quiet;
    QuietSelf(s);
    if !Step(s, c).1.Refused? {
      RelabelIsQuiet(s, Step(s, c).0, c.id);
    }
  }

  lemma DecisionIsQuiet(s: Tables, c: Command)
    requires c.DoApprove? || c.DoReject?
    ensures Quiet(s, Step(s, c).0)
  {
    hide PendingDecisionError;
    QuietSelf(s);
    if c.DoReject? {
      RejectIsQuiet(s, c.workspace, c.approval, c.actor, c.note, c.now);
    } else {
      ApproveIsQuiet(s, c.workspace, c.approval, c.actor, c.note, c.channelDelivers, c.commits, c.now);
    }
    hide Approve, Reject, Quiet;
  }

  lemma RejectIsQuiet(s: Tables, workspace: Id, approval: Id, actor: Actor, note: Option<string>, now: Time)
    ensures Quiet(s, Reject(s, workspace, approval, actor, note, now).0)
  {
    hide PendingDecisionError;
  }

  lemma ApproveIsQuiet(s: Tables, workspace: Id, approval: Id, actor: Actor, note: Option<string>,
                       delivers: bool, commits: bool, now: Time)
    ensures Quiet(s, Approve(s, workspace, approval, actor, note, delivers, commits, now).0)
  {
    hide PendingDecisionError;
  }

  lemma OtherStepsAreQuiet(s: Tables, c: Command)
    requires RowsLinked(s)
    requires !c.DoDeliver? && !c.DoRetry? && !c.DoCancel?
    ensures Quiet(s, Step(s, c).0)
  {
    hide Create, Archive, Unarchive, SetPriority, SetOwner, Approve, Reject, RowsLinked, Strip, IsCleanable, Stamp;
    if c.DoCreate? {
      CreationIsQuiet(s, c.workspace, c.account, c.draft, c.now);
    } else if c.DoArchive? || c.DoUnarchive? || c.DoSetPriority? || c.DoSetOwner? {
      MaintenanceIsQuiet(s, c);
    } else if c.DoApprove? || c.DoReject? {
      DecisionIsQuiet(s, c);
    }
  }

  lemma {:induction false} ReachableIsMirrored(cs: seq<Command>)
    ensures AllMirrored(Run(cs))
  {
    if cs != [] {
      var front, last := cs[..|cs| - 1], cs[|cs| - 1];
      ReachableIsMirrored(front);
      ReachableIsValid(front);
      hide Step, AllMirrored, Quiet;
      if last.DoDeliver? || last.DoRetry? || last.DoCancel? {
        LifecycleKeepsOutcomes(Run(front), last);
      } else {
        OtherStepsAreQuiet(Run(front), last);
        QuietKeepsOutcomes(Run(front), Step(Run(front), last).0);
      }
    }
  }

  /** Over every run an action and its newest attempt row report the same outcome: a delivery
      has no failure left on it, a failure has a code and a message and no delivery id, and an
      action that was never attempted has neither. */
  lemma NewestAttemptExplainsAction(cs: seq<Command>, id: Id)
    requires id in Run(cs).actions
    ensures var a, rows := Run(cs).actions[id], AttemptsOf(Run(cs).attempts, id);
            && OutcomeFits(a)
            && (rows == [] <==> a.status in {Pending, Cancelled, Expired})
            && (rows != [] ==> RowCarries(rows[|rows| - 1], a))
  {
    ReachableIsMirrored(cs);
    ReachableIsValid(cs);
    var s := Run(cs);
    assert Mirrored(s, id) && LogReplays(s);
    hide Run, Valid, LogReplays, AllMirrored;
    RecordedRowsDecide(s, id);
  }
}
