/** What the outside world sees of the outbound services: adapter calls and sent messages.

    Both happen before the transaction that records them commits, so they stay made when it
    does not. This module says what is repeated then, and that nothing else is. */
module OutboundEffects {
  import opened Common
  import opened OutboundModel
  import opened RetryPolicy
  import opened OutboundTables
  import opened OutboundInvariant
  import opened OutboundPreservation
  import opened OutboundTheorems

  // ---- adapter calls -----------------------------------------------------------------------

  /** The adapter call that a command makes in tables `s`, if it makes one. */
  ghost function CallMade(s: Tables, c: Command): Option<AdapterCall> {
    var t := Step(s, c).0;
    if |t.calls| > |s.calls| then Some(t.calls[|s.calls|]) else None
  }

  /** The command was answered as a completed attempt of the action. */
  ghost predicate Stores(s: Tables, c: Command, id: Id) {
    (c.DoDeliver? || c.DoRetry?) && c.id == id && Step(s, c).1 == Ok(id)
  }

  ghost function StoredAttempts(s: Tables, cs: seq<Command>, id: Id): nat {
    if cs == [] then 0
    else
      var front := cs[..|cs| - 1];
      StoredAttempts(s, front, id) + if Stores(RunFrom(s, front), cs[|cs| - 1], id) then 1 else 0
  }

  /** At most one call was made: of this action, under the first number that is not stored. */
  ghost predicate MayCall(s: Tables, t: Tables, id: Id, commits: bool) {
    || t.calls == s.calls
    || (&& |t.calls| == |s.calls| + 1 && t.calls[..|s.calls|] == s.calls
        && var call := t.calls[|s.calls|];
           call.action == id && call.committed == commits && call.number == MaxAttemptNumber(s.attempts, id) + 1)
  }

  /** One attempt number of the action was stored if `stored`, and none otherwise. */
  ghost predicate NumbersGrow(s: Tables, t: Tables, id: Id, stored: bool) {
    forall other: Id ::
      MaxAttemptNumber(t.attempts, other) == MaxAttemptNumber(s.attempts, other) + if stored && other == id then 1 else 0
  }

  lemma AttemptEffects(s: Tables, id: Id, retried: bool, registry: Registry, reply: AdapterReply, commits: bool, now: Time)
    requires id in s.actions && s.actions[id].account in s.accounts
    ensures
      var t := Attempted(s, id, retried, registry, reply, commits, now);
      NumbersGrow(s, t, id, commits) && MayCall(s, t, id, commits) && (!commits ==> t == s.(calls := t.calls))
  {
    hide LinkedStatus, MaxAttemptNumber, RefusedBeforeAdapter, ReplyResult, Stamp, Settled;
    var refusal := RefusedBeforeAdapter(registry, s.accounts[s.actions[id].account].provider, s.actions[id]);
    ConcludedNumbers(s, id, retried, refusal.None?, if refusal.Some? then refusal.value else ReplyResult(reply), now);
  }

  /** A delivery or a retry, whichever branch it takes. */
  lemma AttemptingEffects(s: Tables, c: Command)
    requires c.DoDeliver? || c.DoRetry?
    ensures
      var t := Step(s, c).0;
      && NumbersGrow(s, t, c.id, Stores(s, c, c.id))
      && MayCall(s, t, c.id, c.commits)
      && (t.calls != s.calls ==> Stores(s, c, c.id) == c.commits)
      && (!c.commits ==> t == s.(calls := t.calls))
  {
    hide MaxAttemptNumber, Attempted, Evaluate, ApprovalGate, IsExpired, IsBeforeNotBefore, Stamp;
    if HasAccount(s, c.workspace, c.account) && HasAction(s, c.workspace, c.account, c.id) {
      AttemptEffects(s, c.id, c.DoRetry?, c.registry, c.reply, c.commits, c.now);
    }
  }

  lemma OtherEffects(s: Tables, c: Command)
    requires !c.DoDeliver? && !c.DoRetry?
    ensures Step(s, c).0.attempts == s.attempts && Step(s, c).0.calls == s.calls
  {
    hide Strip, HoldsKey, Matches, NormalizedCorrelation, InScope, Stamp, IsCleanable;
  }

  lemma StepNumbers(s: Tables, c: Command, id: Id)
    ensures MaxAttemptNumber(Step(s, c).0.attempts, id) == MaxAttemptNumber(s.attempts, id) + if Stores(s, c, id) then 1 else 0
    ensures s.calls <= Step(s, c).0.calls
  {
    hide MaxAttemptNumber, Step;
    if c.DoDeliver? || c.DoRetry? {
      AttemptingEffects(s, c);
    } else {
      OtherEffects(s, c);
    }
  }

  /** The stored numbers of an action count the attempts that were answered as completed. */
  lemma {:induction false} RunNumbers(s: Tables, cs: seq<Command>, id: Id)
    ensures MaxAttemptNumber(RunFrom(s, cs).attempts, id) == MaxAttemptNumber(s.attempts, id) + StoredAttempts(s, cs, id)
    ensures s.calls <= RunFrom(s, cs).calls
  {
    hide MaxAttemptNumber, Step, Stores;
    if cs != [] {
      RunNumbers(s, cs[..|cs| - 1], id);
      StepNumbers(RunFrom(s, cs[..|cs| - 1]), cs[|cs| - 1], id);
    }
  }

  lemma CallIsNumbered(s: Tables, c: Command)
    requires CallMade(s, c).Some?
    ensures c.DoDeliver? || c.DoRetry?
    ensures
      var call := CallMade(s, c).value;
      && call.action == c.id && call.committed == c.commits && call.number == MaxAttemptNumber(s.attempts, c.id) + 1
      && Stores(s, c, c.id) == c.commits
  {
    hide MaxAttemptNumber, Step, Stores;
    if c.DoDeliver? || c.DoRetry? {
      AttemptingEffects(s, c);
    } else {
      OtherEffects(s, c);
    }
  }

  /** Of two calls for one action the later one is numbered higher by the attempts that were
      stored from the first call on. So they carry the same number exactly when the first call's
      transaction did not commit and no attempt was stored in between. */
  lemma NumbersBetweenCalls(s: Tables, c: Command, after: seq<Command>, d: Command)
    ensures
      var t := RunFrom(Step(s, c).0, after);
      var first, second := CallMade(s, c), CallMade(t, d);
      first.Some? && second.Some? && first.value.action == second.value.action ==>
        var stored := StoredAttempts(Step(s, c).0, after, first.value.action);
        && second.value.number == first.value.number + stored + (if first.value.committed then 1 else 0)
        && (first.value.number == second.value.number <==> !first.value.committed && stored == 0)
  {
    hide RunFrom, Step, MaxAttemptNumber, CallMade, Stores, StoredAttempts;
    var t := RunFrom(Step(s, c).0, after);
    if CallMade(s, c).Some? && CallMade(t, d).Some? {
      CallIsNumbered(s, c);
      CallIsNumbered(t, d);
      StepNumbers(s, c, c.id);
      RunNumbers(Step(s, c).0, after, c.id);
    }
  }

  // ---- when a call is made again -------------------------------------------------------------

  /** Some continuation from `t` calls the adapter for the action again. */
  ghost predicate CalledAgain(t: Tables, id: Id) {
    exists after, d {:trigger CallMade(RunFrom(t, after), d)} ::
      CallMade(RunFrom(t, after), d).Some? && CallMade(RunFrom(t, after), d).value.action == id
  }

  ghost predicate NumberedAgain(t: Tables, id: Id, number: nat) {
    exists after, d {:trigger CallMade(RunFrom(t, after), d)} ::
      && CallMade(RunFrom(t, after), d).Some? && CallMade(RunFrom(t, after), d).value.action == id
      && CallMade(RunFrom(t, after), d).value.number == number
  }

  /** A call that was not committed can simply be asked for again. */
  lemma LostCallRepeats(s: Tables, c: Command)
    requires CallMade(s, c).Some? && !c.commits
    ensures CallMade(Step(s, c).0, c).Some?
    ensures CallMade(Step(s, c).0, c).value.action == CallMade(s, c).value.action
    ensures CallMade(Step(s, c).0, c).value.number == CallMade(s, c).value.number
  {
    var t := Step(s, c).0;
    CallIsNumbered(s, c);
    AttemptingEffects(s, c);
    SameGuards(s, t, c);
    hide Step, MaxAttemptNumber, Stores;
    CallIsNumbered(t, c);
  }

  /** An attempt does not look at the calls made so far. */
  lemma SameAttempt(s: Tables, t: Tables, id: Id, retried: bool, registry: Registry, reply: AdapterReply, commits: bool, now: Time)
    requires id in s.actions && s.actions[id].account in s.accounts && t == s.(calls := t.calls)
    ensures |Attempted(s, id, retried, registry, reply, commits, now).calls| - |s.calls|
         == |Attempted(t, id, retried, registry, reply, commits, now).calls| - |t.calls|
  {
    hide MaxAttemptNumber, RefusedBeforeAdapter, ReplyResult, Settled, Stamp, LinkedStatus;
  }

  /** Neither do the guards before it. */
  lemma SameGuards(s: Tables, t: Tables, c: Command)
    requires c.DoDeliver? || c.DoRetry?
    requires t == s.(calls := t.calls)
    ensures CallMade(s, c).Some? <==> CallMade(t, c).Some?
  {
    hide Attempted, MaxAttemptNumber, Evaluate, Stamp, IsExpired, IsBeforeNotBefore, LinkedStatus;
    assert forall a :: LinkedStatus(t, a) == LinkedStatus(s, a) by { SameApprovalsSameStatus(s, t); }
    if HasAccount(s, c.workspace, c.account) && HasAction(s, c.workspace, c.account, c.id) {
      SameAttempt(s, t, c.id, c.DoRetry?, c.registry, c.reply, c.commits, c.now);
    }
  }

  lemma SameApprovalsSameStatus(s: Tables, t: Tables)
    requires s.approvals == t.approvals
    ensures forall a :: LinkedStatus(t, a) == LinkedStatus(s, a)
  {
  }

  lemma LaterCall(s: Tables, c: Command, after: seq<Command>, t: Tables, d: Command)
    requires Valid(s) && t == RunFrom(Step(s, c).0, after)
    requires CallMade(s, c).Some? && CallMade(t, d).Some? && CallMade(s, c).value.action == CallMade(t, d).value.action
    ensures CallMade(s, c).value.committed ==>
      CallMade(s, c).value.number < CallMade(t, d).value.number && !CallMade(s, c).value.delivered
  {
    hide Valid, Step, RunFrom, Stores;
    var u := Step(s, c).0;
    CallIsNumbered(s, c);
    StepKeepsValid(s, c);
    RunKeepsValid(u, after);
    StepKeepsValid(t, d);
    RunNumbers(u, after, c.id);
    StepNumbers(t, d, c.id);
    CallsAreSound(Step(t, d).0);
    assert Step(t, d).0.calls[|s.calls|] == CallMade(s, c).value;
  }

  lemma CallsAreSound(s: Tables)
    requires Valid(s)
    ensures CallsSound(s)
  {
  }

  /** After a call that delivered, a further call of the action is possible exactly when that
      call's transaction did not commit. */
  lemma CalledAgainAfterDeliveryIff(before: seq<Command>, c: Command)
    requires CallMade(Run(before), c).Some? && CallMade(Run(before), c).value.delivered
    ensures CalledAgain(Step(Run(before), c).0, CallMade(Run(before), c).value.action) <==> !c.commits
  {
    var s := Run(before);
    ReachableIsValid(before);
    CallIsNumbered(s, c);
    hide Run, Step, CallMade, Valid;
    var u, id := Step(s, c).0, CallMade(s, c).value.action;
    if !c.commits {
      LostCallRepeats(s, c);
      assert RunFrom(u, []) == u;
    } else if CalledAgain(u, id) {
      var after, d :| CallMade(RunFrom(u, after), d).Some? && CallMade(RunFrom(u, after), d).value.action == id;
      LaterCall(s, c, after, RunFrom(u, after), d);
    }
  }

  /** The number of any call can be used again exactly when its transaction did not commit. */
  lemma NumberedAgainIff(before: seq<Command>, c: Command)
    requires CallMade(Run(before), c).Some?
    ensures
      var call := CallMade(Run(before), c).value;
      NumberedAgain(Step(Run(before), c).0, call.action, call.number) <==> !c.commits
  {
    var s := Run(before);
    ReachableIsValid(before);
    CallIsNumbered(s, c);
    hide Run, Step, CallMade, Valid;
    var u, call := Step(s, c).0, CallMade(s, c).value;
    if !c.commits {
      LostCallRepeats(s, c);
      assert RunFrom(u, []) == u;
    } else if NumberedAgain(u, call.action, call.number) {
      var after, d :| CallMade(RunFrom(u, after), d).Some? && CallMade(RunFrom(u, after), d).value.action == call.action
                      && CallMade(RunFrom(u, after), d).value.number == call.number;
      LaterCall(s, c, after, RunFrom(u, after), d);
    }
  }

  /** Over every run: numbers of an action's calls never fall; a call whose transaction committed
      keeps its number to itself, and if it delivered it is the last one. */
  lemma CommittedCallsAreFinal(cs: seq<Command>, i: nat, j: nat)
    requires i < j < |Run(cs).calls| && Run(cs).calls[i].action == Run(cs).calls[j].action
    ensures Run(cs).calls[i].number <= Run(cs).calls[j].number
    ensures Run(cs).calls[i].committed ==>
      Run(cs).calls[i].number < Run(cs).calls[j].number && !Run(cs).calls[i].delivered
  {
    ReachableIsValid(cs);
    hide Run;
    assert CallsSound(Run(cs));
  }

  // ---- actions without an attempt ------------------------------------------------------------

  lemma {:induction false} NoRowsNoNumber(attempts: seq<Attempt>, id: Id)
    requires forall i :: 0 <= i < |attempts| ==> attempts[i].action != id
    ensures MaxAttemptNumber(attempts, id) == 0
  {
    if attempts != [] {
      NoRowsNoNumber(attempts[..|attempts| - 1], id);
    }
  }

  lemma UnattemptedHasNoNumber(s: Tables, id: Id)
    requires Valid(s)
    requires id in s.actions ==> s.actions[id].status in {Pending, Cancelled, Expired}
    ensures MaxAttemptNumber(s.attempts, id) == 0
  {
    if id in s.actions {
      assert LogReplays(s);
      hide Valid, LogReplays, MaxAttemptNumber;
      LiveAttempts(s, id);
      RecordedRowsDecide(s, id);
    } else {
      assert AttemptsOwned(s);
      NoRowsNoNumber(s.attempts, id);
    }
  }

  /** Over every run: a pending, cancelled or expired action, or one that a cleanup has removed,
      was never delivered as far as the tables tell. Its adapter was called if and only if a call
      for it did not commit; none of its calls did, and all were numbered 1. */
  lemma UnattemptedCallsWereLost(cs: seq<Command>, id: Id)
    requires id in Run(cs).actions ==> Run(cs).actions[id].status in {Pending, Cancelled, Expired}
    ensures
      var calls := Run(cs).calls;
      && (forall i :: 0 <= i < |calls| && calls[i].action == id ==> !calls[i].committed && calls[i].number == 1)
      && ((exists i :: 0 <= i < |calls| && calls[i].action == id)
          <==> (exists i :: 0 <= i < |calls| && calls[i].action == id && !calls[i].committed))
  {
    var s := Run(cs);
    ReachableIsValid(cs);
    hide Run, Valid, MaxAttemptNumber;
    UnattemptedHasNoNumber(s, id);
    CallsAreSound(s);
    forall i | 0 <= i < |s.calls| && s.calls[i].action == id ensures !s.calls[i].committed && s.calls[i].number == 1 {
      assert CallSound(s, s.calls[i]);
    }
  }

  // ---- sent messages -------------------------------------------------------------------------

  /** The approval was answered with a failed commit after its message had gone to the lead. */
  ghost predicate SendsUnstored(s: Tables, c: Command, p: Id) {
    && c.DoApprove? && c.approval == p && Step(s, c).1 == Refused(CommitFailed)
    && p in s.approvals && s.approvals[p].lead.Some?
  }

  ghost function UnstoredSends(cs: seq<Command>, p: Id): nat {
    if cs == [] then 0
    else
      var front := cs[..|cs| - 1];
      UnstoredSends(front, p) + if SendsUnstored(Run(front), cs[|cs| - 1], p) then 1 else 0
  }

  ghost function Executions(s: Tables, p: Id): nat {
    if p in s.approvals && s.approvals[p].status == Executed then 1 else 0
  }

  lemma ApproveSends(s: Tables, c: Command, p: Id)
    requires c.DoApprove?
    ensures
      var t := Step(s, c).0;
      multiset(t.sent)[p] + Executions(s, p)
      == multiset(s.sent)[p] + Executions(t, p) + if SendsUnstored(s, c, p) then 1 else 0
  {
    var t := Step(s, c).0;
    if t.sent != s.sent {
      assert t.sent == s.sent + [c.approval];
    }
  }

  /** Nothing is sent and no approval becomes executed. */
  ghost predicate SendsNothing(s: Tables, t: Tables) {
    t.sent == s.sent && forall p: Id :: Executions(t, p) == Executions(s, p)
  }

  lemma AttemptSendsNothing(s: Tables, c: Command)
    requires c.DoDeliver? || c.DoRetry?
    ensures SendsNothing(s, Step(s, c).0)
  {
    hide MaxAttemptNumber, RefusedBeforeAdapter, ReplyResult, Evaluate, Settled, Stamp, IsExpired, IsBeforeNotBefore, LinkedStatus;
  }

  lemma OthersSendNothing(s: Tables, c: Command)
    requires RowsLinked(s)
    requires !c.DoDeliver? && !c.DoRetry? && !c.DoApprove?
    ensures SendsNothing(s, Step(s, c).0)
  {
    hide Strip, HoldsKey, Matches, NormalizedCorrelation, InScope, Stamp, IsCleanable;
  }

  lemma StepSends(s: Tables, c: Command, p: Id)
    requires RowsLinked(s)
    ensures
      var t := Step(s, c).0;
      multiset(t.sent)[p] + Executions(s, p)
      == multiset(s.sent)[p] + Executions(t, p) + if SendsUnstored(s, c, p) then 1 else 0
  {
    hide Step, RowsLinked;
    if c.DoApprove? {
      ApproveSends(s, c, p);
    } else {
      if c.DoDeliver? || c.DoRetry? {
        AttemptSendsNothing(s, c);
      } else {
        OthersSendNothing(s, c);
      }
    }
  }

  /** Over every run a message has gone out once for its executed approval and once more for
      every approval of it whose commit failed after sending. */
  lemma {:induction false} MessagesSent(cs: seq<Command>, p: Id)
    ensures multiset(Run(cs).sent)[p] == Executions(Run(cs), p) + UnstoredSends(cs, p)
  {
    if cs != [] {
      var front := cs[..|cs| - 1];
      MessagesSent(front, p);
      ReachableIsValid(front);
      assert RowsLinked(Run(front));
      hide Step, Valid, RowsLinked, Executions, SendsUnstored;
      StepSends(Run(front), cs[|cs| - 1], p);
    }
  }

  lemma DecidedSendsNoMore(s: Tables, c: Command, p: Id)
    requires RowsLinked(s) && p in s.approvals && s.approvals[p].status != AwaitingDecision
    ensures multiset(Step(s, c).0.sent)[p] == multiset(s.sent)[p]
  {
    if c.DoApprove? {
      hide InScope;
    } else if c.DoDeliver? || c.DoRetry? {
      AttemptSendsNothing(s, c);
    } else {
      OthersSendNothing(s, c);
    }
  }

  lemma {:induction false} DecidedStaysSent(s: Tables, cs: seq<Command>, p: Id)
    requires Valid(s) && p in s.approvals && s.approvals[p].status != AwaitingDecision
    ensures multiset(RunFrom(s, cs).sent)[p] == multiset(s.sent)[p]
  {
    if cs != [] {
      var front := cs[..|cs| - 1];
      DecidedStaysSent(s, front, p);
      RunKeepsValid(s, front);
      RunLetsDecisionsStand(s, front);
      assert RowsLinked(RunFrom(s, front));
      hide Step, Valid, RowsLinked;
      DecidedSendsNoMore(RunFrom(s, front), cs[|cs| - 1], p);
    }
  }

  /** Once decided, a lead's approval has sent its message for the last time. An approved
      message was sent exactly once, and a rejected one never, exactly when no approval of it
      failed to commit after sending. The approvals that gate actions send nothing. */
  lemma DecidedMessageWasSent(before: seq<Command>, after: seq<Command>, p: Id)
    requires p in Run(before).approvals && Run(before).approvals[p].status != AwaitingDecision
    ensures
      var approval := Run(before).approvals[p];
      var sent := multiset(RunFrom(Run(before), after).sent)[p];
      && (approval.lead.None? ==> sent == 0)
      && (approval.lead.Some? ==> approval.status in {Executed, Rejected})
      && (approval.status == Executed ==> (sent == 1 <==> UnstoredSends(before, p) == 0))
      && (approval.lead.Some? && approval.status == Rejected ==> (sent == 0 <==> UnstoredSends(before, p) == 0))
  {
    var s := Run(before);
    ReachableIsValid(before);
    assert ApprovalsSound(s) && ApprovalSound(s.approvals[p]);
    MessagesSent(before, p);
    hide Run, RunFrom, Valid, UnstoredSends;
    DecidedStaysSent(s, after, p);
  }
}
