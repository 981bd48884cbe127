/** The outbound services as they run: each method walks through one transaction and is
    proved to have exactly the effect that `OutboundTables` states. */
module OutboundService {
  import opened Common
  import opened OutboundModel
  import opened RetryPolicy
  import opened OutboundTables
  import opened OutboundInvariant
  import opened OutboundPreservation
  import opened OutboundCreation

  /** Recording the retry first and then attempting is the retried attempt. */
  lemma RetriedThenAttempted(s: Tables, id: Id, called: bool, result: AdapterResult, now: Time)
    requires id in s.actions
    ensures Concluded(s.(audit := s.audit + Stamp(s, id, [RetriedEvent], now)), id, false, called, result, now)
         == Concluded(s, id, true, called, result, now)
  {
    var u := s.(audit := s.audit + Stamp(s, id, [RetriedEvent], now));
    assert u.audit + Stamp(u, id, AttemptKinds(false, result.delivered), now)
        == s.audit + Stamp(s, id, AttemptKinds(true, result.delivered), now);
    assert LinkedStatus(u, u.actions[id]) == LinkedStatus(s, s.actions[id]);
  }

  /** The linked approval is read from the approvals table alone. */
  lemma LinkedStatusReadsApprovals(s: Tables, t: Tables, a: Action)
    requires s.approvals == t.approvals
    ensures LinkedStatus(s, a) == LinkedStatus(t, a)
  {
  }

  /** The two events of an attempt, recorded one after the other. */
  lemma StampTwice(s: Tables, w: Tables, u: Tables, id: Id, first: AuditKind, second: AuditKind, now: Time)
    requires s.actions == w.actions == u.actions && id in s.actions
    requires s.audit == w.audit && u.audit == w.audit + Stamp(w, id, [first], now)
    ensures u.audit + Stamp(u, id, [second], now) == s.audit + Stamp(s, id, [first, second], now)
  {
  }

  lemma SettledKeepsIdentity(a: Action, result: AdapterResult, now: Time)
    ensures SameIdentity(a, Settled(a, result, now))
  {
  }

  /** The tables between the start of an attempt and its outcome, calls aside. */
  ghost function Started(s: Tables, id: Id, now: Time): Tables
    requires id in s.actions
  {
    var a := s.actions[id];
    var number := MaxAttemptNumber(s.attempts, id) + 1;
    var row := Attempt(|s.attempts|, a.workspace, a.account, id, number, Pending, None, now, None, None, None, None);
    s.(attempts := s.attempts + [row],
       audit := s.audit + Stamp(s, id, [AttemptedEvent], now))
  }

  lemma AssembledAttempt(s: Tables, t: Tables, id: Id, called: bool, result: AdapterResult, now: Time)
    requires id in s.actions && id in t.actions
    requires t.actions == s.actions[id := Settled(s.actions[id], result, now)]
    requires |t.attempts| == |s.attempts| + 1 && t.attempts[..|s.attempts|] == s.attempts
    requires t.attempts[|s.attempts|] == SettledAttempt(s, id, t.actions[id], now)
    requires t.audit == s.audit + Stamp(s, id, AttemptKinds(false, result.delivered), now)
    requires t == s.(actions := t.actions, attempts := t.attempts, audit := t.audit, calls := t.calls)
    ensures t == Concluded(s, id, false, called, result, now).(calls := t.calls)
  {
    hide Settled, LinkedStatus, Stamp, MaxAttemptNumber;
    assert t.attempts == s.attempts + [t.attempts[|s.attempts|]];
  }

  lemma ConcludedCalls(s: Tables, id: Id, called: bool, result: AdapterResult, now: Time)
    requires id in s.actions
    ensures var call := AdapterCall(id, MaxAttemptNumber(s.attempts, id) + 1, s.actions[id].requiresApproval,
                                    LinkedStatus(s, s.actions[id]), result.delivered, true);
            Concluded(s, id, false, called, result, now).calls == if called then s.calls + [call] else s.calls
  {
    hide LinkedStatus, MaxAttemptNumber, Stamp, Settled;
  }

  class Database {
    var accounts: map<Id, Account>
    var leads: map<Id, Id>
    var actions: map<Id, Action>
    var approvals: map<Id, Approval>
    var attempts: seq<Attempt>
    var audit: seq<AuditEvent>
    var calls: seq<AdapterCall>
    var sent: seq<Id>
    var nextId: Id

    function Contents(): Tables
      reads this
    {
      Tables(accounts, leads, actions, approvals, attempts, audit, calls, sent, nextId)
    }

    constructor ()
      ensures Contents() == EMPTY && Valid(Contents())
    {
      accounts, leads, actions, approvals := map[], map[], map[], map[];
      attempts, audit, calls, sent, nextId := [], [], [], [], 0;
      new;
      ReachableIsValid([]);
    }

    // ---- audit and attempts -----------------------------------------------------------

    method Record(id: Id, kind: AuditKind, now: Time)
      requires id in actions
      modifies this`audit
      ensures audit == old(audit) + Stamp(old(Contents()), id, [kind], now)
    {
      var a := actions[id];
      audit := audit + [AuditEvent(|audit|, a.workspace, a.account, id, kind, now)];
    }

    method RecordTransition(id: Id, source: Status, now: Time)
      requires id in actions && CanTransition(source, actions[id].status)
      modifies this`audit
      ensures audit == old(audit) + Stamp(old(Contents()), id, [EventForTarget(source, actions[id].status)], now)
    {
      var kind := EventForTarget(source, actions[id].status);
      Record(id, kind, now);
    }

    /** Adds the row of an attempt that has started but not completed. */
    method NewAttempt(id: Id, now: Time)
      requires id in actions
      modifies this`attempts
      ensures attempts == old(attempts) + [
        Attempt(|old(attempts)|, actions[id].workspace, actions[id].account, id,
                MaxAttemptNumber(old(attempts), id) + 1, Pending, None, now, None, None, None, None)]
    {
      var previous := MaxAttemptNumber(attempts, id);
      var a := actions[id];
      attempts := attempts + [
        Attempt(|attempts|, a.workspace, a.account, id, previous + 1, Pending, None, now, None, None, None, None)];
    }

    /** Writes the outcome to the action and to the last attempt row. */
    method PersistOutcome(id: Id, result: AdapterResult, now: Time)
      requires id in actions && attempts != []
      requires CanTransition(actions[id].status, Delivered) && CanTransition(actions[id].status, Failed)
      modifies this`actions, this`attempts, this`audit
      ensures actions == old(actions)[id := Settled(old(actions[id]), result, now)]
      ensures |attempts| == |old(attempts)| && attempts[..|attempts| - 1] == old(attempts[..|attempts| - 1])
      ensures attempts[|attempts| - 1]
           == old(attempts[|attempts| - 1]).(
                status := actions[id].status, deliveryId := actions[id].deliveryId, completedAt := Some(now),
                failureCode := actions[id].failureCode, failureMessage := actions[id].failureMessage,
                failureClass := actions[id].failureClass)
      ensures audit == old(audit)
                + Stamp(old(Contents()), id, [if result.delivered then DeliveredEvent else FailedEvent], now)
    {
      var previous := actions[id].status;
      var a := actions[id];
      var row := attempts[|attempts| - 1];
      if result.delivered {
        a := a.(status := Delivered, deliveryId := result.deliveryId, deliveredAt := Some(now), failedAt := None);
        a := a.(failureCode := None, failureMessage := None, failureClass := None);
        row := row.(status := Delivered, deliveryId := result.deliveryId, completedAt := Some(now));
        row := row.(failureCode := None, failureMessage := None, failureClass := None);
      } else {
        a := a.(status := Failed, deliveryId := None, deliveredAt := None, failedAt := Some(now));
        a := a.(failureCode := Some(OrDefault(result.code, "delivery_failed")));
        a := a.(failureMessage := Some(OrDefault(result.message, "Delivery failed")));
        a := a.(failureClass := result.classification);
        row := row.(status := Failed, deliveryId := None, completedAt := Some(now));
        row := row.(failureCode := a.failureCode, failureMessage := a.failureMessage, failureClass := a.failureClass);
      }
      actions := actions[id := a];
      attempts := attempts[|attempts| - 1 := row];
      RecordTransition(id, previous, now);
    }

    /** The started row and its event. */
    method StartAttempt(id: Id, now: Time)
      requires id in actions
      modifies this`attempts, this`audit
      ensures Contents() == Started(old(Contents()), id, now)
    {
      hide MaxAttemptNumber;
      NewAttempt(id, now);
      Record(id, AttemptedEvent, now);
    }

    /** Calls the adapter for the newest attempt row, unless the action is refused before that.
        The observer's record of the call says whether its transaction will commit. */
    method CallAdapter(id: Id, registry: Registry, reply: AdapterReply, commits: bool)
      returns (ghost called: bool, result: AdapterResult)
      requires id in actions && actions[id].account in accounts && attempts != []
      modifies this`calls
      ensures var refusal := RefusedBeforeAdapter(registry, accounts[actions[id].account].provider, actions[id]);
              && called == refusal.None?
              && result == if refusal.Some? then refusal.value else ReplyResult(reply)
      ensures var call := AdapterCall(id, attempts[|attempts| - 1].number, actions[id].requiresApproval,
                                      LinkedStatus(old(Contents()), actions[id]), result.delivered, commits);
              calls == if called then old(calls) + [call] else old(calls)
    {
      hide ValidateAction, ReplyResult, LinkedStatus, InternalFailure;
      var provider := accounts[actions[id].account].provider;
      if provider !in registry {
        result := InternalFailure("adapter_not_configured", "No delivery adapter is configured for this provider");
        called := false;
        return;
      }
      var refusal := ValidateAction(registry, provider, actions[id]);
      if refusal.Some? {
        called, result := false, refusal.value;
      } else {
        called, result := true, ReplyResult(reply);
        calls := calls + [AdapterCall(id, attempts[|attempts| - 1].number, actions[id].requiresApproval,
                                      LinkedStatus(Contents(), actions[id]), result.delivered, commits)];
      }
    }

    /** Completes the attempt that was started in tables `s`. */
    method CompleteAttempt(ghost s: Tables, id: Id, ghost called: bool, result: AdapterResult, now: Time)
      requires id in s.actions && s.actions[id].status in {Pending, Failed}
      requires Contents() == Started(s, id, now).(calls := calls)
      modifies this`actions, this`attempts, this`audit
      ensures Contents() == Concluded(s, id, false, called, result, now).(calls := calls)
    {
      hide MaxAttemptNumber, LinkedStatus, Stamp, Concluded, Settled;
      SettledKeepsIdentity(actions[id], result, now);
      StampTwice(s, s, Contents(), id, AttemptedEvent, if result.delivered then DeliveredEvent else FailedEvent, now);
      PersistOutcome(id, result, now);
      AssembledAttempt(s, Contents(), id, called, result, now);
    }

    /** The whole attempt: started row, adapter or refusal, outcome, commit. When the commit
        fails the session falls back to `saved`, the tables as they were last committed. */
    method DeliverAction(id: Id, registry: Registry, reply: AdapterReply, commits: bool, now: Time, saved: Tables)
      returns (r: Outcome)
      requires id in actions && actions[id].account in accounts
      requires actions[id].status in {Pending, Failed}
      requires Contents() == saved.(audit := audit)
      modifies this`actions, this`attempts, this`audit, this`calls
      ensures r == Ended(id, commits)
      ensures commits ==> Contents() == Attempted(old(Contents()), id, false, registry, reply, true, now)
      ensures !commits ==> Contents() == Attempted(saved, id, false, registry, reply, false, now)
    {
      hide RefusedBeforeAdapter, ReplyResult, MaxAttemptNumber, LinkedStatus, Concluded, Stamp;
      ghost var s := Contents();
      StartAttempt(id, now);
      LinkedStatusReadsApprovals(s, Contents(), actions[id]);
      LinkedStatusReadsApprovals(s, saved, actions[id]);
      var called, result := CallAdapter(id, registry, reply, commits);
      CompleteAttempt(s, id, called, result, now);
      ConcludedCalls(s, id, called, result, now);
      if !commits {
        actions, attempts, audit := saved.actions, saved.attempts, saved.audit;
        return Refused(CommitFailed);
      }
      return Ok(id);
    }

    // ---- delivery ---------------------------------------------------------------------

    method DeliverPendingAction(workspace: Id, account: Id, id: Id, registry: Registry, reply: AdapterReply, commits: bool, now: Time)
      returns (r: Outcome)
      requires Valid(Contents())
      modifies this`actions, this`attempts, this`audit, this`calls
      ensures (Contents(), r) == Deliver(old(Contents()), workspace, account, id, registry, reply, commits, now)
      ensures Valid(Contents())
    {
      hide Valid, Attempted;
      DeliverKeepsValid(Contents(), workspace, account, id, registry, reply, commits, now);
      if account !in accounts || accounts[account].workspace != workspace { return Refused(AccountNotFound); }
      if !accounts[account].active { return Refused(AccountInactive); }
      if id !in actions || actions[id].workspace != workspace || actions[id].account != account {
        return Refused(ActionNotFound);
      }
      if actions[id].status == Pending && IsExpired(actions[id], now) {
        if !commits { return Refused(CommitFailed); }
        var previous := actions[id].status;
        actions := actions[id := actions[id].(status := Expired, expiredAt := Some(now))];
        RecordTransition(id, previous, now);
        return Refused(ActionExpired);
      }
      if actions[id].status != Pending { return Refused(AlreadyProcessed); }
      if IsBeforeNotBefore(actions[id], now) { return Refused(NotReady); }
      var gate := ApprovalGate(Contents(), workspace, actions[id]);
      if gate == WasRejected { return Refused(ApprovalWasRejected); }
      if gate != Open { return Refused(ApprovalIsRequired); }
      r := DeliverAction(id, registry, reply, commits, now, Contents());
    }

    method RetryFailedAction(workspace: Id, account: Id, id: Id, policy: Policy,
                             registry: Registry, reply: AdapterReply, commits: bool, now: Time)
      returns (r: Outcome)
      requires Valid(Contents())
      modifies this`actions, this`attempts, this`audit, this`calls
      ensures (Contents(), r) == Retry(old(Contents()), workspace, account, id, policy, registry, reply, commits, now)
      ensures Valid(Contents())
    {
      hide Valid, Concluded, Lost, RefusedBeforeAdapter, ReplyResult, Evaluate;
      RetryKeepsValid(Contents(), workspace, account, id, policy, registry, reply, commits, now);
      ghost var s := Contents();
      if account !in accounts || accounts[account].workspace != workspace { return Refused(AccountNotFound); }
      if !accounts[account].active { return Refused(AccountInactive); }
      if id !in actions || actions[id].workspace != workspace || actions[id].account != account {
        return Refused(ActionNotFound);
      }
      if actions[id].status != Failed { return Refused(NotRetryable); }
      var eligibility := Evaluate(policy, MaxAttemptNumber(attempts, id), actions[id].failureCode, actions[id].failureClass);
      if eligibility.CodeRejected? { return Refused(RetryCodeRejected); }
      if eligibility.Denied? { return Refused(RetryDenied(eligibility.reason)); }
      var saved := Contents();
      Record(id, RetriedEvent, now);
      r := DeliverAction(id, registry, reply, commits, now, saved);
      ghost var refusal := RefusedBeforeAdapter(registry, accounts[account].provider, s.actions[id]);
      RetriedThenAttempted(s, id, refusal.None?, if refusal.Some? then refusal.value else ReplyResult(reply), now);
    }

    method CancelPendingAction(workspace: Id, account: Id, id: Id, now: Time) returns (r: Outcome)
      requires Valid(Contents())
      modifies this`actions, this`audit
      ensures (Contents(), r) == Cancel(old(Contents()), workspace, account, id, now)
      ensures Valid(Contents())
    {
      hide Valid;
      CancelKeepsValid(Contents(), workspace, account, id, now);
      if account !in accounts || accounts[account].workspace != workspace { return Refused(AccountNotFound); }
      if id !in actions || actions[id].workspace != workspace || actions[id].account != account {
        return Refused(ActionNotFound);
      }
      var previous := actions[id].status;
      if !CanTransition(previous, Cancelled) { return Refused(NotCancellable); }
      actions := actions[id := actions[id].(status := Cancelled, cancelledAt := Some(now))];
      RecordTransition(id, previous, now);
      return Ok(id);
    }

    // ---- creation ---------------------------------------------------------------------

    /** Adds the approval that gates an action and links it. */
    method CreateApproval(id: Id, approval: Id, now: Time)
      requires id in actions
      modifies this`approvals, this`actions
      ensures approvals == old(approvals)[approval := Approval(None, AwaitingDecision, None, now)]
      ensures actions == old(actions)[id := old(actions[id]).(approval := Some(approval))]
    {
      approvals := approvals[approval := Approval(None, AwaitingDecision, None, now)];
      actions := actions[id := actions[id].(approval := Some(approval))];
    }

    method InsertAction(workspace: Id, account: Id, d: Draft, now: Time) returns (id: Id)
      modifies this`actions, this`approvals, this`audit, this`nextId
      ensures Contents() == Inserted(old(Contents()), workspace, account, d, now) && id == old(nextId)
    {
      hide Strip, NormalizedCorrelation;
      ghost var t := Inserted(Contents(), workspace, account, d, now);
      id := nextId;
      actions := actions[id := FreshAction(workspace, account, d, None, now)];
      if d.requiresApproval {
        CreateApproval(id, nextId + 1, now);
      }
      assert actions == t.actions;
      Record(id, CreatedEvent, now);
      assert audit == t.audit;
      nextId := nextId + 2;
    }

    method CreateAction(workspace: Id, account: Id, d: Draft, now: Time) returns (r: Outcome)
      requires Valid(Contents())
      modifies this`actions, this`approvals, this`audit, this`nextId
      ensures (Contents(), r) == Create(old(Contents()), workspace, account, d, now)
      ensures Valid(Contents())
    {
      ghost var s := Contents();
      assert KeysUnique(s);
      hide Valid, KeysUnique, Inserted, Strip, NormalizedCorrelation;
      CreateKeepsValid(s, workspace, account, d, now);
      if account !in accounts || accounts[account].workspace != workspace { return Refused(AccountNotFound); }
      if !accounts[account].active { return Refused(AccountInactive); }
      var key := Strip(d.key);
      if id :| id in actions && actions[id].workspace == workspace && actions[id].account == account && actions[id].key == key {
        CreateFindsHolder(s, workspace, account, d, now, id);
        if !Matches(actions[id], d) { return Refused(KeyConflict); }
        return Ok(id);
      }
      assert !exists id :: HoldsKey(s, workspace, account, key, id);
      var id := InsertAction(workspace, account, d, now);
      return Ok(id);
    }

    // ---- approval decisions -----------------------------------------------------------

    method RecordDecision(approval: Id, status: ApprovalStatus, actor: Actor, note: Option<string>, now: Time)
      requires approval in approvals
      modifies this`approvals
      ensures Contents() == Decide(old(Contents()), approval, status, actor, note, now)
    {
      var p := approvals[approval].(status := status);
      approvals := approvals[approval := p.(decision := Some(Decision(actor, note, now)))];
    }

    method PendingScopedApproval(workspace: Id, approval: Id, actor: Actor) returns (error: Option<Error>)
      ensures error == PendingDecisionError(Contents(), workspace, approval, actor)
    {
      if actor.workspace != workspace { return Some(ActorMismatch); }
      if approval !in approvals { return Some(ApprovalNotFound); }
      var lead := approvals[approval].lead;
      var ofLead := lead.Some? && lead.value in leads && leads[lead.value] == workspace;
      if !ofLead && !exists id :: id in actions && actions[id].approval == Some(approval) && actions[id].workspace == workspace {
        return Some(ApprovalNotFound);
      }
      if approvals[approval].status != AwaitingDecision { return Some(AlreadyDecided); }
      return None;
    }

    method ApproveRequest(workspace: Id, approval: Id, actor: Actor, note: Option<string>, channelDelivers: bool, commits: bool, now: Time)
      returns (r: Outcome)
      requires Valid(Contents())
      modifies this`approvals, this`sent
      ensures (Contents(), r) == Approve(old(Contents()), workspace, approval, actor, note, channelDelivers, commits, now)
      ensures Valid(Contents())
    {
      hide Valid;
      ApproveKeepsValid(Contents(), workspace, approval, actor, note, channelDelivers, commits, now);
      var error := PendingScopedApproval(workspace, approval, actor);
      if error.Some? { return Refused(error.value); }
      if approvals[approval].lead.None? {
        if !commits { return Refused(CommitFailed); }
        RecordDecision(approval, Approved, actor, note, now);
        return Ok(approval);
      }
      if !channelDelivers { return Refused(ChannelFailed); }
      sent := sent + [approval];
      if !commits { return Refused(CommitFailed); }
      RecordDecision(approval, Executed, actor, note, now);
      return Ok(approval);
    }

    method RejectRequest(workspace: Id, approval: Id, actor: Actor, note: Option<string>, now: Time) returns (r: Outcome)
      requires Valid(Contents())
      modifies this`approvals
      ensures (Contents(), r) == Reject(old(Contents()), workspace, approval, actor, note, now)
      ensures Valid(Contents())
    {
      hide Valid;
      ApproveKeepsValid(Contents(), workspace, approval, actor, note, true, true, now);
      var error := PendingScopedApproval(workspace, approval, actor);
      if error.Some? { return Refused(error.value); }
      RecordDecision(approval, Rejected, actor, note, now);
      return Ok(approval);
    }

    // ---- archiving and maintenance ----------------------------------------------------

    method ArchiveAction(workspace: Id, id: Id, now: Time) returns (r: Outcome)
      requires Valid(Contents())
      modifies this`actions, this`audit
      ensures (Contents(), r) == Archive(old(Contents()), workspace, id, now)
      ensures Valid(Contents())
    {
      hide Valid;
      ArchiveKeepsValid(Contents(), workspace, id, now);
      if !HasJoinedAction(Contents(), workspace, id) {
        return Refused(ActionNotFound);
      }
      if actions[id].archivedAt.Some? { return Refused(AlreadyArchived); }
      if !IsTerminal(actions[id].status) { return Refused(NotArchivable); }
      actions := actions[id := actions[id].(archivedAt := Some(now))];
      Record(id, ArchivedEvent, now);
      return Ok(id);
    }

    method UnarchiveAction(workspace: Id, id: Id, now: Time) returns (r: Outcome)
      requires Valid(Contents())
      modifies this`actions, this`audit
      ensures (Contents(), r) == Unarchive(old(Contents()), workspace, id, now)
      ensures Valid(Contents())
    {
      hide Valid;
      UnarchiveKeepsValid(Contents(), workspace, id, now);
      if !HasJoinedAction(Contents(), workspace, id) {
        return Refused(ActionNotFound);
      }
      if actions[id].archivedAt.None? { return Refused(NotArchived); }
      actions := actions[id := actions[id].(archivedAt := None)];
      Record(id, UnarchivedEvent, now);
      return Ok(id);
    }

    method ChangePriority(workspace: Id, id: Id, priority: Priority) returns (r: Outcome)
      requires Valid(Contents())
      modifies this`actions
      ensures (Contents(), r) == SetPriority(old(Contents()), workspace, id, priority)
      ensures Valid(Contents())
    {
      hide Valid;
      LabelsKeepValid(Contents(), workspace, id, priority, None);
      if !HasJoinedAction(Contents(), workspace, id) {
        return Refused(ActionNotFound);
      }
      actions := actions[id := actions[id].(priority := priority)];
      return Ok(id);
    }

    method CleanupExpired(workspace: Id, cutoff: Time) returns (r: Outcome)
      requires Valid(Contents())
      modifies this`actions
      ensures (Contents(), r) == Cleanup(old(Contents()), workspace, cutoff)
      ensures Valid(Contents())
    {
      hide Valid;
      CleanupKeepsValid(Contents(), workspace, cutoff);
      var doomed := set id | id in actions && IsCleanable(actions[id], workspace, cutoff);
      actions := actions - doomed;
      return Removed(|doomed|);
    }
  }
}
