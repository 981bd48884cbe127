/** Every service call keeps the invariant. */
module OutboundPreservation {
  import opened Common
  import opened OutboundModel
  import opened RetryPolicy
  import opened OutboundTables
  import opened AuditReplay
  import opened OutboundInvariant

  /** The fields of an action that no later call may change. */
  predicate SameIdentity(a: Action, b: Action) {
    && a.workspace == b.workspace
    && a.account == b.account
    && a.key == b.key
    && a.requiresApproval == b.requiresApproval
    && a.approval == b.approval
  }

  /** `t` is `s` with one action overwritten, its events appended, and possibly one attempt. */
  ghost predicate Amends(s: Tables, t: Tables, id: Id) {
    && id in s.actions && id in t.actions
    && t.actions == s.actions[id := t.actions[id]]
    && SameIdentity(s.actions[id], t.actions[id])
    && t.accounts == s.accounts && t.leads == s.leads && t.approvals == s.approvals
    && t.sent == s.sent && t.nextId == s.nextId
    && s.audit <= t.audit
    && (forall i :: |s.audit| <= i < |t.audit| ==>
          && t.audit[i].id == i && t.audit[i].action == id
          && t.audit[i].workspace == s.actions[id].workspace && t.audit[i].account == s.actions[id].account)
    && (t.attempts == s.attempts || AddsAttempt(s, t, id))
  }

  ghost predicate AddsAttempt(s: Tables, t: Tables, id: Id)
    requires id in s.actions
  {
    && |t.attempts| == |s.attempts| + 1
    && t.attempts == s.attempts + [t.attempts[|s.attempts|]]
    && t.attempts[|s.attempts|].id == |s.attempts|
    && t.attempts[|s.attempts|].action == id
    && t.attempts[|s.attempts|].workspace == s.actions[id].workspace
    && t.attempts[|s.attempts|].account == s.actions[id].account
  }

  lemma AmendKeepsRows(s: Tables, t: Tables, id: Id)
    requires RowsLinked(s) && AttemptsOwned(s) && Amends(s, t, id)
    ensures RowsLinked(t) && AttemptsOwned(t)
  {
    forall i | 0 <= i < |t.audit|
      ensures t.audit[i].id == i && t.audit[i].action < t.nextId
      ensures t.audit[i].action in t.actions ==>
                t.audit[i].workspace == t.actions[t.audit[i].action].workspace
                && t.audit[i].account == t.actions[t.audit[i].action].account
    {
      if i < |s.audit| {
        assert t.audit[i] == s.audit[i];
      }
    }
  }

  lemma AmendKeepsLinks(s: Tables, t: Tables, id: Id)
    requires LinksSound(s) && KeysUnique(s) && ApprovalsSound(s) && Amends(s, t, id)
    ensures LinksSound(t) && KeysUnique(t) && ApprovalsSound(t)
  {
    forall j | j in t.actions ensures LinkSound(t, j) {
      assert LinkSound(s, j);
    }
  }

  lemma AmendLeavesOthers(s: Tables, t: Tables, id: Id, other: Id)
    requires Amends(s, t, id) && other != id
    ensures EventsOf(t.audit, other) == EventsOf(s.audit, other)
    ensures AttemptsOf(t.attempts, other) == AttemptsOf(s.attempts, other)
    ensures MaxAttemptNumber(t.attempts, other) == MaxAttemptNumber(s.attempts, other)
  {
    var more := t.audit[|s.audit|..];
    assert t.audit == s.audit + more;
    EventsOfConcat(s.audit, more, other);
    EventsOfSingle(more, id, other);
    if t.attempts != s.attempts {
      AttemptsOfAppend(s.attempts, t.attempts[|s.attempts|], other);
      MaxAttemptNumberAppend(s.attempts, t.attempts[|s.attempts|], other);
    }
  }

  lemma AmendExtendsWord(s: Tables, t: Tables, id: Id)
    requires Amends(s, t, id)
    ensures EventsOf(t.audit, id) == EventsOf(s.audit, id) + t.audit[|s.audit|..]
  {
    var more := t.audit[|s.audit|..];
    assert t.audit == s.audit + more;
    EventsOfConcat(s.audit, more, id);
    EventsOfSingle(more, id, id);
  }

  lemma AmendKeepsReplay(s: Tables, t: Tables, id: Id)
    requires LogReplays(s) && Amends(s, t, id)
    requires Replay(EventsOf(t.audit, id)) == Recorded(t, id)
    ensures LogReplays(t)
  {
    forall other: Id
      ensures !Replay(EventsOf(t.audit, other)).Illegal?
      ensures other in t.actions ==> Replay(EventsOf(t.audit, other)) == Recorded(t, other)
    {
      if other != id {
        AmendLeavesOthers(s, t, id, other);
        assert !Replay(EventsOf(s.audit, other)).Illegal?;
      }
    }
  }

  lemma AmendKeepsGate(s: Tables, t: Tables, id: Id)
    requires GatePassed(s) && Amends(s, t, id)
    requires t.actions[id].status in {Failed, Delivered} && t.actions[id].requiresApproval ==>
               LinkedStatus(s, s.actions[id]) == Some(Approved)
    ensures GatePassed(t)
  {
    forall j | j in t.actions && t.actions[j].status in {Failed, Delivered} && t.actions[j].requiresApproval
      ensures LinkedStatus(t, t.actions[j]) == Some(Approved)
    {
      assert LinkedStatus(t, t.actions[j]) == LinkedStatus(s, s.actions[j]);
    }
  }

  /** Calls survive an amendment that adds none and does not undo a delivery. */
  lemma AmendKeepsCalls(s: Tables, t: Tables, id: Id)
    requires CallsSound(s) && Amends(s, t, id)
    requires t.calls == s.calls && t.attempts == s.attempts
    requires s.actions[id].status == Delivered ==> t.actions[id].status == Delivered
    ensures CallsSound(t)
  {
  }

  // ---- events without an attempt -----------------------------------------------------

  lemma TouchReplays(s: Tables, id: Id, a: Action, kind: AuditKind, now: Time)
    requires LogReplays(s) && id in s.actions && Amends(s, Touch(s, id, a, [kind], now), id)
    requires Next(Recorded(s, id), Stamp(s, id, [kind], now)[0]) == Recorded(Touch(s, id, a, [kind], now), id)
    ensures LogReplays(Touch(s, id, a, [kind], now))
  {
    hide Next, Recorded, EventsOf;
    var t := Touch(s, id, a, [kind], now);
    AmendExtendsWord(s, t, id);
    var e := Stamp(s, id, [kind], now)[0];
    assert t.audit[|s.audit|..] == [e];
    ReplayAppend(EventsOf(s.audit, id), e);
    AmendKeepsReplay(s, t, id);
  }

  /** Cancelling, expiring, archiving, unarchiving: one event that the automaton accepts. */
  lemma TouchKeepsValid(s: Tables, id: Id, a: Action, kind: AuditKind, now: Time)
    requires Valid(s) && id in s.actions && SameIdentity(s.actions[id], a)
    requires var t := Touch(s, id, a, [kind], now);
             Next(Recorded(s, id), Stamp(s, id, [kind], now)[0]) == Recorded(t, id)
    requires s.actions[id].status == a.status || a.status in {Cancelled, Expired}
    requires s.actions[id].status == Delivered ==> a.status == Delivered
    ensures Valid(Touch(s, id, a, [kind], now))
  {
    hide AttemptsOwned, KeysUnique, LogReplays, LinksSound, ApprovalsSound, CallsSound, Replay, Next, Recorded;
    var t := Touch(s, id, a, [kind], now);
    AmendKeepsRows(s, t, id);
    AmendKeepsLinks(s, t, id);
    TouchReplays(s, id, a, kind, now);
    AmendKeepsGate(s, t, id);
    AmendKeepsCalls(s, t, id);
  }

  /** A field that no event records: priority, owner. */
  lemma RelabelKeepsValid(s: Tables, id: Id, a: Action)
    requires Valid(s) && id in s.actions && SameIdentity(s.actions[id], a)
    requires Recorded(s.(actions := s.actions[id := a]), id) == Recorded(s, id)
    ensures Valid(s.(actions := s.actions[id := a]))
  {
    var t := s.(actions := s.actions[id := a]);
    AmendKeepsRows(s, t, id);
    AmendKeepsLinks(s, t, id);
    AmendKeepsReplay(s, t, id);
    AmendKeepsGate(s, t, id);
    AmendKeepsCalls(s, t, id);
  }

  // ---- one delivery attempt ----------------------------------------------------------

  lemma AttemptAmends(s: Tables, id: Id, retried: bool, called: bool, result: AdapterResult, now: Time)
    requires id in s.actions
    ensures Amends(s, Concluded(s, id, retried, called, result, now), id)
  {
  }

  lemma AttemptRecorded(s: Tables, id: Id, retried: bool, called: bool, result: AdapterResult, now: Time)
    requires LogReplays(s) && id in s.actions
    requires s.actions[id].status == if retried then Failed else Pending
    ensures var t := Concluded(s, id, retried, called, result, now);
            Recorded(t, id) == AfterAttempt(Recorded(s, id), t.actions[id].status == Delivered, now)
  {
    var t := Concluded(s, id, retried, called, result, now);
    var row := t.attempts[|s.attempts|];
    var before := AttemptsOf(s.attempts, id);
    assert row.number == |before| + 1 by {
      LiveAttempts(s, id);
    }
    AttemptsOfAppend(s.attempts, row, id);
    hide LogReplays, Replay, Next;
    assert MarksOf(before + [row]) == MarksOf(before) + [AttemptMark(|before| + 1, row.status, now, Some(now))];
  }

  lemma RecordedIsReplayed(s: Tables, id: Id)
    requires LogReplays(s) && id in s.actions
    ensures Replay(EventsOf(s.audit, id)) == Recorded(s, id)
  {
  }

  lemma AttemptReplays(s: Tables, id: Id, retried: bool, called: bool, result: AdapterResult, now: Time)
    requires LogReplays(s) && id in s.actions
    requires s.actions[id].status == if retried then Failed else Pending
    ensures var t := Concluded(s, id, retried, called, result, now);
            Replay(EventsOf(t.audit, id)) == Recorded(t, id)
  {
    hide LogReplays, EventsOf, AttemptsOf, MaxAttemptNumber, LinkedStatus, Replay, Amends;
    var t := Concluded(s, id, retried, called, result, now);
    RecordedIsReplayed(s, id);
    AttemptAmends(s, id, retried, called, result, now);
    AttemptRecorded(s, id, retried, called, result, now);
    AmendExtendsWord(s, t, id);
    ReplayAttempt(EventsOf(s.audit, id), t.audit[|s.audit|..], retried, t.actions[id].status == Delivered, now);
  }

  lemma ConcludedNumbers(s: Tables, id: Id, retried: bool, called: bool, result: AdapterResult, now: Time)
    requires id in s.actions
    ensures forall other: Id ::
      MaxAttemptNumber(Concluded(s, id, retried, called, result, now).attempts, other)
      == MaxAttemptNumber(s.attempts, other) + if other == id then 1 else 0
  {
    var t := Concluded(s, id, retried, called, result, now);
    forall other: Id
      ensures MaxAttemptNumber(t.attempts, other) == MaxAttemptNumber(s.attempts, other) + if other == id then 1 else 0
    {
      MaxAttemptNumberAppend(s.attempts, t.attempts[|s.attempts|], other);
    }
  }

  lemma AttemptKeepsCalls(s: Tables, id: Id, retried: bool, called: bool, result: AdapterResult, now: Time)
    requires RowsLinked(s) && CallsSound(s) && id in s.actions
    requires s.actions[id].status == if retried then Failed else Pending
    requires s.actions[id].requiresApproval ==> LinkedStatus(s, s.actions[id]) == Some(Approved)
    ensures CallsSound(Concluded(s, id, retried, called, result, now))
  {
    var t := Concluded(s, id, retried, called, result, now);
    ConcludedNumbers(s, id, retried, called, result, now);
    CallsGrow(s, t, id, t.attempts[|s.attempts|].number);
  }

  lemma CallsGrow(s: Tables, t: Tables, id: Id, number: nat)
    requires CallsSound(s) && t.nextId == s.nextId && id < s.nextId
    requires id in s.actions && s.actions[id].status != Delivered
    requires id in t.actions && t.actions == s.actions[id := t.actions[id]]
    requires number == MaxAttemptNumber(s.attempts, id) + 1
    requires forall other: Id ::
      MaxAttemptNumber(t.attempts, other) == MaxAttemptNumber(s.attempts, other) + if other == id then 1 else 0
    requires t.calls == s.calls ||
      exists c :: t.calls == s.calls + [c] && c.action == id && c.number == number
        && (c.delivered ==> t.actions[id].status == Delivered)
        && (c.requiresApproval ==> c.approval == Some(Approved))
    ensures CallsSound(t)
  {
    hide MaxAttemptNumber;
    forall i | 0 <= i < |t.calls| ensures CallSound(t, t.calls[i]) {
      if i < |s.calls| {
        assert CallSound(s, s.calls[i]);
      }
    }
    forall i | 0 <= i < |s.calls| && s.calls[i].action == id
      ensures s.calls[i].number <= number && (s.calls[i].committed ==> s.calls[i].number < number && !s.calls[i].delivered)
    {
      assert CallSound(s, s.calls[i]);
    }
  }

  /** A lost attempt adds one more call and nothing else. */
  lemma LostKeepsCalls(s: Tables, id: Id, result: AdapterResult)
    requires RowsLinked(s) && CallsSound(s) && id in s.actions && s.actions[id].status != Delivered
    requires s.actions[id].requiresApproval ==> LinkedStatus(s, s.actions[id]) == Some(Approved)
    ensures CallsSound(Lost(s, id, result))
  {
    hide MaxAttemptNumber;
    var t := Lost(s, id, result);
    var n := |s.calls|;
    forall i | 0 <= i < |t.calls| ensures CallSound(t, t.calls[i]) {
      if i < n {
        assert CallSound(s, s.calls[i]);
      }
    }
    forall i | 0 <= i < n && s.calls[i].action == id
      ensures s.calls[i].number <= t.calls[n].number
      ensures s.calls[i].committed ==> s.calls[i].number < t.calls[n].number && !s.calls[i].delivered
    {
      assert CallSound(s, s.calls[i]);
    }
  }

  lemma LostKeepsValid(s: Tables, id: Id, result: AdapterResult)
    requires Valid(s) && id in s.actions && s.actions[id].status in {Pending, Failed}
    requires s.actions[id].requiresApproval ==> LinkedStatus(s, s.actions[id]) == Some(Approved)
    ensures Valid(Lost(s, id, result))
  {
    hide RowsLinked, AttemptsOwned, KeysUnique, LogReplays, LinksSound, GatePassed, ApprovalsSound, CallsSound;
    hide LinkedStatus, MaxAttemptNumber;
    var t := Lost(s, id, result);
    LostKeepsCalls(s, id, result);
    SameRows(s, t);
    SameLog(s, t);
    SameLinks(s, t);
    SameApprovals(s, t);
  }

  lemma SameRows(s: Tables, t: Tables)
    requires RowsLinked(s) && AttemptsOwned(s) && KeysUnique(s)
    requires t == s.(calls := t.calls)
    ensures RowsLinked(t) && AttemptsOwned(t) && KeysUnique(t)
  {
  }

  lemma AttemptKeepsValid(s: Tables, id: Id, retried: bool, called: bool, result: AdapterResult, now: Time)
    requires Valid(s) && id in s.actions
    requires s.actions[id].status == if retried then Failed else Pending
    requires s.actions[id].requiresApproval ==> LinkedStatus(s, s.actions[id]) == Some(Approved)
    ensures Valid(Concluded(s, id, retried, called, result, now))
  {
    var t := Concluded(s, id, retried, called, result, now);
    AttemptAmends(s, id, retried, called, result, now);
    AttemptReplays(s, id, retried, called, result, now);
    AttemptKeepsCalls(s, id, retried, called, result, now);
    hide Concluded;
    AmendKeepsRows(s, t, id);
    AmendKeepsLinks(s, t, id);
    AmendKeepsReplay(s, t, id);
    AmendKeepsGate(s, t, id);
  }

  lemma ActionHasAccount(s: Tables, id: Id)
    requires Valid(s) && id in s.actions
    ensures s.actions[id].account in s.accounts
  {
  }

  lemma AttemptedKeepsValid(s: Tables, id: Id, retried: bool, registry: Registry, reply: AdapterReply, commits: bool, now: Time)
    requires Valid(s) && id in s.actions
    requires s.actions[id].status == if retried then Failed else Pending
    requires s.actions[id].requiresApproval ==> LinkedStatus(s, s.actions[id]) == Some(Approved)
    ensures s.actions[id].account in s.accounts
    ensures Valid(Attempted(s, id, retried, registry, reply, commits, now))
  {
    hide Valid, Concluded, Lost, RefusedBeforeAdapter, ReplyResult, LinkedStatus;
    ActionHasAccount(s, id);
    var refusal := RefusedBeforeAdapter(registry, s.accounts[s.actions[id].account].provider, s.actions[id]);
    if refusal.Some? {
      AttemptKeepsValid(s, id, retried, false, refusal.value, now);
    } else {
      AttemptKeepsValid(s, id, retried, true, ReplyResult(reply), now);
      LostKeepsValid(s, id, ReplyResult(reply));
    }
  }

  lemma ExpireKeepsValid(s: Tables, id: Id, now: Time)
    requires Valid(s) && id in s.actions && s.actions[id].status == Pending
    ensures Valid(Touch(s, id, s.actions[id].(status := Expired, expiredAt := Some(now)), [ExpiredEvent], now))
  {
    hide Valid, Replay;
    TouchKeepsValid(s, id, s.actions[id].(status := Expired, expiredAt := Some(now)), ExpiredEvent, now);
  }

  lemma CancelPendingKeepsValid(s: Tables, id: Id, now: Time)
    requires Valid(s) && id in s.actions && s.actions[id].status == Pending
    ensures Valid(Touch(s, id, s.actions[id].(status := Cancelled, cancelledAt := Some(now)), [CancelledEvent], now))
  {
    hide Valid, Replay;
    TouchKeepsValid(s, id, s.actions[id].(status := Cancelled, cancelledAt := Some(now)), CancelledEvent, now);
  }

  lemma FailedPassedGate(s: Tables, id: Id)
    requires Valid(s) && id in s.actions && s.actions[id].status == Failed && s.actions[id].requiresApproval
    ensures LinkedStatus(s, s.actions[id]) == Some(Approved)
  {
  }

  lemma DeliverKeepsValid(s: Tables, workspace: Id, account: Id, id: Id, registry: Registry, reply: AdapterReply, commits: bool, now: Time)
    requires Valid(s)
    ensures Valid(Deliver(s, workspace, account, id, registry, reply, commits, now).0)
  {
    hide Valid, Touch, Attempted, LinkedStatus;
    if HasAccount(s, workspace, account) && HasAction(s, workspace, account, id) && s.actions[id].status == Pending {
      var a := s.actions[id];
      if IsExpired(a, now) {
        ExpireKeepsValid(s, id, now);
      } else if ApprovalGate(s, workspace, a) == Open {
        AttemptedKeepsValid(s, id, false, registry, reply, commits, now);
      }
    }
  }

  /** Retrying never looks at the approval: that the gate was passed is the invariant's doing. */
  lemma RetryKeepsValid(s: Tables, workspace: Id, account: Id, id: Id, policy: Policy,
                        registry: Registry, reply: AdapterReply, commits: bool, now: Time)
    requires Valid(s)
    ensures Valid(Retry(s, workspace, account, id, policy, registry, reply, commits, now).0)
  {
    hide Valid, Attempted, LinkedStatus, Evaluate, MaxAttemptNumber;
    if HasAction(s, workspace, account, id) && s.actions[id].status == Failed {
      if s.actions[id].requiresApproval {
        FailedPassedGate(s, id);
      }
      AttemptedKeepsValid(s, id, true, registry, reply, commits, now);
    }
  }

  lemma CancelKeepsValid(s: Tables, workspace: Id, account: Id, id: Id, now: Time)
    requires Valid(s)
    ensures Valid(Cancel(s, workspace, account, id, now).0)
  {
    hide Valid, Touch;
    if HasAction(s, workspace, account, id) && CanTransition(s.actions[id].status, Cancelled) {
      CancelPendingKeepsValid(s, id, now);
    }
  }

  lemma ArchiveKeepsValid(s: Tables, workspace: Id, id: Id, now: Time)
    requires Valid(s)
    ensures Valid(Archive(s, workspace, id, now).0)
  {
    hide Valid;
    if HasJoinedAction(s, workspace, id) && s.actions[id].archivedAt.None? && IsTerminal(s.actions[id].status) {
      TouchKeepsValid(s, id, s.actions[id].(archivedAt := Some(now)), ArchivedEvent, now);
    }
  }

  lemma UnarchiveKeepsValid(s: Tables, workspace: Id, id: Id, now: Time)
    requires Valid(s)
    ensures Valid(Unarchive(s, workspace, id, now).0)
  {
    hide Valid;
    if HasJoinedAction(s, workspace, id) && s.actions[id].archivedAt.Some? {
      TouchKeepsValid(s, id, s.actions[id].(archivedAt := None), UnarchivedEvent, now);
    }
  }

  lemma LabelsKeepValid(s: Tables, workspace: Id, id: Id, priority: Priority, owner: Option<string>)
    requires Valid(s)
    ensures Valid(SetPriority(s, workspace, id, priority).0)
    ensures Valid(SetOwner(s, workspace, id, owner).0)
  {
    if HasJoinedAction(s, workspace, id) {
      RelabelKeepsValid(s, id, s.actions[id].(priority := priority));
      RelabelKeepsValid(s, id, s.actions[id].(owner := owner));
    }
  }

  // ---- creation, decisions, cleanup --------------------------------------------------

  lemma InsertKeepsRows(s: Tables, workspace: Id, account: Id, d: Draft, now: Time)
    requires RowsLinked(s) && AttemptsOwned(s) && HasAccount(s, workspace, account)
    ensures RowsLinked(Inserted(s, workspace, account, d, now))
    ensures AttemptsOwned(Inserted(s, workspace, account, d, now))
  {
  }

  lemma InsertKeepsKeys(s: Tables, workspace: Id, account: Id, d: Draft, now: Time)
    requires KeysUnique(s)
    requires !exists id :: HoldsKey(s, workspace, account, Strip(d.key), id)
    ensures KeysUnique(Inserted(s, workspace, account, d, now))
  {
    hide Strip;
    forall j | j in s.actions ensures !HoldsKey(s, workspace, account, Strip(d.key), j) {
    }
  }

  lemma InsertKeepsLinks(s: Tables, workspace: Id, account: Id, d: Draft, now: Time)
    requires RowsLinked(s) && LinksSound(s)
    ensures LinksSound(Inserted(s, workspace, account, d, now))
  {
    hide Strip, NormalizedCorrelation;
    var t := Inserted(s, workspace, account, d, now);
    forall j | j in t.actions ensures LinkSound(t, j) {
      if j != s.nextId {
        assert LinkSound(s, j);
      }
    }
    forall j | j in s.actions ensures LinkSound(s, j) {
    }
  }

  lemma InsertKeepsApprovals(s: Tables, workspace: Id, account: Id, d: Draft, now: Time)
    requires RowsLinked(s) && ApprovalsSound(s)
    ensures ApprovalsSound(Inserted(s, workspace, account, d, now))
  {
    hide Strip, NormalizedCorrelation;
  }

  lemma InsertKeepsGate(s: Tables, workspace: Id, account: Id, d: Draft, now: Time)
    requires RowsLinked(s) && LinksSound(s) && GatePassed(s)
    ensures GatePassed(Inserted(s, workspace, account, d, now))
  {
    hide Strip, NormalizedCorrelation;
    var t := Inserted(s, workspace, account, d, now);
    forall j | j in s.actions ensures t.actions[j] == s.actions[j] && LinkedStatus(t, t.actions[j]) == LinkedStatus(s, s.actions[j]) {
      assert LinkSound(s, j);
    }
  }

  lemma InsertKeepsCalls(s: Tables, workspace: Id, account: Id, d: Draft, now: Time)
    requires RowsLinked(s) && CallsSound(s)
    ensures CallsSound(Inserted(s, workspace, account, d, now))
  {
  }

  lemma InsertReplays(s: Tables, workspace: Id, account: Id, d: Draft, now: Time, other: Id)
    requires RowsLinked(s) && AttemptsOwned(s) && LogReplays(s)
    ensures var t := Inserted(s, workspace, account, d, now);
            && !Replay(EventsOf(t.audit, other)).Illegal?
            && (other in t.actions ==> Replay(EventsOf(t.audit, other)) == Recorded(t, other))
  {
    hide Strip, NormalizedCorrelation, Replay, Next, EventsOf;
    var t := Inserted(s, workspace, account, d, now);
    var event := t.audit[|s.audit|];
    EventsOfConcat(s.audit, [event], other);
    EventsOfSingle([event], s.nextId, other);
    if other == s.nextId {
      NoEventsYet(s, other);
      assert EventsOf(t.audit, other) == [event];
      ReplayCreation(event);
      AttemptsOfFromTable(s.attempts, other);
    } else {
      assert EventsOf(t.audit, other) == EventsOf(s.audit, other);
    }
  }

  lemma InsertKeepsValid(s: Tables, workspace: Id, account: Id, d: Draft, now: Time)
    requires Valid(s) && HasAccount(s, workspace, account)
    requires !exists id :: HoldsKey(s, workspace, account, Strip(d.key), id)
    ensures Valid(Inserted(s, workspace, account, d, now))
  {
    hide Inserted, RowsLinked, AttemptsOwned, KeysUnique, LinksSound, ApprovalsSound, GatePassed, CallsSound, Replay, Recorded;
    InsertKeepsRows(s, workspace, account, d, now);
    InsertKeepsKeys(s, workspace, account, d, now);
    InsertKeepsLinks(s, workspace, account, d, now);
    InsertKeepsApprovals(s, workspace, account, d, now);
    InsertKeepsGate(s, workspace, account, d, now);
    InsertKeepsCalls(s, workspace, account, d, now);
    forall other: Id {
      InsertReplays(s, workspace, account, d, now, other);
    }
  }

  /** The approvals table may change as long as no taken decision does. */
  ghost predicate DecisionsStand(s: Tables, t: Tables) {
    forall p :: p in s.approvals ==>
      && p in t.approvals
      && t.approvals[p].lead == s.approvals[p].lead
      && (s.approvals[p].status != AwaitingDecision ==> t.approvals[p] == s.approvals[p])
  }

  /** Whatever leaves actions, attempts, log and calls alone keeps their part of the invariant. */
  lemma SurroundingsKeepActions(s: Tables, t: Tables)
    requires Valid(s)
    requires t.actions == s.actions && t.attempts == s.attempts && t.audit == s.audit && t.calls == s.calls
    requires s.nextId <= t.nextId
    requires forall id :: id in t.leads ==> id < t.nextId
    requires forall id :: id in t.accounts ==> id < t.nextId
    requires forall p :: p in t.approvals ==> p < t.nextId
    requires forall id :: id in s.accounts ==> id in t.accounts && t.accounts[id].workspace == s.accounts[id].workspace
    requires DecisionsStand(s, t) && ApprovalsSound(t)
    ensures Valid(t)
  {
    SameLog(s, t);
    SameLinks(s, t);
    hide ApprovalsSound, LogReplays, LinksSound, GatePassed, DecisionsStand;
  }

  lemma SameLinks(s: Tables, t: Tables)
    requires LinksSound(s) && GatePassed(s) && ApprovalsSound(s) && t.actions == s.actions && DecisionsStand(s, t)
    ensures LinksSound(t) && GatePassed(t)
  {
    hide ApprovalsSound;
    forall j | j in t.actions ensures LinkSound(t, j) {
      assert LinkSound(s, j);
    }
  }

  lemma SameLog(s: Tables, t: Tables)
    requires LogReplays(s) && t.actions == s.actions && t.attempts == s.attempts && t.audit == s.audit
    ensures LogReplays(t)
  {
    hide Replay;
    forall j | j in t.actions ensures Recorded(t, j) == Recorded(s, j) {
    }
  }

  lemma DecideKeepsValid(s: Tables, approval: Id, status: ApprovalStatus, actor: Actor, note: Option<string>, now: Time)
    requires Valid(s) && approval in s.approvals && s.approvals[approval].status == AwaitingDecision
    requires status == Rejected || status == if s.approvals[approval].lead.None? then Approved else Executed
    ensures var t := Decide(s, approval, status, actor, note, now);
            Valid(if status == Executed then t.(sent := s.sent + [approval]) else t)
  {
    var d := Decide(s, approval, status, actor, note, now);
    var t := if status == Executed then d.(sent := s.sent + [approval]) else d;
    hide LogReplays, CallsSound, GatePassed, LinksSound, KeysUnique;
    SurroundingsKeepActions(s, t);
  }

  /** A message that went out without its decision being stored. */
  lemma SendKeepsValid(s: Tables, approval: Id)
    requires Valid(s) && approval in s.approvals && s.approvals[approval].lead.Some?
    ensures Valid(s.(sent := s.sent + [approval]))
  {
    hide LogReplays, CallsSound, GatePassed, LinksSound, KeysUnique;
    SurroundingsKeepActions(s, s.(sent := s.sent + [approval]));
  }

  lemma ApproveKeepsValid(s: Tables, workspace: Id, approval: Id, actor: Actor, note: Option<string>,
                          delivers: bool, commits: bool, now: Time)
    requires Valid(s)
    ensures Valid(Approve(s, workspace, approval, actor, note, delivers, commits, now).0)
    ensures Valid(Reject(s, workspace, approval, actor, note, now).0)
  {
    hide Valid, Decide;
    if PendingDecisionError(s, workspace, approval, actor).None? {
      DecideKeepsValid(s, approval, if s.approvals[approval].lead.None? then Approved else Executed, actor, note, now);
      DecideKeepsValid(s, approval, Rejected, actor, note, now);
      if s.approvals[approval].lead.Some? {
        SendKeepsValid(s, approval);
      }
    }
  }

  /** Only actions that were never attempted can be removed, so no history loses its owner. */
  lemma CleanupSparesHistory(s: Tables, workspace: Id, cutoff: Time)
    requires LogReplays(s) && CallsSound(s)
    ensures forall id :: id in Cleanable(s, workspace, cutoff) ==> AttemptsOf(s.attempts, id) == []
    ensures forall i :: 0 <= i < |s.attempts| ==> s.attempts[i].action !in Cleanable(s, workspace, cutoff)
    ensures forall i :: 0 <= i < |s.calls| && s.calls[i].committed ==> s.calls[i].action !in Cleanable(s, workspace, cutoff)
  {
    hide Replay;
    forall id | id in Cleanable(s, workspace, cutoff)
      ensures AttemptsOf(s.attempts, id) == [] && MaxAttemptNumber(s.attempts, id) == 0
    {
      LiveAttempts(s, id);
    }
    forall i | 0 <= i < |s.attempts| ensures s.attempts[i].action !in Cleanable(s, workspace, cutoff) {
      AttemptsOfFromTable(s.attempts, s.attempts[i].action);
    }
    forall i | 0 <= i < |s.calls| && s.calls[i].committed ensures s.calls[i].action !in Cleanable(s, workspace, cutoff) {
      assert CallSound(s, s.calls[i]);
    }
  }

  lemma CleanupKeepsLog(s: Tables, workspace: Id, cutoff: Time)
    requires LogReplays(s)
    ensures LogReplays(Cleanup(s, workspace, cutoff).0)
  {
    var t := Cleanup(s, workspace, cutoff).0;
    hide Replay, Cleanable;
    forall j | j in t.actions ensures Recorded(t, j) == Recorded(s, j) {
    }
  }

  lemma CleanupKeepsLinks(s: Tables, workspace: Id, cutoff: Time)
    requires KeysUnique(s) && LinksSound(s) && ApprovalsSound(s) && GatePassed(s)
    ensures var t := Cleanup(s, workspace, cutoff).0;
            KeysUnique(t) && LinksSound(t) && ApprovalsSound(t) && GatePassed(t)
  {
    var t := Cleanup(s, workspace, cutoff).0;
    hide Cleanable;
    SameApprovals(s, t);
    hide ApprovalsSound;
    forall j | j in t.actions ensures LinkSound(t, j) && LinkedStatus(t, t.actions[j]) == LinkedStatus(s, s.actions[j]) {
      assert LinkSound(s, j);
    }
  }

  lemma CleanupKeepsRows(s: Tables, workspace: Id, cutoff: Time)
    requires RowsLinked(s) && AttemptsOwned(s) && LogReplays(s) && CallsSound(s)
    ensures var t := Cleanup(s, workspace, cutoff).0;
            RowsLinked(t) && AttemptsOwned(t) && CallsSound(t)
  {
    hide LogReplays, Cleanable, MaxAttemptNumber, CallsSound;
    CleanupSparesHistory(s, workspace, cutoff);
    CleanupKeepsCalls(s, workspace, cutoff);
  }

  lemma CleanupKeepsCalls(s: Tables, workspace: Id, cutoff: Time)
    requires LogReplays(s) && CallsSound(s)
    ensures CallsSound(Cleanup(s, workspace, cutoff).0)
  {
    hide LogReplays, Cleanable, MaxAttemptNumber;
    CleanupSparesHistory(s, workspace, cutoff);
    var t := Cleanup(s, workspace, cutoff).0;
    forall i | 0 <= i < |t.calls| ensures CallSound(t, t.calls[i]) {
      assert CallSound(s, s.calls[i]);
    }
  }

  lemma CleanupKeepsValid(s: Tables, workspace: Id, cutoff: Time)
    requires Valid(s)
    ensures Valid(Cleanup(s, workspace, cutoff).0)
  {
    hide RowsLinked, AttemptsOwned, LogReplays, KeysUnique, LinksSound, ApprovalsSound, GatePassed, CallsSound, Cleanup;
    CleanupKeepsRows(s, workspace, cutoff);
    CleanupKeepsLog(s, workspace, cutoff);
    CleanupKeepsLinks(s, workspace, cutoff);
  }

  lemma SameApprovals(s: Tables, t: Tables)
    requires ApprovalsSound(s) && t.approvals == s.approvals && t.sent == s.sent
    ensures ApprovalsSound(t)
  {
  }

  lemma AddAccountKeepsValid(s: Tables, workspace: Id, provider: string)
    requires Valid(s)
    ensures Valid(AddAccount(s, workspace, provider).0)
  {
    assert RowsLinked(s) && ApprovalsSound(s);
    hide Valid, ApprovalsSound, Strip;
    SameApprovals(s, AddAccount(s, workspace, provider).0);
    SurroundingsKeepActions(s, AddAccount(s, workspace, provider).0);
  }

  lemma SetActiveKeepsValid(s: Tables, workspace: Id, account: Id, active: bool)
    requires Valid(s)
    ensures Valid(SetActive(s, workspace, account, active).0)
  {
    assert RowsLinked(s) && ApprovalsSound(s);
    hide Valid, ApprovalsSound, Strip;
    SameApprovals(s, SetActive(s, workspace, account, active).0);
    SurroundingsKeepActions(s, SetActive(s, workspace, account, active).0);
  }

  lemma LeadKeepsValid(s: Tables, workspace: Id)
    requires Valid(s)
    ensures Valid(AddLead(s, workspace).0)
  {
    assert RowsLinked(s) && ApprovalsSound(s);
    hide Valid, ApprovalsSound;
    SameApprovals(s, AddLead(s, workspace).0);
    SurroundingsKeepActions(s, AddLead(s, workspace).0);
  }

  lemma LeadApprovalKeepsValid(s: Tables, lead: Id, now: Time)
    requires Valid(s)
    ensures Valid(RequestLeadApproval(s, lead, now).0)
  {
    assert RowsLinked(s) && ApprovalsSound(s);
    if lead in s.leads {
      var t := RequestLeadApproval(s, lead, now).0;
      assert ApprovalsSound(t);
      hide Valid, ApprovalsSound;
      SurroundingsKeepActions(s, t);
    }
  }

  lemma CreateKeepsValid(s: Tables, workspace: Id, account: Id, d: Draft, now: Time)
    requires Valid(s)
    ensures Valid(Create(s, workspace, account, d, now).0)
  {
    hide Valid, Inserted, Strip;
    if HasAccount(s, workspace, account) && !exists id :: HoldsKey(s, workspace, account, Strip(d.key), id) {
      InsertKeepsValid(s, workspace, account, d, now);
    }
  }

  lemma StepKeepsValid(s: Tables, c: Command)
    requires Valid(s)
    ensures Valid(Step(s, c).0)
  {
    hide Valid, AddAccount, SetActive, AddLead, RequestLeadApproval, Create, Deliver, Retry, Cancel;
    hide Approve, Reject, Archive, Unarchive, SetPriority, SetOwner, Cleanup;
    match c
    case DoCreate(w, account, draft, now) => CreateKeepsValid(s, w, account, draft, now);
    case DoDeliver(w, account, id, registry, reply, commits, now) =>
      DeliverKeepsValid(s, w, account, id, registry, reply, commits, now);
    case DoRetry(w, account, id, policy, registry, reply, commits, now) =>
      RetryKeepsValid(s, w, account, id, policy, registry, reply, commits, now);
    case DoCancel(w, account, id, now) => CancelKeepsValid(s, w, account, id, now);
    case DoApprove(w, approval, actor, note, delivers, commits, now) =>
      ApproveKeepsValid(s, w, approval, actor, note, delivers, commits, now);
    case DoReject(w, approval, actor, note, now) => ApproveKeepsValid(s, w, approval, actor, note, true, true, now);
    case DoArchive(w, id, now) => ArchiveKeepsValid(s, w, id, now);
    case DoUnarchive(w, id, now) => UnarchiveKeepsValid(s, w, id, now);
    case DoSetPriority(w, id, priority) => LabelsKeepValid(s, w, id, priority, None);
    case DoSetOwner(w, id, owner) => LabelsKeepValid(s, w, id, Normal, owner);
    case DoCleanup(w, cutoff) => CleanupKeepsValid(s, w, cutoff);
    case DoAddAccount(w, provider) => AddAccountKeepsValid(s, w, provider);
    case DoSetActive(w, account, active) => SetActiveKeepsValid(s, w, account, active);
    case DoAddLead(w) => LeadKeepsValid(s, w);
    case DoRequestLeadApproval(lead, now) => LeadApprovalKeepsValid(s, lead, now);
  }

  lemma {:induction false} RunKeepsValid(s: Tables, cs: seq<Command>)
    requires Valid(s)
    ensures Valid(RunFrom(s, cs))
  {
    hide Step, Valid;
    if cs != [] {
      RunKeepsValid(s, cs[..|cs| - 1]);
      StepKeepsValid(RunFrom(s, cs[..|cs| - 1]), cs[|cs| - 1]);
    }
  }

  lemma ReachableIsValid(cs: seq<Command>)
    ensures Valid(Run(cs))
  {
    assert Valid(EMPTY);
    hide Valid;
    RunKeepsValid(EMPTY, cs);
  }
}
