/** Creation is idempotent per key, what was asked for is never rewritten, and nothing but a
    cleanup removes an action. */
module OutboundCreation {
  import opened Common
  import opened OutboundModel
  import opened RetryPolicy
  import opened OutboundTables
  import opened OutboundInvariant
  import opened OutboundPreservation

  // ---- the content of an action is fixed at creation -------------------------------------

  predicate SameContent(a: Action, b: Action) {
    && SameIdentity(a, b)
    && a.target == b.target
    && a.actionType == b.actionType
    && a.content == b.content
    && a.payload == b.payload
    && a.correlation == b.correlation
    && a.notBefore == b.notBefore
    && a.expiresAt == b.expiresAt
    && a.createdAt == b.createdAt
  }

  /** From `s` to `t` no known action was rewritten and none came back. */
  ghost predicate ContentKept(s: Tables, t: Tables) {
    && s.nextId <= t.nextId
    && forall id :: id in t.actions && id < s.nextId ==> id in s.actions && SameContent(s.actions[id], t.actions[id])
  }

  lemma NothingRewritten(s: Tables)
    ensures ContentKept(s, s)
  {
  }

  lemma OverwriteKeepsContent(s: Tables, t: Tables, id: Id)
    requires id in s.actions && id in t.actions && t.actions == s.actions[id := t.actions[id]]
    requires SameContent(s.actions[id], t.actions[id]) && t.nextId == s.nextId
    ensures ContentKept(s, t)
  {
  }

  lemma ConcludedKeepsContent(s: Tables, id: Id, retried: bool, called: bool, result: AdapterResult, now: Time)
    requires id in s.actions
    ensures ContentKept(s, Concluded(s, id, retried, called, result, now))
  {
    hide Stamp, SettledAttempt, LinkedStatus, AttemptKinds;
  }

  lemma LostKeepsContent(s: Tables, id: Id, result: AdapterResult)
    requires id in s.actions
    ensures ContentKept(s, Lost(s, id, result))
    ensures Balanced(s, Lost(s, id, result), 0)
  {
    hide LinkedStatus, MaxAttemptNumber;
  }

  lemma AttemptedKeepsContent(s: Tables, id: Id, retried: bool, registry: Registry, reply: AdapterReply, commits: bool, now: Time)
    requires id in s.actions && s.actions[id].account in s.accounts
    ensures ContentKept(s, Attempted(s, id, retried, registry, reply, commits, now))
  {
    hide Concluded, Lost, ContentKept, RefusedBeforeAdapter, ReplyResult;
    NothingRewritten(s);
    LostKeepsContent(s, id, ReplyResult(reply));
    var refusal := RefusedBeforeAdapter(registry, s.accounts[s.actions[id].account].provider, s.actions[id]);
    ConcludedKeepsContent(s, id, retried, refusal.None?, if refusal.Some? then refusal.value else ReplyResult(reply), now);
  }

  lemma ClosingKeepsContent(s: Tables, id: Id, now: Time)
    requires id in s.actions
    ensures ContentKept(s, Touch(s, id, s.actions[id].(status := Expired, expiredAt := Some(now)), [ExpiredEvent], now))
    ensures ContentKept(s, Touch(s, id, s.actions[id].(status := Cancelled, cancelledAt := Some(now)), [CancelledEvent], now))
  {
    hide Stamp;
  }

  lemma DeliverKeepsContent(s: Tables, workspace: Id, account: Id, id: Id,
                            registry: Registry, reply: AdapterReply, commits: bool, now: Time)
    ensures ContentKept(s, Deliver(s, workspace, account, id, registry, reply, commits, now).0)
  {
    hide Attempted, ContentKept, Touch, ApprovalGate, IsExpired, IsBeforeNotBefore;
    NothingRewritten(s);
    if HasAccount(s, workspace, account) && HasAction(s, workspace, account, id) {
      ClosingKeepsContent(s, id, now);
      AttemptedKeepsContent(s, id, false, registry, reply, commits, now);
    }
  }

  lemma RetryKeepsContent(s: Tables, workspace: Id, account: Id, id: Id, policy: Policy,
                          registry: Registry, reply: AdapterReply, commits: bool, now: Time)
    ensures ContentKept(s, Retry(s, workspace, account, id, policy, registry, reply, commits, now).0)
  {
    hide Attempted, ContentKept, Evaluate;
    NothingRewritten(s);
    if HasAccount(s, workspace, account) && HasAction(s, workspace, account, id) {
      AttemptedKeepsContent(s, id, true, registry, reply, commits, now);
    }
  }

  lemma CancelKeepsContent(s: Tables, workspace: Id, account: Id, id: Id, now: Time)
    ensures ContentKept(s, Cancel(s, workspace, account, id, now).0)
  {
    hide ContentKept, Touch;
    NothingRewritten(s);
    if HasAction(s, workspace, account, id) {
      ClosingKeepsContent(s, id, now);
    }
  }

  lemma MaintenanceKeepsContent(s: Tables, c: Command)
    requires c.DoArchive? || c.DoUnarchive? || c.DoSetPriority? || c.DoSetOwner?
    ensures ContentKept(s, Step(s, c).0)
  {
    hide Stamp, ContentKept;
    NothingRewritten(s);
    if !Step(s, c).1.Refused? {
      OverwriteKeepsContent(s, Step(s, c).0, c.id);
    }
  }

  lemma StepKeepsContent(s: Tables, c: Command)
    ensures ContentKept(s, Step(s, c).0)
  {
    hide Deliver, Retry, Cancel, Archive, Unarchive, SetPriority, SetOwner;
    hide Strip, NormalizedCorrelation, HoldsKey, Matches, IsCleanable, InScope;
    if c.DoDeliver? {
      DeliverKeepsContent(s, c.workspace, c.account, c.id, c.registry, c.reply, c.commits, c.now);
    } else if c.DoRetry? {
      RetryKeepsContent(s, c.workspace, c.account, c.id, c.policy, c.registry, c.reply, c.commits, c.now);
    } else if c.DoCancel? {
      CancelKeepsContent(s, c.workspace, c.account, c.id, c.now);
    } else if c.DoArchive? || c.DoUnarchive? || c.DoSetPriority? || c.DoSetOwner? {
      MaintenanceKeepsContent(s, c);
    }
  }

  lemma {:induction false} RunKeepsContent(s: Tables, cs: seq<Command>)
    ensures ContentKept(s, RunFrom(s, cs))
  {
    if cs != [] {
      hide Step;
      RunKeepsContent(s, cs[..|cs| - 1]);
      StepKeepsContent(RunFrom(s, cs[..|cs| - 1]), cs[|cs| - 1]);
    }
  }

  // ---- idempotency ------------------------------------------------------------------------

  lemma CreateFindsHolder(s: Tables, workspace: Id, account: Id, d: Draft, now: Time, id: Id)
    requires KeysUnique(s) && HasAccount(s, workspace, account) && s.accounts[account].active
    requires HoldsKey(s, workspace, account, Strip(d.key), id)
    ensures Create(s, workspace, account, d, now)
         == (s, if Matches(s.actions[id], d) then Ok(id) else Refused(KeyConflict))
  {
  }

  /** A create that succeeded decides every later create under the same trimmed key for as long
      as its action lives and its account is active: the same request gets the same action, a
      request that differs in a compared field is refused, and neither changes any table. The
      expiry and not-before times are not compared, so a repeat may carry other ones. */
  lemma CreateIsIdempotent(before: seq<Command>, workspace: Id, account: Id, d: Draft, now: Time,
                           after: seq<Command>, again: Draft, later: Time)
    requires Strip(again.key) == Strip(d.key)
    requires Create(Run(before), workspace, account, d, now).1.Ok?
    ensures var (s, outcome) := Create(Run(before), workspace, account, d, now);
            var t := RunFrom(s, after);
            outcome.id in t.actions && account in t.accounts && t.accounts[account].active ==>
              Create(t, workspace, account, again, later) == (t, if SameRequest(d, again) then outcome else Refused(KeyConflict))
  {
    var (s, outcome) := Create(Run(before), workspace, account, d, now);
    var t := RunFrom(s, after);
    ReachableIsValid(before);
    CreateKeepsValid(Run(before), workspace, account, d, now);
    RunKeepsValid(s, after);
    RunKeepsContent(s, after);
    CreateStoresRequest(Run(before), workspace, account, d, now);
    if outcome.id in t.actions && account in t.accounts && t.accounts[account].active {
      assert RowsLinked(s) && RowsLinked(t) && KeysUnique(t);
      hide Valid, Create, RunFrom, Run, RowsLinked, KeysUnique, Strip, NormalizedCorrelation;
      AccountsStay(t, outcome.id);
      CreateFindsHolder(t, workspace, account, again, later, outcome.id);
    }
  }

  predicate SameRequest(d: Draft, again: Draft) {
    && Strip(d.target) == Strip(again.target)
    && d.actionType == again.actionType
    && d.content == again.content
    && d.payload == again.payload
    && NormalizedCorrelation(d.correlation) == NormalizedCorrelation(again.correlation)
    && d.requiresApproval == again.requiresApproval
  }

  lemma AccountsStay(t: Tables, id: Id)
    requires RowsLinked(t) && id in t.actions
    ensures HasAccount(t, t.actions[id].workspace, t.actions[id].account)
  {
  }

  lemma CreateStoresRequest(s: Tables, workspace: Id, account: Id, d: Draft, now: Time)
    requires RowsLinked(s)
    requires Create(s, workspace, account, d, now).1.Ok?
    ensures var (t, outcome) := Create(s, workspace, account, d, now);
            && outcome.id < t.nextId
            && HoldsKey(t, workspace, account, Strip(d.key), outcome.id)
            && Matches(t.actions[outcome.id], d)
  {
    hide Strip, NormalizedCorrelation;
  }

  /** At most one live action per workspace, account and key; an approval is linked exactly
      when it is required, and never to two actions. */
  lemma KeysAndApprovalsAreExclusive(cs: seq<Command>, i: Id, j: Id)
    requires i in Run(cs).actions && j in Run(cs).actions && i != j
    ensures var a, b := Run(cs).actions[i], Run(cs).actions[j];
            && (a.workspace, a.account, a.key) != (b.workspace, b.account, b.key)
            && (a.requiresApproval <==> a.approval.Some?)
            && (a.approval.Some? ==> a.approval != b.approval)
  {
    ReachableIsValid(cs);
    hide RunFrom;
    assert LinkSound(Run(cs), i) && KeysUnique(Run(cs));
  }

  // ---- conservation -----------------------------------------------------------------------

  function CountCreated(log: seq<AuditEvent>): nat {
    if log == [] then 0
    else CountCreated(log[..|log| - 1]) + if log[|log| - 1].kind == CreatedEvent then 1 else 0
  }

  lemma {:induction false} CountCreatedConcat(log: seq<AuditEvent>, more: seq<AuditEvent>)
    ensures CountCreated(log + more) == CountCreated(log) + CountCreated(more)
  {
    if more == [] {
      assert log + more == log;
    } else {
      assert (log + more)[..|log + more| - 1] == log + more[..|more| - 1];
      CountCreatedConcat(log, more[..|more| - 1]);
    }
  }

  lemma {:induction false} CountNoneCreated(more: seq<AuditEvent>)
    requires forall i :: 0 <= i < |more| ==> more[i].kind != CreatedEvent
    ensures CountCreated(more) == 0
  {
    if more != [] {
      CountNoneCreated(more[..|more| - 1]);
    }
  }

  function RemovedBy(outcome: Outcome): nat {
    if outcome.Removed? then outcome.count else 0
  }

  ghost function TotalRemoved(s: Tables, cs: seq<Command>): nat {
    if cs == [] then 0
    else
      var front := cs[..|cs| - 1];
      TotalRemoved(s, front) + RemovedBy(Step(RunFrom(s, front), cs[|cs| - 1]).1)
  }

  ghost predicate Balanced(s: Tables, t: Tables, removed: nat) {
    CountCreated(t.audit) + |s.actions| == CountCreated(s.audit) + |t.actions| + removed
  }

  lemma TouchBalances(s: Tables, t: Tables, id: Id)
    requires Amends(s, t, id)
    requires forall i :: |s.audit| <= i < |t.audit| ==> t.audit[i].kind != CreatedEvent
    ensures Balanced(s, t, 0)
  {
    var more := t.audit[|s.audit|..];
    assert t.audit == s.audit + more;
    CountCreatedConcat(s.audit, more);
    CountNoneCreated(more);
    assert t.actions.Keys == s.actions.Keys;
    assert |t.actions| == |t.actions.Keys| == |s.actions.Keys| == |s.actions|;
  }

  lemma AttemptBalances(s: Tables, id: Id, retried: bool, registry: Registry, reply: AdapterReply, commits: bool, now: Time)
    requires id in s.actions && s.actions[id].account in s.accounts
    ensures Balanced(s, Attempted(s, id, retried, registry, reply, commits, now), 0)
  {
    hide Concluded, Lost, RefusedBeforeAdapter, ReplyResult, Amends, Balanced;
    BalancedSelf(s);
    LostKeepsContent(s, id, ReplyResult(reply));
    var refusal := RefusedBeforeAdapter(registry, s.accounts[s.actions[id].account].provider, s.actions[id]);
    ConcludedBalances(s, id, retried, refusal.None?, if refusal.Some? then refusal.value else ReplyResult(reply), now);
  }

  lemma ConcludedBalances(s: Tables, id: Id, retried: bool, called: bool, result: AdapterResult, now: Time)
    requires id in s.actions
    ensures Balanced(s, Concluded(s, id, retried, called, result, now), 0)
  {
    AttemptAmends(s, id, retried, called, result, now);
    TouchBalances(s, Concluded(s, id, retried, called, result, now), id);
  }

  lemma EventBalances(s: Tables, id: Id, a: Action, kind: AuditKind, now: Time)
    requires id in s.actions && SameIdentity(s.actions[id], a) && kind != CreatedEvent
    ensures Balanced(s, Touch(s, id, a, [kind], now), 0)
  {
    hide Balanced;
    TouchBalances(s, Touch(s, id, a, [kind], now), id);
  }

  lemma LabelBalances(s: Tables, id: Id, a: Action)
    requires id in s.actions
    ensures Balanced(s, s.(actions := s.actions[id := a]), 0)
  {
    var t := s.(actions := s.actions[id := a]);
    assert t.actions.Keys == s.actions.Keys;
    assert |t.actions| == |t.actions.Keys| == |s.actions.Keys| == |s.actions|;
  }

  lemma CountCreatedOne(e: AuditEvent)
    requires e.kind == CreatedEvent
    ensures CountCreated([e]) == 1
  {
    assert [e][..0] == [];
  }

  lemma OneMore<K, V>(m: map<K, V>, key: K, value: V)
    requires key !in m
    ensures |m[key := value]| == |m| + 1
  {
    assert m[key := value].Keys == m.Keys + {key};
    assert |m[key := value]| == |m[key := value].Keys|;
  }

  lemma InsertBalances(s: Tables, workspace: Id, account: Id, d: Draft, now: Time)
    requires RowsLinked(s)
    ensures Balanced(s, Inserted(s, workspace, account, d, now), 0)
  {
    assert s.nextId !in s.actions;
    hide Strip, NormalizedCorrelation, CountCreated, RowsLinked, FreshAction;
    var t := Inserted(s, workspace, account, d, now);
    var event := t.audit[|s.audit|];
    assert t.audit == s.audit + [event];
    CountCreatedConcat(s.audit, [event]);
    CountCreatedOne(event);
    OneMore(s.actions, s.nextId, t.actions[s.nextId]);
  }

  lemma CleanupBalances(s: Tables, workspace: Id, cutoff: Time)
    ensures var (t, outcome) := Cleanup(s, workspace, cutoff);
            Balanced(s, t, RemovedBy(outcome))
  {
    var doomed := Cleanable(s, workspace, cutoff);
    var t := Cleanup(s, workspace, cutoff).0;
    assert t.actions.Keys == s.actions.Keys - doomed;
    assert |t.actions| == |t.actions.Keys| && |s.actions.Keys| == |s.actions|;
    assert doomed <= s.actions.Keys;
  }

  lemma LifecycleBalances(s: Tables, c: Command)
    requires c.DoDeliver? || c.DoRetry? || c.DoCancel?
    ensures Balanced(s, Step(s, c).0, RemovedBy(Step(s, c).1))
  {
    hide Balanced, Attempted, Touch, Evaluate, LinkedStatus;
    BalancedSelf(s);
    if HasAccount(s, c.workspace, c.account) && HasAction(s, c.workspace, c.account, c.id) {
      var a := s.actions[c.id];
      EventBalances(s, c.id, a.(status := Expired, expiredAt := Some(c.now)), ExpiredEvent, c.now);
      EventBalances(s, c.id, a.(status := Cancelled, cancelledAt := Some(c.now)), CancelledEvent, c.now);
      if !c.DoCancel? {
        AttemptBalances(s, c.id, c.DoRetry?, c.registry, c.reply, c.commits, c.now);
      }
    }
  }

  lemma BalancedSelf(s: Tables)
    ensures Balanced(s, s, 0)
  {
  }

  lemma MaintenanceBalances(s: Tables, c: Command)
    requires c.DoArchive? || c.DoUnarchive? || c.DoSetPriority? || c.DoSetOwner?
    ensures Balanced(s, Step(s, c).0, RemovedBy(Step(s, c).1))
  {
    hide Balanced, Touch;
    BalancedSelf(s);
    if HasJoinedAction(s, c.workspace, c.id) {
      var a := s.actions[c.id];
      match c {
        case DoArchive(_, id, now) => EventBalances(s, id, a.(archivedAt := Some(now)), ArchivedEvent, now);
        case DoUnarchive(_, id, now) => EventBalances(s, id, a.(archivedAt := None), UnarchivedEvent, now);
        case DoSetPriority(_, id, priority) => LabelBalances(s, id, a.(priority := priority));
        case DoSetOwner(_, id, owner) => LabelBalances(s, id, a.(owner := owner));
      }
    }
  }

  lemma CreateBalances(s: Tables, workspace: Id, account: Id, d: Draft, now: Time)
    requires RowsLinked(s)
    ensures var (t, outcome) := Create(s, workspace, account, d, now);
            Balanced(s, t, RemovedBy(outcome))
  {
    hide RowsLinked, Balanced, Inserted, Strip, Matches;
    BalancedSelf(s);
    InsertBalances(s, workspace, account, d, now);
  }

  lemma SurroundingsBalance(s: Tables, t: Tables, outcome: Outcome)
    requires t.actions == s.actions && t.audit == s.audit && !outcome.Removed?
    ensures Balanced(s, t, RemovedBy(outcome))
  {
  }

  lemma StepBalances(s: Tables, c: Command)
    requires RowsLinked(s)
    ensures Balanced(s, Step(s, c).0, RemovedBy(Step(s, c).1))
  {
    hide RowsLinked, Balanced, RemovedBy, Create, Deliver, Retry, Cancel, Archive, Unarchive, SetPriority, SetOwner, Cleanup, Strip;
    hide PendingDecisionError;
    if c.DoDeliver? || c.DoRetry? || c.DoCancel? {
      LifecycleBalances(s, c);
    } else if c.DoArchive? || c.DoUnarchive? || c.DoSetPriority? || c.DoSetOwner? {
      MaintenanceBalances(s, c);
    } else if c.DoCreate? {
      CreateBalances(s, c.workspace, c.account, c.draft, c.now);
    } else if c.DoCleanup? {
      CleanupBalances(s, c.workspace, c.cutoff);
    } else {
      SurroundingsBalance(s, Step(s, c).0, Step(s, c).1);
    }
  }

  lemma {:induction false} RunBalances(cs: seq<Command>)
    ensures Balanced(EMPTY, Run(cs), TotalRemoved(EMPTY, cs))
  {
    if cs != [] {
      var front := cs[..|cs| - 1];
      RunBalances(front);
      ReachableIsValid(front);
      hide Step, CountCreated;
      StepBalances(Run(front), cs[|cs| - 1]);
    }
  }

  /** Every action ever created is still there or was counted by exactly one cleanup, and no
      attempt row has lost its action. */
  lemma CleanupLosesNothingElse(cs: seq<Command>)
    ensures CountCreated(Run(cs).audit) == |Run(cs).actions| + TotalRemoved(EMPTY, cs)
    ensures forall i :: 0 <= i < |Run(cs).attempts| ==> Run(cs).attempts[i].action in Run(cs).actions
  {
    RunBalances(cs);
    ReachableIsValid(cs);
    hide RunFrom, TotalRemoved;
  }
}
