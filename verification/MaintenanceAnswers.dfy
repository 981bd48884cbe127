/** What creating, cancelling, relabelling, archiving and cleaning up do to the stored fields. */
module MaintenanceAnswers {
  import opened Common
  import opened OutboundModel
  import opened RetryPolicy
  import opened OutboundTables
  import opened OutboundInvariant
  import opened OutboundPreservation
  import opened OutboundCreation

  /** The action holds what the request asked for: texts trimmed, an empty correlation id dropped,
      both time limits as given. */
  predicate HoldsDraft(a: Action, workspace: Id, account: Id, d: Draft, created: Time) {
    && a.workspace == workspace && a.account == account
    && a.target == Strip(d.target) && a.actionType == d.actionType && a.content == d.content && a.payload == d.payload
    && a.key == Strip(d.key)
    && (d.correlation in {None, Some("")} ==> a.correlation.None?)
    && (d.correlation !in {None, Some("")} ==> a.correlation == Some(Strip(d.correlation.value)))
    && a.notBefore == d.notBefore && a.expiresAt == d.expiresAt && a.createdAt == created
    && a.requiresApproval == d.requiresApproval && a.approval.Some? == d.requiresApproval
  }

  /** A new action starts pending, unowned, at normal priority, with nothing delivered or failed. */
  predicate IsUntouched(a: Action) {
    && a.status == Pending && a.priority == Normal && a.owner.None? && a.archivedAt.None?
    && a.deliveryId.None? && a.deliveredAt.None? && a.failedAt.None? && a.cancelledAt.None? && a.expiredAt.None?
    && a.failureCode.None? && a.failureMessage.None? && a.failureClass.None?
  }

  lemma CreateAnswers(s: Tables, workspace: Id, account: Id, d: Draft, created: Time)
    requires RowsLinked(s)
    ensures
      var (t, outcome) := Create(s, workspace, account, d, created);
      var known := account in s.accounts && s.accounts[account].workspace == workspace;
      var used := exists id :: id in s.actions && s.actions[id].workspace == workspace && s.actions[id].account == account
                               && s.actions[id].key == Strip(d.key);
      && (outcome == Refused(AccountNotFound) <==> !known)
      && (outcome == Refused(AccountInactive) <==> known && !s.accounts[account].active)
      && (t == s <==> !known || !s.accounts[account].active || used)
      && (known && s.accounts[account].active && !used ==>
            && outcome == Ok(s.nextId) && s.nextId !in s.actions && s.nextId in t.actions
            && t.actions == s.actions[s.nextId := t.actions[s.nextId]]
            && HoldsDraft(t.actions[s.nextId], workspace, account, d, created) && IsUntouched(t.actions[s.nextId])
            && (d.requiresApproval ==>
                  var p := t.actions[s.nextId].approval.value;
                  p !in s.approvals && t.approvals == s.approvals[p := Approval(None, AwaitingDecision, None, created)])
            && (!d.requiresApproval ==> t.approvals == s.approvals))
  {
    hide Strip, Matches;
    var t := Create(s, workspace, account, d, created).0;
    assert forall id :: HoldsKey(s, workspace, account, Strip(d.key), id) <==>
      id in s.actions && s.actions[id].workspace == workspace && s.actions[id].account == account && s.actions[id].key == Strip(d.key);
  }

  /** Over every run an action holds what it was created with for as long as it lives. */
  lemma CreatedActionHoldsDraft(before: seq<Command>, workspace: Id, account: Id, d: Draft, created: Time, after: seq<Command>)
    requires Create(Run(before), workspace, account, d, created).1 == Ok(Run(before).nextId)
    ensures
      var t, id := RunFrom(Create(Run(before), workspace, account, d, created).0, after), Run(before).nextId;
      id in t.actions ==> HoldsDraft(t.actions[id], workspace, account, d, created)
  {
    var r := Run(before);
    ReachableRows(before);
    hide Run, RunFrom, RowsLinked;
    CreateAnswers(r, workspace, account, d, created);
    FreshMeansUnused(r, workspace, account, d, created);
    hide Create;
    RunKeepsContent(Create(r, workspace, account, d, created).0, after);
  }

  lemma ReachableRows(cs: seq<Command>)
    ensures RowsLinked(Run(cs))
  {
    hide Run;
    ReachableIsValid(cs);
  }

  lemma FreshMeansUnused(s: Tables, workspace: Id, account: Id, d: Draft, created: Time)
    requires RowsLinked(s) && Create(s, workspace, account, d, created).1 == Ok(s.nextId)
    ensures Create(s, workspace, account, d, created).0 != s && Create(s, workspace, account, d, created).0.nextId > s.nextId
  {
    hide Strip, Matches, NormalizedCorrelation;
  }

  // ---- cancelling, archiving, relabelling -----------------------------------------------------

  /** Only pending actions are cancelled, whatever their account's activity. */
  lemma CancelAnswers(s: Tables, workspace: Id, account: Id, id: Id, now: Time)
    requires account in s.accounts && s.accounts[account].workspace == workspace
    requires id in s.actions && s.actions[id].workspace == workspace && s.actions[id].account == account
    ensures
      var (t, outcome) := Cancel(s, workspace, account, id, now);
      && (outcome == Ok(id) <==> s.actions[id].status == Pending)
      && (outcome == Ok(id) ==> t.actions == s.actions[id := s.actions[id].(status := Cancelled, cancelledAt := Some(now))])
      && (outcome != Ok(id) ==> t == s && outcome == Refused(NotCancellable))
      && t.attempts == s.attempts && t.calls == s.calls && t.approvals == s.approvals
  {
    hide Stamp;
  }

  /** Archiving needs a finished, unarchived action, unarchiving an archived one. */
  lemma ArchiveAnswers(s: Tables, workspace: Id, id: Id, now: Time)
    requires id in s.actions && s.actions[id].workspace == workspace
    requires s.actions[id].account in s.accounts && s.accounts[s.actions[id].account].workspace == workspace
    ensures
      var a := s.actions[id];
      var (t, archived) := Archive(s, workspace, id, now);
      var (u, restored) := Unarchive(s, workspace, id, now);
      && (archived == Ok(id) <==> a.archivedAt.None? && a.status in {Delivered, Cancelled, Expired})
      && (archived == Refused(AlreadyArchived) <==> a.archivedAt.Some?)
      && (archived == Refused(NotArchivable) <==> a.archivedAt.None? && a.status in {Pending, Failed})
      && t.actions == (if archived == Ok(id) then s.actions[id := a.(archivedAt := Some(now))] else s.actions)
      && (restored == Ok(id) <==> a.archivedAt.Some?)
      && (restored == Refused(NotArchived) <==> a.archivedAt.None?)
      && u.actions == (if restored == Ok(id) then s.actions[id := a.(archivedAt := None)] else s.actions)
  {
    hide Stamp;
    TerminalStatuses(s.actions[id].status);
    hide IsTerminal;
  }

  lemma TerminalStatuses(status: Status)
    ensures IsTerminal(status) <==> status in {Delivered, Cancelled, Expired}
    ensures !IsTerminal(status) <==> status in {Pending, Failed}
  {
    assert Delivered in AllowedTargets(Pending) && Delivered in AllowedTargets(Failed);
  }

  /** A label changes alone, in the scoped action alone. */
  lemma LabelAnswers(s: Tables, workspace: Id, id: Id, priority: Priority, owner: Option<string>)
    ensures
      var scoped := id in s.actions && s.actions[id].workspace == workspace
                    && s.actions[id].account in s.accounts && s.accounts[s.actions[id].account].workspace == workspace;
      var (t, u) := (SetPriority(s, workspace, id, priority), SetOwner(s, workspace, id, owner));
      && (!scoped ==> t == (s, Refused(ActionNotFound)) && u == (s, Refused(ActionNotFound)))
      && (scoped ==>
            && t.0.actions == s.actions[id := t.0.actions[id]] && t.0.actions[id].priority == priority
            && t.0.actions[id].(priority := s.actions[id].priority) == s.actions[id]
            && u.0.actions == s.actions[id := u.0.actions[id]] && u.0.actions[id].owner == owner
            && u.0.actions[id].(owner := s.actions[id].owner) == s.actions[id]
            && t.0 == s.(actions := t.0.actions) && u.0 == s.(actions := u.0.actions))
  {
  }

  // ---- accounts and approvals of leads -----------------------------------------------------------

  /** Activity changes alone and only inside the workspace; a lead's approval starts undecided. */
  lemma SurroundingsAnswers(s: Tables, workspace: Id, account: Id, active: bool, lead: Id, now: Time)
    requires RowsLinked(s)
    ensures
      var (t, outcome) := SetActive(s, workspace, account, active);
      var scoped := account in s.accounts && s.accounts[account].workspace == workspace;
      && (outcome == Ok(account) <==> scoped) && (!scoped ==> t == s)
      && (scoped ==> t == s.(accounts := t.accounts) && t.accounts == s.accounts[account := t.accounts[account]]
                     && t.accounts[account].active == active
                     && t.accounts[account].(active := s.accounts[account].active) == s.accounts[account])
    ensures
      var (t, outcome) := RequestLeadApproval(s, lead, now);
      && (outcome == Refused(LeadNotFound) <==> lead !in s.leads) && (lead !in s.leads ==> t == s)
      && (lead in s.leads ==>
            && outcome.Ok? && outcome.id !in s.approvals && t.sent == s.sent && t.actions == s.actions
            && t.approvals == s.approvals[outcome.id := Approval(Some(lead), AwaitingDecision, None, now)])
  {
  }

  // ---- cleanup -------------------------------------------------------------------------------

  /** A cleanup removes exactly the workspace's cancelled or expired actions that are not archived
      and whose expiry lies strictly before the cutoff; it returns how many they were and leaves
      every other action and every other table as it was. */
  lemma CleanupAnswers(s: Tables, workspace: Id, cutoff: Time)
    ensures
      var (t, outcome) := Cleanup(s, workspace, cutoff);
      && t == s.(actions := t.actions)
      && (forall id :: id in t.actions ==> id in s.actions && t.actions[id] == s.actions[id])
      && (forall id :: id in s.actions ==>
            var a := s.actions[id];
            id !in t.actions <==>
              && a.workspace == workspace && a.archivedAt.None?
              && a.status != Pending && a.status != Failed && a.status != Delivered
              && a.expiresAt.Some? && a.expiresAt.value < cutoff)
      && outcome == Removed(|s.actions| - |t.actions|)
  {
    hide Cleanup;
    CleanupRemoves(s, workspace, cutoff);
    CleanupCounts(s, workspace, cutoff);
  }

  lemma CleanupRemoves(s: Tables, workspace: Id, cutoff: Time)
    ensures
      var t := Cleanup(s, workspace, cutoff).0;
      && t == s.(actions := t.actions)
      && (forall id :: id in t.actions ==> id in s.actions && t.actions[id] == s.actions[id])
      && (forall id :: id in s.actions ==>
            var a := s.actions[id];
            id !in t.actions <==>
              && a.workspace == workspace && a.archivedAt.None?
              && a.status != Pending && a.status != Failed && a.status != Delivered
              && a.expiresAt.Some? && a.expiresAt.value < cutoff)
  {
  }

  lemma CleanupCounts(s: Tables, workspace: Id, cutoff: Time)
    ensures
      var (t, outcome) := Cleanup(s, workspace, cutoff);
      outcome == Removed(|s.actions| - |t.actions|)
  {
    hide IsCleanable;
    var t := Cleanup(s, workspace, cutoff).0;
    var doomed := Cleanable(s, workspace, cutoff);
    assert doomed <= s.actions.Keys;
    hide Cleanable;
    assert t.actions.Keys == s.actions.Keys - doomed;
    assert |t.actions| == |t.actions.Keys| && |s.actions| == |s.actions.Keys|;
  }
}
