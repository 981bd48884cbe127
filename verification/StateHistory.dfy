/** Transition history derived from a bounded, newest-first read of the audit log. */
module StateHistory {
  import opened Common
  import opened OutboundModel
  import opened OutboundTables
  import opened AuditReplay
  import opened OutboundInvariant
  import opened OutboundPreservation

  const MAX_AUDIT_READ := 100

  function Reverse<T>(s: seq<T>): seq<T> {
    seq(|s|, i requires 0 <= i < |s| => s[|s| - 1 - i])
  }

  function LastN<T>(s: seq<T>, n: nat): seq<T> {
    if |s| <= n then s else s[|s| - n..]
  }

  // ---- the audit read ----------------------------------------------------------------------

  function ScopedEvents(log: seq<AuditEvent>, workspace: Id, account: Id, id: Id): seq<AuditEvent> {
    if log == [] then []
    else
      var rest := ScopedEvents(log[..|log| - 1], workspace, account, id);
      var e := log[|log| - 1];
      if e.workspace == workspace && e.account == account && e.action == id then rest + [e] else rest
  }

  /** Newest first, at most `limit` events of one action. */
  function NewestEvents(log: seq<AuditEvent>, workspace: Id, account: Id, id: Id, limit: nat): seq<AuditEvent> {
    var newestFirst := Reverse(ScopedEvents(log, workspace, account, id));
    if |newestFirst| <= limit then newestFirst else newestFirst[..limit]
  }

  lemma {:induction false} ScopedIsOwn(log: seq<AuditEvent>, workspace: Id, account: Id, id: Id)
    requires forall i :: 0 <= i < |log| && log[i].action == id ==> log[i].workspace == workspace && log[i].account == account
    ensures ScopedEvents(log, workspace, account, id) == EventsOf(log, id)
  {
    if log != [] {
      ScopedIsOwn(log[..|log| - 1], workspace, account, id);
    }
  }

  lemma NewestIsReversedTail(log: seq<AuditEvent>, workspace: Id, account: Id, id: Id, limit: nat)
    ensures NewestEvents(log, workspace, account, id, limit)
         == Reverse(LastN(ScopedEvents(log, workspace, account, id), limit))
  {
  }

  // ---- transitions -------------------------------------------------------------------------

  datatype Entry = Entry(state: Status, event: AuditKind, at: Time)

  function StateByEvent(kind: AuditKind): Option<Status> {
    match kind
    case DeliveredEvent => Some(Delivered)
    case FailedEvent => Some(Failed)
    case CancelledEvent => Some(Cancelled)
    case ExpiredEvent => Some(Expired)
    case _ => None
  }

  function EntryOf(e: AuditEvent): seq<Entry> {
    if StateByEvent(e.kind).Some? then [Entry(StateByEvent(e.kind).value, e.kind, e.at)] else []
  }

  function Transitions(word: seq<AuditEvent>): seq<Entry> {
    if word == [] then [] else Transitions(word[..|word| - 1]) + EntryOf(word[|word| - 1])
  }

  datatype History = LimitRejected | NotFound(error: Error) | History(entries: seq<Entry>)

  function ListHistory(s: Tables, workspace: Id, account: Id, id: Id, limit: int): History {
    if !(1 <= limit <= MAX_AUDIT_READ) then LimitRejected
    else if !HasAccount(s, workspace, account) then NotFound(AccountNotFound)
    else if !HasAction(s, workspace, account, id) then NotFound(ActionNotFound)
    else
      var events := NewestEvents(s.audit, workspace, account, id, MAX_AUDIT_READ);
      History(LastN(Reverse(Transitions(events)), limit))
  }

  lemma {:induction false} TransitionsConcat(word: seq<AuditEvent>, more: seq<AuditEvent>)
    ensures Transitions(word + more) == Transitions(word) + Transitions(more)
  {
    if more == [] {
      assert word + more == word;
    } else {
      assert (word + more)[..|word + more| - 1] == word + more[..|more| - 1];
      TransitionsConcat(word, more[..|more| - 1]);
    }
  }

  lemma ReverseConcat<T>(a: seq<T>, b: seq<T>)
    ensures Reverse(a + b) == Reverse(b) + Reverse(a)
  {
  }

  lemma TransitionsOfOne(e: AuditEvent)
    ensures Transitions([e]) == EntryOf(e) == Reverse(EntryOf(e))
  {
    assert [e][..0] == [];
  }

  lemma {:induction false} TransitionsOfReversed(word: seq<AuditEvent>)
    ensures Reverse(Transitions(Reverse(word))) == Transitions(word)
  {
    if word != [] {
      var front, last := word[..|word| - 1], word[|word| - 1];
      TransitionsOfReversed(front);
      TransitionsOfOne(last);
      TransitionsConcat([last], Reverse(front));
      assert Reverse(word) == [last] + Reverse(front);
      hide Reverse, EntryOf;
      ReverseConcat(EntryOf(last), Transitions(Reverse(front)));
    }
  }

  /** Adjacent states are allowed by the guard, starting from pending. */
  ghost predicate IsChain(entries: seq<Entry>) {
    && (entries != [] ==> CanTransition(Pending, entries[0].state))
    && (forall i :: 0 <= i < |entries| - 1 ==> CanTransition(entries[i].state, entries[i + 1].state))
  }

  ghost function CurrentState(entries: seq<Entry>): Status {
    if entries == [] then Pending else entries[|entries| - 1].state
  }

  lemma NextExtendsChain(r: Replayed, entries: seq<Entry>, e: AuditEvent)
    requires r.Live? && WellShaped(r) && Next(r, e).Live?
    requires IsChain(entries) && CurrentState(entries) == r.status
    ensures IsChain(entries + EntryOf(e)) && CurrentState(entries + EntryOf(e)) == Next(r, e).status
  {
  }

  /** The whole log of a live action spells a path of the guard that ends in its status. */
  lemma {:induction false} AcceptedLogIsChain(word: seq<AuditEvent>)
    requires Replay(word).Live?
    ensures IsChain(Transitions(word)) && CurrentState(Transitions(word)) == Replay(word).status
  {
    var front, last := word[..|word| - 1], word[|word| - 1];
    if Replay(front).Live? {
      ReplayIsWellShaped(front);
      hide IsChain, CurrentState, WellShaped, Next;
      AcceptedLogIsChain(front);
      NextExtendsChain(Replay(front), Transitions(front), last);
    } else {
      assert Replay(front) == Start;
      StartIsEmpty(front);
      TransitionsOfOne(last);
      assert word == [last];
    }
  }

  lemma StartIsEmpty(word: seq<AuditEvent>)
    requires Replay(word) == Start
    ensures word == []
  {
  }

  // ---- the history is a true suffix --------------------------------------------------------

  lemma HistoryOfTail(s: Tables, workspace: Id, account: Id, id: Id, limit: int)
    requires RowsLinked(s) && HasAccount(s, workspace, account) && HasAction(s, workspace, account, id)
    requires 1 <= limit <= MAX_AUDIT_READ
    ensures ListHistory(s, workspace, account, id, limit)
         == History(LastN(Transitions(LastN(EventsOf(s.audit, id), MAX_AUDIT_READ)), limit))
  {
    ScopedIsOwn(s.audit, workspace, account, id);
    NewestIsReversedTail(s.audit, workspace, account, id, MAX_AUDIT_READ);
    TransitionsOfReversed(LastN(EventsOf(s.audit, id), MAX_AUDIT_READ));
  }

  lemma TransitionsOfTail(word: seq<AuditEvent>, n: nat)
    ensures var all, tail := Transitions(word), Transitions(LastN(word, n));
            |tail| <= |all| && tail == all[|all| - |tail|..]
  {
    if |word| > n {
      TransitionsConcat(word[..|word| - n], LastN(word, n));
      assert word == word[..|word| - n] + LastN(word, n);
    }
  }

  /** `entries` is a suffix of `all` and ends in `status`. */
  ghost predicate IsHistorySuffix(entries: seq<Entry>, all: seq<Entry>, status: Status) {
    && |entries| <= |all| && entries == all[|all| - |entries|..]
    && (forall i :: 0 <= i < |entries| - 1 ==> CanTransition(entries[i].state, entries[i + 1].state))
    && (entries != [] ==> entries[|entries| - 1].state == status)
  }

  lemma SuffixOfSuffix(all: seq<Entry>, tail: seq<Entry>, limit: nat)
    requires IsChain(all) && 1 <= limit
    requires |tail| <= |all| && tail == all[|all| - |tail|..]
    ensures IsHistorySuffix(LastN(tail, limit), all, CurrentState(all))
    ensures LastN(tail, limit) == [] <==> tail == []
  {
    var entries := LastN(tail, limit);
    forall i | 0 <= i < |entries| - 1 ensures CanTransition(entries[i].state, entries[i + 1].state) {
      var k := |all| - |entries| + i;
      assert entries[i] == all[k] && entries[i + 1] == all[k + 1];
    }
  }

  // ---- when the history is empty -----------------------------------------------------------

  predicate IsToggle(kind: AuditKind) {
    kind.ArchivedEvent? || kind.UnarchivedEvent?
  }

  /** How often the action was archived or unarchived. */
  function CountToggles(word: seq<AuditEvent>): nat {
    if word == [] then 0
    else CountToggles(word[..|word| - 1]) + if IsToggle(word[|word| - 1].kind) then 1 else 0
  }

  lemma ExtendsQuietTail(word: seq<AuditEvent>, longer: seq<AuditEvent>, n: nat)
    requires exists e :: longer == word + [e] && EntryOf(e) == []
    requires |word| >= n && Transitions(LastN(word, n)) == []
    ensures Transitions(LastN(longer, n + 1)) == []
  {
    var e :| longer == word + [e] && EntryOf(e) == [];
    assert LastN(longer, n + 1) == LastN(word, n) + [e];
    TransitionsConcat(LastN(word, n), [e]);
    TransitionsOfOne(e);
  }

  lemma NoTransitions()
    ensures Transitions([]) == []
  {
  }

  /** The last transition of the word is followed by exactly `k` other events. */
  ghost predicate QuietFor(word: seq<AuditEvent>, k: nat) {
    k < |word| && EntryOf(word[|word| - 1 - k]) != [] && Transitions(LastN(word, k)) == []
  }

  lemma QuietFromNow(word: seq<AuditEvent>, e: AuditEvent)
    requires EntryOf(e) != []
    ensures QuietFor(word + [e], 0)
  {
    assert LastN(word + [e], 0) == [];
  }

  lemma QuietForOneMore(word: seq<AuditEvent>, k: nat, e: AuditEvent)
    requires QuietFor(word, k) && EntryOf(e) == []
    ensures QuietFor(word + [e], k + 1)
  {
    hide EntryOf, Transitions;
    ExtendsQuietTail(word, word + [e], k);
    assert (word + [e])[|word| - 1 - k] == word[|word| - 1 - k];
  }

  lemma {:induction false} EntryShows(word: seq<AuditEvent>, k: nat)
    requires k < |word| && EntryOf(word[k]) != []
    ensures Transitions(word) != []
  {
    if k < |word| - 1 {
      EntryShows(word[..|word| - 1], k);
    }
  }

  lemma QuietFits(word: seq<AuditEvent>, k: nat)
    requires QuietFor(word, k)
    ensures k < |word|
  {
  }

  lemma QuietTail(word: seq<AuditEvent>, k: nat, n: nat)
    requires QuietFor(word, k)
    ensures Transitions(LastN(word, n)) == [] <==> n <= k
  {
    hide EntryOf, Transitions;
    if n <= k {
      TransitionsOfTail(LastN(word, k), n);
      assert LastN(LastN(word, k), n) == LastN(word, n);
    } else {
      var tail := LastN(word, n);
      assert tail[|tail| - 1 - k] == word[|word| - 1 - k];
      EntryShows(tail, |tail| - 1 - k);
    }
  }

  /** Where the last transition of an accepted log sits: nowhere while pending, at the very end
      for a failed action, right before all its toggles for a terminal one. */
  ghost predicate TailShape(word: seq<AuditEvent>, r: Replayed)
    requires r.Live?
  {
    && (r.status == Pending ==> Transitions(word) == [] && CountToggles(word) == 0)
    && (r.status == Failed ==> CountToggles(word) == 0 && (r.phase.Idle? ==> QuietFor(word, 0)))
    && (IsTerminal(r.status) ==> r.phase.Idle? && QuietFor(word, CountToggles(word)))
  }

  lemma AppendEvent(word: seq<AuditEvent>, e: AuditEvent)
    ensures CountToggles(word + [e]) == CountToggles(word) + if IsToggle(e.kind) then 1 else 0
    ensures Transitions(word + [e]) == Transitions(word) + EntryOf(e)
  {
    assert (word + [e])[..|word|] == word;
  }

  lemma NextKeepsTail(word: seq<AuditEvent>, r: Replayed, e: AuditEvent)
    requires r.Live? && WellShaped(r) && Next(r, e).Live? && TailShape(word, r)
    ensures TailShape(word + [e], Next(r, e))
  {
    hide Transitions, CountToggles, QuietFor;
    AppendEvent(word, e);
    if IsTerminal(r.status) {
      QuietForOneMore(word, CountToggles(word), e);
    } else if EntryOf(e) != [] {
      QuietFromNow(word, e);
    }
  }

  /** Only a creation makes an action live. */
  lemma BornFromCreation(word: seq<AuditEvent>)
    requires Replay(word).Live? && !Replay(word[..|word| - 1]).Live?
    ensures |word| == 1 && word == [word[0]] && word[0].kind == CreatedEvent && Replay(word) == NEWBORN
  {
    StartIsEmpty(word[..|word| - 1]);
  }

  lemma {:induction false} AcceptedLogHasTail(word: seq<AuditEvent>)
    requires Replay(word).Live?
    ensures TailShape(word, Replay(word))
  {
    hide WellShaped, Next, TailShape, QuietFor, Transitions, CountToggles, EntryOf;
    assert word != [];
    var front, last := word[..|word| - 1], word[|word| - 1];
    if Replay(front).Live? {
      ReplayIsWellShaped(front);
      AcceptedLogHasTail(front);
      NextKeepsTail(front, Replay(front), last);
      assert word == front + [last];
    } else {
      BornFromCreation(word);
      NewbornHasNoTail(last);
    }
  }

  lemma NewbornHasNoTail(e: AuditEvent)
    requires e.kind == CreatedEvent
    ensures TailShape([e], NEWBORN)
  {
    hide Transitions, CountToggles, QuietFor;
    FirstEvent(e);
  }

  lemma FirstEvent(e: AuditEvent)
    requires e.kind == CreatedEvent
    ensures CountToggles([e]) == 0 && Transitions([e]) == []
  {
    assert [e][..0] == [];
  }

  /** No transition is among the newest `n` events exactly while pending, or when a terminal
      action has been archived and unarchived at least `n` times. */
  lemma QuietTailIff(word: seq<AuditEvent>, n: nat)
    requires n >= 1 && Replay(word).Live? && Replay(word).phase.Idle?
    ensures
      var status := Replay(word).status;
      && (Transitions(LastN(word, n)) == [] <==> status == Pending || (IsTerminal(status) && CountToggles(word) >= n))
      && (IsTerminal(status) ==> CountToggles(word) < |word|)
  {
    hide Replay, Transitions, CountToggles, QuietFor;
    AcceptedLogHasTail(word);
    var status, k := Replay(word).status, CountToggles(word);
    if status == Pending {
      TransitionsOfTail(word, n);
    } else {
      QuietTail(word, k, n);
      assert k < |word| by { QuietFits(word, k); }
    }
  }

  lemma ReachableLog(cs: seq<Command>, id: Id)
    requires id in Run(cs).actions
    ensures Replay(EventsOf(Run(cs).audit, id)) == Recorded(Run(cs), id)
    ensures RowsLinked(Run(cs))
  {
    hide Run;
    ReachableIsValid(cs);
  }

  /** The entry shows this event: its kind, its time, and the status that it leads to. */
  predicate Shows(y: Entry, e: AuditEvent) {
    && y.event == e.kind && y.at == e.at
    && (y.state == Delivered <==> e.kind == DeliveredEvent) && (y.state == Failed <==> e.kind == FailedEvent)
    && (y.state == Cancelled <==> e.kind == CancelledEvent) && (y.state == Expired <==> e.kind == ExpiredEvent)
    && e.kind in {DeliveredEvent, FailedEvent, CancelledEvent, ExpiredEvent}
  }

  lemma EntryShowsEvent(y: Entry, e: AuditEvent)
    ensures y in EntryOf(e) <==> Shows(y, e)
  {
  }

  /** The transitions of a log are exactly what its delivered, failed, cancelled and expired events
      show. */
  lemma {:induction false} TransitionsShow(word: seq<AuditEvent>, y: Entry)
    ensures y in Transitions(word) <==> exists i :: 0 <= i < |word| && Shows(y, word[i])
  {
    if word != [] {
      var front, last := word[..|word| - 1], word[|word| - 1];
      TransitionsShow(front, y);
      EntryShowsEvent(y, last);
      hide EntryOf, Shows;
      assert Transitions(word) == Transitions(front) + EntryOf(last);
      if i :| 0 <= i < |front| && Shows(y, front[i]) {
        assert Shows(y, word[i]);
      }
      if i :| 0 <= i < |word| && Shows(y, word[i]) {
        assert i < |front| ==> Shows(y, front[i]);
      }
    }
  }

  /** In every reachable state the history is a contiguous suffix of the action's transitions,
      a path of the guard that ends in the current status; it is complete up to the requested
      length while the log has at most 100 events. It is empty exactly for a pending action and
      for a terminal one that was archived and unarchived 100 times or more; so with at most
      100 events it is empty exactly for a pending action. */
  lemma HistoryIsTrueSuffix(cs: seq<Command>, workspace: Id, account: Id, id: Id, limit: int)
    requires var s := Run(cs); HasAccount(s, workspace, account) && HasAction(s, workspace, account, id)
    requires 1 <= limit <= 100
    ensures var s := Run(cs);
            var word := EventsOf(s.audit, id);
            var all := Transitions(word);
            var h := ListHistory(s, workspace, account, id, limit);
            var status := s.actions[id].status;
            && IsChain(all) && CurrentState(all) == status
            && h.History? && IsHistorySuffix(h.entries, all, status)
            && (|word| <= 100 ==> h.entries == LastN(all, limit))
            && (h.entries == [] <==> status == Pending || (IsTerminal(status) && CountToggles(word) >= 100))
            && (|word| <= 100 ==> (h.entries == [] <==> status == Pending))
  {
    hide Run, Valid, ListHistory, Replay, RowsLinked, EventsOf, AttemptsOf;
    hide IsHistorySuffix, IsChain, CurrentState, Transitions, CountToggles, EntryOf;
    var s := Run(cs);
    var word := EventsOf(s.audit, id);
    ReachableLog(cs, id);
    AcceptedLogIsChain(word);
    HistoryOfTail(s, workspace, account, id, limit);
    TransitionsOfTail(word, MAX_AUDIT_READ);
    SuffixOfSuffix(Transitions(word), Transitions(LastN(word, MAX_AUDIT_READ)), limit);
    QuietTailIff(word, MAX_AUDIT_READ);
  }

  // ---- what the bounded read forgets -------------------------------------------------------

  /** Archiving and unarchiving in turn, `n` times. */
  ghost function Toggles(workspace: Id, id: Id, n: nat): seq<Command> {
    if n == 0 then []
    else Toggles(workspace, id, n - 1) + [if n % 2 == 1 then DoArchive(workspace, id, 0) else DoUnarchive(workspace, id, 0)]
  }

  lemma TogglesOnce(s: Tables, workspace: Id, id: Id, archive: bool)
    requires HasJoinedAction(s, workspace, id) && IsTerminal(s.actions[id].status)
    requires s.actions[id].archivedAt.None? <==> archive
    ensures var t := Step(s, if archive then DoArchive(workspace, id, 0) else DoUnarchive(workspace, id, 0)).0;
            && t.accounts == s.accounts
            && t.actions == s.actions[id := s.actions[id].(archivedAt := if archive then Some(0) else None)]
            && exists e :: EventsOf(t.audit, id) == EventsOf(s.audit, id) + [e] && EntryOf(e) == []
  {
    var kind := if archive then ArchivedEvent else UnarchivedEvent;
    var e := Stamp(s, id, [kind], 0)[0];
    EventsOfConcat(s.audit, [e], id);
    EventsOfSingle([e], id, id);
    assert Stamp(s, id, [kind], 0) == [e];
  }

  /** `t` is `s` after `n` toggles of one action. */
  ghost predicate Toggled(s: Tables, t: Tables, id: Id, n: nat)
    requires id in s.actions
  {
    && t.accounts == s.accounts
    && t.actions == s.actions[id := s.actions[id].(archivedAt := if n % 2 == 1 then Some(0) else None)]
    && |EventsOf(t.audit, id)| == |EventsOf(s.audit, id)| + n
    && Transitions(LastN(EventsOf(t.audit, id), n)) == []
  }

  lemma ToggledOnceMore(s: Tables, before: Tables, workspace: Id, id: Id, n: nat)
    requires HasJoinedAction(s, workspace, id) && IsTerminal(s.actions[id].status)
    requires n > 0 && Toggled(s, before, id, n - 1)
    ensures Toggled(s, Step(before, if n % 2 == 1 then DoArchive(workspace, id, 0) else DoUnarchive(workspace, id, 0)).0, id, n)
  {
    hide Step, EventsOf, Transitions, EntryOf, HasAccount;
    var t := Step(before, if n % 2 == 1 then DoArchive(workspace, id, 0) else DoUnarchive(workspace, id, 0)).0;
    SameAccount(s, before, workspace, id);
    TogglesOnce(before, workspace, id, n % 2 == 1);
    ExtendsQuietTail(EventsOf(before.audit, id), EventsOf(t.audit, id), n - 1);
  }

  lemma {:induction false} TogglesOnlyToggle(s: Tables, workspace: Id, id: Id, n: nat)
    requires HasJoinedAction(s, workspace, id) && IsTerminal(s.actions[id].status) && s.actions[id].archivedAt.None?
    ensures Toggled(s, RunFrom(s, Toggles(workspace, id, n)), id, n)
  {
    hide Step, EventsOf;
    if n > 0 {
      hide Toggled;
      var commands := Toggles(workspace, id, n);
      assert commands[..|commands| - 1] == Toggles(workspace, id, n - 1);
      TogglesOnlyToggle(s, workspace, id, n - 1);
      ToggledOnceMore(s, RunFrom(s, Toggles(workspace, id, n - 1)), workspace, id, n);
    } else {
      assert s.actions == s.actions[id := s.actions[id].(archivedAt := None)];
      NoTransitions();
    }
  }

  lemma SameAccount(s: Tables, t: Tables, workspace: Id, id: Id)
    requires HasJoinedAction(s, workspace, id) && t.accounts == s.accounts && id in t.actions
    requires SameIdentity(s.actions[id], t.actions[id])
    ensures HasJoinedAction(t, workspace, id)
  {
  }

  /** After 100 further archive events a cancelled, expired or delivered action has no visible
      history at all, although it is not pending. */
  lemma BoundedReadForgets(s: Tables, workspace: Id, id: Id, limit: int)
    requires Valid(s) && HasJoinedAction(s, workspace, id)
    requires IsTerminal(s.actions[id].status) && s.actions[id].archivedAt.None?
    requires 1 <= limit <= 100
    ensures var t := RunFrom(s, Toggles(workspace, id, 100));
            && id in t.actions && t.actions[id].status == s.actions[id].status
            && ListHistory(t, workspace, s.actions[id].account, id, limit) == History([])
  {
    hide RunFrom, Toggles, ListHistory, Transitions, EventsOf, Replay;
    var t := RunFrom(s, Toggles(workspace, id, MAX_AUDIT_READ));
    TogglesOnlyToggle(s, workspace, id, MAX_AUDIT_READ);
    RunKeepsValid(s, Toggles(workspace, id, MAX_AUDIT_READ));
    assert RowsLinked(t);
    hide Valid, RowsLinked;
    HistoryOfTail(t, workspace, s.actions[id].account, id, limit);
  }
}
