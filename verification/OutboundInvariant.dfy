/** The invariant that ties the outbound tables together. */
module OutboundInvariant {
  import opened Common
  import opened OutboundModel
  import opened OutboundTables
  import opened AuditReplay

  // ---- attempts of one action --------------------------------------------------------

  function AttemptsOf(attempts: seq<Attempt>, id: Id): seq<Attempt> {
    if attempts == [] then []
    else
      var rest := AttemptsOf(attempts[..|attempts| - 1], id);
      var last := attempts[|attempts| - 1];
      if last.action == id then rest + [last] else rest
  }

  function MarksOf(attempts: seq<Attempt>): (marks: seq<AttemptMark>) {
    seq(|attempts|, i requires 0 <= i < |attempts| =>
      AttemptMark(attempts[i].number, attempts[i].status, attempts[i].startedAt, attempts[i].completedAt))
  }

  lemma AttemptsOfAppend(attempts: seq<Attempt>, row: Attempt, id: Id)
    ensures AttemptsOf(attempts + [row], id)
         == if row.action == id then AttemptsOf(attempts, id) + [row] else AttemptsOf(attempts, id)
  {
    assert (attempts + [row])[..|attempts|] == attempts;
  }

  lemma MaxAttemptNumberAppend(attempts: seq<Attempt>, row: Attempt, id: Id)
    ensures MaxAttemptNumber(attempts + [row], id)
         == if row.action == id && row.number > MaxAttemptNumber(attempts, id) then row.number
            else MaxAttemptNumber(attempts, id)
  {
    assert (attempts + [row])[..|attempts|] == attempts;
  }

  /** When an action's rows are numbered 1..n, the largest number is the row count. */
  lemma {:induction false} MaxIsCount(attempts: seq<Attempt>, id: Id)
    requires forall i :: 0 <= i < |AttemptsOf(attempts, id)| ==> AttemptsOf(attempts, id)[i].number == i + 1
    ensures MaxAttemptNumber(attempts, id) == |AttemptsOf(attempts, id)|
  {
    if attempts != [] {
      var front := attempts[..|attempts| - 1];
      var rows := AttemptsOf(attempts, id);
      var before := AttemptsOf(front, id);
      forall i | 0 <= i < |before| ensures before[i].number == i + 1 {
        assert before[i] == rows[i];
      }
      MaxIsCount(front, id);
      if attempts[|attempts| - 1].action == id {
        assert rows[|before|].number == |before| + 1;
      }
    }
  }

  lemma {:induction false} AttemptsOfFromTable(attempts: seq<Attempt>, id: Id)
    ensures forall row :: row in AttemptsOf(attempts, id) ==> row in attempts && row.action == id
    ensures AttemptsOf(attempts, id) != [] <==> exists i :: 0 <= i < |attempts| && attempts[i].action == id
  {
    if attempts != [] {
      AttemptsOfFromTable(attempts[..|attempts| - 1], id);
    }
  }

  // ---- the invariant -----------------------------------------------------------------

  /** Identifiers are issued in order, and rows belong where their action belongs. */
  ghost predicate RowsLinked(s: Tables) {
    && (forall id :: id in s.accounts ==> id < s.nextId)
    && (forall id :: id in s.approvals ==> id < s.nextId)
    && (forall id :: id in s.leads ==> id < s.nextId)
    && (forall id :: id in s.actions ==>
          id < s.nextId && HasAccount(s, s.actions[id].workspace, s.actions[id].account))
    && (forall i :: 0 <= i < |s.audit| ==>
          && s.audit[i].id == i && s.audit[i].action < s.nextId
          && (s.audit[i].action in s.actions ==>
                var a := s.actions[s.audit[i].action];
                s.audit[i].workspace == a.workspace && s.audit[i].account == a.account))
  }

  /** No attempt row is ever left without its action. */
  ghost predicate AttemptsOwned(s: Tables) {
    forall i :: 0 <= i < |s.attempts| ==>
      && s.attempts[i].id == i
      && HasAction(s, s.attempts[i].workspace, s.attempts[i].account, s.attempts[i].action)
  }

  /** At most one live action per workspace, account and key. */
  ghost predicate KeysUnique(s: Tables) {
    forall i, j :: i in s.actions && j in s.actions && i != j ==>
      || s.actions[i].workspace != s.actions[j].workspace
      || s.actions[i].account != s.actions[j].account
      || s.actions[i].key != s.actions[j].key
  }

  /** What the tables say about an action, in the form in which replaying its log says it. */
  ghost function Recorded(s: Tables, id: Id): Replayed
    requires id in s.actions
  {
    var a := s.actions[id];
    Live(a.status, a.archivedAt, Idle, MarksOf(AttemptsOf(s.attempts, id)),
         a.deliveredAt, a.failedAt, a.cancelledAt, a.expiredAt)
  }

  ghost predicate LogReplays(s: Tables) {
    && (forall id :: id in s.actions ==> Replay(EventsOf(s.audit, id)) == Recorded(s, id))
    && (forall id: Id :: !Replay(EventsOf(s.audit, id)).Illegal?)
  }

  ghost predicate LinkSound(s: Tables, id: Id)
    requires id in s.actions
  {
    var a := s.actions[id];
    && (a.requiresApproval <==> a.approval.Some?)
    && (a.approval.Some? ==> a.approval.value in s.approvals && s.approvals[a.approval.value].lead.None?)
  }

  ghost predicate LinksSound(s: Tables) {
    && (forall id :: id in s.actions ==> LinkSound(s, id))
    && (forall i, j :: i in s.actions && j in s.actions && i != j && s.actions[i].approval.Some? ==>
          s.actions[i].approval != s.actions[j].approval)
  }

  /** A decision is taken at most once, and only approvals of a lead's message execute. */
  ghost predicate ApprovalSound(p: Approval) {
    && (p.lead.None? ==> p.status != Executed)
    && (p.lead.Some? ==> p.status != Approved)
    && (p.decision.Some? <==> p.status != AwaitingDecision)
  }

  /** Only messages to leads go out, and an executed approval's has. */
  ghost predicate ApprovalsSound(s: Tables) {
    && (forall p :: p in s.approvals ==> ApprovalSound(s.approvals[p]))
    && (forall p :: p in s.sent ==> p in s.approvals && s.approvals[p].lead.Some?)
    && (forall p :: p in s.approvals && s.approvals[p].status == Executed ==> p in s.sent)
  }

  /** An action that was ever attempted has passed its gate. */
  ghost predicate GatePassed(s: Tables) {
    forall id :: id in s.actions && s.actions[id].status in {Failed, Delivered} && s.actions[id].requiresApproval ==>
      LinkedStatus(s, s.actions[id]) == Some(Approved)
  }

  /** Every adapter call was gated. A call whose attempt was stored holds its number for good,
      and its delivery is the end; a call whose transaction was lost leaves the number free. */
  ghost predicate CallsSound(s: Tables) {
    && (forall i :: 0 <= i < |s.calls| ==> CallSound(s, s.calls[i]))
    && (forall i, j :: 0 <= i < j < |s.calls| && s.calls[i].action == s.calls[j].action ==>
          && s.calls[i].number <= s.calls[j].number
          && (s.calls[i].committed ==> s.calls[i].number < s.calls[j].number && !s.calls[i].delivered))
  }

  ghost predicate CallSound(s: Tables, c: AdapterCall) {
    && (c.requiresApproval ==> c.approval == Some(Approved))
    && c.action < s.nextId
    && 1 <= c.number <= MaxAttemptNumber(s.attempts, c.action) + 1
    && (c.committed ==>
          && c.action in s.actions
          && c.number <= MaxAttemptNumber(s.attempts, c.action)
          && (c.delivered ==> s.actions[c.action].status == Delivered))
  }

  ghost predicate Valid(s: Tables) {
    && RowsLinked(s)
    && AttemptsOwned(s)
    && KeysUnique(s)
    && LogReplays(s)
    && LinksSound(s)
    && ApprovalsSound(s)
    && GatePassed(s)
    && CallsSound(s)
  }

  // ---- consequences ------------------------------------------------------------------

  /** The attempt rows of a live action, as every reader may rely on them. */
  lemma LiveAttempts(s: Tables, id: Id)
    requires LogReplays(s) && id in s.actions
    ensures WellShaped(Recorded(s, id))
    ensures forall i :: 0 <= i < |AttemptsOf(s.attempts, id)| ==> AttemptsOf(s.attempts, id)[i].number == i + 1
    ensures MaxAttemptNumber(s.attempts, id) == |AttemptsOf(s.attempts, id)|
  {
    ReplayIsWellShaped(EventsOf(s.audit, id));
    var rows := AttemptsOf(s.attempts, id);
    var marks := MarksOf(rows);
    assert NumberedFromOne(marks);
    forall i | 0 <= i < |rows| ensures rows[i].number == i + 1 {
      assert marks[i].number == i + 1;
    }
    MaxIsCount(s.attempts, id);
  }

  lemma NoEventsYet(s: Tables, id: Id)
    requires RowsLinked(s) && id >= s.nextId
    ensures EventsOf(s.audit, id) == []
  {
    EventsOfFromLog(s.audit, id);
  }
}
