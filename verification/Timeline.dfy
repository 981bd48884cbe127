/** The timeline of one action: three bounded sources merged, filtered, sorted and truncated. */
module Timeline {
  import opened Common
  import opened OutboundModel
  import opened OutboundTables
  import opened OutboundInvariant
  import opened OutboundPreservation
  import opened StateHistory

  datatype Category = Lifecycle | Delivery | RetryCategory | ApprovalCategory

  datatype TimelineEvent =
    | OfAudit(kind: AuditKind)
    | DeliveryAttempt
    | ApprovalRequested
    | ApprovalDecided(status: ApprovalStatus)

  datatype TimelineEntry = TimelineEntry(
    category: Category, event: TimelineEvent, at: Time, state: Option<Status>, number: Option<nat>)

  /** `rank` orders the source identifiers: a decision's identifier extends its approval's. */
  datatype SortKey = SortKey(at: Time, source: nat, rank: nat)

  datatype Item = Item(entry: TimelineEntry, key: SortKey)

  // ---- the three sources -------------------------------------------------------------------

  function AuditItem(e: AuditEvent): Item {
    var category := match e.kind
      case AttemptedEvent => Delivery
      case RetriedEvent => RetryCategory
      case _ => Lifecycle;
    Item(TimelineEntry(category, OfAudit(e.kind), e.at, StateByEvent(e.kind), None), SortKey(e.at, 1, 2 * e.id))
  }

  function AttemptItem(row: Attempt): Item {
    Item(TimelineEntry(Delivery, DeliveryAttempt, row.startedAt, Some(row.status), Some(row.number)),
         SortKey(row.startedAt, 2, 2 * row.id))
  }

  function AuditItems(events: seq<AuditEvent>): seq<Item> {
    seq(|events|, i requires 0 <= i < |events| => AuditItem(events[i]))
  }

  /** The oldest rows by number; rows are stored in that order. */
  function AttemptItems(rows: seq<Attempt>): seq<Item> {
    var n := if |rows| <= MAX_AUDIT_READ then |rows| else MAX_AUDIT_READ;
    seq(n, i requires 0 <= i < n => AttemptItem(rows[i]))
  }

  function ApprovalItems(s: Tables, a: Action): seq<Item> {
    if a.approval.None? || a.approval.value !in s.approvals then []
    else
      var id := a.approval.value;
      var p := s.approvals[id];
      var requested := Item(TimelineEntry(ApprovalCategory, ApprovalRequested, p.createdAt, None, None),
                            SortKey(p.createdAt, 0, 2 * id));
      if p.status == AwaitingDecision || p.decision.None? then [requested]
      else
        [requested, Item(TimelineEntry(ApprovalCategory, ApprovalDecided(p.status), p.decision.value.at, None, None),
                         SortKey(p.decision.value.at, 0, 2 * id + 1))]
  }

  function Sources(s: Tables, workspace: Id, account: Id, id: Id): (seq<Item>, seq<Item>, seq<Item>)
    requires id in s.actions
  {
    (AuditItems(NewestEvents(s.audit, workspace, account, id, MAX_AUDIT_READ)),
     AttemptItems(AttemptsOf(s.attempts, id)),
     ApprovalItems(s, s.actions[id]))
  }

  function Merged(s: Tables, workspace: Id, account: Id, id: Id): seq<Item>
    requires id in s.actions
  {
    var (audit, attempts, approvals) := Sources(s, workspace, account, id);
    audit + attempts + approvals
  }

  // ---- filtering and sorting ---------------------------------------------------------------

  datatype Query = Query(category: Option<Category>, event: Option<TimelineEvent>, after: Option<Time>, before: Option<Time>)

  predicate Selects(q: Query, e: TimelineEntry) {
    && (q.category.None? || e.category == q.category.value)
    && (q.event.None? || e.event == q.event.value)
    && (q.after.None? || e.at >= q.after.value)
    && (q.before.None? || e.at <= q.before.value)
  }

  function Select(q: Query, items: seq<Item>): seq<Item> {
    if items == [] then []
    else
      var rest := Select(q, items[..|items| - 1]);
      if Selects(q, items[|items| - 1].entry) then rest + [items[|items| - 1]] else rest
  }

  predicate KeyLess(a: SortKey, b: SortKey) {
    a.at < b.at || (a.at == b.at && (a.source < b.source || (a.source == b.source && a.rank < b.rank)))
  }

  /** Inserts before the first item with a greater key. */
  function Insert(x: Item, sorted: seq<Item>): seq<Item> {
    if sorted == [] || KeyLess(x.key, sorted[0].key) then [x] + sorted
    else [sorted[0]] + Insert(x, sorted[1..])
  }

  function Sort(items: seq<Item>): seq<Item> {
    if items == [] then [] else Insert(items[|items| - 1], Sort(items[..|items| - 1]))
  }

  ghost predicate IsSorted(items: seq<Item>) {
    forall i, j :: 0 <= i < j < |items| ==> KeyLess(items[i].key, items[j].key)
  }

  ghost predicate KeysDistinct(items: seq<Item>) {
    forall i, j :: 0 <= i < j < |items| ==> items[i].key != items[j].key
  }

  function Take<T>(s: seq<T>, n: nat): seq<T> {
    if |s| <= n then s else s[..n]
  }

  datatype TimelineResult = QueryRejected | Missing(error: Error) | Timeline(items: seq<Item>)

  // ---- sorting is determined ---------------------------------------------------------------

  lemma {:induction false} InsertSorts(x: Item, sorted: seq<Item>)
    requires IsSorted(sorted)
    requires forall i :: 0 <= i < |sorted| ==> sorted[i].key != x.key
    ensures IsSorted(Insert(x, sorted))
    ensures multiset(Insert(x, sorted)) == multiset(sorted) + multiset{x}
    ensures forall y :: y in Insert(x, sorted) ==> y == x || y in sorted
  {
    if sorted != [] && !KeyLess(x.key, sorted[0].key) {
      InsertSorts(x, sorted[1..]);
      assert sorted == [sorted[0]] + sorted[1..];
      var rest := Insert(x, sorted[1..]);
      forall k | 0 <= k < |rest| ensures KeyLess(sorted[0].key, rest[k].key) {
        assert rest[k] == x || rest[k] in sorted[1..];
      }
    }
  }

  lemma {:induction false} SortSorts(items: seq<Item>)
    requires KeysDistinct(items)
    ensures IsSorted(Sort(items)) && multiset(Sort(items)) == multiset(items)
  {
    if items != [] {
      var front, last := items[..|items| - 1], items[|items| - 1];
      SortSorts(front);
      assert items == front + [last];
      forall i | 0 <= i < |Sort(front)| ensures Sort(front)[i].key != last.key {
        assert Sort(front)[i] in multiset(Sort(front));
        assert Sort(front)[i] in front;
      }
      InsertSorts(last, Sort(front));
    }
  }

  lemma LeastComesFirst(a: seq<Item>, b: seq<Item>)
    requires IsSorted(a) && IsSorted(b) && multiset(a) == multiset(b) && a != []
    ensures b != [] && a[0] == b[0]
  {
    assert a[0] in multiset(b);
    assert a[0] in b;
    assert b[0] in multiset(a);
    assert b[0] in a;
  }

  lemma RestMatches(a: seq<Item>, b: seq<Item>)
    requires a != [] && b != [] && a[0] == b[0] && multiset(a) == multiset(b)
    ensures multiset(a[1..]) == multiset(b[1..])
  {
    assert a == [a[0]] + a[1..] && b == [b[0]] + b[1..];
    assert multiset(a[1..]) == multiset(a) - multiset{a[0]};
    assert multiset(b[1..]) == multiset(b) - multiset{b[0]};
  }

  lemma {:induction false} SortedIsUnique(a: seq<Item>, b: seq<Item>)
    requires IsSorted(a) && IsSorted(b) && multiset(a) == multiset(b)
    ensures a == b
  {
    if a == [] {
      assert |multiset(b)| == 0;
    } else {
      LeastComesFirst(a, b);
      RestMatches(a, b);
      SortedIsUnique(a[1..], b[1..]);
      assert a == [a[0]] + a[1..] && b == [b[0]] + b[1..];
    }
  }

  lemma {:induction false} SelectConcat(q: Query, a: seq<Item>, b: seq<Item>)
    ensures Select(q, a + b) == Select(q, a) + Select(q, b)
  {
    if b == [] {
      assert a + b == a;
    } else {
      assert (a + b)[..|a + b| - 1] == a + b[..|b| - 1];
      SelectConcat(q, a, b[..|b| - 1]);
    }
  }

  lemma SelectAround(q: Query, before: seq<Item>, x: Item, after: seq<Item>)
    ensures multiset(Select(q, before + [x] + after)) == multiset(Select(q, before + after)) + multiset(Select(q, [x]))
  {
    SelectConcat(q, before, [x]);
    SelectConcat(q, before + [x], after);
    SelectConcat(q, before, after);
  }

  lemma {:induction false} SelectPermutes(q: Query, a: seq<Item>, b: seq<Item>)
    requires multiset(a) == multiset(b)
    ensures multiset(Select(q, a)) == multiset(Select(q, b))
  {
    if a == [] {
      assert |multiset(b)| == 0;
      assert b == [];
    } else {
      hide Select;
      var x := a[|a| - 1];
      var front := a[..|a| - 1];
      assert a == front + [x];
      assert x in multiset(a) && x in b;
      var k :| 0 <= k < |b| && b[k] == x;
      var before, after := b[..k], b[k + 1..];
      assert b == before + [x] + after;
      assert multiset(before + after) == multiset(b) - multiset{x};
      assert multiset(front) == multiset(a) - multiset{x};
      SelectPermutes(q, front, before + after);
      SelectAround(q, before, x, after);
      SelectConcat(q, front, [x]);
    }
  }

  lemma {:induction false} SelectKeepsOrder(q: Query, items: seq<Item>)
    ensures IsSorted(items) ==> IsSorted(Select(q, items))
    ensures KeysDistinct(items) ==> KeysDistinct(Select(q, items))
    ensures forall x :: x in Select(q, items) ==> x in items
  {
    if items != [] {
      var front, last := items[..|items| - 1], items[|items| - 1];
      SelectKeepsOrder(q, front);
      var rest := Select(q, front);
      forall i | 0 <= i < |rest|
        ensures IsSorted(items) ==> KeyLess(rest[i].key, last.key)
        ensures KeysDistinct(items) ==> rest[i].key != last.key
      {
        assert rest[i] in front;
        var k :| 0 <= k < |front| && front[k] == rest[i];
        assert items[k] == rest[i];
      }
    }
  }

  /** For sources with distinct keys: sorting any arrangement of them, filtering before or after,
      gives the same list, and it is the only sorted list of exactly the selected items. */
  lemma TimelineIsDetermined(q: Query, union: seq<Item>, arranged: seq<Item>)
    requires KeysDistinct(union) && multiset(arranged) == multiset(union)
    ensures KeysDistinct(arranged)
    ensures Sort(Select(q, arranged)) == Sort(Select(q, union)) == Select(q, Sort(union))
    ensures IsSorted(Sort(Select(q, union)))
    ensures forall other :: IsSorted(other) && multiset(other) == multiset(Select(q, union)) ==>
      other == Sort(Select(q, union))
  {
    DistinctPermutes(union, arranged);
    SelectKeepsOrder(q, union);
    SelectKeepsOrder(q, arranged);
    SelectPermutes(q, arranged, union);
    SortSorts(Select(q, union));
    SortSorts(Select(q, arranged));
    SortSorts(union);
    SelectKeepsOrder(q, Sort(union));
    SelectPermutes(q, Sort(union), union);
    hide Sort, Select, IsSorted, KeysDistinct;
    SortedIsUnique(Sort(Select(q, arranged)), Sort(Select(q, union)));
    SortedIsUnique(Select(q, Sort(union)), Sort(Select(q, union)));
    forall other | IsSorted(other) && multiset(other) == multiset(Select(q, union))
      ensures other == Sort(Select(q, union))
    {
      SortedIsUnique(other, Sort(Select(q, union)));
    }
  }

  lemma {:induction false} DistinctOccursOnce(items: seq<Item>, x: Item)
    requires KeysDistinct(items)
    ensures multiset(items)[x] <= 1
  {
    if items != [] {
      var front := items[..|items| - 1];
      assert items == front + [items[|items| - 1]];
      DistinctOccursOnce(front, x);
      assert forall k :: 0 <= k < |front| ==> front[k] == items[k];
      assert x == items[|items| - 1] ==> x !in front;
    }
  }

  /** Distinct keys do not depend on the arrangement. */
  lemma DistinctPermutes(a: seq<Item>, b: seq<Item>)
    requires KeysDistinct(a) && multiset(a) == multiset(b)
    ensures KeysDistinct(b)
  {
    forall i, j | 0 <= i < j < |b| ensures b[i].key != b[j].key {
      if b[i] == b[j] {
        assert b == b[..j] + [b[j]] + b[j + 1..];
        assert b[i] in b[..j];
        assert multiset(b)[b[j]] >= 2;
        DistinctOccursOnce(a, b[j]);
      } else {
        assert b[i] in multiset(a) && b[j] in multiset(a);
        var k :| 0 <= k < |a| && a[k] == b[i];
        var l :| 0 <= l < |a| && a[l] == b[j];
      }
    }
  }

  // ---- the keys of an action's sources are distinct ------------------------------------------

  ghost predicate EventsAscend(events: seq<AuditEvent>, bound: nat) {
    && (forall i :: 0 <= i < |events| ==> events[i].id < bound)
    && (forall i, j :: 0 <= i < j < |events| ==> events[i].id < events[j].id)
  }

  lemma {:induction false} ScopedAscends(log: seq<AuditEvent>, workspace: Id, account: Id, id: Id)
    requires forall i :: 0 <= i < |log| ==> log[i].id == i
    ensures EventsAscend(ScopedEvents(log, workspace, account, id), |log|)
  {
    if log != [] {
      ScopedAscends(log[..|log| - 1], workspace, account, id);
    }
  }

  ghost predicate RowsAscend(rows: seq<Attempt>, bound: nat) {
    && (forall i :: 0 <= i < |rows| ==> rows[i].id < bound)
    && (forall i, j :: 0 <= i < j < |rows| ==> rows[i].id < rows[j].id)
  }

  lemma {:induction false} AttemptsAscend(attempts: seq<Attempt>, id: Id)
    requires forall i :: 0 <= i < |attempts| ==> attempts[i].id == i
    ensures RowsAscend(AttemptsOf(attempts, id), |attempts|)
  {
    if attempts != [] {
      AttemptsAscend(attempts[..|attempts| - 1], id);
    }
  }

  lemma AuditItemsDistinct(log: seq<AuditEvent>, workspace: Id, account: Id, id: Id)
    requires forall i :: 0 <= i < |log| ==> log[i].id == i
    ensures KeysDistinct(AuditItems(NewestEvents(log, workspace, account, id, MAX_AUDIT_READ)))
  {
    ScopedAscends(log, workspace, account, id);
    var own := ScopedEvents(log, workspace, account, id);
    var events := NewestEvents(log, workspace, account, id, MAX_AUDIT_READ);
    hide ScopedEvents;
    forall i, j | 0 <= i < j < |events| ensures events[i].id != events[j].id {
      assert events[i] == own[|own| - 1 - i] && events[j] == own[|own| - 1 - j];
      assert own[|own| - 1 - j].id < own[|own| - 1 - i].id;
    }
  }

  lemma AttemptItemsDistinct(attempts: seq<Attempt>, id: Id)
    requires forall i :: 0 <= i < |attempts| ==> attempts[i].id == i
    ensures KeysDistinct(AttemptItems(AttemptsOf(attempts, id)))
  {
    AttemptsAscend(attempts, id);
    hide AttemptsOf;
  }

  /** The merged sources of an action have pairwise distinct keys. */
  lemma SourcesHaveDistinctKeys(s: Tables, workspace: Id, account: Id, id: Id)
    requires RowsLinked(s) && AttemptsOwned(s) && id in s.actions
    ensures KeysDistinct(Merged(s, workspace, account, id))
  {
    AuditItemsDistinct(s.audit, workspace, account, id);
    AttemptItemsDistinct(s.attempts, id);
    hide RowsLinked, AttemptsOwned, KeysDistinct, NewestEvents, AttemptsOf;
    var (audit, attempts, approvals) := Sources(s, workspace, account, id);
    ApprovalItemsDistinct(s, s.actions[id]);
    DistinctApart(audit, attempts, approvals);
  }

  lemma ApprovalItemsDistinct(s: Tables, a: Action)
    ensures KeysDistinct(ApprovalItems(s, a))
    ensures forall i :: 0 <= i < |ApprovalItems(s, a)| ==> ApprovalItems(s, a)[i].key.source == 0
  {
  }

  lemma DistinctApart(a: seq<Item>, b: seq<Item>, c: seq<Item>)
    requires KeysDistinct(a) && KeysDistinct(b) && KeysDistinct(c)
    requires forall i :: 0 <= i < |a| ==> a[i].key.source == 1
    requires forall i :: 0 <= i < |b| ==> b[i].key.source == 2
    requires forall i :: 0 <= i < |c| ==> c[i].key.source == 0
    ensures KeysDistinct(a + b + c)
  {
    var all := a + b + c;
    forall i, j | 0 <= i < j < |all| ensures all[i].key != all[j].key {
      if |a| <= i < j < |a| + |b| {
        assert all[i] == b[i - |a|] && all[j] == b[j - |a|];
      } else if |a| + |b| <= i {
        assert all[i] == c[i - |a| - |b|] && all[j] == c[j - |a| - |b|];
      }
    }
  }

  // ---- the answer --------------------------------------------------------------------------

  /** The list holds every selected item of the union as often as the union does, and no other. */
  ghost predicate HoldsSelected(all: seq<Item>, q: Query, union: seq<Item>) {
    forall x: Item :: multiset(all)[x] == if Selects(q, x.entry) then multiset(union)[x] else 0
  }

  /** The oldest `limit` of the selected items, in the order of their keys. */
  ghost predicate IsTimeline(items: seq<Item>, q: Query, union: seq<Item>, limit: nat) {
    exists all :: IsSorted(all) && HoldsSelected(all, q, union) && items == Take(all, limit)
  }

  lemma {:induction false} SelectHolds(q: Query, items: seq<Item>)
    ensures HoldsSelected(Select(q, items), q, items)
  {
    if items != [] {
      var front, last := items[..|items| - 1], items[|items| - 1];
      SelectHolds(q, front);
      assert items == front + [last];
      assert multiset(items) == multiset(front) + multiset{last};
      var rest := Select(q, front);
      assert Selects(q, last.entry) ==> multiset(rest + [last]) == multiset(rest) + multiset{last};
    }
  }

  lemma SelectedIsDetermined(a: seq<Item>, b: seq<Item>, q: Query, union: seq<Item>)
    requires HoldsSelected(a, q, union) && HoldsSelected(b, q, union)
    ensures multiset(a) == multiset(b)
  {
    forall x: Item ensures multiset(a)[x] == multiset(b)[x] {
    }
  }

  lemma AnswerIsOnlyTimeline(q: Query, union: seq<Item>, limit: nat, items: seq<Item>)
    requires KeysDistinct(union)
    ensures IsTimeline(items, q, union, limit) <==> items == Take(Sort(Select(q, union)), limit)
  {
    var answer := Sort(Select(q, union));
    SelectHolds(q, union);
    SelectKeepsOrder(q, union);
    SortSorts(Select(q, union));
    hide Sort, Select, IsSorted, KeysDistinct;
    assert HoldsSelected(answer, q, union);
    if IsTimeline(items, q, union, limit) {
      var all :| IsSorted(all) && HoldsSelected(all, q, union) && items == Take(all, limit);
      SelectedIsDetermined(all, answer, q, union);
      SortedIsUnique(all, answer);
    }
  }

  /** In every reachable state there is exactly one timeline of an action for a query and a
      limit, and sorting the selected sources computes it. */
  lemma TimelineOfRun(cs: seq<Command>, workspace: Id, account: Id, id: Id, q: Query, limit: nat, items: seq<Item>)
    requires id in Run(cs).actions
    ensures
      var union := Merged(Run(cs), workspace, account, id);
      IsTimeline(items, q, union, limit) <==> items == Take(Sort(Select(q, union)), limit)
  {
    ReachableIsValid(cs);
    var s := Run(cs);
    assert RowsLinked(s) && AttemptsOwned(s);
    hide Run, Valid, RowsLinked, AttemptsOwned, Merged, IsTimeline, Sort, Select;
    SourcesHaveDistinctKeys(s, workspace, account, id);
    AnswerIsOnlyTimeline(q, Merged(s, workspace, account, id), limit, items);
  }

  // ---- what the entries show ---------------------------------------------------------------

  predicate ShowsAudit(y: TimelineEntry, e: AuditEvent) {
    && y.event == OfAudit(e.kind) && y.at == e.at && y.number.None?
    && (y.category == Delivery <==> e.kind == AttemptedEvent) && (y.category == RetryCategory <==> e.kind == RetriedEvent)
    && y.category != ApprovalCategory
    && (y.state.Some? <==> e.kind in {DeliveredEvent, FailedEvent, CancelledEvent, ExpiredEvent})
    && (y.state.Some? ==> Shows(Entry(y.state.value, e.kind, y.at), e))
  }

  predicate ShowsAttempt(y: TimelineEntry, row: Attempt) {
    && y.category == Delivery && y.event == DeliveryAttempt && y.at == row.startedAt
    && y.state == Some(row.status) && y.number == Some(row.number)
  }

  /** A request for approval, and its decision once there is one. */
  predicate ShowsApproval(y: TimelineEntry, p: Approval) {
    && y.category == ApprovalCategory && y.state.None? && y.number.None?
    && (|| (y.event == ApprovalRequested && y.at == p.createdAt)
        || (p.status != AwaitingDecision && p.decision.Some? && y.event == ApprovalDecided(p.status) && y.at == p.decision.value.at))
  }

  /** The entry meets every criterion that the query gives; both time bounds are inclusive. */
  predicate InQuery(q: Query, y: TimelineEntry) {
    && q.category in {None, Some(y.category)} && q.event in {None, Some(y.event)}
    && !(q.after.Some? && y.at < q.after.value) && !(q.before.Some? && y.at > q.before.value)
  }

  lemma QueryIsSelection(q: Query, y: TimelineEntry)
    ensures Selects(q, y) <==> InQuery(q, y)
  {
  }

  /** The action has an audit event, attempt row or approval, within what is read of each, that
      the entry shows. */
  ghost predicate IsShown(s: Tables, workspace: Id, account: Id, id: Id, y: TimelineEntry)
    requires id in s.actions
  {
    var a, rows := s.actions[id], AttemptsOf(s.attempts, id);
    || (exists e :: e in LastN(ScopedEvents(s.audit, workspace, account, id), 100) && ShowsAudit(y, e))
    || (exists i :: 0 <= i < |rows| && i < 100 && ShowsAttempt(y, rows[i]))
    || (a.approval.Some? && a.approval.value in s.approvals && ShowsApproval(y, s.approvals[a.approval.value]))
  }

  lemma AuditItemShows(e: AuditEvent, y: TimelineEntry)
    ensures AuditItem(e).entry == y <==> ShowsAudit(y, e)
  {
  }

  lemma AuditItemsShow(s: Tables, workspace: Id, account: Id, id: Id, y: TimelineEntry)
    ensures (exists x :: x in AuditItems(NewestEvents(s.audit, workspace, account, id, MAX_AUDIT_READ)) && x.entry == y)
            <==> exists e :: e in LastN(ScopedEvents(s.audit, workspace, account, id), 100) && ShowsAudit(y, e)
  {
    hide ShowsAudit, AuditItem, ScopedEvents, NewestEvents;
    var events := NewestEvents(s.audit, workspace, account, id, MAX_AUDIT_READ);
    var tail := LastN(ScopedEvents(s.audit, workspace, account, id), 100);
    NewestIsReversedTail(s.audit, workspace, account, id, MAX_AUDIT_READ);
    if x :| x in AuditItems(events) && x.entry == y {
      var i :| 0 <= i < |events| && AuditItems(events)[i] == x;
      AuditItemShows(events[i], y);
      assert events[i] == tail[|tail| - 1 - i];
    }
    if e :| e in tail && ShowsAudit(y, e) {
      var i :| 0 <= i < |tail| && tail[i] == e;
      AuditItemShows(e, y);
      assert events[|tail| - 1 - i] == e;
      assert AuditItems(events)[|tail| - 1 - i] == AuditItem(e);
    }
  }

  lemma AttemptItemsShow(rows: seq<Attempt>, y: TimelineEntry)
    ensures (exists x :: x in AttemptItems(rows) && x.entry == y)
            <==> exists i :: 0 <= i < |rows| && i < 100 && ShowsAttempt(y, rows[i])
  {
    if i :| 0 <= i < |rows| && i < 100 && ShowsAttempt(y, rows[i]) {
      assert AttemptItems(rows)[i].entry == y;
    }
  }

  lemma ApprovalItemsShow(s: Tables, a: Action, y: TimelineEntry)
    ensures (exists x :: x in ApprovalItems(s, a) && x.entry == y)
            <==> a.approval.Some? && a.approval.value in s.approvals && ShowsApproval(y, s.approvals[a.approval.value])
  {
    var items := ApprovalItems(s, a);
    if a.approval.Some? && a.approval.value in s.approvals && ShowsApproval(y, s.approvals[a.approval.value]) {
      assert items[0].entry == y || (|items| == 2 && items[1].entry == y);
    }
  }

  lemma MergedShows(s: Tables, workspace: Id, account: Id, id: Id, y: TimelineEntry)
    requires id in s.actions
    ensures (exists x :: x in Merged(s, workspace, account, id) && x.entry == y) <==> IsShown(s, workspace, account, id, y)
  {
    hide AuditItems, AttemptItems, ApprovalItems, NewestEvents, ScopedEvents, AttemptsOf, ShowsAudit, ShowsAttempt, ShowsApproval;
    AuditItemsShow(s, workspace, account, id, y);
    AttemptItemsShow(AttemptsOf(s.attempts, id), y);
    ApprovalItemsShow(s, s.actions[id], y);
  }

  /** Before truncation the answer shows exactly what the sources of the action hold and the query
      asks for. */
  lemma AnswerShows(s: Tables, workspace: Id, account: Id, id: Id, q: Query, y: TimelineEntry)
    requires RowsLinked(s) && AttemptsOwned(s) && id in s.actions
    ensures (exists x :: x in Sort(Select(q, Merged(s, workspace, account, id))) && x.entry == y)
            <==> IsShown(s, workspace, account, id, y) && InQuery(q, y)
  {
    hide RowsLinked, AttemptsOwned, Merged, IsShown, Sort, Select, Selects, InQuery;
    var union := Merged(s, workspace, account, id);
    SourcesHaveDistinctKeys(s, workspace, account, id);
    SelectKeepsOrder(q, union);
    SortSorts(Select(q, union));
    SelectHolds(q, union);
    QueryIsSelection(q, y);
    MergedShows(s, workspace, account, id, y);
    var answer := Sort(Select(q, union));
    forall x: Item ensures x in answer <==> x in union && Selects(q, x.entry) {
      assert x in answer <==> multiset(answer)[x] > 0;
      assert x in union <==> multiset(union)[x] > 0;
    }
  }

  /** Which table an entry comes from: approvals first, then audit events, then attempt rows. */
  function SourceOf(y: TimelineEntry): nat {
    match y.event
    case ApprovalRequested => 0
    case ApprovalDecided(_) => 0
    case OfAudit(_) => 1
    case DeliveryAttempt => 2
  }

  lemma MergedKeys(s: Tables, workspace: Id, account: Id, id: Id, x: Item)
    requires id in s.actions && x in Merged(s, workspace, account, id)
    ensures x.key.at == x.entry.at && x.key.source == SourceOf(x.entry)
  {
    hide NewestEvents, AttemptsOf;
  }

  /** The answer lists the oldest entries first, at equal times approvals before audit events
      before attempts, and at most `limit` of them, without leaving out an earlier one. */
  lemma AnswerIsOldestFirst(s: Tables, workspace: Id, account: Id, id: Id, q: Query, limit: nat)
    requires RowsLinked(s) && AttemptsOwned(s) && id in s.actions
    ensures
      var full := Sort(Select(q, Merged(s, workspace, account, id)));
      var items := Take(full, limit);
      && items <= full && |items| == (if |full| < limit then |full| else limit)
      && forall i, j :: 0 <= i < j < |full| ==>
           full[i].entry.at < full[j].entry.at
           || (full[i].entry.at == full[j].entry.at && SourceOf(full[i].entry) <= SourceOf(full[j].entry))
  {
    hide RowsLinked, AttemptsOwned, Merged, Sort, Select, SourceOf;
    var union := Merged(s, workspace, account, id);
    SourcesHaveDistinctKeys(s, workspace, account, id);
    SelectKeepsOrder(q, union);
    SortSorts(Select(q, union));
    var full := Sort(Select(q, union));
    forall i | 0 <= i < |full| ensures full[i].key.at == full[i].entry.at && full[i].key.source == SourceOf(full[i].entry) {
      assert full[i] in multiset(full);
      MergedKeys(s, workspace, account, id, full[i]);
    }
  }

  /** On valid tables the answer is the timeline: the only list of the oldest selected items. */
  method ListTimeline(s: Tables, workspace: Id, account: Id, id: Id, q: Query, limit: int) returns (r: TimelineResult)
    ensures r == QueryRejected <==>
      !(1 <= limit <= MAX_AUDIT_READ) || (q.after.Some? && q.before.Some? && q.after.value > q.before.value)
    ensures r != QueryRejected && !HasAccount(s, workspace, account) ==> r == Missing(AccountNotFound)
    ensures r != QueryRejected && HasAccount(s, workspace, account) && !HasAction(s, workspace, account, id) ==>
      r == Missing(ActionNotFound)
    ensures r != QueryRejected && HasAccount(s, workspace, account) && HasAction(s, workspace, account, id) ==>
      var union := Merged(s, workspace, account, id);
      && r == Timeline(Take(Sort(Select(q, union)), limit))
      && (RowsLinked(s) && AttemptsOwned(s) ==> forall items :: IsTimeline(items, q, union, limit) <==> items == r.items)
  {
    if !(1 <= limit <= MAX_AUDIT_READ) { return QueryRejected; }
    if q.after.Some? && q.before.Some? && q.after.value > q.before.value { return QueryRejected; }
    if account !in s.accounts || s.accounts[account].workspace != workspace { return Missing(AccountNotFound); }
    if id !in s.actions || s.actions[id].workspace != workspace || s.actions[id].account != account {
      return Missing(ActionNotFound);
    }
    hide Sources, Sort, Select, RowsLinked, AttemptsOwned, KeysDistinct, IsTimeline;
    var (audit, attempts, approvals) := Sources(s, workspace, account, id);
    var items := audit;
    items := items + attempts;
    items := items + approvals;
    ghost var union := items;
    items := Select(q, items);
    items := Sort(items);
    if RowsLinked(s) && AttemptsOwned(s) {
      SourcesHaveDistinctKeys(s, workspace, account, id);
      forall other {
        AnswerIsOnlyTimeline(q, union, limit, other);
      }
    }
    return Timeline(Take(items, limit));
  }
}
