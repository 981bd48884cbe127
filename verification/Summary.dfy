/** Operational aggregates over one workspace's live actions. */
module Summary {
  import opened Common
  import opened OutboundModel
  import opened RetryPolicy
  import opened OutboundTables
  import opened OutboundInvariant
  import opened OutboundPreservation

  function LiveIn(s: Tables, workspace: Id): set<Id> {
    set id | id in s.actions && s.actions[id].workspace == workspace
  }

  function WithStatus(s: Tables, workspace: Id, statuses: set<Status>): set<Id> {
    set id | id in s.actions && s.actions[id].workspace == workspace && s.actions[id].status in statuses
  }

  function WithPriority(s: Tables, workspace: Id, priorities: set<Priority>): set<Id> {
    set id | id in s.actions && s.actions[id].workspace == workspace && s.actions[id].priority in priorities
  }

  function WithOwner(s: Tables, workspace: Id, owned: bool): set<Id> {
    set id | id in s.actions && s.actions[id].workspace == workspace && s.actions[id].owner.Some? == owned
  }

  function WithArchive(s: Tables, workspace: Id, archived: bool): set<Id> {
    set id | id in s.actions && s.actions[id].workspace == workspace && s.actions[id].archivedAt.Some? == archived
  }

  function CountStatus(s: Tables, workspace: Id, status: Status): nat {
    |WithStatus(s, workspace, {status})|
  }

  function CountPriority(s: Tables, workspace: Id, priority: Priority): nat {
    |WithPriority(s, workspace, {priority})|
  }

  /** `max(attempt_number)` grouped by action, over the attempt rows of one workspace only. */
  function GroupedMax(attempts: seq<Attempt>, workspace: Id, id: Id): nat {
    if attempts == [] then 0
    else
      var row := attempts[|attempts| - 1];
      var rest := GroupedMax(attempts[..|attempts| - 1], workspace, id);
      if row.workspace == workspace && row.action == id && row.number > rest then row.number else rest
  }

  function FailedVerdict(s: Tables, workspace: Id, policy: Policy, id: Id): Eligibility
    requires id in s.actions
  {
    Evaluate(policy, GroupedMax(s.attempts, workspace, id), s.actions[id].failureCode, s.actions[id].failureClass)
  }

  function FailedWith(s: Tables, workspace: Id, policy: Policy, verdict: Eligibility): set<Id> {
    set id | id in s.actions && s.actions[id].workspace == workspace && s.actions[id].status == Failed
             && FailedVerdict(s, workspace, policy, id) == verdict
  }

  /** Absent when the policy raises on some stored failure code. */
  function CountRetryable(s: Tables, workspace: Id, policy: Policy): Option<nat> {
    if FailedWith(s, workspace, policy, CodeRejected) != {} then None
    else Some(|FailedWith(s, workspace, policy, Allowed)|)
  }

  // ---- the counts partition the live actions -------------------------------------------------

  lemma SplitBy(all: set<Id>, part: set<Id>, rest: set<Id>)
    requires all == part + rest && part !! rest
    ensures |all| == |part| + |rest|
  {
  }

  lemma AddStatus(s: Tables, workspace: Id, statuses: set<Status>, status: Status)
    requires status !in statuses
    ensures |WithStatus(s, workspace, statuses + {status})| == |WithStatus(s, workspace, statuses)| + CountStatus(s, workspace, status)
  {
    SplitBy(WithStatus(s, workspace, statuses + {status}), WithStatus(s, workspace, statuses), WithStatus(s, workspace, {status}));
  }

  lemma AddPriority(s: Tables, workspace: Id, priorities: set<Priority>, priority: Priority)
    requires priority !in priorities
    ensures |WithPriority(s, workspace, priorities + {priority})|
         == |WithPriority(s, workspace, priorities)| + CountPriority(s, workspace, priority)
  {
    SplitBy(WithPriority(s, workspace, priorities + {priority}), WithPriority(s, workspace, priorities),
            WithPriority(s, workspace, {priority}));
  }

  lemma AnyStatus(status: Status)
    ensures status in {Pending, Delivered, Failed, Cancelled, Expired}
  {
  }

  lemma AnyPriority(priority: Priority)
    ensures priority in {Low, Normal, High, Urgent}
  {
  }

  lemma StatusesPartition(s: Tables, workspace: Id)
    ensures |LiveIn(s, workspace)|
         == CountStatus(s, workspace, Pending) + CountStatus(s, workspace, Delivered) + CountStatus(s, workspace, Failed)
            + CountStatus(s, workspace, Cancelled) + CountStatus(s, workspace, Expired)
  {
    forall id | id in LiveIn(s, workspace) ensures s.actions[id].status in {Pending, Delivered, Failed, Cancelled, Expired} {
      AnyStatus(s.actions[id].status);
    }
    assert LiveIn(s, workspace) == WithStatus(s, workspace, {Pending, Delivered, Failed, Cancelled, Expired});
    hide WithStatus, LiveIn;
    AddStatus(s, workspace, {Pending}, Delivered);
    AddStatus(s, workspace, {Pending, Delivered}, Failed);
    AddStatus(s, workspace, {Pending, Delivered, Failed}, Cancelled);
    AddStatus(s, workspace, {Pending, Delivered, Failed, Cancelled}, Expired);
    assert {Pending} + {Delivered} == {Pending, Delivered};
    assert {Pending, Delivered} + {Failed} == {Pending, Delivered, Failed};
    assert {Pending, Delivered, Failed} + {Cancelled} == {Pending, Delivered, Failed, Cancelled};
    assert {Pending, Delivered, Failed, Cancelled} + {Expired} == {Pending, Delivered, Failed, Cancelled, Expired};
  }

  lemma PrioritiesPartition(s: Tables, workspace: Id)
    ensures |LiveIn(s, workspace)|
         == CountPriority(s, workspace, Low) + CountPriority(s, workspace, Normal)
            + CountPriority(s, workspace, High) + CountPriority(s, workspace, Urgent)
  {
    forall id | id in LiveIn(s, workspace) ensures s.actions[id].priority in {Low, Normal, High, Urgent} {
      AnyPriority(s.actions[id].priority);
    }
    assert LiveIn(s, workspace) == WithPriority(s, workspace, {Low, Normal, High, Urgent});
    hide WithPriority, LiveIn;
    AddPriority(s, workspace, {Low}, Normal);
    AddPriority(s, workspace, {Low, Normal}, High);
    AddPriority(s, workspace, {Low, Normal, High}, Urgent);
    assert {Low} + {Normal} == {Low, Normal};
    assert {Low, Normal} + {High} == {Low, Normal, High};
    assert {Low, Normal, High} + {Urgent} == {Low, Normal, High, Urgent};
  }

  lemma OwnersAndArchivePartition(s: Tables, workspace: Id)
    ensures |LiveIn(s, workspace)| == |WithOwner(s, workspace, true)| + |WithOwner(s, workspace, false)|
    ensures |LiveIn(s, workspace)| == |WithArchive(s, workspace, true)| + |WithArchive(s, workspace, false)|
  {
    SplitBy(LiveIn(s, workspace), WithOwner(s, workspace, true), WithOwner(s, workspace, false));
    SplitBy(LiveIn(s, workspace), WithArchive(s, workspace, true), WithArchive(s, workspace, false));
  }

  // ---- the retryable count is what retrying would accept --------------------------------------

  lemma {:induction false} GroupedMaxIsMax(attempts: seq<Attempt>, workspace: Id, id: Id)
    requires forall i :: 0 <= i < |attempts| && attempts[i].action == id ==> attempts[i].workspace == workspace
    ensures GroupedMax(attempts, workspace, id) == MaxAttemptNumber(attempts, id)
  {
    if attempts != [] {
      GroupedMaxIsMax(attempts[..|attempts| - 1], workspace, id);
    }
  }

  /** A retry of the action would pass every guard if its account were active. */
  ghost predicate RetryAccepts(s: Tables, policy: Policy, id: Id, registry: Registry, reply: AdapterReply, now: Time)
    requires id in s.actions
  {
    var a := s.actions[id];
    && HasAccount(s, a.workspace, a.account)
    && var awake := s.(accounts := s.accounts[a.account := s.accounts[a.account].(active := true)]);
       Retry(awake, a.workspace, a.account, id, policy, registry, reply, true, now).1 == Ok(id)
  }

  lemma VerdictDecidesRetry(s: Tables, policy: Policy, id: Id, registry: Registry, reply: AdapterReply, now: Time)
    requires Valid(s) && id in s.actions
    ensures RetryAccepts(s, policy, id, registry, reply, now)
            <==> s.actions[id].status == Failed && FailedVerdict(s, s.actions[id].workspace, policy, id) == Allowed
  {
    assert RowsLinked(s) && AttemptsOwned(s);
    GroupedMaxIsMax(s.attempts, s.actions[id].workspace, id);
    hide Valid, Evaluate, Attempted, MaxAttemptNumber, GroupedMax;
  }

  /** In every reachable state the reported retryable count is the number of live actions that
      an explicit retry would accept, account activity aside. */
  lemma RetryableCountIsExact(cs: seq<Command>, workspace: Id, policy: Policy, registry: Registry, reply: AdapterReply, now: Time)
    ensures var s := Run(cs);
            var count := CountRetryable(s, workspace, policy);
            count.Some? ==>
              count.value == |set id | id in s.actions && s.actions[id].workspace == workspace
                                       && RetryAccepts(s, policy, id, registry, reply, now)|
  {
    ReachableIsValid(cs);
    var s := Run(cs);
    hide Run, Valid, RetryAccepts, FailedVerdict;
    forall id | id in s.actions
      ensures RetryAccepts(s, policy, id, registry, reply, now)
              <==> s.actions[id].status == Failed && FailedVerdict(s, s.actions[id].workspace, policy, id) == Allowed
    {
      VerdictDecidesRetry(s, policy, id, registry, reply, now);
    }
    assert FailedWith(s, workspace, policy, Allowed)
        == set id | id in s.actions && s.actions[id].workspace == workspace && RetryAccepts(s, policy, id, registry, reply, now);
  }

  // ---- when the summary raises ----------------------------------------------------------------

  /** A failed action below the attempt maximum whose stored code is not a safe name. An adapter
      may report any code, and it is stored as reported. */
  predicate HasMalformedCode(s: Tables, policy: Policy, id: Id)
    requires id in s.actions
  {
    var a := s.actions[id];
    && a.status == Failed
    && MaxAttemptNumber(s.attempts, id) < policy.maximumAttempts
    && a.failureCode.Some? && NormalizeCode(a.failureCode.value).None?
  }

  lemma RaisesIff(s: Tables, workspace: Id, policy: Policy)
    requires AttemptsOwned(s)
    ensures CountRetryable(s, workspace, policy).None?
            <==> exists id :: id in s.actions && s.actions[id].workspace == workspace && HasMalformedCode(s, policy, id)
  {
    hide AttemptsOwned, FailedVerdict, HasMalformedCode;
    forall id | id in s.actions && s.actions[id].workspace == workspace && s.actions[id].status == Failed
      ensures FailedVerdict(s, workspace, policy, id) == CodeRejected <==> HasMalformedCode(s, policy, id)
    {
      VerdictRaisesIff(s, workspace, policy, id);
    }
    var raising := FailedWith(s, workspace, policy, CodeRejected);
    forall id | id in s.actions && s.actions[id].workspace == workspace && HasMalformedCode(s, policy, id) ensures id in raising {
      MalformedHasFailed(s, policy, id);
    }
    assert forall id :: id in raising ==> HasMalformedCode(s, policy, id);
    assert raising != {} ==> exists id :: id in raising;
  }

  lemma MalformedHasFailed(s: Tables, policy: Policy, id: Id)
    requires id in s.actions && HasMalformedCode(s, policy, id)
    ensures s.actions[id].status == Failed
  {
  }

  lemma VerdictRaisesIff(s: Tables, workspace: Id, policy: Policy, id: Id)
    requires AttemptsOwned(s) && id in s.actions && s.actions[id].workspace == workspace && s.actions[id].status == Failed
    ensures FailedVerdict(s, workspace, policy, id) == CodeRejected <==> HasMalformedCode(s, policy, id)
  {
    hide AttemptsOwned, NormalizeCode, GroupedMax, MaxAttemptNumber;
    OwnAttempts(s, id);
    GroupedMaxIsMax(s.attempts, workspace, id);
  }

  lemma ReachableIsOwned(cs: seq<Command>)
    ensures AttemptsOwned(Run(cs))
  {
    hide Run;
    ReachableIsValid(cs);
  }

  /** In every reachable state one such action makes the whole workspace's summary raise, and
      nothing else does. */
  lemma SummaryRaisesIff(cs: seq<Command>, workspace: Id, policy: Policy)
    ensures var s := Run(cs);
            CountRetryable(s, workspace, policy).None?
            <==> exists id :: id in s.actions && s.actions[id].workspace == workspace && HasMalformedCode(s, policy, id)
  {
    hide Run, CountRetryable, HasMalformedCode;
    ReachableIsOwned(cs);
    RaisesIff(Run(cs), workspace, policy);
  }

  lemma OwnAttempts(s: Tables, id: Id)
    requires AttemptsOwned(s) && id in s.actions
    ensures forall i :: 0 <= i < |s.attempts| && s.attempts[i].action == id ==> s.attempts[i].workspace == s.actions[id].workspace
  {
  }

  /** Such an action cannot be retried under the policy either: the retry raises and changes nothing. */
  lemma MalformedCodeRefusesRetry(s: Tables, policy: Policy, id: Id, registry: Registry, reply: AdapterReply, commits: bool, now: Time)
    requires Valid(s) && id in s.actions && s.accounts[s.actions[id].account].active
    ensures HasMalformedCode(s, policy, id) <==>
      Retry(s, s.actions[id].workspace, s.actions[id].account, id, policy, registry, reply, commits, now)
      == (s, Refused(RetryCodeRejected))
  {
    assert RowsLinked(s);
    hide Valid, NormalizeCode, Attempted, MaxAttemptNumber;
  }

  // ---- what is counted -----------------------------------------------------------------------

  /** Each count is of the workspace's live actions that have the status, have the priority, have an
      owner or none, and are archived or not. */
  lemma CountsHold(s: Tables, workspace: Id, status: Status, priority: Priority)
    ensures CountStatus(s, workspace, status)
         == |set id | id in s.actions && s.actions[id].workspace == workspace && s.actions[id].status == status|
    ensures CountPriority(s, workspace, priority)
         == |set id | id in s.actions && s.actions[id].workspace == workspace && s.actions[id].priority == priority|
    ensures |WithOwner(s, workspace, true)|
         == |set id | id in s.actions && s.actions[id].workspace == workspace && s.actions[id].owner != None|
    ensures |WithArchive(s, workspace, true)|
         == |set id | id in s.actions && s.actions[id].workspace == workspace && s.actions[id].archivedAt != None|
  {
    assert WithStatus(s, workspace, {status})
        == set id | id in s.actions && s.actions[id].workspace == workspace && s.actions[id].status == status;
    assert WithPriority(s, workspace, {priority})
        == set id | id in s.actions && s.actions[id].workspace == workspace && s.actions[id].priority == priority;
    assert WithOwner(s, workspace, true)
        == set id | id in s.actions && s.actions[id].workspace == workspace && s.actions[id].owner != None;
    assert WithArchive(s, workspace, true)
        == set id | id in s.actions && s.actions[id].workspace == workspace && s.actions[id].archivedAt != None;
  }
}
