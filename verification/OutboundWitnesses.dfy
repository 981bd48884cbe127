/** Concrete runs in which the outbound services do not behave as a reader might expect. */
module OutboundWitnesses {
  import opened Common
  import opened OutboundModel
  import opened RetryPolicy
  import opened RetryDelay
  import opened OutboundTables
  import opened OutboundInvariant
  import opened OutboundPreservation
  import opened Readiness
  import opened StateHistory
  import opened Summary

  const DRAFT := Draft("t", SendMessage, "c", "", None, "k", Some(5), false, None)

  const REGISTRY: Registry := map["p" := Declared(Capabilities({SendMessage}, None))]

  function Refusal(code: string): AdapterReply {
    Returned(AdapterResult(false, None, Some(code), Some("m"), None))
  }

  lemma RunSnoc(cs: seq<Command>, c: Command)
    ensures Run(cs + [c]) == Step(Run(cs), c).0
  {
    assert (cs + [c])[..|cs|] == cs;
    hide Step;
  }

  lemma {:induction false} RunConcat(cs: seq<Command>, more: seq<Command>)
    ensures RunFrom(Run(cs), more) == Run(cs + more)
  {
    hide Step;
    if more == [] {
      assert cs + more == cs;
    } else {
      assert (cs + more)[..|cs + more| - 1] == cs + more[..|more| - 1];
      RunConcat(cs, more[..|more| - 1]);
    }
  }

  lemma ShortNames()
    ensures Strip("p") == "p" && NormalizeCode("x") == Some("x") && NormalizeCode("!") == None
  {
    assert Strip("x") == "x" && Strip("!") == "!";
    assert Lower("x") == "x" && Lower("!") == "!";
  }

  /** One account with one pending action that expires at 5. */
  lemma OnePendingAction() returns (cs: seq<Command>)
    ensures var s := Run(cs);
            && s.accounts == map[0 := Account(0, "p", true)]
            && s.actions == map[1 := FreshAction(0, 0, DRAFT, None, 0)]
            && s.attempts == [] && s.calls == []
  {
    ShortNames();
    assert Run([]) == EMPTY;
    hide Run, Strip, NormalizedCorrelation;
    var first := DoAddAccount(0, "p");
    RunSnoc([], first);
    cs := [] + [first];
    var second := DoCreate(0, 0, DRAFT, 0);
    RunSnoc(cs, second);
    cs := cs + [second];
  }

  lemma OneCancelledAction() returns (cs: seq<Command>)
    ensures var s := Run(cs);
            && HasJoinedAction(s, 0, 1) && s.actions[1].account == 0
            && s.actions[1].status == Cancelled && s.actions[1].archivedAt.None?
  {
    hide Run, Strip, NormalizedCorrelation, Stamp;
    cs := OnePendingAction();
    var last := DoCancel(0, 0, 1, 0);
    RunSnoc(cs, last);
    cs := cs + [last];
  }

  /** A cancelled action whose history is empty at every permitted limit. */
  lemma HistoryCanVanish(limit: int)
    requires 1 <= limit <= MAX_AUDIT_READ
    ensures exists cs, id ::
      && id in Run(cs).actions && Run(cs).actions[id].status == Cancelled
      && ListHistory(Run(cs), 0, 0, id, limit) == History([])
  {
    hide Run, RunFrom, Toggles, ListHistory, Valid;
    var cs := OneCancelledAction();
    ReachableIsValid(cs);
    BoundedReadForgets(Run(cs), 0, 1, limit);
    RunConcat(cs, Toggles(0, 1, MAX_AUDIT_READ));
    assert 1 in Run(cs + Toggles(0, 1, MAX_AUDIT_READ)).actions;
  }

  // ---- a retry that readiness rules out ------------------------------------------------------

  const POLICY: Policy := PolicySettings(3, {}, {})

  const NO_DELAY: DelayPolicy := DelaySettings(Fixed, 0, 0)

  lemma AcceptedByRegistry(a: Action)
    requires a.actionType == SendMessage && a.content == "c"
    ensures RefusedBeforeAdapter(REGISTRY, "p", a).None? && ValidateAction(REGISTRY, "p", a).None?
  {
  }

  /** The action was attempted in time and failed. */
  lemma OneFailedAction(code: string) returns (cs: seq<Command>)
    requires code != ""
    ensures var s := Run(cs);
            && HasAccount(s, 0, 0) && s.accounts[0] == Account(0, "p", true) && HasAction(s, 0, 0, 1)
            && MaxAttemptNumber(s.attempts, 1) == 1
            && var a := s.actions[1];
               && a.status == Failed && a.expiresAt == Some(5) && a.actionType == SendMessage && a.content == "c"
               && a.failureCode == Some(code) && a.failureClass == None
  {
    hide Run, Strip, NormalizedCorrelation, Stamp, RefusedBeforeAdapter, ValidateAction, ReplyResult, MaxAttemptNumber, LinkedStatus;
    cs := OnePendingAction();
    var last := DoDeliver(0, 0, 1, REGISTRY, Refusal(code), true, 0);
    AcceptedByRegistry(Run(cs).actions[1]);
    RefusalReported(code);
    RunSnoc(cs, last);
    FirstAttempt(Run(cs).attempts, Run(cs + [last]).attempts);
    cs := cs + [last];
  }

  lemma RefusalReported(code: string)
    ensures ReplyResult(Refusal(code)) == AdapterResult(false, None, Some(code), Some("m"), None)
  {
  }

  lemma FirstAttempt(before: seq<Attempt>, after: seq<Attempt>)
    requires before == []
    ensures MaxAttemptNumber(before, 1) == 0
    ensures |after| == 1 && after[0].action == 1 && after[0].number == 1 ==> MaxAttemptNumber(after, 1) == 1
  {
  }

  /** At 10 the failed action has long expired and is not ready, yet a retry calls the adapter. */
  lemma ExpiredActionIsRetried(reply: AdapterReply)
    ensures exists cs ::
      var s := Run(cs);
      && HasAccount(s, 0, 0) && HasAction(s, 0, 0, 1) && IsExpired(s.actions[1], 10)
      && !Ready(s, 0, 1, POLICY, NO_DELAY, REGISTRY, 10)
      && Retry(s, 0, 0, 1, POLICY, REGISTRY, reply, true, 10).0.calls != s.calls
  {
    hide Run, Ready, Retry, Valid, ValidateAction, NormalizeCode;
    var cs := OneFailedAction("x");
    var s := Run(cs);
    ShortNames();
    ReachableIsValid(cs);
    AcceptedByRegistry(s.actions[1]);
    RetryReachesAdapterIff(s, 0, 0, 1, POLICY, REGISTRY, reply, true, 10);
    FailedReadyIff(s, 0, 0, 1, POLICY, NO_DELAY, REGISTRY, reply, true, 10);
  }

  /** One adapter that reports the code "!" makes the summary of the whole workspace raise. */
  lemma SummaryCanRaise()
    ensures exists cs :: CountRetryable(Run(cs), 0, POLICY).None?
  {
    hide Run, CountRetryable, NormalizeCode;
    var cs := OneFailedAction("!");
    ShortNames();
    SummaryRaisesIff(cs, 0, POLICY);
    assert HasMalformedCode(Run(cs), POLICY, 1);
  }

  // ---- effects whose transaction was lost -----------------------------------------------------

  const DELIVERY := Returned(AdapterResult(true, Some("d"), None, None, None))

  lemma DeliveryReported()
    ensures ReplyResult(DELIVERY) == AdapterResult(true, Some("d"), None, None, None)
  {
  }

  lemma NoNumberYet()
    ensures MaxAttemptNumber([], 1) == 0
  {
  }

  /** The adapter delivers, the commit fails, the delivery is asked for again: it is delivered
      twice, both times as attempt number 1. */
  lemma DeliveredTwice()
    ensures exists cs ::
      && |Run(cs).calls| == 2 && Run(cs).calls[0].action == Run(cs).calls[1].action
      && Run(cs).calls[0].delivered && Run(cs).calls[1].delivered
      && Run(cs).calls[0].number == Run(cs).calls[1].number == 1
  {
    hide Run, Strip, NormalizedCorrelation, Stamp, RefusedBeforeAdapter, ValidateAction, ReplyResult, MaxAttemptNumber, LinkedStatus;
    var cs := OnePendingAction();
    var lost := DoDeliver(0, 0, 1, REGISTRY, DELIVERY, false, 0);
    var stored := DoDeliver(0, 0, 1, REGISTRY, DELIVERY, true, 0);
    NoNumberYet();
    DeliveryReported();
    AcceptedByRegistry(Run(cs).actions[1]);
    RunSnoc(cs, lost);
    RunSnoc(cs + [lost], stored);
    assert |Run(cs + [lost] + [stored]).calls| == 2;
  }

  /** The adapter delivers, the commit fails, the action is cancelled: it ends as cancelled
      although it was delivered. */
  lemma DeliveredThenCancelled() returns (cs: seq<Command>)
    ensures var s := Run(cs);
            && 1 in s.actions && s.actions[1].status == Cancelled
            && s.actions[1].workspace == 0 && s.actions[1].expiresAt == Some(5) && s.actions[1].archivedAt.None?
            && |s.calls| == 1 && s.calls[0].action == 1 && s.calls[0].delivered
  {
    hide Run, Strip, NormalizedCorrelation, Stamp, RefusedBeforeAdapter, ValidateAction, ReplyResult, MaxAttemptNumber, LinkedStatus;
    cs := OnePendingAction();
    var lost := DoDeliver(0, 0, 1, REGISTRY, DELIVERY, false, 0);
    DeliveryReported();
    AcceptedByRegistry(Run(cs).actions[1]);
    RunSnoc(cs, lost);
    cs := cs + [lost];
    var cancel := DoCancel(0, 0, 1, 0);
    RunSnoc(cs, cancel);
    cs := cs + [cancel];
  }

  /** A cleanup then removes the delivered action. */
  lemma DeliveredThenCleanedUp()
    ensures exists cs ::
      |Run(cs).calls| == 1 && Run(cs).calls[0].delivered && Run(cs).calls[0].action !in Run(cs).actions
  {
    var cs := DeliveredThenCancelled();
    hide Run;
    var cleanup := DoCleanup(0, 10);
    RunSnoc(cs, cleanup);
    assert IsCleanable(Run(cs).actions[1], 0, 10);
    assert |Run(cs + [cleanup]).calls| == 1;
  }

  const REVIEWER := Actor(0, 0, 0)

  /** A lead's approval whose message went out while its commit failed. */
  lemma OneLostSend() returns (cs: seq<Command>)
    ensures var s := Run(cs);
            && s.leads == map[0 := 0] && s.approvals == map[1 := Approval(Some(0), AwaitingDecision, None, 0)] && s.sent == [1]
  {
    assert Run([]) == EMPTY;
    hide Run;
    cs := [];
    RunSnoc(cs, DoAddLead(0));
    cs := cs + [DoAddLead(0)];
    RunSnoc(cs, DoRequestLeadApproval(0, 0));
    cs := cs + [DoRequestLeadApproval(0, 0)];
    RunSnoc(cs, DoApprove(0, 1, REVIEWER, None, true, false, 0));
    cs := cs + [DoApprove(0, 1, REVIEWER, None, true, false, 0)];
  }

  /** A rejected approval whose message the lead has nevertheless received. */
  lemma RejectedButSent()
    ensures exists cs, p :: p in Run(cs).approvals && Run(cs).approvals[p].status == Rejected && Run(cs).sent == [p]
  {
    var cs := OneLostSend();
    hide Run;
    var reject := DoReject(0, 1, REVIEWER, None, 0);
    RunSnoc(cs, reject);
    assert 1 in Run(cs + [reject]).approvals;
  }

  /** An approved message that the lead has received twice. */
  lemma SentTwice()
    ensures exists cs, p :: p in Run(cs).approvals && Run(cs).approvals[p].status == Executed && Run(cs).sent == [p, p]
  {
    var cs := OneLostSend();
    hide Run;
    var approve := DoApprove(0, 1, REVIEWER, None, true, true, 0);
    RunSnoc(cs, approve);
    assert [1] + [1] == [1, 1];
    assert 1 in Run(cs + [approve]).approvals;
  }
}
