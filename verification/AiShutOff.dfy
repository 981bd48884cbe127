/** When a workspace can still reach a provider, and when it never will again. */
module AiShutOff {
  import opened Common
  import opened ModelPricing
  import opened UsageLedger
  import opened UsageLimits
  import opened AiGateway
  import opened AiBudget

  /** The smallest estimates that every kind of limit accepts. */
  const NO_ESTIMATE := Estimates(Some(0), Some(0.0), Some(true))

  /** What can be checked before a call: the policy is well-formed, no budget is used up, and some
      permitted tier has a model. */
  ghost predicate CanCall(setup: Setup, rows: seq<Usage>, workspace: Id) {
    var c := ConfigurationOf(setup.policies(workspace));
    && c.Some?
    && HasRoom(c.value, rows, NO_ESTIMATE)
    && exists t :: t in setup.mappings && t in c.value.permitted && t != Deterministic
  }

  /** No continuation of the run makes a further provider call for the workspace. */
  ghost predicate NoFurtherCalls(setup: Setup, calls: seq<Call>, workspace: Id) {
    forall more :: CallsBy(Run(setup, calls + more).calls, workspace) == CallsBy(Run(setup, calls).calls, workspace)
  }

  lemma ProceedingNeedsCanCall(setup: Setup, rows: seq<Usage>, call: Call)
    requires PlanFor(setup, rows, call).Proceed?
    ensures CanCall(setup, rows, call.request.workspace)
  {
    var p := setup.policies(call.request.workspace);
    hide PlanFor, TotalTokens, KnownSpend, UnknownPricing, ConfigurationOf, IsConfigured, Permits, ServingKey;
    ProceedingCall(setup, rows, call);
    ProceedIsMapped(setup, rows, call);
    ConfigurationDescribes(p);
    assert PlanFor(setup, rows, call).tier in ConfigurationOf(p).value.permitted;
  }

  lemma CanCallSuffices(setup: Setup, rows: seq<Usage>, workspace: Id) returns (call: Call)
    requires CanCall(setup, rows, workspace)
    ensures call.request.workspace == workspace && PlanFor(setup, rows, call).Proceed?
  {
    hide ConfigurationOf, TotalTokens, KnownSpend, UnknownPricing;
    var c := ConfigurationOf(setup.policies(workspace)).value;
    var t :| t in setup.mappings && t in c.permitted && t != Deterministic;
    call := Call(Request(workspace, "", "", t, NO_ESTIMATE), World(false, Raised, 0, true));
  }

  /** What a proceeding call appends. */
  lemma CallAppends(setup: Setup, calls: seq<Call>, call: Call)
    requires PlanFor(setup, RowsOf(Run(setup, calls).rows, call.request.workspace), call).Proceed?
    ensures
      var workspace := call.request.workspace;
      var s, t := Run(setup, calls), Run(setup, calls + [call]);
      var row := RowFor(setup.catalog, call, PlanFor(setup, RowsOf(s.rows, workspace), call).key);
      && |CallsBy(t.calls, workspace)| == |CallsBy(s.calls, workspace)| + 1
      && RowsOf(t.rows, workspace) == RowsOf(s.rows, workspace) + RowsIn(row)
  {
    var s, workspace := Run(setup, calls), call.request.workspace;
    RunSnoc(setup, calls, call);
    hide Run, RowsOf, CallsBy, PlanFor, RowFor, OutcomeOf, Lost;
    var plan := PlanFor(setup, RowsOf(s.rows, workspace), call);
    var row := RowFor(setup.catalog, call, plan.key);
    if row.Some? {
      RowBelongs(setup.catalog, call, plan.key);
    }
    RowsOfConcat(s.rows, row, workspace);
    CallsByAppend(s.calls, ProviderCall(workspace, call.request.tier, plan.tier, plan.key, row.Some?), workspace);
  }

  lemma RunSnoc(setup: Setup, calls: seq<Call>, call: Call)
    ensures Run(setup, calls + [call]) == Invocation(setup, Run(setup, calls), call).0
  {
    assert (calls + [call])[..|calls|] == calls;
    hide Invocation;
  }

  lemma {:induction false} ShutOffStays(setup: Setup, calls: seq<Call>, more: seq<Call>, workspace: Id)
    requires !CanCall(setup, RowsOf(Run(setup, calls).rows, workspace), workspace)
    ensures RowsOf(Run(setup, calls + more).rows, workspace) == RowsOf(Run(setup, calls).rows, workspace)
    ensures CallsBy(Run(setup, calls + more).calls, workspace) == CallsBy(Run(setup, calls).calls, workspace)
  {
    hide Run, RowsOf, CallsBy, RowFor, OutcomeOf, PlanFor, CanCall;
    if more == [] {
      assert calls + more == calls;
    } else {
      var front, last := more[..|more| - 1], more[|more| - 1];
      assert calls + more == (calls + front) + [last];
      ShutOffStays(setup, calls, front, workspace);
      RunSnoc(setup, calls + front, last);
      var ledger := Run(setup, calls + front);
      if last.request.workspace != workspace {
        OtherWorkspaceUnchanged(setup, ledger, last, workspace);
        OtherCallsUnchanged(setup, ledger, last, workspace);
      } else if PlanFor(setup, RowsOf(ledger.rows, workspace), last).Proceed? {
        ProceedingNeedsCanCall(setup, RowsOf(ledger.rows, workspace), last);
        assert false;
      }
    }
  }

  /** Over every run: no continuation makes a further provider call for a workspace if and only
      if it cannot call now. */
  lemma ShutOffIff(setup: Setup, calls: seq<Call>, workspace: Id)
    ensures NoFurtherCalls(setup, calls, workspace) <==> !CanCall(setup, RowsOf(Run(setup, calls).rows, workspace), workspace)
  {
    hide Run, RowsOf, CallsBy, CanCall, PlanFor, RowFor;
    if CanCall(setup, RowsOf(Run(setup, calls).rows, workspace), workspace) {
      var call := CanCallSuffices(setup, RowsOf(Run(setup, calls).rows, workspace), workspace);
      CallAppends(setup, calls, call);
    } else {
      forall more
        ensures CallsBy(Run(setup, calls + more).calls, workspace) == CallsBy(Run(setup, calls).calls, workspace)
      {
        ShutOffStays(setup, calls, more, workspace);
      }
    }
  }

  // ---- unpriced rows -----------------------------------------------------------------------

  lemma UnpricedCannotCall(setup: Setup, rows: seq<Usage>, workspace: Id)
    requires setup.policies(workspace).spendLimit.Some?
    requires rows != [] && rows[|rows| - 1].cost.None?
    ensures !CanCall(setup, rows, workspace)
  {
    hide KnownSpend, TotalTokens;
    NoneUnknown(rows);
    if ConfigurationOf(setup.policies(workspace)).Some? {
      LimitsAreStored(setup.policies(workspace));
    }
    hide ConfigurationOf;
  }

  /** Under a spend limit a workspace whose last row has no cost is shut off: whatever is called
      later, by whomever, it makes no further provider call and gets no further row. */
  lemma UnknownPriceShutsOff(setup: Setup, calls: seq<Call>, more: seq<Call>, workspace: Id)
    requires setup.policies(workspace).spendLimit.Some?
    requires var rows := RowsOf(Run(setup, calls).rows, workspace); rows != [] && rows[|rows| - 1].cost.None?
    ensures RowsOf(Run(setup, calls + more).rows, workspace) == RowsOf(Run(setup, calls).rows, workspace)
    ensures CallsBy(Run(setup, calls + more).calls, workspace) == CallsBy(Run(setup, calls).calls, workspace)
  {
    hide Run, RowsOf, CallsBy, CanCall;
    UnpricedCannotCall(setup, RowsOf(Run(setup, calls).rows, workspace), workspace);
    ShutOffStays(setup, calls, more, workspace);
  }

  lemma FailedRowIsUnpriced(catalog: Catalog, call: Call, key: ModelKey)
    requires CanonicalUsage(call.world.reply).None? && RowFor(catalog, call, key).Some?
    ensures RowFor(catalog, call, key).value.cost.None?
  {
    hide Strip;
  }

  /** A provider error, or unusable metadata, under a spend limit shuts the workspace off for
      good as soon as its failed row is written. */
  lemma ProviderErrorShutsOff(setup: Setup, calls: seq<Call>, failing: Call)
    requires setup.policies(failing.request.workspace).spendLimit.Some?
    requires PlanFor(setup, RowsOf(Run(setup, calls).rows, failing.request.workspace), failing).Proceed?
    requires CanonicalUsage(failing.world.reply).None?
    requires RowFor(setup.catalog, failing, PlanFor(setup, RowsOf(Run(setup, calls).rows, failing.request.workspace), failing).key).Some?
    ensures NoFurtherCalls(setup, calls + [failing], failing.request.workspace)
  {
    var workspace := failing.request.workspace;
    hide Run, RowsOf, RowFor, PlanFor, CallsBy, CanCall, NoFurtherCalls;
    CallAppends(setup, calls, failing);
    FailedRowIsUnpriced(setup.catalog, failing, PlanFor(setup, RowsOf(Run(setup, calls).rows, workspace), failing).key);
    UnpricedCannotCall(setup, RowsOf(Run(setup, calls + [failing]).rows, workspace), workspace);
    ShutOffIff(setup, calls + [failing], workspace);
  }

  // ---- the invocation limit ------------------------------------------------------------------

  /** Over every run a workspace has made more provider calls than its invocation limit exactly
      when more of them lost their row than the limit had room for; with a limit of 0 it has made
      none at all. */
  lemma InvocationLimitPassedIff(setup: Setup, calls: seq<Call>, workspace: Id)
    requires IsConfigured(setup.policies(workspace)) && setup.policies(workspace).invocationLimit.Some?
    ensures
      var limit := setup.policies(workspace).invocationLimit.value;
      var mine, rows := CallsBy(Run(setup, calls).calls, workspace), RowsOf(Run(setup, calls).rows, workspace);
      && |rows| <= limit
      && (|mine| > limit <==> Lost(mine) > limit - |rows|)
      && (limit == 0 ==> mine == [])
  {
    InvocationBudget(setup, calls, workspace);
    BudgetsHold(setup, calls, workspace);
    if setup.policies(workspace).invocationLimit.value == 0 {
      NoRoomAtZero(setup, workspace);
      ShutOffStays(setup, [], calls, workspace);
      assert [] + calls == calls;
    }
    hide IsConfigured, CanCall, TotalTokens, KnownSpend, UnknownPricing;
  }

  lemma NoRoomAtZero(setup: Setup, workspace: Id)
    requires setup.policies(workspace).invocationLimit == Some(0)
    ensures !CanCall(setup, RowsOf(Run(setup, []).rows, workspace), workspace)
  {
    if ConfigurationOf(setup.policies(workspace)).Some? {
      LimitsAreStored(setup.policies(workspace));
    }
    hide ConfigurationOf, TotalTokens, KnownSpend, UnknownPricing;
  }

  // ---- concrete runs ---------------------------------------------------------------------------

  /** A policy that permits every tier lets a call through when its limits have room. */
  lemma PlainPolicyPasses(setup: Setup, rows: seq<Usage>, call: Call)
    requires
      var p := setup.policies(call.request.workspace);
      && p.permitted.None? && p.downgrades == map[] && LimitsAreNonNegative(p)
      && HasRoom(Configuration(p.invocationLimit, p.tokenLimit, p.spendLimit, {}, map[]), rows, call.request.estimates)
    requires EstimatesAreCanonical(call.request.estimates) && !call.world.buildFails
    requires call.request.tier in setup.mappings && call.request.tier != Deterministic
    ensures PlanFor(setup, rows, call) == Proceed(call.request.tier, setup.mappings[call.request.tier])
    ensures IsConfigured(setup.policies(call.request.workspace))
  {
    var p := setup.policies(call.request.workspace);
    assert IsConfigured(p);
    ConfigurationDescribes(p);
    assert call.request.tier in ConfigurationOf(p).value.permitted by { assert Permits(p, call.request.tier); }
    hide ConfigurationOf, IsConfigured, Permits, TierName, TotalTokens, KnownSpend, UnknownPricing;
  }

  lemma FailedRowIsWritten(call: Call)
    requires call.request.task == "t" && call.request.agent == "a" && call.world.reply.Raised? && !call.world.writeFails
    ensures RowFor(map[], call, ModelKey("p", "m")).Some?
  {
    assert Strip("t") == "t" && Strip("a") == "a" && Strip("p") == "p" && Strip("m") == "m";
    hide Strip;
  }

  lemma NothingYet(setup: Setup, workspace: Id)
    ensures RowsOf(Run(setup, []).rows, workspace) == [] && CallsBy(Run(setup, []).calls, workspace) == []
    ensures TotalTokens([]) == 0 && KnownSpend([]) == 0.0 && UnknownPricing([]) == 0
  {
  }

  /** A workspace with a spend limit of 10 calls its only model once, estimated at 1; the provider
      raises, and nothing the workspace asks for later reaches a provider. */
  lemma OneErrorEndsAllCalls(setup: Setup, call: Call)
    requires setup.policies(0) == WorkspacePolicy(None, None, Some(10.0), None, map[])
    requires setup.catalog == map[] && setup.mappings == map[Economy := ModelKey("p", "m")]
    requires call.request == Request(0, "t", "a", Economy, Estimates(None, Some(1.0), Some(true)))
    requires call.world == World(false, Raised, 0, false)
    ensures |CallsBy(Run(setup, [call]).calls, 0)| == 1 && NoFurtherCalls(setup, [call], 0)
    ensures !NoFurtherCalls(setup, [], 0)
  {
    hide Run, RowsOf, CallsBy, PlanFor, RowFor, TotalTokens, KnownSpend, UnknownPricing, Strip, NoFurtherCalls, CanCall;
    NothingYet(setup, 0);
    PlainPolicyPasses(setup, [], call);
    FailedRowIsWritten(call);
    ProviderErrorShutsOff(setup, [], call);
    CallAppends(setup, [], call);
    ProceedingNeedsCanCall(setup, [], call);
    ShutOffIff(setup, [], 0);
    assert [] + [call] == [call];
  }

  /** With an invocation limit of 1 and a first call whose row is lost, a second call goes out. */
  lemma LostWritePassesLimit(setup: Setup, first: Call, second: Call)
    requires setup.policies(0) == WorkspacePolicy(Some(1), None, None, None, map[])
    requires setup.mappings == map[Economy := ModelKey("p", "m")]
    requires first.request == Request(0, "t", "a", Economy, Estimates(None, None, None)) && second.request == first.request
    requires first.world == World(false, Raised, 0, true) && !second.world.buildFails
    ensures |CallsBy(Run(setup, [first, second]).calls, 0)| == 2
  {
    hide Run, RowsOf, CallsBy, PlanFor, TotalTokens, KnownSpend, UnknownPricing, MakeRow;
    NothingYet(setup, 0);
    PlainPolicyPasses(setup, [], first);
    PlainPolicyPasses(setup, [], second);
    CallAppends(setup, [], first);
    assert [] + [first] == [first];
    CallAppends(setup, [first], second);
    assert [first] + [second] == [first, second];
  }
}
