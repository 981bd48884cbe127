/** What every run of the gateway keeps, from an empty ledger and under fixed workspace policies. */
module AiBudget {
  import opened Common
  import opened ModelPricing
  import opened UsageLedger
  import opened UsageLimits
  import opened AiGateway

  /** The model that serves a request if no budget refuses it; it does not depend on the ledger. */
  ghost function ServingKey(setup: Setup, call: Call): Option<ModelKey> {
    var configuration := ConfigurationOf(setup.policies(call.request.workspace));
    if configuration.None? then None
    else
      var choice := ChooseTier(configuration.value, setup.mappings.Keys, call.request.tier);
      if (choice.Allowed? || choice.Downgraded?) && choice.tier in setup.mappings then Some(setup.mappings[choice.tier]) else None
  }

  /** What is known of a call that reaches the provider. */
  lemma ProceedingCall(setup: Setup, rows: seq<Usage>, call: Call)
    requires PlanFor(setup, rows, call).Proceed?
    ensures
      var p := setup.policies(call.request.workspace);
      var plan := PlanFor(setup, rows, call);
      && ConfigurationOf(p).Some? && IsConfigured(p)
      && EstimatesAreCanonical(call.request.estimates)
      && HasRoom(ConfigurationOf(p).value, rows, call.request.estimates)
      && Permits(p, plan.tier) && plan.tier != Deterministic && Rank(plan.tier) <= Rank(call.request.tier)
      && ServingKey(setup, call) == Some(plan.key)
  {
    var p := setup.policies(call.request.workspace);
    hide IsConfigured, Permits, TotalTokens, KnownSpend, UnknownPricing;
    ConfigurationDescribes(p);
    PassesIff(p, setup.mappings.Keys, rows, call.request.tier, call.request.estimates);
    hide ConfigurationOf, HasRoom;
  }

  /** The limits of a configured policy are the stored ones. */
  lemma LimitsAreStored(p: WorkspacePolicy)
    requires ConfigurationOf(p).Some?
    ensures ConfigurationOf(p).value.invocationLimit == p.invocationLimit
    ensures ConfigurationOf(p).value.tokenLimit == p.tokenLimit
    ensures ConfigurationOf(p).value.spendLimit == p.spendLimit
    ensures LimitsAreNonNegative(p)
  {
  }

  lemma {:induction false} RowsOfConcat(rows: seq<Usage>, row: Option<Usage>, workspace: Id)
    ensures RowsOf(rows + RowsIn(row), workspace)
         == if row.Some? && row.value.workspace == workspace then RowsOf(rows, workspace) + [row.value] else RowsOf(rows, workspace)
  {
    if row.Some? {
      AppendRow(rows, row.value, workspace);
    } else {
      assert rows + RowsIn(row) == rows;
    }
  }

  lemma RowBelongs(catalog: Catalog, call: Call, key: ModelKey)
    requires RowFor(catalog, call, key).Some?
    ensures RowFor(catalog, call, key).value.workspace == call.request.workspace
    ensures RowFor(catalog, call, key).value.key == ModelKey(Strip(key.provider), Strip(key.model))
  {
    hide Strip;
  }

  // ---- conservation ------------------------------------------------------------------------

  function Accounted(calls: seq<ProviderCall>): seq<ProviderCall> {
    if calls == [] then []
    else
      var rest := Accounted(calls[..|calls| - 1]);
      if calls[|calls| - 1].accounted then rest + [calls[|calls| - 1]] else rest
  }

  function Lost(calls: seq<ProviderCall>): nat {
    if calls == [] then 0
    else Lost(calls[..|calls| - 1]) + if calls[|calls| - 1].accounted then 0 else 1
  }

  predicate AccountsFor(row: Usage, call: ProviderCall) {
    row.workspace == call.workspace && row.key == ModelKey(Strip(call.key.provider), Strip(call.key.model))
  }

  ghost predicate RowsAccount(ledger: Ledger) {
    var accounted := Accounted(ledger.calls);
    && |accounted| == |ledger.rows|
    && (forall i :: 0 <= i < |accounted| ==> AccountsFor(ledger.rows[i], accounted[i]))
  }

  lemma {:induction false} AccountedAndLost(calls: seq<ProviderCall>)
    ensures |Accounted(calls)| + Lost(calls) == |calls|
  {
    if calls != [] {
      AccountedAndLost(calls[..|calls| - 1]);
    }
  }

  lemma InvocationKeepsAccounts(setup: Setup, ledger: Ledger, call: Call)
    requires RowsAccount(ledger)
    ensures RowsAccount(Invocation(setup, ledger, call).0)
  {
    hide RowFor, Strip, PlanFor, OutcomeOf;
    var plan := PlanFor(setup, RowsOf(ledger.rows, call.request.workspace), call);
    if plan.Proceed? {
      var after := Invocation(setup, ledger, call).0;
      assert after.calls[..|after.calls| - 1] == ledger.calls;
      var row := RowFor(setup.catalog, call, plan.key);
      if row.Some? {
        RowBelongs(setup.catalog, call, plan.key);
      }
    }
  }

  /** Over every run the ledger rows are, in order, exactly the provider calls whose write
      succeeded, so provider calls equal rows plus failed writes. */
  lemma {:induction false} AccountingIsConserved(setup: Setup, calls: seq<Call>)
    ensures
      var ledger := Run(setup, calls);
      RowsAccount(ledger) && |ledger.calls| == |ledger.rows| + Lost(ledger.calls)
  {
    if calls != [] {
      AccountingIsConserved(setup, calls[..|calls| - 1]);
      InvocationKeepsAccounts(setup, Run(setup, calls[..|calls| - 1]), calls[|calls| - 1]);
    }
    AccountedAndLost(Run(setup, calls).calls);
  }

  predicate ReachedProvider(outcome: Outcome) {
    outcome.ProviderError? || outcome.MetadataError? || outcome.AccountingError? || outcome.Invoked?
  }

  /** The caller can tell from the outcome whether a model was called; every other outcome
      leaves ledger and provider untouched, and a returned usage is the row just written. */
  lemma OutcomeTellsTheCall(setup: Setup, ledger: Ledger, call: Call)
    ensures
      var (after, outcome) := Invocation(setup, ledger, call);
      && (ReachedProvider(outcome) <==> |after.calls| == |ledger.calls| + 1)
      && (!ReachedProvider(outcome) <==> after == ledger)
      && (outcome.Invoked? ==> after.rows == ledger.rows + [outcome.usage] && outcome.usage.successful)
      && (outcome.AccountingError? ==> after.rows == ledger.rows)
      && (outcome.ProviderError? || outcome.MetadataError? ==>
            forall i :: |ledger.rows| <= i < |after.rows| ==> !after.rows[i].successful && after.rows[i].total.None?)
  {
    hide Strip, ConfigurationOf, Evaluate, RowsOf, Estimate;
    var plan := PlanFor(setup, RowsOf(ledger.rows, call.request.workspace), call);
    PlanOutcomes(setup, RowsOf(ledger.rows, call.request.workspace), call);
    hide PlanFor;
  }

  predicate SameCount(stored: Option<nat>, reported: Option<int>) {
    if stored.None? then reported.None? else reported == Some(stored.value)
  }

  /** A returned usage repeats what the provider reported, for the requesting workspace; its
      total is the sum of the parts whenever both are known, reported or not. */
  lemma UsageReportsReply(setup: Setup, ledger: Ledger, call: Call)
    requires Invocation(setup, ledger, call).1.Invoked?
    ensures
      var usage, reply := Invocation(setup, ledger, call).1.usage, call.world.reply;
      && reply.Completed? && usage.workspace == call.request.workspace && usage.latency == call.world.latency
      && SameCount(usage.input, reply.input) && SameCount(usage.output, reply.output)
      && (usage.input.Some? && usage.output.Some? ==> usage.total == Some(usage.input.value + usage.output.value))
      && (usage.input.None? || usage.output.None? ==> SameCount(usage.total, reply.total))
      && (reply.total.Some? ==> SameCount(usage.total, reply.total))
  {
    hide Strip, ConfigurationOf, Evaluate, RowsOf, Estimate;
    PlanOutcomes(setup, RowsOf(ledger.rows, call.request.workspace), call);
    hide PlanFor;
  }

  lemma PlanOutcomes(setup: Setup, rows: seq<Usage>, call: Call)
    ensures PlanFor(setup, rows, call).Refused? ==> !ReachedProvider(PlanFor(setup, rows, call).outcome)
  {
    hide ConfigurationOf, Evaluate;
  }

  // ---- isolation between workspaces ----------------------------------------------------------

  function CallsOf(calls: seq<Call>, workspace: Id): seq<Call> {
    if calls == [] then []
    else
      var rest := CallsOf(calls[..|calls| - 1], workspace);
      var last := calls[|calls| - 1];
      if last.request.workspace == workspace then rest + [last] else rest
  }

  /** The outcome of a call depends on the rows of its own workspace alone. */
  lemma SameRowsSameOutcome(setup: Setup, a: Ledger, b: Ledger, call: Call)
    requires RowsOf(a.rows, call.request.workspace) == RowsOf(b.rows, call.request.workspace)
    ensures Invocation(setup, a, call).1 == Invocation(setup, b, call).1
    ensures RowsOf(Invocation(setup, a, call).0.rows, call.request.workspace)
         == RowsOf(Invocation(setup, b, call).0.rows, call.request.workspace)
  {
    var workspace := call.request.workspace;
    hide RowsOf, RowFor, PlanFor, OutcomeOf;
    var plan := PlanFor(setup, RowsOf(a.rows, workspace), call);
    if plan.Proceed? {
      RowsOfConcat(a.rows, RowFor(setup.catalog, call, plan.key), workspace);
      RowsOfConcat(b.rows, RowFor(setup.catalog, call, plan.key), workspace);
    }
  }

  lemma OtherWorkspaceUnchanged(setup: Setup, ledger: Ledger, call: Call, workspace: Id)
    requires call.request.workspace != workspace
    ensures RowsOf(Invocation(setup, ledger, call).0.rows, workspace) == RowsOf(ledger.rows, workspace)
  {
    hide RowsOf, RowFor, PlanFor, OutcomeOf;
    var plan := PlanFor(setup, RowsOf(ledger.rows, call.request.workspace), call);
    if plan.Proceed? {
      var row := RowFor(setup.catalog, call, plan.key);
      if row.Some? {
        RowBelongs(setup.catalog, call, plan.key);
      }
      RowsOfConcat(ledger.rows, row, workspace);
    }
  }

  /** A workspace's rows are the same whether or not other workspaces call in between. */
  lemma {:induction false} WorkspacesAreIsolated(setup: Setup, calls: seq<Call>, workspace: Id)
    ensures RowsOf(Run(setup, calls).rows, workspace) == RowsOf(Run(setup, CallsOf(calls, workspace)).rows, workspace)
  {
    if calls != [] {
      var front, last := calls[..|calls| - 1], calls[|calls| - 1];
      WorkspacesAreIsolated(setup, front, workspace);
      if last.request.workspace == workspace {
        assert CallsOf(calls, workspace)[..|CallsOf(calls, workspace)| - 1] == CallsOf(front, workspace);
        SameRowsSameOutcome(setup, Run(setup, front), Run(setup, CallsOf(front, workspace)), last);
      } else {
        OtherWorkspaceUnchanged(setup, Run(setup, front), last, workspace);
      }
      hide Invocation, RowsOf;
    }
  }

  // ---- budgets ---------------------------------------------------------------------------------

  /** How one call changes the rows of a workspace: not at all, or by one row behind a ledger
      that still had room for the call's estimates. */
  lemma StepOfRows(setup: Setup, ledger: Ledger, call: Call, workspace: Id)
    ensures
      var p := setup.policies(workspace);
      var before := RowsOf(ledger.rows, workspace);
      var after := RowsOf(Invocation(setup, ledger, call).0.rows, workspace);
      || after == before
      || (&& call.request.workspace == workspace
          && ConfigurationOf(p).Some? && EstimatesAreCanonical(call.request.estimates)
          && HasRoom(ConfigurationOf(p).value, before, call.request.estimates)
          && ServingKey(setup, call).Some? && RowFor(setup.catalog, call, ServingKey(setup, call).value).Some?
          && after == before + [RowFor(setup.catalog, call, ServingKey(setup, call).value).value])
  {
    if call.request.workspace != workspace {
      OtherWorkspaceUnchanged(setup, ledger, call, workspace);
    } else {
      var before := RowsOf(ledger.rows, workspace);
      var plan := PlanFor(setup, before, call);
      hide PlanFor, RowFor, ServingKey, ConfigurationOf, RowsOf, OutcomeOf, EstimatesAreCanonical, HasRoom;
      if plan.Proceed? {
        ProceedingCall(setup, before, call);
        RowsOfConcat(ledger.rows, RowFor(setup.catalog, call, plan.key), workspace);
        if RowFor(setup.catalog, call, plan.key).Some? {
          RowBelongs(setup.catalog, call, plan.key);
        }
      }
    }
  }

  function Front(rows: seq<Usage>): seq<Usage> {
    if rows == [] then [] else rows[..|rows| - 1]
  }

  /** Whatever the provider reports: the rows never outnumber the invocation limit, and tokens
      and known spend can leave their limits only with the very last row. Under a spend limit
      every row but the last has a known price. */
  ghost predicate WithinLimits(p: WorkspacePolicy, rows: seq<Usage>) {
    && (p.invocationLimit.Some? ==> |rows| <= p.invocationLimit.value)
    && (p.tokenLimit.Some? && rows != [] ==> TotalTokens(Front(rows)) <= p.tokenLimit.value)
    && (p.spendLimit.Some? && rows != [] ==> KnownSpend(Front(rows)) <= p.spendLimit.value)
    && (p.spendLimit.Some? ==> UnknownPricing(Front(rows)) == 0)
  }

  lemma {:induction false} BudgetsHold(setup: Setup, calls: seq<Call>, workspace: Id)
    requires IsConfigured(setup.policies(workspace))
    ensures WithinLimits(setup.policies(workspace), RowsOf(Run(setup, calls).rows, workspace))
  {
    if calls != [] {
      var ledger, last := Run(setup, calls[..|calls| - 1]), calls[|calls| - 1];
      BudgetsHold(setup, calls[..|calls| - 1], workspace);
      StepOfRows(setup, ledger, last, workspace);
      var p := setup.policies(workspace);
      LimitsAreStored(p);
      var before, after := RowsOf(ledger.rows, workspace), RowsOf(Run(setup, calls).rows, workspace);
      hide Invocation, RowsOf, ConfigurationOf, ServingKey, RowFor, TotalTokens, KnownSpend, UnknownPricing, IsConfigured;
      if after != before {
        assert Front(after) == before;
      }
    }
  }

  function CallsBy(calls: seq<ProviderCall>, workspace: Id): seq<ProviderCall> {
    if calls == [] then []
    else
      var rest := CallsBy(calls[..|calls| - 1], workspace);
      if calls[|calls| - 1].workspace == workspace then rest + [calls[|calls| - 1]] else rest
  }

  lemma CallsByAppend(calls: seq<ProviderCall>, call: ProviderCall, workspace: Id)
    ensures
      var mine := CallsBy(calls, workspace);
      && CallsBy(calls + [call], workspace) == (if call.workspace == workspace then mine + [call] else mine)
      && Lost(mine + [call]) == Lost(mine) + if call.accounted then 0 else 1
  {
    assert (calls + [call])[..|calls|] == calls;
    var mine := CallsBy(calls, workspace);
    assert (mine + [call])[..|mine|] == mine;
  }

  lemma InvocationKeepsCount(setup: Setup, ledger: Ledger, call: Call, workspace: Id)
    requires |CallsBy(ledger.calls, workspace)| == |RowsOf(ledger.rows, workspace)| + Lost(CallsBy(ledger.calls, workspace))
    ensures
      var after := Invocation(setup, ledger, call).0;
      |CallsBy(after.calls, workspace)| == |RowsOf(after.rows, workspace)| + Lost(CallsBy(after.calls, workspace))
  {
    hide PlanFor, RowFor, RowsOf, OutcomeOf, CallsBy, Lost;
    var plan := PlanFor(setup, RowsOf(ledger.rows, call.request.workspace), call);
    if plan.Proceed? {
      var row := RowFor(setup.catalog, call, plan.key);
      if row.Some? {
        RowBelongs(setup.catalog, call, plan.key);
      }
      RowsOfConcat(ledger.rows, row, workspace);
      CallsByAppend(ledger.calls, ProviderCall(call.request.workspace, call.request.tier, plan.tier, plan.key, row.Some?), workspace);
    }
  }

  /** Provider calls of a workspace exceed its invocation limit by at most the lost writes. */
  lemma {:induction false} InvocationBudget(setup: Setup, calls: seq<Call>, workspace: Id)
    requires IsConfigured(setup.policies(workspace))
    ensures
      var ledger := Run(setup, calls);
      var mine := CallsBy(ledger.calls, workspace);
      var limit := setup.policies(workspace).invocationLimit;
      && |mine| == |RowsOf(ledger.rows, workspace)| + Lost(mine)
      && (limit.Some? ==> |mine| <= limit.value + Lost(mine))
  {
    if calls != [] {
      InvocationBudget(setup, calls[..|calls| - 1], workspace);
      InvocationKeepsCount(setup, Run(setup, calls[..|calls| - 1]), calls[|calls| - 1], workspace);
    }
    BudgetsHold(setup, calls, workspace);
    hide Invocation, RowsOf, IsConfigured, TotalTokens, KnownSpend, UnknownPricing;
  }

  // ---- honest estimates ----------------------------------------------------------------------

  /** The recorded tokens of this call, if it is made, stay within its own estimate. */
  ghost predicate CoversTokens(setup: Setup, call: Call) {
    var key := ServingKey(setup, call);
    key.Some? ==>
      var row := RowFor(setup.catalog, call, key.value);
      row.Some? && call.request.estimates.tokens.Some? ==> OrZero(row.value.total) <= call.request.estimates.tokens.value
  }

  ghost predicate CoversCost(setup: Setup, call: Call) {
    var key := ServingKey(setup, call);
    key.Some? ==>
      var row := RowFor(setup.catalog, call, key.value);
      row.Some? && call.request.estimates.cost.Some? ==> KnownCost(row.value) <= call.request.estimates.cost.value
  }

  /** When every estimate bounds what is recorded, the token limit is never exceeded. */
  lemma {:induction false} TokenBudget(setup: Setup, calls: seq<Call>, workspace: Id)
    requires IsConfigured(setup.policies(workspace)) && setup.policies(workspace).tokenLimit.Some?
    requires forall i :: 0 <= i < |calls| && calls[i].request.workspace == workspace ==> CoversTokens(setup, calls[i])
    ensures TotalTokens(RowsOf(Run(setup, calls).rows, workspace)) <= setup.policies(workspace).tokenLimit.value
  {
    LimitsAreStored(setup.policies(workspace));
    if calls != [] {
      var ledger, last := Run(setup, calls[..|calls| - 1]), calls[|calls| - 1];
      TokenBudget(setup, calls[..|calls| - 1], workspace);
      StepOfRows(setup, ledger, last, workspace);
      assert last.request.workspace == workspace ==> CoversTokens(setup, last);
      var before, after := RowsOf(ledger.rows, workspace), RowsOf(Run(setup, calls).rows, workspace);
      if after != before {
        AppendRow(before, after[|after| - 1], workspace);
      }
      hide Invocation, RowsOf, ConfigurationOf, ServingKey, RowFor, IsConfigured, TotalTokens, KnownSpend, UnknownPricing;
    }
  }

  /** When every estimate bounds what is recorded, the spend limit is never exceeded. */
  lemma {:induction false} SpendBudget(setup: Setup, calls: seq<Call>, workspace: Id)
    requires IsConfigured(setup.policies(workspace)) && setup.policies(workspace).spendLimit.Some?
    requires forall i :: 0 <= i < |calls| && calls[i].request.workspace == workspace ==> CoversCost(setup, calls[i])
    ensures KnownSpend(RowsOf(Run(setup, calls).rows, workspace)) <= setup.policies(workspace).spendLimit.value
  {
    LimitsAreStored(setup.policies(workspace));
    if calls != [] {
      var ledger, last := Run(setup, calls[..|calls| - 1]), calls[|calls| - 1];
      SpendBudget(setup, calls[..|calls| - 1], workspace);
      StepOfRows(setup, ledger, last, workspace);
      assert last.request.workspace == workspace ==> CoversCost(setup, last);
      var before, after := RowsOf(ledger.rows, workspace), RowsOf(Run(setup, calls).rows, workspace);
      if after != before {
        AppendRow(before, after[|after| - 1], workspace);
      }
      hide Invocation, RowsOf, ConfigurationOf, ServingKey, RowFor, IsConfigured, TotalTokens, KnownSpend, UnknownPricing;
    }
  }

  /** Without that proviso a limit can be passed: one call estimated at 1 token uses 20 of 10. */
  lemma UnderestimatePassesLimit(setup: Setup, call: Call)
    requires setup.policies(0) == WorkspacePolicy(None, Some(10), None, None, map[])
    requires setup.catalog == map[] && setup.mappings == map[Economy := ModelKey("p", "m")]
    requires call.request == Request(0, "t", "a", Economy, Estimates(Some(1), None, None))
    requires call.world == World(false, Completed(Some(20), Some(0), None), 0, false)
    ensures IsConfigured(setup.policies(0)) && TotalTokens(RowsOf(Run(setup, [call]).rows, 0)) == 20
  {
    hide Run, RowFor, PlanFor, IsConfigured, RowsOf, TotalTokens, Strip;
    ShortRow(call);
    UnlimitedPolicyPasses(setup, call);
    FirstRow(setup, call);
  }

  /** The ledger of a workspace after its first call, if that call proceeds. */
  lemma FirstRow(setup: Setup, call: Call)
    requires PlanFor(setup, RowsOf([], call.request.workspace), call).Proceed?
    requires RowFor(setup.catalog, call, PlanFor(setup, RowsOf([], call.request.workspace), call).key).Some?
    ensures
      var row := RowFor(setup.catalog, call, PlanFor(setup, RowsOf([], call.request.workspace), call).key).value;
      TotalTokens(RowsOf(Run(setup, [call]).rows, call.request.workspace)) == OrZero(row.total)
  {
    assert [call][..0] == [];
    assert Run(setup, [call]) == Invocation(setup, EMPTY_LEDGER, call).0;
    hide Run, RowFor, PlanFor, RowsOf, TotalTokens, OutcomeOf;
    var key := PlanFor(setup, RowsOf([], call.request.workspace), call).key;
    var row := RowFor(setup.catalog, call, key);
    RowBelongs(setup.catalog, call, key);
    RowsOfConcat([], row, call.request.workspace);
    AppendRow([], row.value, call.request.workspace);
    EmptyRows(call.request.workspace);
    assert [] + [row.value] == [row.value];
  }

  lemma EmptyRows(workspace: Id)
    ensures RowsOf([], workspace) == [] && TotalTokens([]) == 0
  {
  }

  lemma UnlimitedPolicyPasses(setup: Setup, call: Call)
    requires setup.policies(0) == WorkspacePolicy(None, Some(10), None, None, map[])
    requires setup.mappings == map[Economy := ModelKey("p", "m")]
    requires call.request == Request(0, "t", "a", Economy, Estimates(Some(1), None, None)) && !call.world.buildFails
    ensures PlanFor(setup, RowsOf([], 0), call) == Proceed(Economy, ModelKey("p", "m"))
    ensures IsConfigured(setup.policies(0))
  {
    EmptyRows(0);
    var p := setup.policies(0);
    assert IsConfigured(p);
    ConfigurationDescribes(p);
    var c := ConfigurationOf(p).value;
    assert Economy in c.permitted by { assert Permits(p, Economy); }
    hide ConfigurationOf, IsConfigured, Permits, TierName;
  }

  lemma ShortRow(call: Call)
    requires call.request.task == "t" && call.request.agent == "a" && call.request.workspace == 0
    requires call.world.reply == Completed(Some(20), Some(0), None) && !call.world.writeFails
    ensures var row := RowFor(map[], call, ModelKey("p", "m"));
            row.Some? && row.value.workspace == 0 && row.value.total == Some(20)
  {
    assert Strip("t") == "t" && Strip("a") == "a" && Strip("p") == "p" && Strip("m") == "m";
    hide Strip;
  }

  lemma PricedBeforeLast(p: WorkspacePolicy, rows: seq<Usage>)
    requires WithinLimits(p, rows) && p.spendLimit.Some?
    ensures forall i :: 0 <= i < |rows| - 1 ==> rows[i].cost.Some?
  {
    NoneUnknown(Front(rows));
    assert forall i :: 0 <= i < |rows| - 1 ==> rows[i] == Front(rows)[i];
    hide KnownSpend, TotalTokens, UnknownPricing;
  }

  lemma UnknownPriceRefuses(setup: Setup, rows: seq<Usage>, next: Call)
    requires setup.policies(next.request.workspace).spendLimit.Some?
    requires rows != [] && rows[|rows| - 1].cost.None?
    ensures PlanFor(setup, rows, next).Refused?
  {
    hide PlanFor, KnownSpend, TotalTokens, ConfigurationOf, IsConfigured, Permits, EstimatesAreCanonical, ServingKey;
    NoneUnknown(rows);
    if PlanFor(setup, rows, next).Proceed? {
      ProceedingCall(setup, rows, next);
      LimitsAreStored(setup.policies(next.request.workspace));
      assert false;
    }
  }

  /** Under a spend limit at most one row has an unknown price; it is the last one, and while it
      is there no further call of the workspace reaches the provider. */
  lemma UnknownPriceBlocks(setup: Setup, calls: seq<Call>, next: Call)
    requires IsConfigured(setup.policies(next.request.workspace)) && setup.policies(next.request.workspace).spendLimit.Some?
    ensures
      var ledger := Run(setup, calls);
      var rows := RowsOf(ledger.rows, next.request.workspace);
      && (forall i :: 0 <= i < |rows| - 1 ==> rows[i].cost.Some?)
      && (rows != [] && rows[|rows| - 1].cost.None? ==>
            !ReachedProvider(Invocation(setup, ledger, next).1) && Invocation(setup, ledger, next).0 == ledger)
  {
    hide Run, RowsOf, WithinLimits, IsConfigured, PlanFor, RowFor, OutcomeOf;
    var rows := RowsOf(Run(setup, calls).rows, next.request.workspace);
    BudgetsHold(setup, calls, next.request.workspace);
    PricedBeforeLast(setup.policies(next.request.workspace), rows);
    if rows != [] && rows[|rows| - 1].cost.None? {
      UnknownPriceRefuses(setup, rows, next);
      PlanOutcomes(setup, rows, next);
    }
  }

  lemma OtherCallsUnchanged(setup: Setup, ledger: Ledger, call: Call, workspace: Id)
    requires call.request.workspace != workspace
    ensures CallsBy(Invocation(setup, ledger, call).0.calls, workspace) == CallsBy(ledger.calls, workspace)
  {
    hide PlanFor, RowFor, RowsOf, OutcomeOf, CallsBy, Lost;
    var plan := PlanFor(setup, RowsOf(ledger.rows, call.request.workspace), call);
    if plan.Proceed? {
      var row := RowFor(setup.catalog, call, plan.key);
      CallsByAppend(ledger.calls, ProviderCall(call.request.workspace, call.request.tier, plan.tier, plan.key, row.Some?), workspace);
    }
  }

  /** One more recorded call keeps its workspace within its limits exactly when what it recorded
      is at most the room that was left before it, and that room was never negative. */
  lemma LimitsAfterCallIff(setup: Setup, ledger: Ledger, call: Call)
    ensures
      var workspace, later := call.request.workspace, Invocation(setup, ledger, call).0;
      var p := setup.policies(workspace);
      var before, after := RowsOf(ledger.rows, workspace), RowsOf(later.rows, workspace);
      later.rows != ledger.rows ==>
        && after != [] && Front(after) == before
        && var row := after[|after| - 1];
           && (p.tokenLimit.Some? ==>
                 var room := p.tokenLimit.value - TotalTokens(before);
                 room >= 0 && (TotalTokens(after) <= p.tokenLimit.value <==> OrZero(row.total) <= room))
           && (p.spendLimit.Some? ==>
                 var room := p.spendLimit.value - KnownSpend(before);
                 room >= 0.0 && (KnownSpend(after) <= p.spendLimit.value <==> KnownCost(row) <= room))
  {
    var workspace := call.request.workspace;
    var plan := PlanFor(setup, RowsOf(ledger.rows, workspace), call);
    hide RowsOf, RowFor, PlanFor, OutcomeOf, TotalTokens, KnownSpend, UnknownPricing;
    hide IsConfigured, Permits, ServingKey, ConfigurationOf;
    if plan.Proceed? && RowFor(setup.catalog, call, plan.key).Some? {
      var row := RowFor(setup.catalog, call, plan.key);
      RowBelongs(setup.catalog, call, plan.key);
      RowsOfConcat(ledger.rows, row, workspace);
      AppendRow(RowsOf(ledger.rows, workspace), row.value, workspace);
      ProceedingCall(setup, RowsOf(ledger.rows, workspace), call);
      LimitsAreStored(setup.policies(workspace));
    }
  }

  // ---- tiers and prices ------------------------------------------------------------------------

  ghost predicate TiersRespected(setup: Setup, calls: seq<ProviderCall>) {
    forall i :: 0 <= i < |calls| ==>
      && calls[i].tier in setup.mappings && calls[i].key == setup.mappings[calls[i].tier]
      && calls[i].tier != Deterministic
      && Permits(setup.policies(calls[i].workspace), calls[i].tier)
      && Rank(calls[i].tier) <= Rank(calls[i].requested)
  }

  lemma ProceedIsMapped(setup: Setup, rows: seq<Usage>, call: Call)
    requires PlanFor(setup, rows, call).Proceed?
    ensures PlanFor(setup, rows, call).tier in setup.mappings
    ensures PlanFor(setup, rows, call).key == setup.mappings[PlanFor(setup, rows, call).tier]
  {
    hide ConfigurationOf, Evaluate;
  }

  /** Every model ever called belongs to a tier its workspace permits, never above the tier
      that was requested. */
  lemma {:induction false} OnlyPermittedTiers(setup: Setup, calls: seq<Call>)
    ensures TiersRespected(setup, Run(setup, calls).calls)
  {
    if calls != [] {
      var ledger, last := Run(setup, calls[..|calls| - 1]), calls[|calls| - 1];
      OnlyPermittedTiers(setup, calls[..|calls| - 1]);
      var rows := RowsOf(ledger.rows, last.request.workspace);
      if PlanFor(setup, rows, last).Proceed? {
        ProceedingCall(setup, rows, last);
        ProceedIsMapped(setup, rows, last);
      }
      hide PlanFor, RowFor, RowsOf, Permits, ConfigurationOf, ServingKey, HasRoom;
    }
  }

  /** Every row was priced from the catalogue, so the spend of any run distributes over it. */
  lemma {:induction false} RunIsPriced(setup: Setup, calls: seq<Call>)
    ensures PricedWith(setup.catalog, Run(setup, calls).rows)
  {
    if calls != [] {
      var ledger, last := Run(setup, calls[..|calls| - 1]), calls[|calls| - 1];
      RunIsPriced(setup, calls[..|calls| - 1]);
      var plan := PlanFor(setup, RowsOf(ledger.rows, last.request.workspace), last);
      hide PlanFor, RowsOf, Cost;
      if plan.Proceed? {
        RowIsPriced(setup.catalog, last, plan.key);
      }
      hide RowFor;
    }
  }

  lemma RowIsPriced(catalog: Catalog, call: Call, key: ModelKey)
    ensures RowFor(catalog, call, key).Some? ==> PricedWith(catalog, [RowFor(catalog, call, key).value])
  {
    hide MakeRow, PricedWith;
    var counts := CanonicalUsage(call.world.reply);
    if counts.Some? {
      MadeRowIsPriced(catalog, DraftOf(call.request, key, counts.value, call.world.latency, true));
    } else {
      MadeRowIsPriced(catalog, DraftOf(call.request, key, NO_COUNTS, call.world.latency, false));
    }
  }

  lemma {:induction false} RowsOfArePriced(catalog: Catalog, rows: seq<Usage>, workspace: Id)
    requires PricedWith(catalog, rows)
    ensures PricedWith(catalog, RowsOf(rows, workspace))
  {
    if rows != [] {
      assert forall i :: 0 <= i < |rows| - 1 ==> rows[..|rows| - 1][i] == rows[i];
      RowsOfArePriced(catalog, rows[..|rows| - 1], workspace);
      hide Cost;
    }
  }

  /** The known spend of a workspace after any run is the price list applied to its token totals. */
  lemma SpendOfRun(setup: Setup, prices: seq<Price>, calls: seq<Call>, workspace: Id)
    requires !HasDuplicate(prices) && Lists(setup.catalog, prices)
    ensures
      var rows := RowsOf(Run(setup, calls).rows, workspace);
      KnownSpend(rows) == SpendByModel(prices, rows)
  {
    RunIsPriced(setup, calls);
    RowsOfArePriced(setup.catalog, Run(setup, calls).rows, workspace);
    SpendDistributes(setup.catalog, prices, RowsOf(Run(setup, calls).rows, workspace));
  }

  /** Over every run each ledger row is charged at the listed rates of its own model: input tokens
      at the input rate, output tokens at the output rate, per million. */
  lemma RunIsCharged(setup: Setup, prices: seq<Price>, calls: seq<Call>)
    requires Lists(setup.catalog, prices)
    ensures ChargedFrom(prices, Run(setup, calls).rows)
  {
    hide Run;
    RunIsPriced(setup, calls);
    PricedIsCharged(setup.catalog, prices, Run(setup, calls).rows);
  }

  /** Over every run a million times the known spend of a workspace is the sum, over the price
      list, of the input rate times its input tokens and the output rate times its output tokens. */
  lemma ChargeOfRun(setup: Setup, prices: seq<Price>, calls: seq<Call>, workspace: Id)
    requires !HasDuplicate(prices) && Lists(setup.catalog, prices)
    ensures
      var rows := RowsOf(Run(setup, calls).rows, workspace);
      1000000.0 * KnownSpend(rows) == ChargeByModel(prices, rows)
  {
    hide Run, RowsOf, KnownSpend, SpendByModel, ChargeByModel;
    SpendOfRun(setup, prices, calls, workspace);
    SpendIsCharge(prices, RowsOf(Run(setup, calls).rows, workspace));
  }
}
