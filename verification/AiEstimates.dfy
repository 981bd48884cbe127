/** A call's estimate is what keeps a limit: below the recorded amount, some run passes the limit. */
module AiEstimates {
  import opened Common
  import opened ModelPricing
  import opened UsageLedger
  import opened UsageLimits
  import opened AiGateway
  import opened AiBudget
  import opened AiShutOff

  ghost function RowsAfter(setup: Setup, calls: seq<Call>, workspace: Id): seq<Usage> {
    RowsOf(Run(setup, calls).rows, workspace)
  }

  /** After these calls the call is let through, and what it records ends above the token limit. */
  ghost predicate PassesTokenLimit(setup: Setup, calls: seq<Call>, call: Call) {
    var workspace := call.request.workspace;
    var p := setup.policies(workspace);
    && PlanFor(setup, RowsAfter(setup, calls, workspace), call).Proceed?
    && p.tokenLimit.Some?
    && TotalTokens(RowsAfter(setup, calls + [call], workspace)) > p.tokenLimit.value
  }

  ghost predicate PassesSpendLimit(setup: Setup, calls: seq<Call>, call: Call) {
    var workspace := call.request.workspace;
    var p := setup.policies(workspace);
    && PlanFor(setup, RowsAfter(setup, calls, workspace), call).Proceed?
    && p.spendLimit.Some?
    && KnownSpend(RowsAfter(setup, calls + [call], workspace)) > p.spendLimit.value
  }

  /** A request that is let through once is let through, to the same model, wherever its
      estimates have room. */
  lemma RoomIsEnough(setup: Setup, rows: seq<Usage>, call: Call, otherRows: seq<Usage>, other: Call)
    requires PlanFor(setup, rows, call).Proceed?
    requires other.request.workspace == call.request.workspace && other.request.tier == call.request.tier
    requires !other.world.buildFails && EstimatesAreCanonical(other.request.estimates)
    requires ConfigurationOf(setup.policies(call.request.workspace)).Some?
    requires HasRoom(ConfigurationOf(setup.policies(call.request.workspace)).value, otherRows, other.request.estimates)
    ensures PlanFor(setup, otherRows, other) == PlanFor(setup, rows, call)
  {
    hide ConfigurationOf, TotalTokens, KnownSpend, UnknownPricing;
  }

  lemma ProceedIsConfigured(setup: Setup, rows: seq<Usage>, call: Call)
    requires PlanFor(setup, rows, call).Proceed?
    ensures ConfigurationOf(setup.policies(call.request.workspace)).Some? && !call.world.buildFails
  {
    hide ConfigurationOf, Evaluate;
  }

  /** What the call would record, if it is let through. */
  ghost function Recording(setup: Setup, call: Call): Option<Usage>
    requires ServingKey(setup, call).Some?
  {
    RowFor(setup.catalog, call, ServingKey(setup, call).value)
  }

  lemma AfterCall(setup: Setup, calls: seq<Call>, call: Call)
    requires PlanFor(setup, RowsAfter(setup, calls, call.request.workspace), call).Proceed?
    requires ServingKey(setup, call).Some? && Recording(setup, call).Some?
    ensures
      var before, after := RowsAfter(setup, calls, call.request.workspace), RowsAfter(setup, calls + [call], call.request.workspace);
      var row := Recording(setup, call).value;
      && after == before + [row]
      && TotalTokens(after) == TotalTokens(before) + OrZero(row.total)
      && KnownSpend(after) == KnownSpend(before) + KnownCost(row)
      && UnknownPricing(after) == UnknownPricing(before) + if row.cost.None? then 1 else 0
  {
    var before := RowsAfter(setup, calls, call.request.workspace);
    hide PlanFor, Run, RowsOf, RowFor, ServingKey, TotalTokens, KnownSpend, UnknownPricing, ConfigurationOf, IsConfigured, Permits;
    ProceedingCall(setup, before, call);
    CallAppends(setup, calls, call);
    AppendRow(before, Recording(setup, call).value, call.request.workspace);
  }

  // ---- tokens ------------------------------------------------------------------------------

  /** A call of the same request that reports a total of `tokens` and nothing else. */
  function TokenFiller(call: Call, tokens: nat): Call {
    Call(call.request.(estimates := call.request.estimates.(tokens := Some(0))),
         World(false, Completed(None, None, Some(tokens)), 0, false))
  }

  lemma FillerRecords(setup: Setup, call: Call, tokens: nat)
    requires ServingKey(setup, call).Some? && Recording(setup, call).Some?
    ensures
      var filler := TokenFiller(call, tokens);
      && ServingKey(setup, filler) == ServingKey(setup, call)
      && Recording(setup, filler).Some? && Recording(setup, filler).value.total == Some(tokens)
  {
    hide Strip, ConfigurationOf, Estimate;
  }

  lemma TokensFillUp(setup: Setup, call: Call, limit: nat)
    requires
      var p := setup.policies(call.request.workspace);
      && p.tokenLimit == Some(limit) && p.spendLimit.None? && (p.invocationLimit.Some? ==> p.invocationLimit.value >= 2)
    requires PlanFor(setup, [], call).Proceed? && call.request.estimates.tokens.Some?
    requires 0 <= call.request.estimates.tokens.value <= limit
    requires ServingKey(setup, call).Some? && Recording(setup, call).Some?
    requires OrZero(Recording(setup, call).value.total) > call.request.estimates.tokens.value
    ensures PassesTokenLimit(setup, [TokenFiller(call, limit - call.request.estimates.tokens.value)], call)
  {
    var workspace := call.request.workspace;
    var filler := TokenFiller(call, limit - call.request.estimates.tokens.value);
    hide PlanFor, Run, RowsOf, RowFor, ServingKey, TotalTokens, KnownSpend, UnknownPricing, ConfigurationOf, IsConfigured, Permits;
    NothingYet(setup, workspace);
    ProceedIsConfigured(setup, [], call);
    ProceedingCall(setup, [], call);
    LimitsAreStored(setup.policies(workspace));
    RoomIsEnough(setup, [], call, [], filler);
    FillerRecords(setup, call, limit - call.request.estimates.tokens.value);
    AfterCall(setup, [], filler);
    assert [] + [filler] == [filler];
    RoomIsEnough(setup, [], call, RowsAfter(setup, [filler], workspace), call);
    AfterCall(setup, [filler], call);
  }

  /** For a call with an estimate, under any token limit that is at least that estimate: some run
      lets the call through and ends above the limit if and only if the call records more tokens
      than it was estimated at. (The policy has no other budget that the run would use up.) */
  lemma TokenEstimateIsNecessary(setup: Setup, call: Call, limit: nat)
    requires
      var p := setup.policies(call.request.workspace);
      && p.tokenLimit == Some(limit) && p.spendLimit.None? && (p.invocationLimit.Some? ==> p.invocationLimit.value >= 2)
    requires PlanFor(setup, [], call).Proceed? && call.request.estimates.tokens.Some?
    requires 0 <= call.request.estimates.tokens.value <= limit
    requires ServingKey(setup, call).Some? && Recording(setup, call).Some?
    ensures (exists calls :: PassesTokenLimit(setup, calls, call)) <==> !CoversTokens(setup, call)
  {
    var workspace := call.request.workspace;
    assert CoversTokens(setup, call) <==> OrZero(Recording(setup, call).value.total) <= call.request.estimates.tokens.value by {
      hide ServingKey, RowFor;
    }
    hide PlanFor, Run, RowsOf, RowFor, ServingKey, CoversTokens, TotalTokens, KnownSpend, UnknownPricing;
    hide ConfigurationOf, IsConfigured, Permits, RowsAfter;
    if !CoversTokens(setup, call) {
      TokensFillUp(setup, call, limit);
    } else if exists calls :: PassesTokenLimit(setup, calls, call) {
      var calls :| PassesTokenLimit(setup, calls, call);
      AfterCall(setup, calls, call);
      ProceedingCall(setup, RowsAfter(setup, calls, workspace), call);
      LimitsAreStored(setup.policies(workspace));
    }
  }

  // ---- spend -------------------------------------------------------------------------------

  /** A call for another tier that reports a million input tokens. */
  function SpendFiller(call: Call, tier: Tier): Call {
    Call(call.request.(tier := tier, estimates := Estimates(None, Some(0.0), Some(true))),
         World(false, Completed(Some(1000000), Some(0), None), 0, false))
  }

  /** The workspace permits the tier, and its model costs `price` per million input tokens. */
  ghost predicate Costs(setup: Setup, workspace: Id, tier: Tier, price: real) {
    && tier != Deterministic && tier in setup.mappings && Permits(setup.policies(workspace), tier)
    && var key := ModelKey(Strip(setup.mappings[tier].provider), Strip(setup.mappings[tier].model));
       && IsIdentifier(key.provider) && IsIdentifier(key.model)
       && key in setup.catalog && setup.catalog[key] == Rates(price, 0.0)
  }

  lemma MillionTokensCost(price: real)
    ensures Cost(Rates(price, 0.0), 1000000, 0) == price
  {
  }

  lemma SpendFillerRecords(setup: Setup, call: Call, tier: Tier, price: real)
    requires ConfigurationOf(setup.policies(call.request.workspace)).Some? && Costs(setup, call.request.workspace, tier, price)
    requires ServingKey(setup, call).Some? && Recording(setup, call).Some?
    ensures
      var filler := SpendFiller(call, tier);
      && ServingKey(setup, filler) == Some(setup.mappings[tier])
      && Recording(setup, filler).Some? && Recording(setup, filler).value.cost == Some(price)
  {
    var key := setup.mappings[tier];
    StripIsIdempotent(key.provider);
    StripIsIdempotent(key.model);
    MillionTokensCost(price);
    ConfigurationDescribes(setup.policies(call.request.workspace));
    assert tier in ConfigurationOf(setup.policies(call.request.workspace)).value.permitted;
    hide Strip, Cost, ConfigurationOf, Permits;
  }

  lemma SpendFillerProceeds(setup: Setup, filler: Call)
    requires ConfigurationOf(setup.policies(filler.request.workspace)).Some?
    requires HasRoom(ConfigurationOf(setup.policies(filler.request.workspace)).value, [], filler.request.estimates)
    requires EstimatesAreCanonical(filler.request.estimates) && !filler.world.buildFails
    requires filler.request.tier in setup.mappings && filler.request.tier != Deterministic
    requires Permits(setup.policies(filler.request.workspace), filler.request.tier)
    ensures PlanFor(setup, [], filler).Proceed?
  {
    ConfigurationDescribes(setup.policies(filler.request.workspace));
    assert filler.request.tier in ConfigurationOf(setup.policies(filler.request.workspace)).value.permitted;
    hide ConfigurationOf, Permits, TotalTokens, KnownSpend, UnknownPricing;
  }

  lemma SpendFillsUp(setup: Setup, call: Call, limit: real, tier: Tier)
    requires
      var p := setup.policies(call.request.workspace);
      && p.spendLimit == Some(limit) && p.tokenLimit.None? && (p.invocationLimit.Some? ==> p.invocationLimit.value >= 2)
    requires PlanFor(setup, [], call).Proceed? && call.request.estimates.cost.Some?
    requires Costs(setup, call.request.workspace, tier, limit - call.request.estimates.cost.value)
    requires ServingKey(setup, call).Some? && Recording(setup, call).Some?
    requires KnownCost(Recording(setup, call).value) > call.request.estimates.cost.value
    ensures PassesSpendLimit(setup, [SpendFiller(call, tier)], call)
  {
    var workspace := call.request.workspace;
    var filler := SpendFiller(call, tier);
    hide PlanFor, Run, RowsOf, RowFor, ServingKey, TotalTokens, KnownSpend, UnknownPricing, ConfigurationOf, IsConfigured, Permits, Strip;
    NothingYet(setup, workspace);
    ProceedIsConfigured(setup, [], call);
    ProceedingCall(setup, [], call);
    LimitsAreStored(setup.policies(workspace));
    SpendFillerProceeds(setup, filler);
    SpendFillerRecords(setup, call, tier, limit - call.request.estimates.cost.value);
    AfterCall(setup, [], filler);
    assert [] + [filler] == [filler];
    RoomIsEnough(setup, [], call, RowsAfter(setup, [filler], workspace), call);
    AfterCall(setup, [filler], call);
  }

  /** The same for spend, in a deployment where some permitted model has the price that fills the
      budget up to the call's estimate. */
  lemma SpendEstimateIsNecessary(setup: Setup, call: Call, limit: real, tier: Tier)
    requires
      var p := setup.policies(call.request.workspace);
      && p.spendLimit == Some(limit) && p.tokenLimit.None? && (p.invocationLimit.Some? ==> p.invocationLimit.value >= 2)
    requires PlanFor(setup, [], call).Proceed? && call.request.estimates.cost.Some?
    requires Costs(setup, call.request.workspace, tier, limit - call.request.estimates.cost.value)
    requires ServingKey(setup, call).Some? && Recording(setup, call).Some?
    ensures (exists calls :: PassesSpendLimit(setup, calls, call)) <==> !CoversCost(setup, call)
  {
    var workspace := call.request.workspace;
    assert CoversCost(setup, call) <==> KnownCost(Recording(setup, call).value) <= call.request.estimates.cost.value by {
      hide ServingKey, RowFor;
    }
    hide PlanFor, Run, RowsOf, RowFor, ServingKey, CoversCost, TotalTokens, KnownSpend, UnknownPricing;
    hide ConfigurationOf, IsConfigured, Permits, RowsAfter, Costs;
    if !CoversCost(setup, call) {
      SpendFillsUp(setup, call, limit, tier);
    } else if exists calls :: PassesSpendLimit(setup, calls, call) {
      var calls :| PassesSpendLimit(setup, calls, call);
      AfterCall(setup, calls, call);
      ProceedingCall(setup, RowsAfter(setup, calls, workspace), call);
      LimitsAreStored(setup.policies(workspace));
    }
  }
}
