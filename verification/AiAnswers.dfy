/** What the gateway answers, told from the request, the policy and the provider's reply alone. */
module AiAnswers {
  import opened Common
  import opened ModelPricing
  import opened UsageLedger
  import opened UsageLimits
  import opened AiGateway
  import opened AiBudget

  /** The stored names, and their order from no model to the strongest one. */
  lemma TierNames()
    ensures ParseTier("none") == Some(Deterministic) && ParseTier("economy") == Some(Economy)
    ensures ParseTier("standard") == Some(Standard) && ParseTier("premium") == Some(Premium)
    ensures Rank(Deterministic) < Rank(Economy) < Rank(Standard) < Rank(Premium)
  {
    ParseInvertsName(Deterministic, "none");
    ParseInvertsName(Economy, "economy");
    ParseInvertsName(Standard, "standard");
    ParseInvertsName(Premium, "premium");
  }

  /** Why a model call is blocked: the first budget without room in the order invocations, tokens,
      spend, and only then the tier. */
  lemma BlockedWhy(c: Configuration, mapped: set<Tier>, rows: seq<Usage>, requested: Tier, e: Estimates)
    requires EstimatesAreCanonical(e) && requested != Deterministic
    ensures
      var v := Evaluate(c, mapped, rows, requested, e);
      var full := c.invocationLimit.Some? && |rows| >= c.invocationLimit.value;
      var unestimated := c.tokenLimit.Some? && e.tokens.None?;
      var tokensOut := c.tokenLimit.Some? && e.tokens.Some? && TotalTokens(rows) + e.tokens.value > c.tokenLimit.value;
      var unpriced := c.spendLimit.Some? && (UnknownPricing(rows) > 0 || e.cost.None?);
      var spendOut := c.spendLimit.Some? && e.cost.Some? && KnownSpend(rows) + e.cost.value > c.spendLimit.value;
      var roomy := !full && !unestimated && !tokensOut;
      && (v == Blocked(InvocationLimitReached) <==> full)
      && (v == Blocked(TokenEstimateRequired) <==> !full && unestimated)
      && (v == Blocked(TokenLimitReached) <==> !full && tokensOut)
      && (v == Blocked(UnknownPricingWithSpendLimit) <==> roomy && (unpriced || (c.spendLimit.Some? && e.pricingKnown.None?)))
      && (v == Blocked(SpendLimitReached) <==> roomy && !unpriced && e.pricingKnown.Some? && spendOut)
      && (v == Blocked(TierNotPermitted) <==> HasRoom(c, rows, e) && requested !in c.permitted && requested !in c.downgrades)
      && (v == Blocked(DowngradeTargetUnavailable) <==>
            HasRoom(c, rows, e) && requested !in c.permitted && requested in c.downgrades
            && c.downgrades[requested] !in c.permitted * mapped)
  {
    hide TotalTokens, KnownSpend, UnknownPricing;
  }

  /** Trimmed, an identifier has between 1 and 200 characters. */
  predicate IsRecordable(request: Request, key: ModelKey) {
    && 1 <= |Strip(request.task)| <= 200 && 1 <= |Strip(request.agent)| <= 200
    && 1 <= |Strip(key.provider)| <= 200 && 1 <= |Strip(key.model)| <= 200
  }

  /** A row is written exactly when the write succeeds and its identifiers are recordable; the
      counts can never prevent it, since unusable ones are recorded as a failure without counts. */
  lemma RowIsWrittenIff(catalog: Catalog, call: Call, key: ModelKey)
    ensures RowFor(catalog, call, key).Some? <==> !call.world.writeFails && IsRecordable(call.request, key)
    ensures RowFor(catalog, call, key).Some? ==>
      var row := RowFor(catalog, call, key).value;
      && row.task == Strip(call.request.task) && row.agent == Strip(call.request.agent)
      && row.successful == CanonicalUsage(call.world.reply).Some?
  {
    hide Strip, Estimate;
  }

  /** The outcome of a call whose policy lets it through, by tier, mapping, client, reply and write. */
  lemma OutcomeIff(setup: Setup, ledger: Ledger, call: Call)
    ensures
      var request, world := call.request, call.world;
      var outcome := Invocation(setup, ledger, call).1;
      var plan := PlanFor(setup, RowsOf(ledger.rows, request.workspace), call);
      && (outcome == ConfigurationError <==> !IsConfigured(setup.policies(request.workspace)))
      && (outcome == RequestError <==> IsConfigured(setup.policies(request.workspace)) && !EstimatesAreCanonical(request.estimates))
      && (outcome == NotInvoked <==>
            IsConfigured(setup.policies(request.workspace)) && EstimatesAreCanonical(request.estimates)
            && request.tier == Deterministic)
      && (plan.Proceed? ==>
            && (outcome == ProviderError <==> world.reply.Raised?)
            && (outcome == MetadataError <==> !world.reply.Raised? && CanonicalUsage(world.reply).None?)
            && (outcome == AccountingError <==>
                  CanonicalUsage(world.reply).Some? && (world.writeFails || !IsRecordable(request, plan.key)))
            && (outcome.Invoked? <==>
                  CanonicalUsage(world.reply).Some? && !world.writeFails && IsRecordable(request, plan.key)))
  {
    var request := call.request;
    var plan := PlanFor(setup, RowsOf(ledger.rows, request.workspace), call);
    hide IsConfigured, RowsOf, RowFor, IsRecordable, HardLimit, EstimatesAreCanonical, CanonicalUsage;
    ConfigurationDescribes(setup.policies(request.workspace));
    hide ConfigurationOf;
    if plan.Proceed? {
      RowIsWrittenIff(setup.catalog, call, plan.key);
    }
  }

  /** A call that the policy lets through for a model tier fails before the provider exactly when
      its tier has no model or the client cannot be built. */
  lemma UnreachedIff(setup: Setup, ledger: Ledger, call: Call)
    requires call.request.tier != Deterministic && IsConfigured(setup.policies(call.request.workspace))
    ensures
      var rows := RowsOf(ledger.rows, call.request.workspace);
      var v := Evaluate(ConfigurationOf(setup.policies(call.request.workspace)).value, setup.mappings.Keys, rows,
                        call.request.tier, call.request.estimates);
      var outcome := Invocation(setup, ledger, call).1;
      && (v.Blocked? <==> outcome.BlockedByPolicy?) && (v.Blocked? ==> outcome == BlockedByPolicy(v.reason))
      && (outcome == TierUnresolved <==> (v.Allowed? || v.Downgraded?) && v.tier !in setup.mappings)
      && (outcome == ClientUnavailable <==> (v.Allowed? || v.Downgraded?) && v.tier in setup.mappings && call.world.buildFails)
  {
    hide IsConfigured, RowsOf, RowFor, Evaluate;
    ConfigurationDescribes(setup.policies(call.request.workspace));
    hide ConfigurationOf;
  }
}
