/** Workspace policy consulted before every AI invocation. */
module UsageLimits {
  import opened Common
  import opened ModelPricing
  import opened UsageLedger

  /** `Deterministic` is the source's tier "none": no model is called. */
  datatype Tier = Deterministic | Economy | Standard | Premium

  const ALL_TIERS := {Deterministic, Economy, Standard, Premium}

  function TierName(t: Tier): string {
    match t
    case Deterministic => "none"
    case Economy => "economy"
    case Standard => "standard"
    case Premium => "premium"
  }

  function ParseTier(name: string): Option<Tier> {
    if name == TierName(Deterministic) then Some(Deterministic)
    else if name == TierName(Economy) then Some(Economy)
    else if name == TierName(Standard) then Some(Standard)
    else if name == TierName(Premium) then Some(Premium)
    else None
  }

  /** Names and tiers correspond one to one. */
  lemma ParseInvertsName(t: Tier, name: string)
    ensures ParseTier(name) == Some(t) <==> name == TierName(t)
  {
    assert |TierName(Deterministic)| == 4 && |TierName(Standard)| == 8;
    assert TierName(Economy)[0] != TierName(Premium)[0];
  }

  function Rank(t: Tier): nat {
    match t
    case Deterministic => 0
    case Economy => 1
    case Standard => 2
    case Premium => 3
  }

  /** Persisted policy columns of a workspace, as stored. */
  datatype WorkspacePolicy = WorkspacePolicy(
    invocationLimit: Option<int>,
    tokenLimit: Option<int>,
    spendLimit: Option<real>,
    permitted: Option<seq<string>>,
    downgrades: map<string, string>)

  /** The policy after parsing and validation. */
  datatype Configuration = Configuration(
    invocationLimit: Option<int>,
    tokenLimit: Option<int>,
    spendLimit: Option<real>,
    permitted: set<Tier>,
    downgrades: map<Tier, Tier>)

  // ---- reading the configuration -----------------------------------------------------------

  ghost predicate TierNamesAreUnique(names: seq<string>) {
    && (forall i :: 0 <= i < |names| ==> ParseTier(names[i]).Some?)
    && (forall i, j :: 0 <= i < j < |names| ==> names[i] != names[j])
  }

  /** A downgrade leads from one model tier to a strictly lower one, never to or from "none". */
  predicate IsDowngrade(source: string, target: string) {
    && ParseTier(source).Some? && ParseTier(target).Some?
    && ParseTier(target).value != Deterministic
    && Rank(ParseTier(target).value) < Rank(ParseTier(source).value)
  }

  predicate LimitsAreNonNegative(p: WorkspacePolicy) {
    && (p.invocationLimit.Some? ==> p.invocationLimit.value >= 0)
    && (p.tokenLimit.Some? ==> p.tokenLimit.value >= 0)
    && (p.spendLimit.Some? ==> p.spendLimit.value >= 0.0)
  }

  ghost predicate IsConfigured(p: WorkspacePolicy) {
    && LimitsAreNonNegative(p)
    && (p.permitted.Some? ==> TierNamesAreUnique(p.permitted.value))
    && (forall source :: source in p.downgrades ==> IsDowngrade(source, p.downgrades[source]))
  }

  ghost predicate Permits(p: WorkspacePolicy, t: Tier) {
    p.permitted.None? || t == Deterministic || TierName(t) in p.permitted.value
  }

  /** The configuration says of every tier exactly what the stored columns say. */
  ghost predicate Describes(c: Configuration, p: WorkspacePolicy) {
    && c.invocationLimit == p.invocationLimit && c.tokenLimit == p.tokenLimit && c.spendLimit == p.spendLimit
    && (forall t: Tier :: t in c.permitted <==> Permits(p, t))
    && (forall t: Tier :: t in c.downgrades <==> TierName(t) in p.downgrades)
    && (forall t: Tier :: t in c.downgrades ==> p.downgrades[TierName(t)] == TierName(c.downgrades[t]))
  }

  /** Two descriptions of the same columns are equal, so parsing is determined. */
  lemma DescriptionIsUnique(c: Configuration, d: Configuration, p: WorkspacePolicy)
    requires Describes(c, p) && Describes(d, p)
    ensures c == d
  {
    forall t: Tier ensures t in c.permitted <==> t in d.permitted {
    }
    assert c.permitted == d.permitted;
    forall t: Tier | t in c.downgrades ensures t in d.downgrades && c.downgrades[t] == d.downgrades[t] {
      ParseInvertsName(c.downgrades[t], TierName(c.downgrades[t]));
      ParseInvertsName(d.downgrades[t], TierName(d.downgrades[t]));
    }
    assert c.downgrades == d.downgrades;
  }

  method ReadPermitted(names: Option<seq<string>>) returns (r: Option<set<Tier>>)
    ensures r.Some? <==> (names.Some? ==> TierNamesAreUnique(names.value))
    ensures r.Some? ==> forall t: Tier :: t in r.value <==> names.None? || t == Deterministic || TierName(t) in names.value
  {
    if names.None? {
      forall t: Tier ensures t in ALL_TIERS {
        EveryTierIsListed(t);
      }
      return Some(ALL_TIERS);
    }
    var parsed: set<Tier> := {};
    for i := 0 to |names.value|
      invariant TierNamesAreUnique(names.value[..i])
      invariant forall t: Tier :: t in parsed <==> TierName(t) in names.value[..i]
    {
      var name := names.value[i];
      var tier := ParseTier(name);
      if tier.None? {
        return None;
      }
      ParseInvertsName(tier.value, name);
      assert names.value[..i + 1] == names.value[..i] + [name];
      if tier.value in parsed {
        return None;
      }
      forall t: Tier ensures TierName(t) == name <==> t == tier.value {
        ParseInvertsName(t, name);
      }
      parsed := parsed + {tier.value};
      hide ParseTier, TierName;
    }
    assert names.value[..|names.value|] == names.value;
    return Some(parsed + {Deterministic});
  }

  method ReadDowngrades(stored: map<string, string>) returns (r: Option<map<Tier, Tier>>)
    ensures r.Some? <==> forall source :: source in stored ==> IsDowngrade(source, stored[source])
    ensures r.Some? ==> forall t: Tier :: t in r.value <==> TierName(t) in stored
    ensures r.Some? ==> forall t: Tier :: t in r.value ==> stored[TierName(t)] == TierName(r.value[t])
  {
    var mappings: map<Tier, Tier> := map[];
    var remaining := stored.Keys;
    while remaining != {}
      invariant remaining <= stored.Keys
      invariant forall source :: source in stored.Keys - remaining ==> IsDowngrade(source, stored[source])
      invariant forall t: Tier :: t in mappings <==> TierName(t) in stored.Keys - remaining
      invariant forall t: Tier :: t in mappings ==> stored[TierName(t)] == TierName(mappings[t])
      decreases |remaining|
    {
      var source :| source in remaining;
      remaining := remaining - {source};
      if !IsDowngrade(source, stored[source]) {
        return None;
      }
      var from, to := ParseTier(source).value, ParseTier(stored[source]).value;
      ParseInvertsName(to, stored[source]);
      forall t: Tier ensures TierName(t) == source <==> t == from {
        ParseInvertsName(t, source);
      }
      mappings := mappings[from := to];
      hide ParseTier, TierName;
    }
    return Some(mappings);
  }

  /** Parses the stored policy; any malformed column is a configuration error. */
  method ReadConfiguration(p: WorkspacePolicy) returns (r: Option<Configuration>)
    ensures r == ConfigurationOf(p)
  {
    ConfigurationDescribes(p);
    var permitted := ReadPermitted(p.permitted);
    if permitted.None? {
      return None;
    }
    var downgrades := ReadDowngrades(p.downgrades);
    if downgrades.None? || !LimitsAreNonNegative(p) {
      return None;
    }
    r := Some(Configuration(p.invocationLimit, p.tokenLimit, p.spendLimit, permitted.value, downgrades.value));
    DescriptionIsUnique(r.value, ConfigurationOf(p).value, p);
  }

  ghost function ConfigurationOf(p: WorkspacePolicy): Option<Configuration> {
    if IsConfigured(p) then
      Some(Configuration(
             p.invocationLimit, p.tokenLimit, p.spendLimit,
             set t | t in ALL_TIERS && Permits(p, t),
             map t | t in ALL_TIERS && TierName(t) in p.downgrades :: TargetOf(p, t)))
    else None
  }

  ghost function TargetOf(p: WorkspacePolicy, t: Tier): Tier
    requires IsConfigured(p) && TierName(t) in p.downgrades
  {
    assert IsDowngrade(TierName(t), p.downgrades[TierName(t)]);
    ParseTier(p.downgrades[TierName(t)]).value
  }

  lemma EveryTierIsListed(t: Tier)
    ensures t in ALL_TIERS
  {
  }

  lemma ConfigurationDescribes(p: WorkspacePolicy)
    ensures ConfigurationOf(p).Some? <==> IsConfigured(p)
    ensures IsConfigured(p) ==> Describes(ConfigurationOf(p).value, p)
  {
    if IsConfigured(p) {
      forall t: Tier ensures t in ALL_TIERS {
        EveryTierIsListed(t);
      }
      forall t: Tier | TierName(t) in p.downgrades ensures TierName(TargetOf(p, t)) == p.downgrades[TierName(t)] {
        ParseInvertsName(TargetOf(p, t), p.downgrades[TierName(t)]);
      }
      hide ParseTier, TierName, IsConfigured;
    }
  }

  /** Every configured downgrade goes strictly down and stops above "none". */
  lemma DowngradesGoDown(p: WorkspacePolicy, t: Tier)
    requires IsConfigured(p) && t in ConfigurationOf(p).value.downgrades
    ensures 0 < Rank(ConfigurationOf(p).value.downgrades[t]) < Rank(t)
  {
    ParseInvertsName(t, TierName(t));
    assert IsDowngrade(TierName(t), p.downgrades[TierName(t)]);
    hide ParseTier, TierName;
  }

  // ---- the decision ------------------------------------------------------------------------

  /** Estimates supplied with a request; an unknown value is absent. */
  datatype Estimates = Estimates(tokens: Option<int>, cost: Option<real>, pricingKnown: Option<bool>)

  datatype Reason =
    | InvocationLimitReached
    | TokenEstimateRequired
    | TokenLimitReached
    | UnknownPricingWithSpendLimit
    | SpendLimitReached
    | TierNotPermitted
    | DowngradeTargetUnavailable

  datatype Verdict =
    | Allowed(tier: Tier)
    | Downgraded(tier: Tier)
    | Blocked(reason: Reason)
    | RequestRejected

  predicate EstimatesAreCanonical(e: Estimates) {
    && (e.tokens.Some? ==> e.tokens.value >= 0)
    && (e.cost.Some? ==> e.cost.value >= 0.0)
    && (e.pricingKnown.Some? ==> e.pricingKnown.value == e.cost.Some?)
  }

  /** Budgets are checked in a fixed order; the first failing one is reported. */
  function HardLimit(c: Configuration, rows: seq<Usage>, e: Estimates): Option<Reason> {
    if c.invocationLimit.Some? && |rows| + 1 > c.invocationLimit.value then Some(InvocationLimitReached)
    else if c.tokenLimit.Some? && e.tokens.None? then Some(TokenEstimateRequired)
    else if c.tokenLimit.Some? && TotalTokens(rows) + e.tokens.value > c.tokenLimit.value then Some(TokenLimitReached)
    else if c.spendLimit.Some? && (UnknownPricing(rows) > 0 || e.pricingKnown != Some(true) || e.cost.None?) then
      Some(UnknownPricingWithSpendLimit)
    else if c.spendLimit.Some? && KnownSpend(rows) + e.cost.value > c.spendLimit.value then Some(SpendLimitReached)
    else None
  }

  /** Which tier serves a request, or why none does; a mapped tier is one the resolver knows. */
  function ChooseTier(c: Configuration, mapped: set<Tier>, requested: Tier): Verdict {
    if requested in c.permitted then Allowed(requested)
    else if requested !in c.downgrades then Blocked(TierNotPermitted)
    else
      var target := c.downgrades[requested];
      if target !in c.permitted || target !in mapped then Blocked(DowngradeTargetUnavailable)
      else Downgraded(target)
  }

  /** Decides from the workspace's own ledger rows. */
  function Evaluate(c: Configuration, mapped: set<Tier>, rows: seq<Usage>, requested: Tier, e: Estimates): Verdict {
    if !EstimatesAreCanonical(e) then RequestRejected
    else if requested == Deterministic then Allowed(Deterministic)
    else
      var refusal := HardLimit(c, rows, e);
      if refusal.Some? then Blocked(refusal.value) else ChooseTier(c, mapped, requested)
  }

  /** The budget that still has room for one more call with these estimates. */
  predicate HasRoom(c: Configuration, rows: seq<Usage>, e: Estimates) {
    && (c.invocationLimit.Some? ==> |rows| < c.invocationLimit.value)
    && (c.tokenLimit.Some? ==> e.tokens.Some? && TotalTokens(rows) + e.tokens.value <= c.tokenLimit.value)
    && (c.spendLimit.Some? ==>
          && UnknownPricing(rows) == 0
          && e.pricingKnown == Some(true) && e.cost.Some?
          && KnownSpend(rows) + e.cost.value <= c.spendLimit.value)
  }

  /** A model call is let through exactly when the estimates are canonical, every enforced
      budget has room, and a permitted tier at or below the requested one serves it. */
  lemma PassesIff(p: WorkspacePolicy, mapped: set<Tier>, rows: seq<Usage>, requested: Tier, e: Estimates)
    requires IsConfigured(p) && requested != Deterministic
    ensures
      var c := ConfigurationOf(p).value;
      var v := Evaluate(c, mapped, rows, requested, e);
      && ((v.Allowed? || v.Downgraded?) <==>
          && EstimatesAreCanonical(e) && HasRoom(c, rows, e)
          && (|| Permits(p, requested)
              || (requested in c.downgrades && c.downgrades[requested] in c.permitted * mapped)))
      && (v.Allowed? ==> v.tier == requested)
      && (v.Downgraded? ==> !Permits(p, requested) && Rank(v.tier) < Rank(requested))
      && (v.Allowed? || v.Downgraded? ==> Permits(p, v.tier) && v.tier != Deterministic)
  {
    ConfigurationDescribes(p);
    var c := ConfigurationOf(p).value;
    if requested in c.downgrades {
      DowngradesGoDown(p, requested);
    }
    hide ConfigurationOf, Permits, IsConfigured, TierName, ParseTier;
    hide TotalTokens, KnownSpend, UnknownPricing;
  }
}
