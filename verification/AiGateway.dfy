/** The single boundary through which a language model is called and accounted for. */
module AiGateway {
  import opened Common
  import opened ModelPricing
  import opened UsageLedger
  import opened UsageLimits

  /** Deployment settings and workspace policies, fixed during a run. */
  datatype Setup = Setup(catalog: Catalog, mappings: map<Tier, ModelKey>, policies: Id -> WorkspacePolicy)

  datatype Request = Request(workspace: Id, task: string, agent: string, tier: Tier, estimates: Estimates)

  /** A provider either raises or answers; a token count may be a non-integer, hence malformed. */
  datatype Reply =
    | Raised
    | Malformed
    | Completed(input: Option<int>, output: Option<int>, total: Option<int>)

  /** Everything outside the gateway's control during one call. */
  datatype World = World(buildFails: bool, reply: Reply, latency: nat, writeFails: bool)

  datatype Call = Call(request: Request, world: World)

  /** One request that reached the provider. */
  datatype ProviderCall = ProviderCall(workspace: Id, requested: Tier, tier: Tier, key: ModelKey, accounted: bool)

  datatype Ledger = Ledger(rows: seq<Usage>, calls: seq<ProviderCall>)

  datatype Outcome =
    | ConfigurationError
    | RequestError
    | BlockedByPolicy(reason: Reason)
    | NotInvoked
    | TierUnresolved
    | ClientUnavailable
    | ProviderError
    | MetadataError
    | AccountingError
    | Invoked(usage: Usage)

  datatype Counts = Counts(input: Option<int>, output: Option<int>, total: Option<int>)

  /** Provider-reported counts after validation; none when the metadata is unusable. */
  function CanonicalUsage(reply: Reply): (r: Option<Counts>)
    ensures r.Some? <==>
      && reply.Completed?
      && IsCount(reply.input) && IsCount(reply.output) && IsCount(reply.total)
      && (reply.input.Some? && reply.output.Some? && reply.total.Some? ==>
            reply.total.value == reply.input.value + reply.output.value)
    ensures r.Some? ==> r.value.input == reply.input && r.value.output == reply.output
    ensures r.Some? && reply.total.Some? ==> r.value.total == reply.total
    ensures r.Some? && reply.total.None? ==> (r.value.total.Some? <==> reply.input.Some? && reply.output.Some?)
  {
    if !reply.Completed? || !IsCount(reply.input) || !IsCount(reply.output) || !IsCount(reply.total) then None
    else if reply.input.Some? && reply.output.Some? then
      var sum := reply.input.value + reply.output.value;
      if reply.total.Some? && reply.total.value != sum then None
      else Some(Counts(reply.input, reply.output, Some(sum)))
    else Some(Counts(reply.input, reply.output, reply.total))
  }

  function DraftOf(request: Request, key: ModelKey, counts: Counts, latency: nat, successful: bool): Draft {
    Draft(request.workspace, request.task, request.agent, key.provider, key.model,
          counts.input, counts.output, counts.total, latency, successful)
  }

  const NO_COUNTS := Counts(None, None, None)

  /** The row a call leaves once it has reached the provider behind `key`, if its write succeeds. */
  function RowFor(catalog: Catalog, call: Call, key: ModelKey): Option<Usage> {
    var counts := CanonicalUsage(call.world.reply);
    var draft :=
      if counts.Some? then DraftOf(call.request, key, counts.value, call.world.latency, true)
      else DraftOf(call.request, key, NO_COUNTS, call.world.latency, false);
    if call.world.writeFails then None else MakeRow(catalog, draft)
  }

  function OutcomeOf(reply: Reply, row: Option<Usage>): Outcome {
    if CanonicalUsage(reply).Some? then (if row.Some? then Invoked(row.value) else AccountingError)
    else if reply.Raised? then ProviderError
    else MetadataError
  }

  /** The tier and model a call would use given the rows its workspace has, or its refusal. */
  datatype Plan = Refused(outcome: Outcome) | Proceed(tier: Tier, key: ModelKey)

  ghost function PlanFor(setup: Setup, rows: seq<Usage>, call: Call): Plan {
    var configuration := ConfigurationOf(setup.policies(call.request.workspace));
    if configuration.None? then Refused(ConfigurationError)
    else PlanWith(setup.mappings, configuration.value, rows, call)
  }

  function PlanWith(mappings: map<Tier, ModelKey>, c: Configuration, rows: seq<Usage>, call: Call): Plan {
    match Evaluate(c, mappings.Keys, rows, call.request.tier, call.request.estimates)
    case RequestRejected => Refused(RequestError)
    case Blocked(reason) => Refused(BlockedByPolicy(reason))
    case Allowed(tier) => Resolve(mappings, call, tier)
    case Downgraded(tier) => Resolve(mappings, call, tier)
  }

  function Resolve(mappings: map<Tier, ModelKey>, call: Call, tier: Tier): Plan {
    if call.request.tier == Deterministic then Refused(NotInvoked)
    else if tier !in mappings then Refused(TierUnresolved)
    else if call.world.buildFails then Refused(ClientUnavailable)
    else Proceed(tier, mappings[tier])
  }

  /** One invocation as a transition on the ledger. */
  ghost function Invocation(setup: Setup, ledger: Ledger, call: Call): (Ledger, Outcome) {
    var ws := call.request.workspace;
    var plan := PlanFor(setup, RowsOf(ledger.rows, ws), call);
    if plan.Refused? then (ledger, plan.outcome)
    else
      var row := RowFor(setup.catalog, call, plan.key);
      (Ledger(ledger.rows + RowsIn(row),
              ledger.calls + [ProviderCall(ws, call.request.tier, plan.tier, plan.key, row.Some?)]),
       OutcomeOf(call.world.reply, row))
  }

  function RowsIn(row: Option<Usage>): seq<Usage> {
    if row.Some? then [row.value] else []
  }

  const EMPTY_LEDGER := Ledger([], [])

  ghost function Run(setup: Setup, calls: seq<Call>): Ledger {
    if calls == [] then EMPTY_LEDGER
    else Invocation(setup, Run(setup, calls[..|calls| - 1]), calls[|calls| - 1]).0
  }

  // ---- the gateway -------------------------------------------------------------------------

  class Gateway {
    const setup: Setup
    var rows: seq<Usage>
    /** The requests seen by the provider, as an outside observer would count them. */
    ghost var calls: seq<ProviderCall>

    ghost function Contents(): Ledger
      reads this
    {
      Ledger(rows, calls)
    }

    constructor (setup: Setup)
      ensures this.setup == setup && Contents() == EMPTY_LEDGER
    {
      this.setup := setup;
      rows, calls := [], [];
    }

    /** Appends one row, or raises and leaves the table as it was. */
    method Record(draft: Draft, writeFails: bool) returns (row: Option<Usage>)
      modifies this`rows
      ensures row == if writeFails then None else MakeRow(setup.catalog, draft)
      ensures rows == old(rows) + RowsIn(row)
    {
      row := MakeRow(setup.catalog, draft);
      if writeFails {
        row := None;
      }
      if row.Some? {
        rows := rows + [row.value];
      }
    }

    method Invoke(call: Call) returns (outcome: Outcome)
      modifies this
      ensures (Contents(), outcome) == Invocation(setup, old(Contents()), call)
    {
      hide ConfigurationOf, Evaluate, RowsOf, MakeRow;
      var request, world := call.request, call.world;
      var configuration := ReadConfiguration(setup.policies(request.workspace));
      if configuration.None? {
        return ConfigurationError;
      }
      var verdict := Evaluate(configuration.value, setup.mappings.Keys, RowsOf(rows, request.workspace), request.tier, request.estimates);
      if verdict.RequestRejected? {
        return RequestError;
      }
      if verdict.Blocked? {
        return BlockedByPolicy(verdict.reason);
      }
      if request.tier == Deterministic {
        return NotInvoked;
      }
      if verdict.tier !in setup.mappings {
        return TierUnresolved;
      }
      var key := setup.mappings[verdict.tier];
      if world.buildFails {
        return ClientUnavailable;
      }
      var counts := CanonicalUsage(world.reply);
      var row: Option<Usage>;
      if counts.None? {
        row := Record(DraftOf(request, key, NO_COUNTS, world.latency, false), world.writeFails);
        outcome := if world.reply.Raised? then ProviderError else MetadataError;
      } else {
        row := Record(DraftOf(request, key, counts.value, world.latency, true), world.writeFails);
        outcome := if row.Some? then Invoked(row.value) else AccountingError;
      }
      calls := calls + [ProviderCall(request.workspace, request.tier, verdict.tier, key, row.Some?)];
    }
  }
}
