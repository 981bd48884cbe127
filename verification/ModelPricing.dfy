/** Configured prices per provider and model, in currency units per million tokens.

    Amounts are exact reals: decimal rounding is not part of this model. */
module ModelPricing {
  import opened Common

  datatype ModelKey = ModelKey(provider: string, model: string)

  datatype Rates = Rates(input: real, output: real)

  datatype Price = Price(key: ModelKey, rates: Rates)

  type Catalog = map<ModelKey, Rates>

  const TOKENS_PER_UNIT := 1000000.0

  predicate HasDuplicate(prices: seq<Price>) {
    exists i, j :: 0 <= i < j < |prices| && prices[i].key == prices[j].key
  }

  /** The catalogue constructor: it rejects a second entry for the same provider and model. */
  method BuildCatalog(prices: seq<Price>) returns (r: Option<Catalog>)
    ensures r.None? <==> HasDuplicate(prices)
    ensures r.Some? ==> Lists(r.value, prices)
  {
    var entries: Catalog := map[];
    for i := 0 to |prices|
      invariant !HasDuplicate(prices[..i])
      invariant Lists(entries, prices[..i])
    {
      var price := prices[i];
      if price.key in entries {
        var j :| 0 <= j < i && prices[j].key == price.key;
        return None;
      }
      entries := entries[price.key := price.rates];
    }
    assert prices[..|prices|] == prices;
    return Some(entries);
  }

  /** The catalogue holds exactly the listed prices. */
  ghost predicate Lists(catalog: Catalog, prices: seq<Price>) {
    && (forall i :: 0 <= i < |prices| ==> prices[i].key in catalog && catalog[prices[i].key] == prices[i].rates)
    && (forall key :: key in catalog ==> exists i :: 0 <= i < |prices| && prices[i].key == key)
  }

  function Cost(rates: Rates, input: nat, output: nat): real {
    input as real * rates.input / TOKENS_PER_UNIT + output as real * rates.output / TOKENS_PER_UNIT
  }

  function Estimate(catalog: Catalog, provider: string, model: string, input: nat, output: nat): Option<real> {
    var key := ModelKey(Strip(provider), Strip(model));
    if key in catalog then Some(Cost(catalog[key], input, output)) else None
  }

  /** Cost is additive in the tokens. */
  lemma CostAdds(rates: Rates, input: nat, output: nat, moreInput: nat, moreOutput: nat)
    ensures Cost(rates, input + moreInput, output + moreOutput)
         == Cost(rates, input, output) + Cost(rates, moreInput, moreOutput)
  {
    assert (input + moreInput) as real == input as real + moreInput as real;
    assert (output + moreOutput) as real == output as real + moreOutput as real;
  }
}
