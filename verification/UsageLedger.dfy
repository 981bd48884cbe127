/** The append-only ledger of AI invocations and its aggregates. */
module UsageLedger {
  import opened Common
  import opened ModelPricing

  datatype Usage = Usage(
    workspace: Id,
    task: string,
    agent: string,
    key: ModelKey,
    input: Option<nat>,
    output: Option<nat>,
    total: Option<nat>,
    latency: nat,
    cost: Option<real>,
    successful: bool)

  /** What a caller asks to record; counts may be any integers or unknown. */
  datatype Draft = Draft(
    workspace: Id,
    task: string,
    agent: string,
    provider: string,
    model: string,
    input: Option<int>,
    output: Option<int>,
    total: Option<int>,
    latency: int,
    successful: bool)

  predicate IsIdentifier(text: string) {
    1 <= |Strip(text)| <= 200
  }

  predicate IsCount(count: Option<int>) {
    count.None? || count.value >= 0
  }

  function AsNat(count: Option<int>): Option<nat>
    requires IsCount(count)
  {
    if count.None? then None else Some(count.value)
  }

  /** The total is derived when both parts are known, and a contradicting one is rejected. */
  predicate TotalIsConsistent(d: Draft) {
    d.input.Some? && d.output.Some? && d.total.Some? ==> d.total.value == d.input.value + d.output.value
  }

  function CanonicalTotal(d: Draft): Option<int> {
    if d.input.Some? && d.output.Some? then Some(d.input.value + d.output.value) else d.total
  }

  /** The row to write, or none when validation raises. */
  function MakeRow(catalog: Catalog, d: Draft): Option<Usage> {
    if !(IsIdentifier(d.task) && IsIdentifier(d.agent) && IsIdentifier(d.provider) && IsIdentifier(d.model)) then None
    else if !(IsCount(d.input) && IsCount(d.output) && IsCount(d.total) && TotalIsConsistent(d) && d.latency >= 0) then None
    else
      var key := ModelKey(Strip(d.provider), Strip(d.model));
      var cost := if d.input.None? || d.output.None? then None
                  else Estimate(catalog, key.provider, key.model, d.input.value, d.output.value);
      Some(Usage(d.workspace, Strip(d.task), Strip(d.agent), key, AsNat(d.input), AsNat(d.output),
                 AsNat(CanonicalTotal(d)), d.latency, cost, d.successful))
  }

  // ---- aggregates --------------------------------------------------------------------------

  function RowsOf(rows: seq<Usage>, workspace: Id): seq<Usage> {
    if rows == [] then []
    else
      var rest := RowsOf(rows[..|rows| - 1], workspace);
      var last := rows[|rows| - 1];
      if last.workspace == workspace then rest + [last] else rest
  }

  function OrZero(count: Option<nat>): nat {
    if count.None? then 0 else count.value
  }

  function TotalTokens(rows: seq<Usage>): nat {
    if rows == [] then 0 else TotalTokens(rows[..|rows| - 1]) + OrZero(rows[|rows| - 1].total)
  }

  function KnownCost(row: Usage): real {
    if row.cost.None? then 0.0 else row.cost.value
  }

  function KnownSpend(rows: seq<Usage>): real {
    if rows == [] then 0.0 else KnownSpend(rows[..|rows| - 1]) + KnownCost(rows[|rows| - 1])
  }

  function UnknownPricing(rows: seq<Usage>): nat {
    if rows == [] then 0
    else UnknownPricing(rows[..|rows| - 1]) + if rows[|rows| - 1].cost.None? then 1 else 0
  }

  lemma AppendRow(rows: seq<Usage>, row: Usage, workspace: Id)
    ensures RowsOf(rows + [row], workspace)
         == if row.workspace == workspace then RowsOf(rows, workspace) + [row] else RowsOf(rows, workspace)
    ensures TotalTokens(rows + [row]) == TotalTokens(rows) + OrZero(row.total)
    ensures KnownSpend(rows + [row]) == KnownSpend(rows) + KnownCost(row)
    ensures UnknownPricing(rows + [row]) == UnknownPricing(rows) + if row.cost.None? then 1 else 0
  {
    assert (rows + [row])[..|rows|] == rows;
  }

  lemma {:induction false} NoneUnknown(rows: seq<Usage>)
    ensures UnknownPricing(rows) == 0 <==> forall i :: 0 <= i < |rows| ==> rows[i].cost.Some?
  {
    if rows != [] {
      NoneUnknown(rows[..|rows| - 1]);
      assert forall i :: 0 <= i < |rows| - 1 ==> rows[i] == rows[..|rows| - 1][i];
    }
  }

  // ---- spend distributes over the ledger -----------------------------------------------------

  /** Every row was priced with this catalogue. */
  ghost predicate PricedWith(catalog: Catalog, rows: seq<Usage>) {
    forall i :: 0 <= i < |rows| ==>
      rows[i].cost == if rows[i].input.None? || rows[i].output.None? || rows[i].key !in catalog then None
                      else Some(Cost(catalog[rows[i].key], rows[i].input.value, rows[i].output.value))
  }

  lemma MadeRowIsPriced(catalog: Catalog, d: Draft)
    ensures MakeRow(catalog, d).Some? ==> PricedWith(catalog, [MakeRow(catalog, d).value])
  {
    StripIsIdempotent(d.provider);
    StripIsIdempotent(d.model);
    hide Strip, Cost;
  }

  predicate CountsFor(row: Usage, key: ModelKey) {
    row.key == key && row.input.Some? && row.output.Some?
  }

  function InputTokens(rows: seq<Usage>, key: ModelKey): nat {
    if rows == [] then 0
    else
      var last := rows[|rows| - 1];
      InputTokens(rows[..|rows| - 1], key) + if CountsFor(last, key) then last.input.value else 0
  }

  function OutputTokens(rows: seq<Usage>, key: ModelKey): nat {
    if rows == [] then 0
    else
      var last := rows[|rows| - 1];
      OutputTokens(rows[..|rows| - 1], key) + if CountsFor(last, key) then last.output.value else 0
  }

  /** The price list applied to the token totals of each model. */
  function SpendByModel(prices: seq<Price>, rows: seq<Usage>): real {
    if prices == [] then 0.0
    else
      var price := prices[|prices| - 1];
      SpendByModel(prices[..|prices| - 1], rows)
      + Cost(price.rates, InputTokens(rows, price.key), OutputTokens(rows, price.key))
  }

  lemma {:induction false} NothingSpentOnNothing(prices: seq<Price>)
    ensures SpendByModel(prices, []) == 0.0
  {
    if prices != [] {
      NothingSpentOnNothing(prices[..|prices| - 1]);
    }
  }

  /** One more row adds its own cost under its own model and nothing elsewhere. */
  lemma {:induction false} SpendByModelGrows(prices: seq<Price>, front: seq<Usage>, row: Usage)
    requires !HasDuplicate(prices)
    ensures (exists i :: 0 <= i < |prices| && CountsFor(row, prices[i].key)) ==>
      exists i :: 0 <= i < |prices| && CountsFor(row, prices[i].key)
        && SpendByModel(prices, front + [row]) == SpendByModel(prices, front) + Cost(prices[i].rates, row.input.value, row.output.value)
    ensures (forall i :: 0 <= i < |prices| ==> !CountsFor(row, prices[i].key)) ==>
      SpendByModel(prices, front + [row]) == SpendByModel(prices, front)
  {
    if prices != [] {
      var n := |prices| - 1;
      var price := prices[n];
      assert (front + [row])[..|front|] == front;
      assert forall i :: 0 <= i < n ==> prices[i] == prices[..n][i];
      SpendByModelGrows(prices[..n], front, row);
      if CountsFor(row, price.key) {
        CostAdds(price.rates, InputTokens(front, price.key), OutputTokens(front, price.key), row.input.value, row.output.value);
        assert forall i :: 0 <= i < n ==> !CountsFor(row, prices[i].key);
      }
      hide Cost;
    }
  }

  /** Known spend is the price list applied to the token totals of the fully counted rows. */
  lemma {:induction false} SpendDistributes(catalog: Catalog, prices: seq<Price>, rows: seq<Usage>)
    requires !HasDuplicate(prices) && Lists(catalog, prices) && PricedWith(catalog, rows)
    ensures KnownSpend(rows) == SpendByModel(prices, rows)
  {
    if rows == [] {
      NothingSpentOnNothing(prices);
    } else {
      var front, row := rows[..|rows| - 1], rows[|rows| - 1];
      SpendDistributes(catalog, prices, front);
      SpendByModelGrows(prices, front, row);
      assert rows == front + [row];
      hide Cost, SpendByModel;
      if row.cost.Some? {
        var k :| 0 <= k < |prices| && prices[k].key == row.key;
        assert CountsFor(row, prices[k].key);
      } else {
        assert forall i :: 0 <= i < |prices| ==> !CountsFor(row, prices[i].key);
      }
    }
  }

  /** Rates per million tokens, each applied to its own kind of tokens. */
  function Charge(rates: Rates, input: nat, output: nat): real {
    input as real * rates.input + output as real * rates.output
  }

  /** What the price list charges for the token totals of each model. */
  function ChargeByModel(prices: seq<Price>, rows: seq<Usage>): real {
    if prices == [] then 0.0
    else
      var price := prices[|prices| - 1];
      ChargeByModel(prices[..|prices| - 1], rows) + Charge(price.rates, InputTokens(rows, price.key), OutputTokens(rows, price.key))
  }

  lemma CostIsCharge(rates: Rates, input: nat, output: nat)
    ensures 1000000.0 * Cost(rates, input, output) == Charge(rates, input, output)
  {
    var i, o := input as real * rates.input, output as real * rates.output;
    assert 1000000.0 * (i / 1000000.0 + o / 1000000.0) == i + o;
  }

  lemma {:induction false} SpendIsCharge(prices: seq<Price>, rows: seq<Usage>)
    ensures 1000000.0 * SpendByModel(prices, rows) == ChargeByModel(prices, rows)
  {
    if prices != [] {
      var price := prices[|prices| - 1];
      SpendIsCharge(prices[..|prices| - 1], rows);
      CostIsCharge(price.rates, InputTokens(rows, price.key), OutputTokens(rows, price.key));
      hide Cost, Charge;
    }
  }

  /** A row has a cost exactly when both of its counts are known and its model is listed, and a
      million times that cost is the listed input rate times its input tokens plus the listed
      output rate times its output tokens. */
  ghost predicate ChargedFrom(prices: seq<Price>, rows: seq<Usage>) {
    forall i :: 0 <= i < |rows| ==>
      && (rows[i].cost.Some? <==>
            rows[i].input.Some? && rows[i].output.Some? && exists k :: 0 <= k < |prices| && prices[k].key == rows[i].key)
      && (rows[i].cost.Some? ==> forall k :: 0 <= k < |prices| && prices[k].key == rows[i].key ==>
            1000000.0 * rows[i].cost.value
            == rows[i].input.value as real * prices[k].rates.input + rows[i].output.value as real * prices[k].rates.output)
  }

  lemma PricedIsCharged(catalog: Catalog, prices: seq<Price>, rows: seq<Usage>)
    requires Lists(catalog, prices) && PricedWith(catalog, rows)
    ensures ChargedFrom(prices, rows)
  {
    hide Cost;
    forall i, k | 0 <= i < |rows| && rows[i].cost.Some? && 0 <= k < |prices| && prices[k].key == rows[i].key
      ensures 1000000.0 * rows[i].cost.value
           == rows[i].input.value as real * prices[k].rates.input + rows[i].output.value as real * prices[k].rates.output
    {
      CostIsCharge(prices[k].rates, rows[i].input.value, rows[i].output.value);
    }
  }

  lemma {:induction false} SpendConcat(a: seq<Usage>, b: seq<Usage>)
    ensures KnownSpend(a + b) == KnownSpend(a) + KnownSpend(b)
  {
    if b == [] {
      assert a + b == a;
    } else {
      assert (a + b)[..|a + b| - 1] == a + b[..|b| - 1];
      SpendConcat(a, b[..|b| - 1]);
    }
  }

  /** The order of the rows does not matter. */
  lemma {:induction false} SpendIgnoresOrder(a: seq<Usage>, b: seq<Usage>)
    requires multiset(a) == multiset(b)
    ensures KnownSpend(a) == KnownSpend(b)
  {
    if a == [] {
      assert |multiset(b)| == 0;
      assert b == [];
    } else {
      var x, front := a[|a| - 1], a[..|a| - 1];
      assert a == front + [x];
      assert x in multiset(a) && x in b;
      var k :| 0 <= k < |b| && b[k] == x;
      var before, after := b[..k], b[k + 1..];
      assert b == before + [x] + after;
      assert multiset(before + after) == multiset(b) - multiset{x};
      assert multiset(front) == multiset(a) - multiset{x};
      SpendIgnoresOrder(front, before + after);
      SpendConcat(before, after);
      SpendConcat(before + [x], after);
      SpendConcat(before, [x]);
      SpendConcat(front, [x]);
    }
  }

  /** With non-negative rates no further row lowers the spend. */
  lemma {:induction false} SpendIsMonotone(catalog: Catalog, rows: seq<Usage>, more: seq<Usage>)
    requires PricedWith(catalog, more)
    requires forall key :: key in catalog ==> catalog[key].input >= 0.0 && catalog[key].output >= 0.0
    ensures KnownSpend(rows + more) >= KnownSpend(rows)
  {
    if more == [] {
      assert rows + more == rows;
    } else {
      var front, row := more[..|more| - 1], more[|more| - 1];
      SpendIsMonotone(catalog, rows, front);
      assert rows + more == (rows + front) + [row];
      AppendRow(rows + front, row, row.workspace);
      if row.cost.Some? {
        CostIsNonNegative(catalog[row.key], row.input.value, row.output.value);
      }
    }
  }

  lemma CostIsNonNegative(rates: Rates, input: nat, output: nat)
    requires rates.input >= 0.0 && rates.output >= 0.0
    ensures Cost(rates, input, output) >= 0.0
  {
    assert input as real * rates.input >= 0.0;
    assert output as real * rates.output >= 0.0;
  }
}
