/** The pricing engine (App.tsx): from eight market and product inputs it
    builds one price ledger per purity tier, 10K, 14K and 18K, in that
    order. */
module Pricing {
  import opened Constants
  import opened Types
  import opened JsMath

  /** The eight numbers the engine is called with. None is validated:
      negative values and discounts of 100% or more are accepted. */
  datatype Inputs = Inputs(
    goldRatePerGram: real,
    labourPerGram: real,
    weight10k: real,
    weight14k: real,
    weight18k: real,
    diamondRate: real,
    profit: real,
    discount: real)

  /** One entry of the list of tiers the engine iterates over. */
  datatype Tier = Tier(purity: Purity, weight: real)

  /** The fixed order of the tiers. */
  const Order: seq<Purity> := [K10, K14, K18]

  /** The weight the inputs give a tier. */
  function WeightOf(inp: Inputs, p: Purity): real {
    match p
    case K10 => inp.weight10k
    case K14 => inp.weight14k
    case K18 => inp.weight18k
  }

  /** The tiers with their weights, in the order they are priced. */
  function Purities(inp: Inputs): (ts: seq<Tier>)
    ensures |ts| == |Order|
    ensures forall i | 0 <= i < |Order| :: ts[i] == Tier(Order[i], WeightOf(inp, Order[i]))
  {
    [Tier(K10, inp.weight10k), Tier(K14, inp.weight14k), Tier(K18, inp.weight18k)]
  }

  /** The discount mark-up: the list price from which the promotional
      discount brings the customer back to the base price (see
      ListPriceUndoesDiscount). With a discount of 100% or more there is no
      such price and the result is 0. */
  function ListPrice(basePriceUSD: real, discount: real): (l: real)
    ensures 100.0 <= discount ==> l == 0.0
  {
    var discountFactor := 1.0 - discount / 100.0;
    if discountFactor > 0.0 then basePriceUSD / discountFactor else 0.0
  }

  /** The foundation costs of a ledger of tier `p` under `inp`: gold at the
      tier's share of the 24-karat rate, labour by weight, and the fixed
      cost and profit taken as given, whatever the weight. */
  ghost predicate Costs(inp: Inputs, p: Purity, r: CalculationResult) {
    && r.purity == Label(p)
    && r.goldValue == r.weight * inp.goldRatePerGram * Multiplier(p)
    && r.labourValue == r.weight * inp.labourPerGram
    && r.fixedCosts == inp.diamondRate
    && r.profitAmount == inp.profit
  }

  /** The totals of a ledger, each derived from the amounts before it: the
      manufacturing subtotal, the marketplace fee on subtotal plus profit,
      the price after fees, its conversion to USD and the final price. */
  ghost predicate Totals(inp: Inputs, r: CalculationResult) {
    && r.subtotalBeforeFees == r.goldValue + r.labourValue + r.fixedCosts
    && r.marketplaceFees == EtsyChargePct * (r.subtotalBeforeFees + r.profitAmount)
    && r.priceAfterFees == r.subtotalBeforeFees + r.profitAmount + r.marketplaceFees
    && r.basePriceUSD * UsdConversionRate == r.priceAfterFees
    && r.finalPriceUSD == Round(ListPrice(r.basePriceUSD, inp.discount)) as real
  }

  /** What it means for `r` to be the ledger of tier `p` under `inp`. */
  ghost predicate Ledger(inp: Inputs, p: Purity, r: CalculationResult) {
    Costs(inp, p, r) && Totals(inp, r)
  }

  /** Prices one tier: the callback of the `map` over the tiers. */
  function PriceTier(inp: Inputs, t: Tier): (r: CalculationResult)
    ensures r.weight == t.weight && Ledger(inp, t.purity, r)
  {
    var specificPurityRate := inp.goldRatePerGram * Multiplier(t.purity);
    var goldValue := t.weight * specificPurityRate;
    var labourValue := t.weight * inp.labourPerGram;
    var fixedCosts := inp.diamondRate;
    var manufacturingCost := goldValue + labourValue + fixedCosts;
    var preEtsyTotal := manufacturingCost + inp.profit;
    var marketplaceFees := preEtsyTotal * EtsyChargePct;
    var priceAfterFees := preEtsyTotal + marketplaceFees;
    var basePriceUSD := priceAfterFees / UsdConversionRate;
    var finalPriceUSD := ListPrice(basePriceUSD, inp.discount);
    CalculationResult(
      purity := Label(t.purity),
      weight := t.weight,
      goldValue := goldValue,
      labourValue := labourValue,
      fixedCosts := fixedCosts,
      subtotalBeforeFees := manufacturingCost,
      marketplaceFees := marketplaceFees,
      priceAfterFees := priceAfterFees,
      profitAmount := inp.profit,
      basePriceUSD := basePriceUSD,
      finalPriceUSD := Round(finalPriceUSD) as real)
  }

  /** The engine: exactly three ledgers, one per tier in the order 10K,
      14K, 18K, each carrying its own tier's weight and derived from it. */
  function Calculate(inp: Inputs): (rs: seq<CalculationResult>)
    ensures |rs| == |Order| == 3
    ensures rs[0].purity == "10K" && rs[1].purity == "14K" && rs[2].purity == "18K"
    ensures forall i | 0 <= i < 3 :: rs[i].weight == WeightOf(inp, Order[i])
    ensures forall i | 0 <= i < 3 :: Ledger(inp, Order[i], rs[i])
  {
    var purities := Purities(inp);
    seq(|purities|, i requires 0 <= i < |purities| => PriceTier(inp, purities[i]))
  }

  /** The ledger relations pin a record down: two ledgers of the same tier
      and weight under the same inputs are the same record. */
  lemma LedgerUnique(inp: Inputs, p: Purity, r: CalculationResult, s: CalculationResult)
    requires Ledger(inp, p, r) && Ledger(inp, p, s) && r.weight == s.weight
    ensures r == s
  {
    assert r.goldValue == s.goldValue && r.labourValue == s.labourValue;
    assert r.subtotalBeforeFees == s.subtotalBeforeFees;
    assert r.priceAfterFees == s.priceAfterFees;
    assert r.basePriceUSD == r.priceAfterFees / UsdConversionRate;
    assert s.basePriceUSD == s.priceAfterFees / UsdConversionRate;
  }

  /** Below 100%, taking the discount off the list price gives back the
      base price exactly. */
  lemma ListPriceUndoesDiscount(b: real, discount: real)
    requires discount < 100.0
    ensures ListPrice(b, discount) * (1.0 - discount / 100.0) == b
  {
  }

  /** Scaling by a non-negative factor keeps the order. */
  lemma ScaleMonotone(a: real, b: real, c: real)
    requires a <= b && 0.0 <= c
    ensures a * c <= b * c
  {
  }

  /** Dividing by a positive divisor keeps the order. */
  lemma DivMonotone(a: real, b: real, c: real)
    requires a <= b && 0.0 < c
    ensures a / c <= b / c
  {
  }

  /** A larger base price never has a smaller list price. */
  lemma ListPriceMonotone(b1: real, b2: real, discount: real)
    requires b1 <= b2
    ensures ListPrice(b1, discount) <= ListPrice(b2, discount)
  {
    var f := 1.0 - discount / 100.0;
    if f > 0.0 {
      DivMonotone(b1, b2, f);
    }
  }

  /** A larger base price never has a smaller final price. */
  lemma FinalPriceMonotone(b1: real, b2: real, discount: real)
    requires b1 <= b2
    ensures Round(ListPrice(b1, discount)) <= Round(ListPrice(b2, discount))
  {
    ListPriceMonotone(b1, b2, discount);
    RoundMonotone(ListPrice(b1, discount), ListPrice(b2, discount));
  }

  /** The list price of a non-negative base price is non-negative, for
      every discount. */
  lemma ListPriceNonNegative(b: real, discount: real)
    requires 0.0 <= b
    ensures 0.0 <= ListPrice(b, discount)
  {
    var f := 1.0 - discount / 100.0;
    if f > 0.0 {
      DivMonotone(0.0, b, f);
    }
  }

  /** A discount in [0, 100) marks a non-negative base price up, never
      down. */
  lemma ListPriceAtLeastBase(b: real, discount: real)
    requires 0.0 <= b && 0.0 <= discount < 100.0
    ensures b <= ListPrice(b, discount)
  {
    var f := 1.0 - discount / 100.0;
    var l := ListPrice(b, discount);
    ListPriceUndoesDiscount(b, discount);
    DivMonotone(0.0, b, f);
    ScaleMonotone(f, 1.0, l);
  }

  /** The larger the discount below 100%, the larger the list price of a
      non-negative base price. */
  lemma ListPriceMonotoneInDiscount(b: real, d1: real, d2: real)
    requires 0.0 <= b && d1 <= d2 < 100.0
    ensures ListPrice(b, d1) <= ListPrice(b, d2)
  {
    var f1, f2 := 1.0 - d1 / 100.0, 1.0 - d2 / 100.0;
    var l1, l2 := ListPrice(b, d1), ListPrice(b, d2);
    ListPriceUndoesDiscount(b, d1);
    ListPriceUndoesDiscount(b, d2);
    DivMonotone(0.0, b, f1);
    ScaleMonotone(f2, f1, l1);
    DivMonotone(l1 * f2, l2 * f2, f2);
    assert l1 * f2 / f2 == l1 && l2 * f2 / f2 == l2;
  }
}
