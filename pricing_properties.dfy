/** Properties of the pricing engine that relate its ledgers to each other,
    to the inputs and to concrete worked examples. */
module PricingProperties {
  import opened Constants
  import opened Types
  import opened JsMath
  import opened Pricing

  /** The nominal ranges of the inputs: rates, weights, fixed cost and
      profit are non-negative (the discount is not among them). The engine
      itself checks none of these. */
  predicate NonNegativeAmounts(inp: Inputs) {
    && 0.0 <= inp.goldRatePerGram && 0.0 <= inp.labourPerGram
    && 0.0 <= inp.weight10k && 0.0 <= inp.weight14k && 0.0 <= inp.weight18k
    && 0.0 <= inp.diamondRate && 0.0 <= inp.profit
  }

  /** The inputs with one tier's weight replaced. */
  function WithWeight(inp: Inputs, p: Purity, w: real): Inputs {
    match p
    case K10 => inp.(weight10k := w)
    case K14 => inp.(weight14k := w)
    case K18 => inp.(weight18k := w)
  }

  /** Record `i` of the engine's output is the ledger of the `i`-th tier. */
  lemma CalculateAt(inp: Inputs, i: nat)
    requires i < 3
    ensures Calculate(inp)[i] == PriceTier(inp, Purities(inp)[i])
  {
  }

  /** Changing the discount changes only the final price of a tier. */
  lemma TierDiscountOnly(inp: Inputs, d: real, t: Tier)
    ensures PriceTier(inp.(discount := d), t)
         == PriceTier(inp, t).(finalPriceUSD := PriceTier(inp.(discount := d), t).finalPriceUSD)
  {
  }

  /** A tier's ledger depends on the inputs' rates, costs and discount but
      not on the weights the inputs give the tiers. */
  lemma TierWeightsOnly(inp: Inputs, inp': Inputs, t: Tier)
    requires inp'.goldRatePerGram == inp.goldRatePerGram && inp'.labourPerGram == inp.labourPerGram
    requires inp'.diamondRate == inp.diamondRate && inp'.profit == inp.profit
    requires inp'.discount == inp.discount
    ensures PriceTier(inp', t) == PriceTier(inp, t)
  {
    var r, s := PriceTier(inp, t), PriceTier(inp', t);
    assert Ledger(inp, t.purity, s);
    LedgerUnique(inp, t.purity, r, s);
  }

  /** Heavier means no cheaper in gold and labour. */
  lemma CostsMonotoneInWeight(inp: Inputs, p: Purity, r: CalculationResult, s: CalculationResult)
    requires Costs(inp, p, r) && Costs(inp, p, s) && r.weight <= s.weight
    requires 0.0 <= inp.goldRatePerGram && 0.0 <= inp.labourPerGram
    ensures r.goldValue <= s.goldValue && r.labourValue <= s.labourValue
  {
    var g := inp.goldRatePerGram * Multiplier(p);
    ScaleMonotone(r.weight, s.weight, g);
    assert r.goldValue == r.weight * g && s.goldValue == s.weight * g;
    ScaleMonotone(r.weight, s.weight, inp.labourPerGram);
  }

  /** Every total grows with the gold and labour values when the fixed cost
      and profit are the same. */
  lemma TotalsMonotone(inp: Inputs, r: CalculationResult, s: CalculationResult)
    requires Totals(inp, r) && Totals(inp, s)
    requires r.goldValue <= s.goldValue && r.labourValue <= s.labourValue
    requires r.fixedCosts == s.fixedCosts && r.profitAmount == s.profitAmount
    ensures && r.subtotalBeforeFees <= s.subtotalBeforeFees
            && r.marketplaceFees <= s.marketplaceFees
            && r.priceAfterFees <= s.priceAfterFees
            && r.basePriceUSD <= s.basePriceUSD
            && r.finalPriceUSD <= s.finalPriceUSD
  {
    assert r.basePriceUSD <= s.basePriceUSD;
    FinalPriceMonotone(r.basePriceUSD, s.basePriceUSD, inp.discount);
  }

  /** A ledger of positive weight at a positive gold rate, with no negative
      cost, has a positive base price. */
  lemma LedgerBasePositive(inp: Inputs, p: Purity, r: CalculationResult)
    requires Ledger(inp, p, r) && 0.0 < r.weight
    requires 0.0 < inp.goldRatePerGram && 0.0 <= inp.labourPerGram
    requires 0.0 <= inp.diamondRate && 0.0 <= inp.profit
    ensures 0.0 < r.basePriceUSD
  {
    ScaleMonotone(0.0, r.weight, inp.labourPerGram);
    assert 0.0 < r.goldValue by {
      assert 0.0 < inp.goldRatePerGram * Multiplier(p);
      assert r.goldValue == r.weight * (inp.goldRatePerGram * Multiplier(p));
    }
    assert 0.0 < r.priceAfterFees;
  }

  /** One tier's share of NonNegativeLedgers. */
  lemma TierNonNegative(inp: Inputs, t: Tier)
    requires 0.0 <= inp.goldRatePerGram && 0.0 <= inp.labourPerGram && 0.0 <= t.weight
    requires 0.0 <= inp.diamondRate && 0.0 <= inp.profit
    ensures var r := PriceTier(inp, t);
      && 0.0 <= r.goldValue && 0.0 <= r.labourValue && 0.0 <= r.subtotalBeforeFees
      && 0.0 <= r.marketplaceFees && 0.0 <= r.priceAfterFees
      && 0.0 <= r.basePriceUSD && 0.0 <= r.finalPriceUSD
  {
    var r := PriceTier(inp, t);
    ScaleMonotone(0.0, t.weight, inp.goldRatePerGram * Multiplier(t.purity));
    ScaleMonotone(0.0, t.weight, inp.labourPerGram);
    assert 0.0 <= r.priceAfterFees;
    ListPriceNonNegative(r.basePriceUSD, inp.discount);
    RoundMonotone(0.0, ListPrice(r.basePriceUSD, inp.discount));
    RoundUnique(0.0, 0);
  }

  /** One tier's share of AllZeroInputs. */
  lemma TierAllZero(inp: Inputs, t: Tier)
    requires inp == Inputs(0.0, 0.0, 0.0, 0.0, 0.0, 0.0, 0.0, 0.0) && t.weight == 0.0
    ensures PriceTier(inp, t)
         == CalculationResult(Label(t.purity), 0.0, 0.0, 0.0, 0.0, 0.0, 0.0, 0.0, 0.0, 0.0, 0.0)
  {
    RoundUnique(0.0, 0);
  }

  /** The multiplier table has an entry for exactly the labels of the
      three records the engine produces. */
  lemma TableMatchesOutput(inp: Inputs)
    ensures PurityMultipliers.Keys
         == {Calculate(inp)[0].purity, Calculate(inp)[1].purity, Calculate(inp)[2].purity}
  {
    TableDomain();
  }

  /** The fixed cost and the profit are charged in full, and identically,
      in every tier, whatever the tiers' weights. */
  lemma FlatCharges(inp: Inputs, i: nat)
    requires i < 3
    ensures Calculate(inp)[i].fixedCosts == inp.diamondRate
    ensures Calculate(inp)[i].profitAmount == inp.profit
  {
  }

  /** A zero-weight tier costs no gold and no labour, but still carries the
      full fixed cost and profit. */
  lemma ZeroWeightTier(inp: Inputs, i: nat)
    requires i < 3 && WeightOf(inp, Order[i]) == 0.0
    ensures Calculate(inp)[i].goldValue == 0.0
    ensures Calculate(inp)[i].labourValue == 0.0
    ensures Calculate(inp)[i].fixedCosts == inp.diamondRate
    ensures Calculate(inp)[i].profitAmount == inp.profit
    ensures Calculate(inp)[i].subtotalBeforeFees == inp.diamondRate
  {
  }

  /** The marketplace fee is 22% of the pre-fee total, so the price after
      fees is 122% of it. */
  lemma FeeSchedule(inp: Inputs, i: nat)
    requires i < 3
    ensures var r := Calculate(inp)[i];
      && r.marketplaceFees == 0.22 * (r.subtotalBeforeFees + r.profitAmount)
      && r.priceAfterFees == 1.22 * (r.subtotalBeforeFees + r.profitAmount)
  {
  }

  /** The USD base price is the rupee price after fees divided by 90,
      kept unrounded. */
  lemma ConversionRoundTrip(inp: Inputs, i: nat)
    requires i < 3
    ensures Calculate(inp)[i].basePriceUSD == Calculate(inp)[i].priceAfterFees / 90.0
  {
  }

  /** A discount of 100% or more gives a final price of 0 in every tier. */
  lemma DiscountSaturation(inp: Inputs, i: nat)
    requires i < 3 && 100.0 <= inp.discount
    ensures Calculate(inp)[i].finalPriceUSD == 0.0
  {
    var r := Calculate(inp)[i];
    assert r.finalPriceUSD == Round(ListPrice(r.basePriceUSD, inp.discount)) as real;
    RoundUnique(0.0, 0);
  }

  /** The discount changes only the final price: every other amount of
      every ledger is the same whatever the discount. */
  lemma DiscountOnlyMovesFinalPrice(inp: Inputs, d: real, i: nat)
    requires i < 3
    ensures var r, s := Calculate(inp)[i], Calculate(inp.(discount := d))[i];
      s == r.(finalPriceUSD := s.finalPriceUSD)
  {
    CalculateAt(inp, i);
    CalculateAt(inp.(discount := d), i);
    TierDiscountOnly(inp, d, Purities(inp)[i]);
  }

  /** Below a 100% discount the final price is the base price divided by
      the discount factor and rounded: a whole number within half a dollar
      of that list price. */
  lemma FinalPriceRoundsListPrice(inp: Inputs, i: nat)
    requires i < 3 && inp.discount < 100.0
    ensures var r := Calculate(inp)[i];
      && r.finalPriceUSD == Round(r.basePriceUSD / (1.0 - inp.discount / 100.0)) as real
      && r.finalPriceUSD == r.finalPriceUSD.Floor as real
      && r.finalPriceUSD - 0.5 <= r.basePriceUSD / (1.0 - inp.discount / 100.0) < r.finalPriceUSD + 0.5
  {
  }

  /** The mark-up never lowers the price: with non-negative amounts and a
      discount in [0, 100), the final price is at least the rounded base
      price. */
  lemma MarkupNotBelowBase(inp: Inputs, i: nat)
    requires i < 3 && NonNegativeAmounts(inp) && 0.0 <= inp.discount < 100.0
    ensures Round(Calculate(inp)[i].basePriceUSD) as real <= Calculate(inp)[i].finalPriceUSD
  {
    var r := Calculate(inp)[i];
    NonNegativeLedgers(inp, i);
    assert Ledger(inp, Order[i], r);
    ListPriceAtLeastBase(r.basePriceUSD, inp.discount);
    RoundMonotone(r.basePriceUSD, ListPrice(r.basePriceUSD, inp.discount));
  }

  /** With non-negative amounts, a larger discount (below 100%) never gives
      a smaller final price. */
  lemma MonotoneInDiscount(inp: Inputs, d: real, i: nat)
    requires i < 3 && NonNegativeAmounts(inp) && inp.discount <= d < 100.0
    ensures Calculate(inp)[i].finalPriceUSD <= Calculate(inp.(discount := d))[i].finalPriceUSD
  {
    var r, s := Calculate(inp)[i], Calculate(inp.(discount := d))[i];
    NonNegativeLedgers(inp, i);
    DiscountOnlyMovesFinalPrice(inp, d, i);
    assert Ledger(inp, Order[i], r) && Ledger(inp.(discount := d), Order[i], s);
    ListPriceMonotoneInDiscount(r.basePriceUSD, inp.discount, d);
    RoundMonotone(ListPrice(r.basePriceUSD, inp.discount), ListPrice(s.basePriceUSD, d));
  }

  /** With non-negative gold and labour rates, a heavier piece is never
      cheaper: every amount of its ledger is at least that of the lighter
      piece. */
  lemma MonotoneInWeight(inp: Inputs, p: Purity, w1: real, w2: real)
    requires 0.0 <= inp.goldRatePerGram && 0.0 <= inp.labourPerGram && w1 <= w2
    ensures var r, s := PriceTier(inp, Tier(p, w1)), PriceTier(inp, Tier(p, w2));
      && r.goldValue <= s.goldValue
      && r.labourValue <= s.labourValue
      && r.subtotalBeforeFees <= s.subtotalBeforeFees
      && r.marketplaceFees <= s.marketplaceFees
      && r.priceAfterFees <= s.priceAfterFees
      && r.basePriceUSD <= s.basePriceUSD
      && r.finalPriceUSD <= s.finalPriceUSD
  {
    var r, s := PriceTier(inp, Tier(p, w1)), PriceTier(inp, Tier(p, w2));
    CostsMonotoneInWeight(inp, p, r, s);
    TotalsMonotone(inp, r, s);
  }

  /** Non-negative amounts give non-negative figures throughout every
      ledger, whatever the discount. */
  lemma NonNegativeLedgers(inp: Inputs, i: nat)
    requires i < 3 && NonNegativeAmounts(inp)
    ensures var r := Calculate(inp)[i];
      && 0.0 <= r.goldValue && 0.0 <= r.labourValue && 0.0 <= r.subtotalBeforeFees
      && 0.0 <= r.marketplaceFees && 0.0 <= r.priceAfterFees
      && 0.0 <= r.basePriceUSD && 0.0 <= r.finalPriceUSD
  {
    CalculateAt(inp, i);
    TierNonNegative(inp, Purities(inp)[i]);
  }

  /** Changing one tier's weight leaves the other two ledgers as they
      were. */
  lemma TiersIndependent(inp: Inputs, p: Purity, w: real, i: nat)
    requires i < 3 && Order[i] != p
    ensures Calculate(WithWeight(inp, p, w))[i] == Calculate(inp)[i]
  {
    var inp' := WithWeight(inp, p, w);
    CalculateAt(inp, i);
    CalculateAt(inp', i);
    assert Purities(inp')[i] == Purities(inp)[i];
    TierWeightsOnly(inp, inp', Purities(inp)[i]);
  }

  /** All-zero inputs give all-zero ledgers. */
  lemma AllZeroInputs(inp: Inputs, i: nat)
    requires inp == Inputs(0.0, 0.0, 0.0, 0.0, 0.0, 0.0, 0.0, 0.0) && i < 3
    ensures Calculate(inp)[i]
         == CalculationResult(Label(Order[i]), 0.0, 0.0, 0.0, 0.0, 0.0, 0.0, 0.0, 0.0, 0.0, 0.0)
  {
    var t := Purities(inp)[i];
    assert t.purity == Order[i] && t.weight == 0.0;
    CalculateAt(inp, i);
    TierAllZero(inp, t);
  }

  /** The worked example: gold at 5000 and labour at 500 per gram, a 10 g
      18K piece, 2000 fixed cost, 3000 profit and no discount. */
  lemma WorkedExample18K()
    ensures var r := Calculate(Inputs(5000.0, 500.0, 0.0, 0.0, 10.0, 2000.0, 3000.0, 0.0))[2];
      && r.goldValue == 37500.0 && r.labourValue == 5000.0 && r.fixedCosts == 2000.0
      && r.subtotalBeforeFees == 44500.0 && r.marketplaceFees == 10450.0
      && r.priceAfterFees == 57950.0 && r.basePriceUSD == 57950.0 / 90.0
      && r.finalPriceUSD == 644.0
  {
  }

  /** A 100% discount zeroes every final price while the base prices keep
      their undiscounted, positive values. */
  lemma FullDiscountKeepsBase(inp: Inputs, i: nat)
    requires i < 3 && inp.discount == 100.0
    requires 0.0 < inp.goldRatePerGram && 0.0 <= inp.labourPerGram
    requires 0.0 < WeightOf(inp, Order[i])
    requires 0.0 <= inp.diamondRate && 0.0 <= inp.profit
    ensures Calculate(inp)[i].finalPriceUSD == 0.0
    ensures 0.0 < Calculate(inp)[i].basePriceUSD
    ensures Calculate(inp)[i].basePriceUSD == Calculate(inp.(discount := 0.0))[i].basePriceUSD
  {
    CalculateAt(inp, i);
    LedgerBasePositive(inp, Order[i], Calculate(inp)[i]);
    DiscountSaturation(inp, i);
    DiscountOnlyMovesFinalPrice(inp, 0.0, i);
  }
}
