# Jewelry pricing engine — a Dafny model

This project models the pricing engine of the Jewelry-Calculation app: the
computation that turns eight market and product inputs (24-karat gold rate
per gram, labour rate per gram, a net weight for each of the 10K, 14K and
18K tiers, a diamond/setting cost, a profit goal and a promotional discount
percentage) into three price ledgers, one per purity tier, in the order 10K,
14K, 18K.

Each ledger (`CalculationResult`) carries every intermediate amount: the gold
value (weight × gold rate × the tier's purity multiplier), the labour value
(weight × labour rate), the fixed cost, the manufacturing subtotal, the 22%
marketplace fee charged on subtotal plus profit, the price after fees, the
base price in US dollars (price after fees ÷ 90, kept unrounded) and the
final price: the base price marked up so that the discount brings it back
to the base price (base ÷ (1 − discount/100)), 0 when the discount is 100%
or more, rounded as JavaScript's `Math.round` does.

Files and modules:

- `constants.dfy`, module `Constants`: the fee fraction, the conversion
  rate, the purity tiers and the multiplier table keyed by tier label.
- `types.dfy`, module `Types`: the `CalculationResult` record, with the same
  eleven fields as the source.
- `js_math.dfy`, module `JsMath`: `Math.round` on exact reals,
  `Floor(x + 0.5)`, so halves go towards +infinity.
- `pricing.dfy`, module `Pricing`: the inputs, the list of tiers, the
  per-tier pricing step (`PriceTier`, the callback of the `map`) and the
  engine (`Calculate`). The predicates `Costs` and `Totals` (together
  `Ledger`) state, as relations between a record's fields, what makes a
  record the ledger of a tier. The lemmas about the discount mark-up
  (`ListPrice`) live here too.
- `pricing_properties.dfy`, module `PricingProperties`: properties of the
  engine's output: per-record identities, discount saturation, monotonicity,
  non-negativity, independence of the tiers, and the worked examples.

All amounts are exact reals. The engine checks none of its inputs, and the
model has no preconditions on them: negative amounts and discounts of 100%
or more are priced as the code prices them.

## Model

| member | source | states |
|---|---|---|
| Constants.Multiplier | constants.ts:5-9 | the lookup is defined for every tier; each multiplier lies strictly between 0 and 1 and is the tier's pure-gold share Karat/24 rounded up by less than 0.002 |
| Constants.MultiplierOrder | constants.ts:6-8 | a tier has a strictly larger multiplier than another exactly when its karat is higher, so 10K < 14K < 18K |
| Constants.TableDomain | constants.ts:5-9 | the table's keys are exactly the three labels "10K", "14K", "18K" |
| Constants.LabelInjective | App.tsx:24 | two tiers share a label only if they are the same tier, so a label lookup never confuses tiers |
| JsMath.Round | App.tsx:64 | `Math.round` returns the integer n with n − 0.5 ≤ x < n + 0.5 |
| JsMath.RoundUnique | App.tsx:64 | that bound determines the rounded value: no other integer satisfies it |
| JsMath.RoundMonotone | App.tsx:64 | rounding preserves the order of two numbers |
| Pricing.Purities | App.tsx:24-28 | the tiers are listed in the order 10K, 14K, 18K, each paired with the weight the inputs give that tier |
| Pricing.ListPrice | App.tsx:50-51 | a discount of 100% or more gives a list price of 0 (the saturation guard) |
| Pricing.ListPriceUndoesDiscount | App.tsx:50-51 | below 100%, taking the discount off the list price gives back the base price exactly |
| Pricing.ListPriceMonotone | App.tsx:51 | a larger base price never has a smaller list price |
| Pricing.FinalPriceMonotone | App.tsx:51-64 | a larger base price never has a smaller rounded final price |
| Pricing.ListPriceNonNegative | App.tsx:50-51 | the list price of a non-negative base price is non-negative for every discount, including negative ones and those of 100% or more |
| Pricing.ListPriceAtLeastBase | App.tsx:50-51 | with a discount in [0, 100) the list price of a non-negative base price is at least the base price |
| Pricing.ListPriceMonotoneInDiscount | App.tsx:50-51 | for a non-negative base price, a larger discount below 100% never gives a smaller list price |
| Pricing.PriceTier | App.tsx:30-65 | the record of a tier keeps the tier's weight and satisfies every ledger relation: gold = weight × rate × multiplier, labour = weight × labour rate, fixed cost and profit as given, subtotal = gold + labour + fixed, fee = 22% of subtotal + profit, price after fees = subtotal + profit + fee, base × 90 = price after fees, final = Math.round of the list price |
| Pricing.Calculate | App.tsx:23-67 | exactly three records, labelled "10K", "14K", "18K" in that order, each with its own tier's weight (10K, 14K, 18K weights respectively) and each the ledger of its tier |
| Pricing.LedgerUnique | App.tsx:53-65 | the ledger relations determine a record: two ledgers of one tier and weight under the same inputs are equal |
| PricingProperties.TableMatchesOutput | App.tsx:24-28 | the multiplier table's keys are exactly the labels of the three records produced |
| PricingProperties.FlatCharges | App.tsx:37 | every record's fixed cost is the diamond/setting cost and its profit is the profit goal, whatever the weights |
| PricingProperties.ZeroWeightTier | App.tsx:32-40 | a zero-weight tier has zero gold and labour value, the full fixed cost and profit, and a subtotal equal to the fixed cost |
| PricingProperties.FeeSchedule | App.tsx:44-46 | the fee is 0.22 × (subtotal + profit) and the price after fees is 1.22 × (subtotal + profit) |
| PricingProperties.ConversionRoundTrip | App.tsx:49 | the base price is the price after fees divided by 90, unrounded |
| PricingProperties.DiscountSaturation | App.tsx:50-64 | a discount of 100% or more gives a final price of 0 in every record |
| PricingProperties.DiscountOnlyMovesFinalPrice | App.tsx:48-51 | changing the discount changes no field of any record except the final price |
| PricingProperties.FinalPriceRoundsListPrice | App.tsx:50-64 | below 100% the final price is Math.round(base ÷ (1 − discount/100)), a whole number |
| PricingProperties.MarkupNotBelowBase | App.tsx:50-64 | with non-negative amounts and a discount in [0, 100), the final price is at least the rounded base price |
| PricingProperties.MonotoneInDiscount | App.tsx:50-64 | with non-negative amounts, raising the discount (below 100%) never lowers the final price |
| PricingProperties.MonotoneInWeight | App.tsx:32-64 | with non-negative gold and labour rates, a heavier piece of a tier has every amount, up to the final price, at least that of a lighter one |
| PricingProperties.NonNegativeLedgers | App.tsx:30-65 | non-negative rates, weights, fixed cost and profit give non-negative figures in every record, whatever the discount |
| PricingProperties.TiersIndependent | App.tsx:24-30 | changing one tier's weight leaves the other two records unchanged |
| PricingProperties.AllZeroInputs | App.tsx:30-65 | all-zero inputs give three records whose every amount is 0 |
| PricingProperties.WorkedExample18K | App.tsx:30-65 | gold 5000, labour 500, 10 g of 18K, fixed 2000, profit 3000, no discount: gold 37500, labour 5000, subtotal 44500, fee 10450, price after fees 57950, base 57950/90, final price 644 |
| PricingProperties.FullDiscountKeepsBase | App.tsx:49-51 | at a 100% discount the final price is 0 while the base price stays positive and equal to the undiscounted one |

## Left out

- Rendering (the JSX of App.tsx and components/PricingCard.tsx) and its number formatting (`toLocaleString`, `toFixed`): presentation only.
- React state and memoisation (`useState`, the `useMemo` dependency list): the engine is modelled as a plain function of the eight inputs, recomputed on each call.
- components/InputGroup.tsx, including its `parseFloat` with not-a-number mapped to 0: an input widget over a JavaScript library parser. The model's inputs are already numbers.
- IEEE-754 double arithmetic: amounts are exact reals, so rounding error in the products and divisions, overflow to infinity, and the half-way cases of `Math.round` on doubles are not modelled.
- The unused `PurityConfig` interface of types.ts, and the fixed footer text "22%" and "₹90" in App.tsx, which is display text.
- The `purity` field is a string, as in types.ts; the model fills it only with the three tier labels.
