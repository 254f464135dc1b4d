/** The record the pricing engine produces for one purity tier (types.ts). */
module Types {

  /** One tier's price ledger: every intermediate amount of the calculation,
      in rupees unless the name says USD, and the final rounded price. */
  datatype CalculationResult = CalculationResult(
    purity: string,
    weight: real,
    goldValue: real,
    labourValue: real,
    fixedCosts: real,
    subtotalBeforeFees: real,
    marketplaceFees: real,
    priceAfterFees: real,
    profitAmount: real,
    basePriceUSD: real,
    finalPriceUSD: real)
}
