/** The static configuration of the pricing engine (constants.ts): the
    marketplace fee fraction, the rupee-per-dollar conversion rate and the
    purity multiplier table keyed by tier label. */
module Constants {

  /** The three gold purity tiers (karat grades) the engine prices. */
  datatype Purity = K10 | K14 | K18

  /** The label that names a tier, both as a key of the multiplier table
      and in the `purity` field of a result record. */
  function Label(p: Purity): string {
    match p
    case K10 => "10K"
    case K14 => "14K"
    case K18 => "18K"
  }

  /** Karat number of a tier: how many parts in 24 are pure gold. */
  function Karat(p: Purity): nat {
    match p
    case K10 => 10
    case K14 => 14
    case K18 => 18
  }

  /** Marketplace (Etsy) fee, as a fraction of the pre-fee total. */
  const EtsyChargePct: real := 0.22

  /** Rupees per US dollar. */
  const UsdConversionRate: real := 90.0

  /** Fraction of the 24-karat gold rate charged for each tier, by label. */
  const PurityMultipliers: map<string, real> :=
    map["10K" := 0.417, "14K" := 0.585, "18K" := 0.75]

  /** Looks a tier up in the multiplier table. The lookup is total: every
      tier's label is a key. The multiplier is a proper fraction, and it is
      the tier's share of pure gold, Karat / 24, rounded up by less than
      0.002. */
  function Multiplier(p: Purity): (m: real)
    ensures 0.0 < m < 1.0
    ensures Karat(p) as real / 24.0 <= m < Karat(p) as real / 24.0 + 0.002
  {
    PurityMultipliers[Label(p)]
  }

  /** Distinct tiers have distinct labels, so the table lookup by label
      never confuses two tiers. */
  lemma LabelInjective(p: Purity, q: Purity)
    ensures Label(p) == Label(q) <==> p == q
  {
  }

  /** The table is defined for exactly the three tier labels. */
  lemma TableDomain()
    ensures PurityMultipliers.Keys == {Label(K10), Label(K14), Label(K18)}
  {
  }

  /** A purer tier has a strictly larger multiplier, and conversely. */
  lemma MultiplierOrder(p: Purity, q: Purity)
    ensures Multiplier(p) < Multiplier(q) <==> Karat(p) < Karat(q)
  {
  }
}
