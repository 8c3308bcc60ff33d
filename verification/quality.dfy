/** The quality ("Porter") score of a stock: tiered points for four
    fundamental ratios, summed and clamped to [0, 10]. Within one ratio only
    the first matching tier counts. A ratio that is `None` or zero is falsy; a
    missing one reads as its default (0, or 100 for debt-to-equity); neither
    matches a tier. */
module Quality {
  import opened PyValues

  const GrossMarginsKey: string := "grossMargins"
  const ReturnOnEquityKey: string := "returnOnEquity"
  const OperatingMarginsKey: string := "operatingMargins"
  const DebtToEquityKey: string := "debtToEquity"

  /** The four ratios as the scorer reads them, each with its default. A
      missing debt-to-equity reads as 100, which fails the `< 80` test. */
  function GrossMargin(info: Info): PyValue { Get(info, GrossMarginsKey, PyNum(0.0)) }
  function ReturnOnEquity(info: Info): PyValue { Get(info, ReturnOnEquityKey, PyNum(0.0)) }
  function OperatingMargin(info: Info): PyValue { Get(info, OperatingMarginsKey, PyNum(0.0)) }
  function DebtToEquity(info: Info): PyValue { Get(info, DebtToEquityKey, PyNum(100.0)) }

  /** Pricing power: +3 above a 50% gross margin, else +2 above 30%, else -1
      below 10%. */
  function PricingPowerPoints(gm: PyValue): (p: int)
    ensures p in {-1, 0, 2, 3}
    ensures !Truthy(gm) ==> p == 0
    ensures p == 3 <==> TruthyAbove(gm, 0.50)
    ensures p == 2 <==> Truthy(gm) && 0.30 < gm.x <= 0.50
    ensures p < 0 <==> TruthyBelow(gm, 0.10)
    ensures p == 0 <==> !Truthy(gm) || 0.10 <= gm.x <= 0.30
  {
    if TruthyAbove(gm, 0.50) then 3
    else if TruthyAbove(gm, 0.30) then 2
    else if TruthyBelow(gm, 0.10) then -1
    else 0
  }

  /** Barriers to entry: +3 above a 20% return on equity, else +1 above 12%. */
  function BarrierPoints(roe: PyValue): (p: int)
    ensures p in {0, 1, 3}
    ensures !Truthy(roe) ==> p == 0
    ensures p == 3 <==> TruthyAbove(roe, 0.20)
    ensures p == 1 <==> Truthy(roe) && 0.12 < roe.x <= 0.20
  {
    if TruthyAbove(roe, 0.20) then 3
    else if TruthyAbove(roe, 0.12) then 1
    else 0
  }

  /** Operating efficiency: +2 above a 15% operating margin. */
  function EfficiencyPoints(om: PyValue): (p: int)
    ensures p in {0, 2}
    ensures !Truthy(om) ==> p == 0
    ensures p == 2 <==> Truthy(om) && om.x > 0.15
  {
    if TruthyAbove(om, 0.15) then 2 else 0
  }

  /** Financial strength: +2 for a debt-to-equity below 80. */
  function DebtPoints(de: PyValue): (p: int)
    ensures p in {0, 2}
    ensures !Truthy(de) ==> p == 0
    ensures p == 2 <==> Truthy(de) && de.x < 80.0
  {
    if TruthyBelow(de, 80.0) then 2 else 0
  }

  /** The unclamped sum of the four criteria. */
  function RawScore(info: Info): (raw: int)
    ensures -1 <= raw <= 10
  {
    PricingPowerPoints(GrossMargin(info))
    + BarrierPoints(ReturnOnEquity(info))
    + EfficiencyPoints(OperatingMargin(info))
    + DebtPoints(DebtToEquity(info))
  }

  /** `calculate_porter_score`. The clamp never lowers the sum (it cannot
      exceed 10); it only lifts the one negative sum, -1, which needs a low
      gross margin and no credit elsewhere. A perfect 10 needs the top tier of
      every criterion. */
  function PorterScore(info: Info): (score: int)
    ensures 0 <= score <= 10
    ensures RawScore(info) >= 0 ==> score == RawScore(info)
    ensures RawScore(info) < 0 ==> score == 0 && TruthyBelow(GrossMargin(info), 0.10)
    ensures score == 10 <==>
      && TruthyAbove(GrossMargin(info), 0.50)
      && TruthyAbove(ReturnOnEquity(info), 0.20)
      && TruthyAbove(OperatingMargin(info), 0.15)
      && TruthyBelow(DebtToEquity(info), 80.0)
  {
    Clamp(RawScore(info))
  }

  /** `w` is a truthy number at least as large as the truthy number `v`. */
  predicate AtLeast(w: PyValue, v: PyValue) {
    Truthy(v) && Truthy(w) && v.x <= w.x
  }

  /** Better ratios never lower the score: higher margins and return on
      equity, and lower debt, all given as non-zero numbers. */
  lemma PorterScoreMonotone(a: Info, b: Info)
    requires AtLeast(GrossMargin(b), GrossMargin(a))
    requires AtLeast(ReturnOnEquity(b), ReturnOnEquity(a))
    requires AtLeast(OperatingMargin(b), OperatingMargin(a))
    requires AtLeast(DebtToEquity(a), DebtToEquity(b))
    ensures PorterScore(a) <= PorterScore(b)
  {
  }

  /** The tiers of one criterion are exclusive: the ratios below score
      3 + 3 + 2 + 2, not 3 + 2 for the gross margin as well. */
  lemma TopTierExample()
    ensures PorterScore(map[GrossMarginsKey := PyNum(0.55), ReturnOnEquityKey := PyNum(0.25),
                            OperatingMarginsKey := PyNum(0.20), DebtToEquityKey := PyNum(50.0)]) == 10
  {
  }

  /** A 5% gross margin alone sums to -1 (debt-to-equity defaults to 100) and
      is clamped to 0; an empty dictionary scores 0 as well. */
  lemma MissingDataExamples()
    ensures RawScore(map[GrossMarginsKey := PyNum(0.05)]) == -1
    ensures PorterScore(map[GrossMarginsKey := PyNum(0.05)]) == 0
    ensures PorterScore(map[]) == 0
  {
  }

  /** A dictionary without a debt-to-equity entry earns no balance-sheet
      points: the default of 100 fails the `< 80` test. */
  lemma MissingDebtEarnsNothing(info: Info)
    requires DebtToEquityKey !in info
    ensures DebtPoints(DebtToEquity(info)) == 0
    ensures RawScore(info) <= 8
  {
  }

  /** A zero debt-to-equity or a zero gross margin is falsy: a debt-free
      company gets no balance-sheet credit, and a zero margin escapes the
      low-margin penalty, unlike a margin of 5%. */
  lemma ZeroIsFalsyExamples()
    ensures DebtPoints(PyNum(0.0)) == 0 && DebtPoints(PyNum(50.0)) == 2
    ensures PricingPowerPoints(PyNum(0.0)) == 0 && PricingPowerPoints(PyNum(0.05)) == -1
    ensures DebtPoints(PyNone) == 0 && PricingPowerPoints(PyNone) == 0
  {
  }
}
