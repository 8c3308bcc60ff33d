/** The psychology (trend and sentiment) score of an instrument: +4 above
    the 200-day mean, +3 above the 50-day mean, +3 for stability, or a
    neutral 5 when the history is shorter than 200 prices. */
module Psychology {
  import opened PyValues
  import opened Prices

  datatype AssetType = Stock | Etf

  const MinHistory: nat := 200
  const LongWindow: nat := 200
  const ShortWindow: nat := 50
  const BetaKey: string := "beta"

  /** `info.get('beta', 1.0)`: a missing beta reads as 1.0. */
  function Beta(info: Info): PyValue { Get(info, BetaKey, PyNum(1.0)) }

  /** The stability term. A stock with a non-empty fundamentals dictionary is
      judged by its beta; anything else (an ETF, or a stock whose dictionary
      is `None` or empty) by the annualised volatility `vola` of its prices. */
  function StabilityPoints(info: Option<Info>, asset: AssetType, vola: real): (p: int)
    ensures p == 0 || p == 3
    ensures (asset == Etf || !NonEmpty(info)) ==> (p == 3 <==> vola < 0.20)
    ensures asset == Stock && NonEmpty(info) && BetaKey !in info.value ==> p == 3
    ensures asset == Stock && NonEmpty(info) && BetaKey in info.value ==>
      (p == 3 <==> info.value[BetaKey].PyNum? && info.value[BetaKey].x != 0.0 && info.value[BetaKey].x < 1.2)
  {
    if asset == Stock && NonEmpty(info) then
      if TruthyBelow(Beta(info.value), 1.2) then 3 else 0
    else
      if vola < 0.20 then 3 else 0
  }

  /** The two trend terms: +4 above the 200-mean, +3 above the 50-mean. */
  function TrendPoints(prices: seq<real>): (p: int)
    requires |prices| >= MinHistory
    ensures p in {0, 3, 4, 7}
  {
    (if AboveTrailingMean(prices, LongWindow) then 4 else 0)
    + (if AboveTrailingMean(prices, ShortWindow) then 3 else 0)
  }

  /** `calculate_psychology_score`, with the volatility of `prices` passed in
      as `vola`. The neutral 5 is returned exactly for short histories: no
      sum of the 4-, 3- and 3-point terms of a long history makes 5. A score of 7
      or more needs the long-term uptrend plus one of the other two terms; a
      score of 3 or less means no long-term uptrend and at most one other. */
  function PsychologyScore(prices: seq<real>, info: Option<Info>, asset: AssetType, vola: real): (score: int)
    ensures 0 <= score <= 10
    ensures score == 5 <==> |prices| < MinHistory
    ensures |prices| >= MinHistory ==> score in {0, 3, 4, 6, 7, 10}
    ensures |prices| >= MinHistory ==>
      (score >= 7 <==> AboveTrailingMean(prices, LongWindow)
                       && (AboveTrailingMean(prices, ShortWindow) || StabilityPoints(info, asset, vola) == 3))
    ensures |prices| >= MinHistory ==>
      (score <= 3 <==> !AboveTrailingMean(prices, LongWindow)
                       && !(AboveTrailingMean(prices, ShortWindow) && StabilityPoints(info, asset, vola) == 3))
  {
    if |prices| < MinHistory then 5
    else Clamp(TrendPoints(prices) + StabilityPoints(info, asset, vola))
  }

  /** For a long history the score is the plain sum of the three terms: the
      clamp never acts. */
  lemma PsychologyDecomposition(prices: seq<real>, info: Option<Info>, asset: AssetType, vola: real)
    requires |prices| >= MinHistory
    ensures PsychologyScore(prices, info, asset, vola)
         == (if AboveTrailingMean(prices, LongWindow) then 4 else 0)
          + (if AboveTrailingMean(prices, ShortWindow) then 3 else 0)
          + (if StabilityPoints(info, asset, vola) == 3 then 3 else 0)
  {
  }

  /** An ETF's fundamentals are never consulted, and a stock without them is
      scored exactly like an ETF. */
  lemma EtfIgnoresInfo(prices: seq<real>, info: Option<Info>, other: Option<Info>, vola: real)
    ensures PsychologyScore(prices, info, Etf, vola) == PsychologyScore(prices, other, Etf, vola)
    ensures !NonEmpty(info) ==> PsychologyScore(prices, info, Stock, vola) == PsychologyScore(prices, None, Etf, vola)
  {
  }

  /** A strictly rising history of 200 or more prices with the stability
      point scores the maximum 10. */
  lemma RisingSeriesScoresTen(prices: seq<real>, info: Option<Info>, asset: AssetType, vola: real)
    requires |prices| >= MinHistory && StrictlyIncreasing(prices)
    requires StabilityPoints(info, asset, vola) == 3
    ensures PsychologyScore(prices, info, asset, vola) == 10
  {
    IncreasingAboveMean(prices, LongWindow);
    IncreasingAboveMean(prices, ShortWindow);
  }

  /** A history of 200 or more prices that never rises earns no trend point,
      so it scores at most 3. */
  lemma FallingSeriesScoresAtMostThree(prices: seq<real>, info: Option<Info>, asset: AssetType, vola: real)
    requires |prices| >= MinHistory && NonIncreasing(prices)
    ensures PsychologyScore(prices, info, asset, vola) <= 3
  {
    NonIncreasingNotAboveMean(prices, LongWindow);
    NonIncreasingNotAboveMean(prices, ShortWindow);
  }
}
