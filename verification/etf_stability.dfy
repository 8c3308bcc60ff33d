/** The stability score that stands in for the quality score of an ETF:
    `max(0, min(10, int(10 - vola * 20)))`, where `int` truncates toward zero
    and `vola` is the annualised volatility of the ETF's prices. */
module EtfStability {
  import opened PyValues

  /** Python's `int()` on a float: truncation toward zero. */
  function Trunc(x: real): (n: int)
    ensures x >= 0.0 ==> n as real <= x < n as real + 1.0
    ensures x < 0.0 ==> n as real - 1.0 < x <= n as real
  {
    if x >= 0.0 then x.Floor else -((-x).Floor)
  }

  /** The score falls one point per 0.05 of volatility: 10 for no
      volatility (or less), k for volatility in ((9 - k) / 20, (10 - k) / 20],
      and 0 for every volatility above 0.45. */
  function StabilityScore(vola: real): (score: int)
    ensures 0 <= score <= 10
    ensures score == 10 <==> vola <= 0.0
    ensures score == 0 <==> vola > 0.45
    ensures 0 < score < 10 ==> (9 - score) as real / 20.0 < vola <= (10 - score) as real / 20.0
  {
    Clamp(Trunc(10.0 - vola * 20.0))
  }

  /** More volatility never raises the score. */
  lemma StabilityScoreAntitone(v: real, w: real)
    requires v <= w
    ensures StabilityScore(v) >= StabilityScore(w)
  {
  }

  /** Sample points; a volatility of 0.12 gives 7 (7.6 truncated), not
      the 8 that rounding would give. */
  lemma StabilityScoreExamples()
    ensures StabilityScore(0.0) == 10
    ensures StabilityScore(0.12) == 7
    ensures StabilityScore(0.45) == 1
    ensures StabilityScore(0.5) == 0
  {
  }
}
