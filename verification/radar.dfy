/** The scoring of one instrument in the market radar: stocks are scored by
    fundamentals and trend, ETFs by price stability and trend, and the two
    scores are combined into a signal. */
module Radar {
  import opened PyValues
  import opened Prices
  import Quality
  import Psychology
  import Signals
  import EtfStability

  datatype Mode = Stocks | Etfs

  datatype Scores = Scores(porter: int, psych: int, signal: Signals.Signal)

  /** The scores of one instrument with closing prices `prices` whose
      annualised volatility is `vola`. In stock mode `info` is the fetched
      fundamentals dictionary, or `None` when fetching it failed; then the
      quality score stays 0 and the trend is scored without fundamentals. In
      ETF mode `info` is ignored and the stability score takes the place of
      the quality score. */
  function ScoreInstrument(mode: Mode, prices: seq<real>, info: Option<Info>, vola: real): (r: Scores)
    ensures 0 <= r.porter <= 10 && 0 <= r.psych <= 10
    ensures r.signal == Signals.Classify(r.porter, r.psych)
    ensures mode == Stocks && info.Some? ==> r.porter == Quality.PorterScore(info.value)
    ensures mode == Stocks && info.None? ==> r.porter == 0
    ensures mode == Etfs ==> r.porter == EtfStability.StabilityScore(vola)
    ensures mode == Stocks ==> r.psych == Psychology.PsychologyScore(prices, info, Psychology.Stock, vola)
    ensures mode == Etfs ==> r.psych == Psychology.PsychologyScore(prices, None, Psychology.Etf, vola)
    ensures r.psych == 5 <==> |prices| < Psychology.MinHistory
  {
    var (porter, psych) :=
      match mode
      case Stocks =>
        (match info
         case Some(fundamentals) =>
           (Quality.PorterScore(fundamentals), Psychology.PsychologyScore(prices, info, Psychology.Stock, vola))
         case None =>
           (0, Psychology.PsychologyScore(prices, None, Psychology.Stock, vola)))
      case Etfs =>
        (EtfStability.StabilityScore(vola), Psychology.PsychologyScore(prices, None, Psychology.Etf, vola));
    Scores(porter, psych, Signals.Classify(porter, psych))
  }

  /** A stock whose fundamentals could not be fetched never gets a
      quality-based signal (sweet spot or value chance). */
  lemma MissingFundamentalsNoQualitySignal(prices: seq<real>, vola: real)
    ensures ScoreInstrument(Stocks, prices, None, vola).signal !in {Signals.SweetSpot, Signals.ValueChance}
  {
  }

  /** An ETF with volatility above 0.45 never gets a quality-based signal. */
  lemma VolatileEtfNoQualitySignal(prices: seq<real>, info: Option<Info>, vola: real)
    requires vola > 0.45
    ensures ScoreInstrument(Etfs, prices, info, vola).signal !in {Signals.SweetSpot, Signals.ValueChance}
  {
  }

  /** An ETF with volatility at most 0.15 is never a junk rally or a bear
      market, and with a strictly rising history of 200 or more prices it is
      a sweet spot. */
  lemma CalmEtfSignals(prices: seq<real>, info: Option<Info>, vola: real)
    requires vola <= 0.15
    ensures ScoreInstrument(Etfs, prices, info, vola).signal in {Signals.SweetSpot, Signals.ValueChance, Signals.Neutral}
    ensures |prices| >= Psychology.MinHistory && StrictlyIncreasing(prices) ==>
      ScoreInstrument(Etfs, prices, info, vola).signal == Signals.SweetSpot
  {
    if |prices| >= Psychology.MinHistory && StrictlyIncreasing(prices) {
      Psychology.RisingSeriesScoresTen(prices, None, Psychology.Etf, vola);
    }
  }
}
