/** The combined signal: an ordered rule table over the quality score and the
    psychology score whose first matching rule names one of five signals. */
module Signals {

  datatype Signal = SweetSpot | ValueChance | JunkRally | BearMarket | Neutral {

    /** The title shown in the signal column. */
    function Title(): string {
      match this
      case SweetSpot => "🚀 SWEET SPOT"
      case ValueChance => "💎 VALUE CHANCE"
      case JunkRally => "⚠️ JUNK RALLY"
      case BearMarket => "❄️ BEAR MARKET"
      case Neutral => "⚪ Neutral"
    }

    /** The one-line rationale that accompanies the title. */
    function Description(): string {
      match this
      case SweetSpot => "Top Qualität + Trend"
      case ValueChance => "Qualität wird abgestraft"
      case JunkRally => "Hype ohne Substanz"
      case BearMarket => "Negatives Sentiment"
      case Neutral => "Beobachten"
    }
  }

  /** The rule table, first match wins. Each signal is also characterised on
      its own, without reference to the order of the rules: a strong quality
      score turns every weak trend (even one of 3 or less) into a value chance,
      and a bear market needs a trend of 3 or less with quality below 7. */
  function Classify(porter: int, psych: int): (s: Signal)
    ensures s == SweetSpot <==> porter >= 7 && psych >= 7
    ensures s == ValueChance <==> porter >= 7 && psych <= 4
    ensures s == JunkRally <==> porter <= 4 && psych >= 7
    ensures s == BearMarket <==> porter < 7 && psych <= 3
    ensures s == Neutral <==> psych >= 4 && (porter >= 7 ==> 5 <= psych <= 6) && (porter <= 4 ==> psych <= 6)
  {
    if porter >= 7 && psych >= 7 then SweetSpot
    else if porter >= 7 && psych <= 4 then ValueChance
    else if porter <= 4 && psych >= 7 then JunkRally
    else if psych <= 3 then BearMarket
    else Neutral
  }

  /** `get_combined_signal`: the (title, description) pair of the signal the
      rule table selects. The title names that signal and no other. */
  function CombinedSignal(porter: int, psych: int): (r: (string, string))
    ensures r == (Classify(porter, psych).Title(), Classify(porter, psych).Description())
    ensures forall t: Signal :: t.Title() == r.0 ==> t == Classify(porter, psych)
  {
    var s := Classify(porter, psych);
    forall t: Signal ensures t.Title() == s.Title() ==> t == s {
      TitleIdentifiesSignal(t, s);
    }
    (s.Title(), s.Description())
  }

  /** The five titles are distinct, so the title alone tells which rule fired. */
  lemma TitleIdentifiesSignal(a: Signal, b: Signal)
    ensures a.Title() == b.Title() ==> a == b
  {
    if a != b {
      // Index 2 is the first letter after a one-code-point emoji; index 3 is
      // the first letter after the two-code-point emoji of JUNK RALLY and
      // BEAR MARKET (symbol plus variation selector).
      assert a.Title()[2] != b.Title()[2] || a.Title()[3] != b.Title()[3]
          || |a.Title()| != |b.Title()|;
    }
  }

  /** Quality between 5 and 6 never earns a directional signal other than a
      bear market. */
  lemma MiddleQualityIsBearOrNeutral(porter: int, psych: int)
    requires 5 <= porter <= 6
    ensures Classify(porter, psych) in {BearMarket, Neutral}
  {
  }

  /** One instance of each rule. */
  lemma ClassifyExamples()
    ensures Classify(9, 8) == SweetSpot
    ensures Classify(9, 3) == ValueChance
    ensures Classify(3, 8) == JunkRally
    ensures Classify(5, 2) == BearMarket
    ensures Classify(5, 5) == Neutral
  {
  }
}
