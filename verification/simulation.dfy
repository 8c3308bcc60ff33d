/** The investment simulator: a lump sum bought at the first price on or after
    a start date and valued at the last price of the whole series. */
module Simulation {
  import opened PyValues

  /** One observation of a price series: a trading day (as a day number) and
      its closing price. */
  datatype Observation = Observation(date: int, price: real)

  type Series = seq<Observation>

  /** Closing prices are positive; a zero entry price would divide by zero. */
  predicate PositivePrices(s: Series) {
    forall i :: 0 <= i < |s| ==> s[i].price > 0.0
  }

  predicate SortedByDate(s: Series) {
    forall i, j :: 0 <= i < j < |s| ==> s[i].date < s[j].date
  }

  /** The first price, in series order, of an observation dated on or after
      `start`: `iloc[0]` of the series filtered by `index >= start`. */
  function EntryPrice(s: Series, start: int): (r: Option<real>)
    ensures r.None? <==> forall i :: 0 <= i < |s| ==> s[i].date < start
    ensures r.Some? ==> exists k :: 0 <= k < |s| && s[k].date >= start && r.value == s[k].price
                                  && forall i :: 0 <= i < k ==> s[i].date < start
    ensures r.Some? && PositivePrices(s) ==> r.value > 0.0
  {
    if |s| == 0 then None
    else if s[0].date >= start then Some(s[0].price)
    else
      var r := EntryPrice(s[1..], start);
      assert forall i :: 1 <= i < |s| ==> s[1..][i - 1] == s[i];
      r
  }

  /** `calculate_simulation`: the (current value, profit) of investing
      `amount`, or the (0, 0) sentinel when no observation is dated on or
      after `start` (which covers an empty series). A positive investment is
      worth a positive amount, and it gains exactly when the last price is
      above the entry price, breaks even exactly when they are equal. */
  function Simulate(s: Series, start: int, amount: real): (r: (real, real))
    requires PositivePrices(s)
    ensures EntryPrice(s, start).None? ==> r == (0.0, 0.0)
    ensures EntryPrice(s, start).Some? ==> r == Holding(amount, EntryPrice(s, start).value, s[|s| - 1].price)
    ensures amount > 0.0 && EntryPrice(s, start).Some? ==>
      && r.0 > 0.0
      && (r.1 > 0.0 <==> s[|s| - 1].price > EntryPrice(s, start).value)
      && (r.1 == 0.0 <==> s[|s| - 1].price == EntryPrice(s, start).value)
      && (r.1 < 0.0 <==> s[|s| - 1].price < EntryPrice(s, start).value)
  {
    if |s| == 0 then (0.0, 0.0)
    else
      match EntryPrice(s, start)
      case None => (0.0, 0.0)
      case Some(startPrice) => Holding(amount, startPrice, s[|s| - 1].price)
  }

  /** Buying `amount / entry` shares and valuing them at `last`: the value
      is `amount` scaled by `last / entry`, and the profit is positive, zero or
      negative as `last` is above, equal to or below `entry`. */
  function Holding(amount: real, entry: real, last: real): (r: (real, real))
    requires entry > 0.0 && last > 0.0
    ensures r.0 * entry == amount * last && r.1 == r.0 - amount
    ensures amount > 0.0 ==>
      && r.0 > 0.0
      && (r.1 > 0.0 <==> last > entry)
      && (r.1 == 0.0 <==> last == entry)
      && (r.1 < 0.0 <==> last < entry)
  {
    var shares := amount / entry;
    var currentValue := shares * last;
    assert shares * entry == amount;
    assert currentValue - amount == shares * (last - entry);
    (currentValue, currentValue - amount)
  }

  /** A start date on or before the first observation buys at the first
      price. */
  lemma EarlyStartBuysFirstPrice(s: Series, start: int)
    requires |s| > 0 && start <= s[0].date
    ensures EntryPrice(s, start) == Some(s[0].price)
  {
  }

  /** For a date-sorted series the sentinel is returned exactly when the
      series is empty or the start date is after its last date. */
  lemma SortedNoDataIff(s: Series, start: int)
    requires SortedByDate(s)
    ensures EntryPrice(s, start).None? <==> |s| == 0 || s[|s| - 1].date < start
  {
    if |s| > 0 && s[|s| - 1].date < start {
      assert forall i :: 0 <= i < |s| - 1 ==> s[i].date < s[|s| - 1].date;
    }
  }

  /** Buying 1000 at 100 and holding until the price is 150. */
  lemma SimulateExample()
    ensures Simulate([Observation(0, 100.0), Observation(1, 150.0)], 0, 1000.0) == (1500.0, 500.0)
  {
  }
}
