/** Closing-price sequences and their trailing simple moving averages
    (`rolling(n).mean().iloc[-1]`: the mean of the last `n` prices). */
module Prices {

  function Sum(s: seq<real>): real {
    if |s| == 0 then 0.0 else Sum(s[..|s| - 1]) + s[|s| - 1]
  }

  function Last(s: seq<real>): real
    requires |s| > 0
  {
    s[|s| - 1]
  }

  /** The mean of the last `n` prices. */
  function TrailingMean(s: seq<real>, n: nat): real
    requires 0 < n <= |s|
  {
    Sum(s[|s| - n..]) / n as real
  }

  /** The last price is strictly above the trailing `n`-mean. */
  predicate AboveTrailingMean(s: seq<real>, n: nat)
    requires 0 < n <= |s|
  {
    Last(s) > TrailingMean(s, n)
  }

  predicate StrictlyIncreasing(s: seq<real>) {
    forall i, j :: 0 <= i < j < |s| ==> s[i] < s[j]
  }

  predicate NonIncreasing(s: seq<real>) {
    forall i, j :: 0 <= i < j < |s| ==> s[i] >= s[j]
  }

  /** A sum of values bounded above by `c` is at most `|w| * c`. */
  lemma {:induction false} SumAtMost(w: seq<real>, c: real)
    requires forall i :: 0 <= i < |w| ==> w[i] <= c
    ensures Sum(w) <= |w| as real * c
  {
    if |w| > 0 {
      var init := w[..|w| - 1];
      assert forall i :: 0 <= i < |init| ==> init[i] == w[i];
      SumAtMost(init, c);
      assert |w| as real * c == |init| as real * c + c;
    }
  }

  /** ... and strictly below it when the value at `j` is strictly below `c`. */
  lemma {:induction false} SumBelow(w: seq<real>, c: real, j: nat)
    requires forall i :: 0 <= i < |w| ==> w[i] <= c
    requires j < |w| && w[j] < c
    ensures Sum(w) < |w| as real * c
  {
    var init := w[..|w| - 1];
    assert forall i :: 0 <= i < |init| ==> init[i] == w[i];
    assert |w| as real * c == |init| as real * c + c;
    if j < |w| - 1 {
      SumBelow(init, c, j);
    } else {
      SumAtMost(init, c);
      assert Sum(w) == Sum(init) + w[j];
    }
  }

  /** A sum of values bounded below by `c` is at least `|w| * c`. */
  lemma {:induction false} SumAtLeast(w: seq<real>, c: real)
    requires forall i :: 0 <= i < |w| ==> w[i] >= c
    ensures Sum(w) >= |w| as real * c
  {
    if |w| > 0 {
      var init := w[..|w| - 1];
      assert forall i :: 0 <= i < |init| ==> init[i] == w[i];
      SumAtLeast(init, c);
      assert |w| as real * c == |init| as real * c + c;
    }
  }

  /** The last price is above its trailing mean when it is at least every
      price of the window and strictly above one of them. */
  lemma AboveMeanWhenLastDominates(s: seq<real>, n: nat)
    requires 0 < n <= |s|
    requires forall i :: |s| - n <= i < |s| ==> s[i] <= Last(s)
    requires exists i :: |s| - n <= i < |s| && s[i] < Last(s)
    ensures AboveTrailingMean(s, n)
  {
    var w := s[|s| - n..];
    assert forall k :: 0 <= k < |w| ==> w[k] == s[|s| - n + k];
    var i :| |s| - n <= i < |s| && s[i] < Last(s);
    SumBelow(w, Last(s), i - (|s| - n));
  }

  /** The last price is not above its trailing mean when no price of the
      window is below it. */
  lemma NotAboveMeanWhenLastDominated(s: seq<real>, n: nat)
    requires 0 < n <= |s|
    requires forall i :: |s| - n <= i < |s| ==> s[i] >= Last(s)
    ensures !AboveTrailingMean(s, n)
  {
    var w := s[|s| - n..];
    assert forall k :: 0 <= k < |w| ==> w[k] == s[|s| - n + k];
    SumAtLeast(w, Last(s));
  }

  /** In a strictly rising series the last price is above every trailing
      mean over two or more prices. */
  lemma IncreasingAboveMean(s: seq<real>, n: nat)
    requires StrictlyIncreasing(s)
    requires 2 <= n <= |s|
    ensures AboveTrailingMean(s, n)
  {
    assert s[|s| - n] < Last(s);
    AboveMeanWhenLastDominates(s, n);
  }

  /** In a series that never rises the last price is never above a trailing
      mean. */
  lemma NonIncreasingNotAboveMean(s: seq<real>, n: nat)
    requires NonIncreasing(s)
    requires 0 < n <= |s|
    ensures !AboveTrailingMean(s, n)
  {
    NotAboveMeanWhenLastDominated(s, n);
  }
}
