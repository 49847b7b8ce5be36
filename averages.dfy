/** The arithmetic mean of the recorded absolute errors, which all three versions of the
    game keep as `runningMeanError` / `running_mean_error`. */
module Averages {

  function Sum(s: seq<real>): real
  {
    if s == [] then 0.0 else s[0] + Sum(s[1..])
  }

  /** The mean of `s`; 0 for no guesses, the value the sessions start from. */
  function Mean(s: seq<real>): real
  {
    if |s| == 0 then 0.0 else Sum(s) / (|s| as real)
  }

  /** Python's `sum` and JavaScript's `reduce((a, b) => a + b, 0)` add from the left;
      on exact reals that is the same total. */
  lemma {:induction false} SumAppend(s: seq<real>, e: real)
    ensures Sum(s + [e]) == Sum(s) + e
  {
    if s == [] {
      assert [e][1..] == [];
    } else {
      assert (s + [e])[1..] == s[1..] + [e];
      SumAppend(s[1..], e);
    }
  }

  /** The incremental update `mean + (error - mean) / k` of recordGuessResult, with k the
      new number of errors, gives the mean of the extended history. */
  lemma IncrementalMean(s: seq<real>, e: real)
    ensures Mean(s) + (e - Mean(s)) / ((|s| + 1) as real) == Mean(s + [e])
  {
    SumAppend(s, e);
    var k := |s| as real;
    var m := Mean(s);
    if |s| > 0 {
      assert m * k == Sum(s);
      calc {
        m + (e - m) / (k + 1.0);
        (m * (k + 1.0) + e - m) / (k + 1.0);
        (m * k + e) / (k + 1.0);
        (Sum(s) + e) / (k + 1.0);
      }
    }
  }

  lemma {:induction false} SumNonNegative(s: seq<real>)
    requires forall i :: 0 <= i < |s| ==> 0.0 <= s[i]
    ensures 0.0 <= Sum(s)
  {
    if s != [] {
      SumNonNegative(s[1..]);
    }
  }

  /** The mean of absolute errors, the figure the page shows, is never negative. */
  lemma MeanNonNegative(s: seq<real>)
    requires forall i :: 0 <= i < |s| ==> 0.0 <= s[i]
    ensures 0.0 <= Mean(s)
  {
    if |s| > 0 {
      SumNonNegative(s);
      var q := Sum(s) / (|s| as real);
      assert q * (|s| as real) == Sum(s);
    }
  }
}
