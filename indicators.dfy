/** The 44-period simple moving average of the close prices
    (main.py, `data['Close'].rolling(window=44).mean()`).

    A rolling mean with the default `min_periods` is undefined (NaN, here
    `None`) until the window is full and is then the arithmetic mean of the
    window's closes. pandas computes it in one pass with a running sum that
    adds the newest close and drops the one that left the window; `Rolling`
    does the same and is proved equal to the windowed mean `WindowMean`.
    Prices are mathematical reals: floating-point rounding is not modelled. */
module Indicators {
  import opened Wrappers

  /** The window of the moving average column `MA`. */
  const MaWindow: nat := 44

  /** The sum of a sequence of prices. */
  function Sum(s: seq<real>): real
  {
    if |s| == 0 then 0.0 else Sum(s[..|s| - 1]) + s[|s| - 1]
  }

  /** Reference definition: the mean of the `window` closes ending at row t,
      undefined while fewer than `window` closes exist. */
  function WindowMean(closes: seq<real>, window: nat, t: nat): Option<real>
    requires 0 < window && t < |closes|
  {
    if t + 1 < window then None
    else Some(Sum(closes[t + 1 - window .. t + 1]) / window as real)
  }

  /** Where the window that ends just before row i starts. */
  function WindowStart(i: nat, window: nat): nat
  {
    if i < window then 0 else i - window
  }

  /** Summing from the front gives the same result as summing from the back. */
  lemma {:induction false} SumFront(s: seq<real>)
    requires |s| > 0
    ensures Sum(s) == s[0] + Sum(s[1..])
  {
    if |s| > 1 {
      SumFront(s[..|s| - 1]);
      assert s[..|s| - 1][1..] == s[1..][..|s[1..]| - 1];
    }
  }

  /** One step of the running sum: add the newest close, drop the oldest
      once the window is full. */
  lemma SlideWindow(closes: seq<real>, window: nat, i: nat, acc: real)
    requires 0 < window && i < |closes|
    requires acc == Sum(closes[WindowStart(i, window)..i])
    ensures Sum(closes[WindowStart(i + 1, window)..i + 1])
         == (if i >= window then acc + closes[i] - closes[i - window] else acc + closes[i])
  {
    var lo := WindowStart(i, window);
    assert closes[lo..i + 1][..i - lo] == closes[lo..i];
    if i >= window {
      SumFront(closes[lo..i + 1]);
      assert closes[lo..i + 1][1..] == closes[lo + 1..i + 1];
    }
  }

  /** The running-sum pass from row i onwards, `acc` being the sum of the
      window that ends just before row i. */
  function Rolling(closes: seq<real>, window: nat, i: nat, acc: real): (ma: seq<Option<real>>)
    requires 0 < window && i <= |closes|
    requires acc == Sum(closes[WindowStart(i, window)..i])
    ensures |ma| == |closes| - i
    ensures forall t :: i <= t < |closes| ==> ma[t - i] == WindowMean(closes, window, t)
    decreases |closes| - i
  {
    if i == |closes| then []
    else
      var next := if i >= window then acc + closes[i] - closes[i - window] else acc + closes[i];
      SlideWindow(closes, window, i, acc);
      [if i + 1 < window then None else Some(next / window as real)]
        + Rolling(closes, window, i + 1, next)
  }

  /** `rolling(window).mean()`: one value per row, each the windowed mean. */
  function RollingMean(closes: seq<real>, window: nat): (ma: seq<Option<real>>)
    requires 0 < window
    ensures |ma| == |closes|
    ensures forall t :: 0 <= t < |closes| ==> ma[t] == WindowMean(closes, window, t)
  {
    Rolling(closes, window, 0, 0.0)
  }

  /** The `MA` column: undefined for the first 43 rows, then the mean of the
      44 closes ending at that row. */
  function MovingAverage(closes: seq<real>): (ma: seq<Option<real>>)
    ensures |ma| == |closes|
    ensures forall t :: 0 <= t < |closes| && t < 43 ==> ma[t] == None
    ensures forall t :: 43 <= t < |closes| ==> ma[t] == Some(Sum(closes[t - 43..t + 1]) / 44.0)
  {
    RollingMean(closes, MaWindow)
  }

  // ---------------------------------------------------------------------
  // Properties of the moving average

  /** A sum of values that all lie in [lo, hi] lies in [|s| * lo, |s| * hi]. */
  lemma {:induction false} SumBounds(s: seq<real>, lo: real, hi: real)
    requires forall k :: 0 <= k < |s| ==> lo <= s[k] <= hi
    ensures |s| as real * lo <= Sum(s) <= |s| as real * hi
  {
    if |s| > 0 {
      SumBounds(s[..|s| - 1], lo, hi);
    }
  }

  /** The sum of n copies of c is n * c. */
  lemma {:induction false} SumConstant(s: seq<real>, c: real)
    requires forall k :: 0 <= k < |s| ==> s[k] == c
    ensures Sum(s) == |s| as real * c
  {
    if |s| > 0 {
      SumConstant(s[..|s| - 1], c);
    }
  }

  /** A defined moving average lies between the lowest and the highest close
      of its window. */
  lemma MovingAverageWithinWindow(closes: seq<real>, t: nat, lo: real, hi: real)
    requires 43 <= t < |closes|
    requires forall k :: t - 43 <= k <= t ==> lo <= closes[k] <= hi
    ensures MovingAverage(closes)[t].Some?
    ensures lo <= MovingAverage(closes)[t].value <= hi
  {
    var w := closes[t - 43..t + 1];
    SumBounds(w, lo, hi);
  }

  /** Constant closes give a moving average equal to that price once defined. */
  lemma MovingAverageOfConstant(closes: seq<real>, c: real, t: nat)
    requires forall k :: 0 <= k < |closes| ==> closes[k] == c
    requires 43 <= t < |closes|
    ensures MovingAverage(closes)[t] == Some(c)
  {
    SumConstant(closes[t - 43..t + 1], c);
    assert Sum(closes[t - 43..t + 1]) == 44.0 * c;
  }

  /** No lookahead: appending later closes does not change earlier values. */
  lemma MovingAverageNoLookahead(closes: seq<real>, later: seq<real>, t: nat)
    requires t < |closes|
    ensures MovingAverage(closes + later)[t] == MovingAverage(closes)[t]
  {
    if 43 <= t {
      assert (closes + later)[t - 43..t + 1] == closes[t - 43..t + 1];
    }
  }
}
