/** The `Indicator` column of main.py: every row starts as `Hold`; rows whose
    RSI is below 30 while MACD is above its signal line become `Buy`; rows
    whose RSI is above 70 while MACD is below its signal line become `Sell`.

    Indicator values are `Option<real>`; `None` is pandas' NaN, and every
    comparison with NaN is false, so an undefined row keeps `Hold`. */
module Signals {
  import opened Wrappers

  datatype Signal = Buy | Sell | Hold

  /** RSI thresholds of the two masks. */
  const Oversold: real := 30.0
  const Overbought: real := 70.0

  /** The `<` of a pandas column: false whenever either side is NaN. */
  predicate Less(a: Option<real>, b: Option<real>)
  {
    a.Some? && b.Some? && a.value < b.value
  }

  /** The mask of line 68. */
  predicate BuyRow(rsi: Option<real>, macd: Option<real>, macdSignal: Option<real>)
  {
    Less(rsi, Some(Oversold)) && Less(macdSignal, macd)
  }

  /** The mask of line 69. */
  predicate SellRow(rsi: Option<real>, macd: Option<real>, macdSignal: Option<real>)
  {
    Less(Some(Overbought), rsi) && Less(macd, macdSignal)
  }

  /** The signal of one row, read as "Buy if the Buy mask holds, Sell if the
      Sell mask holds, Hold otherwise". */
  function Classify(rsi: Option<real>, macd: Option<real>, macdSignal: Option<real>): Signal
  {
    if BuyRow(rsi, macd, macdSignal) then Buy
    else if SellRow(rsi, macd, macdSignal) then Sell
    else Hold
  }

  /** The signal of every row of aligned indicator columns. */
  function SignalColumn(rsi: seq<Option<real>>, macd: seq<Option<real>>, macdSignal: seq<Option<real>>): seq<Signal>
    requires |rsi| == |macd| == |macdSignal|
  {
    seq(|rsi|, t requires 0 <= t < |rsi| => Classify(rsi[t], macd[t], macdSignal[t]))
  }

  /** Lines 67-69: the column is filled with `Hold`, then the Buy rows and
      then the Sell rows are overwritten in place, one pass each. */
  method LabelSignals(rsi: seq<Option<real>>, macd: seq<Option<real>>, macdSignal: seq<Option<real>>)
    returns (indicator: seq<Signal>)
    requires |rsi| == |macd| == |macdSignal|
    ensures indicator == SignalColumn(rsi, macd, macdSignal)
  {
    var n := |rsi|;
    var column := new Signal[n](_ => Hold);
    for i := 0 to n
      invariant forall k :: 0 <= k < i ==>
                  column[k] == (if BuyRow(rsi[k], macd[k], macdSignal[k]) then Buy else Hold)
      invariant forall k :: i <= k < n ==> column[k] == Hold
    {
      if BuyRow(rsi[i], macd[i], macdSignal[i]) {
        column[i] := Buy;
      }
    }
    for i := 0 to n
      invariant forall k :: 0 <= k < i ==> column[k] == Classify(rsi[k], macd[k], macdSignal[k])
      invariant forall k :: i <= k < n ==>
                  column[k] == (if BuyRow(rsi[k], macd[k], macdSignal[k]) then Buy else Hold)
    {
      if SellRow(rsi[i], macd[i], macdSignal[i]) {
        MasksDisjoint(rsi[i], macd[i], macdSignal[i]);
        column[i] := Sell;
      }
    }
    indicator := column[..];
  }

  // ---------------------------------------------------------------------
  // Properties of the classification

  /** No row is in both masks, so the Sell pass never overwrites a Buy. */
  lemma MasksDisjoint(rsi: Option<real>, macd: Option<real>, macdSignal: Option<real>)
    ensures !(BuyRow(rsi, macd, macdSignal) && SellRow(rsi, macd, macdSignal))
  {
  }

  /** The rule on the raw values: Buy iff all three are defined, RSI < 30 and
      MACD > signal; Sell iff all three are defined, RSI > 70 and MACD <
      signal; Hold otherwise. */
  lemma ClassifyRule(rsi: Option<real>, macd: Option<real>, macdSignal: Option<real>)
    ensures Classify(rsi, macd, macdSignal) == Buy <==>
              rsi.Some? && macd.Some? && macdSignal.Some?
              && rsi.value < 30.0 && macd.value > macdSignal.value
    ensures Classify(rsi, macd, macdSignal) == Sell <==>
              rsi.Some? && macd.Some? && macdSignal.Some?
              && rsi.value > 70.0 && macd.value < macdSignal.value
    ensures Classify(rsi, macd, macdSignal) == Hold <==>
              !BuyRow(rsi, macd, macdSignal) && !SellRow(rsi, macd, macdSignal)
  {
  }

  /** Ties and undefined values give Hold: both comparisons are strict and a
      missing value fails every comparison. */
  lemma HoldOnTiesAndGaps(rsi: Option<real>, macd: Option<real>, macdSignal: Option<real>)
    requires || rsi.None? || macd.None? || macdSignal.None?
             || rsi == Some(30.0) || rsi == Some(70.0) || macd == macdSignal
    ensures Classify(rsi, macd, macdSignal) == Hold
  {
  }

  /** The column has one signal per row, and the signal of row t is decided by
      row t's three values alone. */
  lemma SignalsArePerRow(rsi: seq<Option<real>>, macd: seq<Option<real>>, macdSignal: seq<Option<real>>,
                         rsi': seq<Option<real>>, macd': seq<Option<real>>, macdSignal': seq<Option<real>>, t: nat)
    requires |rsi| == |macd| == |macdSignal| && |rsi'| == |macd'| == |macdSignal'|
    requires t < |rsi| && t < |rsi'|
    requires rsi[t] == rsi'[t] && macd[t] == macd'[t] && macdSignal[t] == macdSignal'[t]
    ensures |SignalColumn(rsi, macd, macdSignal)| == |rsi|
    ensures SignalColumn(rsi, macd, macdSignal)[t] == SignalColumn(rsi', macd', macdSignal')[t]
  {
  }

  /** The three example rows: an oversold row with MACD above its signal is
      a Buy, an overbought row with MACD below is a Sell, and an RSI of 50 is
      a Hold whatever MACD does. */
  lemma ExampleRows(macd: Option<real>, macdSignal: Option<real>)
    ensures Classify(Some(25.0), Some(1.2), Some(0.8)) == Buy
    ensures Classify(Some(75.0), Some(0.5), Some(0.9)) == Sell
    ensures Classify(Some(50.0), macd, macdSignal) == Hold
  {
  }
}
