/** Candles, the price/volume columns of a candle series, and the two trailing
    window means the engulfing detector filters on: the 20-close simple moving
    average and the 10-candle average volume. Prices and volumes are reals. */
module Candles {

  /** One OHLCV record. The open time only labels the candle in the original
      program's output, so it is not carried here. */
  datatype Candle = Candle(open: real, high: real, low: real, close: real, volume: real)

  /** The close column of a series. */
  function Closes(cs: seq<Candle>): (r: seq<real>)
  {
    seq(|cs|, k requires 0 <= k < |cs| => cs[k].close)
  }

  /** The volume column of a series. */
  function Volumes(cs: seq<Candle>): (r: seq<real>)
  {
    seq(|cs|, k requires 0 <= k < |cs| => cs[k].volume)
  }

  function Sum(xs: seq<real>): (total: real)
  {
    if |xs| == 0 then 0.0 else xs[0] + Sum(xs[1..])
  }

  /** Sum distributes over appending one more element. */
  lemma {:induction false} SumSnoc(xs: seq<real>, x: real)
    ensures Sum(xs + [x]) == Sum(xs) + x
  {
    if |xs| == 0 {
      assert xs + [x] == [x];
      assert Sum([x]) == x + Sum([]);
    } else {
      assert (xs + [x])[1..] == xs[1..] + [x];
      SumSnoc(xs[1..], x);
    }
  }

  /** If every element is strictly below b, so is their average. */
  lemma {:induction false} SumBelow(xs: seq<real>, b: real)
    requires |xs| > 0
    requires forall k :: 0 <= k < |xs| ==> xs[k] < b
    ensures Sum(xs) < |xs| as real * b
  {
    if |xs| > 1 {
      SumBelow(xs[1..], b);
    }
  }

  /** If every element is strictly above b, so is their average. */
  lemma {:induction false} SumAbove(xs: seq<real>, b: real)
    requires |xs| > 0
    requires forall k :: 0 <= k < |xs| ==> b < xs[k]
    ensures |xs| as real * b < Sum(xs)
  {
    if |xs| > 1 {
      SumAbove(xs[1..], b);
    }
  }

  /** A value m with |xs| * m == Sum(xs) is reached from below and from
      above by some element of xs. */
  lemma SumWitnesses(xs: seq<real>, m: real)
    requires |xs| > 0
    requires Sum(xs) == |xs| as real * m
    ensures exists k :: 0 <= k < |xs| && xs[k] <= m
    ensures exists k :: 0 <= k < |xs| && m <= xs[k]
  {
    if forall k :: 0 <= k < |xs| ==> m < xs[k] {
      SumAbove(xs, m);
    }
    if forall k :: 0 <= k < |xs| ==> xs[k] < m {
      SumBelow(xs, m);
    }
  }

  /** The arithmetic mean of a non-empty sequence: it lies between the least
      and the greatest element. */
  function Mean(xs: seq<real>): (m: real)
    requires |xs| > 0
    ensures |xs| as real * m == Sum(xs)
    ensures exists k :: 0 <= k < |xs| && xs[k] <= m
    ensures exists k :: 0 <= k < |xs| && m <= xs[k]
  {
    var m := Sum(xs) / (|xs| as real);
    SumWitnesses(xs, m);
    m
  }

  /** Length of the trend window and of the volume window. */
  const MaPeriod: nat := 20
  const VolumePeriod: nat := 10

  /** The 20-period simple moving average of closes ending at (and including)
      index i. */
  function SMA20(closes: seq<real>, i: nat): (sma: real)
    requires MaPeriod - 1 <= i < |closes|
  {
    Mean(closes[i - (MaPeriod - 1)..i + 1])
  }

  /** The mean of the 10 volumes immediately before index i (i excluded). */
  function AvgVol10(vols: seq<real>, i: nat): (avg: real)
    requires VolumePeriod <= i <= |vols|
  {
    Mean(vols[i - VolumePeriod..i])
  }

  /** A close lies below the 20-period average that includes it exactly when
      it lies below the average of the 19 closes before it; likewise above. */
  lemma TrendVersusPriorCloses(closes: seq<real>, i: nat)
    requires MaPeriod - 1 <= i < |closes|
    ensures closes[i] < SMA20(closes, i) <==> closes[i] < Mean(closes[i - 19..i])
    ensures closes[i] > SMA20(closes, i) <==> closes[i] > Mean(closes[i - 19..i])
  {
    var prior := closes[i - 19..i];
    assert closes[i - 19..i + 1] == prior + [closes[i]];
    SumSnoc(prior, closes[i]);
  }
}
