/** The engulfing-pattern detector: a pure function of the candle series and
    an index that combines candle shape, a volume filter and a (contrarian)
    trend filter into one directional signal. */
module Detector {
  import opened Candles

  datatype Signal = None | Bullish | Bearish

  /** The detector needs this many candles of history before it may signal. */
  const MinIndex: nat := 20

  predicate IsBullishCandle(c: Candle) { c.close > c.open }

  predicate IsBearishCandle(c: Candle) { c.close < c.open }

  /** Size of a candle's open/close body. */
  function Body(c: Candle): (b: real)
    ensures b >= 0.0
    ensures b == c.close - c.open || b == c.open - c.close
  {
    if c.close - c.open < 0.0 then c.open - c.close else c.close - c.open
  }

  /** The current body engulfs the previous one upwards. */
  predicate BullishEngulfs(cur: Candle, prev: Candle)
  {
    cur.close > prev.open && cur.open < prev.close
  }

  /** The current body engulfs the previous one downwards. */
  predicate BearishEngulfs(cur: Candle, prev: Candle)
  {
    cur.close < prev.open && cur.open > prev.close
  }

  predicate BodyLarger(cur: Candle, prev: Candle)
  {
    Body(cur) > Body(prev)
  }

  /** Volume at i exceeds the mean of the 10 volumes before it. */
  predicate VolumeConfirmed(cs: seq<Candle>, i: nat)
    requires VolumePeriod <= i < |cs|
  {
    cs[i].volume > AvgVol10(Volumes(cs), i)
  }

  /** Close at i is above / below the 20-close moving average ending at i. */
  predicate InUptrend(cs: seq<Candle>, i: nat)
    requires MaPeriod - 1 <= i < |cs|
  {
    cs[i].close > SMA20(Closes(cs), i)
  }

  predicate InDowntrend(cs: seq<Candle>, i: nat)
    requires MaPeriod - 1 <= i < |cs|
  {
    cs[i].close < SMA20(Closes(cs), i)
  }

  /** All six bullish conditions. The trend filter is contrarian: a bullish
      reversal needs the close BELOW its moving average. */
  predicate BullishPattern(cs: seq<Candle>, i: nat)
    requires MinIndex <= i < |cs|
  {
    var cur, prev := cs[i], cs[i - 1];
    IsBearishCandle(prev) && IsBullishCandle(cur) && BullishEngulfs(cur, prev)
    && BodyLarger(cur, prev) && VolumeConfirmed(cs, i) && InDowntrend(cs, i)
  }

  /** All six bearish conditions, with the close ABOVE its moving average. */
  predicate BearishPattern(cs: seq<Candle>, i: nat)
    requires MinIndex <= i < |cs|
  {
    var cur, prev := cs[i], cs[i - 1];
    IsBullishCandle(prev) && IsBearishCandle(cur) && BearishEngulfs(cur, prev)
    && BodyLarger(cur, prev) && VolumeConfirmed(cs, i) && InUptrend(cs, i)
  }

  /** The detector. Bullish is tested first; Bearish is reported exactly when
      its own six conditions hold, because the two are mutually exclusive. */
  function Detect(cs: seq<Candle>, i: nat): (s: Signal)
    requires i < |cs|
    ensures i < MinIndex ==> s == None
    ensures s == Bullish <==> MinIndex <= i && BullishPattern(cs, i)
    ensures s == Bearish <==> MinIndex <= i && BearishPattern(cs, i)
  {
    if i < MinIndex then None
    else if BullishPattern(cs, i) then Bullish
    else if BearishPattern(cs, i) then Bearish
    else None
  }

  /** No index satisfies both patterns: they ask for opposite body directions
      of both candles. */
  lemma PatternsExclusive(cs: seq<Candle>, i: nat)
    requires MinIndex <= i < |cs|
    ensures !(BullishPattern(cs, i) && BearishPattern(cs, i))
  {
  }

  /** What a Bullish signal says about the two candles, spelled out. */
  lemma BullishSignalMeans(cs: seq<Candle>, i: nat)
    requires i < |cs| && Detect(cs, i) == Bullish
    ensures MinIndex <= i
    ensures cs[i - 1].close < cs[i - 1].open && cs[i].close > cs[i].open
    ensures cs[i].close > cs[i - 1].open && cs[i].open < cs[i - 1].close
    ensures cs[i].close - cs[i].open > cs[i - 1].open - cs[i - 1].close
    ensures cs[i].volume > Mean(Volumes(cs)[i - 10..i])
    ensures cs[i].close < Mean(Closes(cs)[i - 19..i + 1])
  {
  }

  /** What a Bearish signal says about the two candles, spelled out. */
  lemma BearishSignalMeans(cs: seq<Candle>, i: nat)
    requires i < |cs| && Detect(cs, i) == Bearish
    ensures MinIndex <= i
    ensures cs[i - 1].close > cs[i - 1].open && cs[i].close < cs[i].open
    ensures cs[i].close < cs[i - 1].open && cs[i].open > cs[i - 1].close
    ensures cs[i].open - cs[i].close > cs[i - 1].close - cs[i - 1].open
    ensures cs[i].volume > Mean(Volumes(cs)[i - 10..i])
    ensures cs[i].close > Mean(Closes(cs)[i - 19..i + 1])
  {
  }

  /** The body-size test can never be the deciding condition: opposite
      directions plus an engulfing body already make the current body larger. */
  lemma BodyTestImpliedByEngulf(cur: Candle, prev: Candle)
    ensures IsBearishCandle(prev) && IsBullishCandle(cur) && BullishEngulfs(cur, prev)
            ==> BodyLarger(cur, prev)
    ensures IsBullishCandle(prev) && IsBearishCandle(cur) && BearishEngulfs(cur, prev)
            ==> BodyLarger(cur, prev)
  {
  }

  /** A signal needs a volume spike: some candle of the 10 before i traded
      strictly less than candle i. */
  lemma SignalNeedsQuieterCandle(cs: seq<Candle>, i: nat)
    requires i < |cs| && Detect(cs, i) != None
    ensures exists k :: i - 10 <= k < i && cs[k].volume < cs[i].volume
  {
  }

  /** The contrarian polarity of the trend filter: a Bullish signal fires only
      after some of the 19 previous closes was strictly higher than the
      signal close, a Bearish one only after some was strictly lower. */
  lemma TrendFilterIsContrarian(cs: seq<Candle>, i: nat)
    requires i < |cs| && Detect(cs, i) != None
    ensures Detect(cs, i) == Bullish ==> exists k :: i - 19 <= k < i && cs[k].close > cs[i].close
    ensures Detect(cs, i) == Bearish ==> exists k :: i - 19 <= k < i && cs[k].close < cs[i].close
  {
  }
}
