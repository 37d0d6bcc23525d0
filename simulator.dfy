/** The trade simulator: one pass over the candles with a Flat / Long / Short
    state machine, fixed-fraction risk sizing, take-profit and stop-loss exits,
    and a capital balance changed only when a position closes.

    Step and Trace are the specification (one candle, and the fold over all
    candles); SimulateTrading is the loop that the original program runs,
    proved equal to Trace. */
module Simulator {
  import opened Candles
  import opened Detector

  datatype Side = Long | Short

  /** The per-trade fields live only inside an open position. */
  datatype State = Flat | Open(side: Side, entry: real, stop: real, target: real, size: real)

  /** initial_capital, risk_per_trade_pct and profit_target_pct. */
  datatype Config = Config(initialCapital: real, riskPct: real, profitPct: real)

  /** The simulator's whole state: capital and the (optional) open position. */
  datatype Sim = Sim(capital: real, state: State)

  /** Every close is a positive price (so an entry price can be divided by). */
  predicate PositiveCloses(cs: seq<Candle>)
  {
    forall k :: 0 <= k < |cs| ==> cs[k].close > 0.0
  }

  predicate EntryPositive(st: State)
  {
    st.Open? ==> st.entry > 0.0
  }

  function Min(a: real, b: real): (m: real) { if b < a then b else a }

  function Max(a: real, b: real): (m: real) { if b > a then b else a }

  /** Long entry on a bullish signal at cur: stop below both candles' lows,
      size so that size * stop distance is the capital at risk. Opens only when
      the stop distance is positive. */
  function OpenLong(cfg: Config, capital: real, cur: Candle, prev: Candle): (st: State)
    ensures st.Flat? <==> cur.close - Min(cur.low, prev.low) <= 0.0
    ensures st.Open? ==> st.side == Long && st.entry == cur.close
    ensures st.Open? ==> st.stop <= cur.low && st.stop <= prev.low
                         && (st.stop == cur.low || st.stop == prev.low)
    ensures st.Open? ==> st.stop < st.entry
                         && st.size * (st.entry - st.stop) == capital * cfg.riskPct
    ensures st.Open? ==> st.target == st.entry * (1.0 + cfg.profitPct)
  {
    var entry := cur.close;
    var stop := Min(cur.low, prev.low);
    var distance := entry - stop;
    if distance > 0.0 then
      Open(Long, entry, stop, entry * (1.0 + cfg.profitPct), capital * cfg.riskPct / distance)
    else
      Flat
  }

  /** Short entry on a bearish signal at cur: the mirror of OpenLong. */
  function OpenShort(cfg: Config, capital: real, cur: Candle, prev: Candle): (st: State)
    ensures st.Flat? <==> Max(cur.high, prev.high) - cur.close <= 0.0
    ensures st.Open? ==> st.side == Short && st.entry == cur.close
    ensures st.Open? ==> st.stop >= cur.high && st.stop >= prev.high
                         && (st.stop == cur.high || st.stop == prev.high)
    ensures st.Open? ==> st.entry < st.stop
                         && st.size * (st.stop - st.entry) == capital * cfg.riskPct
    ensures st.Open? ==> st.target == st.entry * (1.0 - cfg.profitPct)
  {
    var entry := cur.close;
    var stop := Max(cur.high, prev.high);
    var distance := stop - entry;
    if distance > 0.0 then
      Open(Short, entry, stop, entry * (1.0 - cfg.profitPct), capital * cfg.riskPct / distance)
    else
      Flat
  }

  /** The candle reaches the open position's target. */
  predicate TakeProfitHit(st: State, c: Candle)
    requires st.Open?
  {
    if st.side == Long then c.high >= st.target else c.low <= st.target
  }

  /** The candle reaches the open position's stop. */
  predicate StopLossHit(st: State, c: Candle)
    requires st.Open?
  {
    if st.side == Long then c.low <= st.stop else c.high >= st.stop
  }

  /** Capital change when the position is closed at its target. */
  function TakeProfitGain(cfg: Config, st: State): (gain: real)
    requires st.Open? && st.entry != 0.0
  {
    if st.side == Long then st.size * cfg.profitPct
    else (st.entry - st.target) / st.entry * st.size
  }

  /** Capital change (a loss) when the position is closed at its stop. */
  function StopLossLoss(st: State): (loss: real)
    requires st.Open? && st.entry != 0.0
  {
    if st.side == Long then (st.entry - st.stop) / st.entry * st.size
    else (st.stop - st.entry) / st.entry * st.size
  }

  /** One candle of the simulation. With a position open: take-profit is
      checked before stop-loss, at most one of them closes it, and the
      detector is not consulted. While flat: the detector decides whether to
      try an entry, and capital is not touched. */
  function Step(cfg: Config, cs: seq<Candle>, i: nat, s: Sim): (r: Sim)
    requires 1 <= i < |cs| && PositiveCloses(cs) && EntryPositive(s.state)
    ensures EntryPositive(r.state)
    ensures s.state.Flat? ==> r.capital == s.capital
    ensures s.state.Flat? && r.state.Open? ==>
              Detect(cs, i) == (if r.state.side == Long then Bullish else Bearish)
    ensures s.state.Flat? && Detect(cs, i) == Bullish ==>
              r == Sim(s.capital, OpenLong(cfg, s.capital, cs[i], cs[i - 1]))
    ensures s.state.Flat? && Detect(cs, i) == Bearish ==>
              r == Sim(s.capital, OpenShort(cfg, s.capital, cs[i], cs[i - 1]))
    ensures s.state.Flat? && Detect(cs, i) == None ==> r == s
    ensures s.state.Open? ==> r.state.Flat? || r == s
    ensures s.state.Open? && !TakeProfitHit(s.state, cs[i]) && !StopLossHit(s.state, cs[i]) ==> r == s
    ensures r.capital != s.capital ==> s.state.Open? && r.state.Flat?
  {
    match s.state
    case Open(_, _, _, _, _) =>
      if TakeProfitHit(s.state, cs[i]) then Sim(s.capital + TakeProfitGain(cfg, s.state), Flat)
      else if StopLossHit(s.state, cs[i]) then Sim(s.capital - StopLossLoss(s.state), Flat)
      else s
    case Flat =>
      match Detect(cs, i)
      case Bullish => Sim(s.capital, OpenLong(cfg, s.capital, cs[i], cs[i - 1]))
      case Bearish => Sim(s.capital, OpenShort(cfg, s.capital, cs[i], cs[i - 1]))
      case None => s
  }

  /** The state before candle k is processed: candles 1 .. k-1 have been
      stepped through, starting flat with the initial capital. Nothing can
      happen before the detector's warm-up is over. */
  function Trace(cfg: Config, cs: seq<Candle>, k: nat): (r: Sim)
    requires k <= |cs| && PositiveCloses(cs)
    ensures EntryPositive(r.state)
    ensures k <= MinIndex ==> r == Sim(cfg.initialCapital, Flat)
    decreases k
  {
    if k <= 1 then Sim(cfg.initialCapital, Flat)
    else Step(cfg, cs, k - 1, Trace(cfg, cs, k - 1))
  }

  /** The invariant of an open position: entry positive, the stop on the
      losing side of the entry, the target at the configured distance, and
      size times stop distance equal to the capital at risk. */
  predicate Consistent(cfg: Config, s: Sim)
  {
    match s.state
    case Flat => true
    case Open(side, entry, stop, target, size) =>
      entry > 0.0 &&
      (side == Long ==>
        stop < entry && target == entry * (1.0 + cfg.profitPct)
        && size * (entry - stop) == s.capital * cfg.riskPct) &&
      (side == Short ==>
        entry < stop && target == entry * (1.0 - cfg.profitPct)
        && size * (stop - entry) == s.capital * cfg.riskPct)
  }

  lemma StepKeepsConsistent(cfg: Config, cs: seq<Candle>, i: nat, s: Sim)
    requires 1 <= i < |cs| && PositiveCloses(cs) && Consistent(cfg, s)
    ensures Consistent(cfg, Step(cfg, cs, i, s))
  {
  }

  lemma {:induction false} TraceConsistent(cfg: Config, cs: seq<Candle>, k: nat)
    requires k <= |cs| && PositiveCloses(cs)
    ensures Consistent(cfg, Trace(cfg, cs, k))
  {
    if k > 1 {
      TraceConsistent(cfg, cs, k - 1);
      StepKeepsConsistent(cfg, cs, k - 1, Trace(cfg, cs, k - 1));
    }
  }

  /** A take-profit close adds size * profit_target_pct on either side. */
  lemma TakeProfitAddsSizeTimesPct(cfg: Config, cs: seq<Candle>, i: nat, s: Sim)
    requires 1 <= i < |cs| && PositiveCloses(cs) && Consistent(cfg, s)
    requires s.state.Open? && TakeProfitHit(s.state, cs[i])
    ensures Step(cfg, cs, i, s) == Sim(s.capital + s.state.size * cfg.profitPct, Flat)
  {
  }

  /** A stop-loss close (take-profit not reached on that candle) takes away
      capital * risk_per_trade_pct / entry, i.e. the risk amount divided by the
      entry price, on either side. */
  lemma StopLossCostsRiskOverEntry(cfg: Config, cs: seq<Candle>, i: nat, s: Sim)
    requires 1 <= i < |cs| && PositiveCloses(cs) && Consistent(cfg, s)
    requires s.state.Open? && !TakeProfitHit(s.state, cs[i]) && StopLossHit(s.state, cs[i])
    ensures Step(cfg, cs, i, s) == Sim(s.capital - s.capital * cfg.riskPct / s.state.entry, Flat)
  {
  }

  /** Take-profit wins a tie: a candle that reaches both the target and the
      stop closes the position at its target. */
  lemma TakeProfitBeforeStopLoss(cfg: Config, cs: seq<Candle>, i: nat, s: Sim)
    requires 1 <= i < |cs| && PositiveCloses(cs) && EntryPositive(s.state)
    requires s.state.Open? && TakeProfitHit(s.state, cs[i]) && StopLossHit(s.state, cs[i])
    ensures Step(cfg, cs, i, s) == Sim(s.capital + TakeProfitGain(cfg, s.state), Flat)
  {
  }

  /** Candle j opened, from a flat state on a detector signal, the position
      that is still open before candle k, and capital has not moved since. */
  ghost predicate OpenedAt(cfg: Config, cs: seq<Candle>, j: nat, k: nat)
    requires k <= |cs| && PositiveCloses(cs)
  {
    1 <= j < k
    && Trace(cfg, cs, j).state.Flat?
    && Detect(cs, j) != None
    && Trace(cfg, cs, j + 1).state == Trace(cfg, cs, k).state
    && Trace(cfg, cs, j).capital == Trace(cfg, cs, k).capital
  }

  /** A position still open before candle k was opened on some earlier candle
      from a flat state on a detector signal, and capital has not changed
      since: the final capital never includes an unresolved position. */
  lemma {:induction false} OpenPositionNotMarkedToMarket(cfg: Config, cs: seq<Candle>, k: nat)
    requires k <= |cs| && PositiveCloses(cs)
    requires Trace(cfg, cs, k).state.Open?
    ensures exists j :: OpenedAt(cfg, cs, j, k)
  {
    var prev := Trace(cfg, cs, k - 1);
    assert Trace(cfg, cs, k) == Step(cfg, cs, k - 1, prev);
    if prev.state.Open? {
      OpenPositionNotMarkedToMarket(cfg, cs, k - 1);
      var j :| OpenedAt(cfg, cs, j, k - 1);
      assert OpenedAt(cfg, cs, j, k);
    } else {
      assert OpenedAt(cfg, cs, k - 1, k);
    }
  }

  /** The candle-by-candle handling of an open position: take-profit first,
      then stop-loss; capital moves only when one of them closes it. */
  method ManagePosition(cfg: Config, cs: seq<Candle>, i: nat, capital: real, state: State)
    returns (capital': real, state': State)
    requires 1 <= i < |cs| && PositiveCloses(cs)
    requires state.Open? && state.entry > 0.0
    ensures Sim(capital', state') == Step(cfg, cs, i, Sim(capital, state))
  {
    var cur := cs[i];
    var Open(side, entry, stop, target, size) := state;
    capital', state' := capital, state;
    if side == Long {
      if cur.high >= target {
        capital' := capital + size * cfg.profitPct;
        state' := Flat;
      } else if cur.low <= stop {
        capital' := capital - (entry - stop) / entry * size;
        state' := Flat;
      }
    } else {
      if cur.low <= target {
        capital' := capital + (entry - target) / entry * size;
        state' := Flat;
      } else if cur.high >= stop {
        capital' := capital - (stop - entry) / entry * size;
        state' := Flat;
      }
    }
  }

  /** Long entry at cur: stop at the lower of the two lows, risk amount a
      fixed fraction of capital, opened only for a positive stop distance. */
  method EnterLong(cfg: Config, capital: real, cur: Candle, prev: Candle) returns (state': State)
    ensures state' == OpenLong(cfg, capital, cur, prev)
  {
    state' := Flat;
    var entry := cur.close;
    var stop := Min(cur.low, prev.low);
    var riskAmount := capital * cfg.riskPct;
    var distance := entry - stop;
    if distance > 0.0 {
      var size := riskAmount / distance;
      var target := entry * (1.0 + cfg.profitPct);
      state' := Open(Long, entry, stop, target, size);
    }
  }

  /** Short entry at cur: the mirror of EnterLong. */
  method EnterShort(cfg: Config, capital: real, cur: Candle, prev: Candle) returns (state': State)
    ensures state' == OpenShort(cfg, capital, cur, prev)
  {
    state' := Flat;
    var entry := cur.close;
    var stop := Max(cur.high, prev.high);
    var riskAmount := capital * cfg.riskPct;
    var distance := stop - entry;
    if distance > 0.0 {
      var size := riskAmount / distance;
      var target := entry * (1.0 - cfg.profitPct);
      state' := Open(Short, entry, stop, target, size);
    }
  }

  /** The candle-by-candle handling while flat: ask the detector and try the
      entry it points to. Capital is not changed. */
  method TryEntry(cfg: Config, cs: seq<Candle>, i: nat, capital: real) returns (state': State)
    requires 1 <= i < |cs| && PositiveCloses(cs)
    ensures Sim(capital, state') == Step(cfg, cs, i, Sim(capital, Flat))
  {
    state' := Flat;
    var signal := Detect(cs, i);
    if signal == Bullish {
      state' := EnterLong(cfg, capital, cs[i], cs[i - 1]);
    } else if signal == Bearish {
      state' := EnterShort(cfg, capital, cs[i], cs[i - 1]);
    }
  }

  /** The simulation loop over candles 1 .. |cs|-1. Returns the final capital
      and the final state; a final Open state is the position the run leaves
      unresolved. */
  method SimulateTrading(cs: seq<Candle>, cfg: Config) returns (capital: real, state: State)
    requires PositiveCloses(cs)
    ensures Sim(capital, state) == Trace(cfg, cs, |cs|)
    ensures Consistent(cfg, Sim(capital, state))
  {
    capital := cfg.initialCapital;
    state := Flat;
    var i := 1;
    while i < |cs|
      invariant 1 <= i && (i <= |cs| || |cs| == 0)
      invariant Sim(capital, state) == Trace(cfg, cs, if |cs| == 0 then 0 else i)
    {
      if state.Open? {
        capital, state := ManagePosition(cfg, cs, i, capital, state);
      } else {
        state := TryEntry(cfg, cs, i, capital);
      }
      i := i + 1;
    }
    TraceConsistent(cfg, cs, |cs|);
  }

  /** The worked example: capital 1000, 1% risk, 2% target; a long entry at
      100 with the stop at 98 risks 10, buys 5 units with target 102, and a
      next candle reaching 103 closes it for capital 1000.1. */
  lemma WorkedExample()
    ensures var cfg := Config(1000.0, 0.01, 0.02);
            var prev := Candle(101.0, 101.5, 98.0, 99.0, 1.0);
            var cur := Candle(98.5, 100.5, 98.5, 100.0, 2.0);
            var next := Candle(100.0, 103.0, 99.5, 102.5, 1.0);
            OpenLong(cfg, 1000.0, cur, prev) == Open(Long, 100.0, 98.0, 102.0, 5.0)
            && Step(cfg, [prev, cur, next], 2, Sim(1000.0, Open(Long, 100.0, 98.0, 102.0, 5.0)))
               == Sim(1000.1, Flat)
  {
  }
}
