/**
 * Signal detector: the decision rule over the three most recent candles
 * (the climax candle and two confirmation candles) and the two baselines.
 */
module Detector {
  import opened Wrappers
  import opened Candles
  import opened Baseline

  datatype Direction = Buy | Sell

  /** A fired signal: direction, stop-loss and take-profit levels, the
      climax candle's time and the symbol under observation. */
  datatype Signal = Signal(kind: Direction, sl: real, tp: real, time: int, symbol: string)

  /** Selling climax on a non-bearish candle: the guard of the BUY branch. */
  predicate BuyClimax(sc: Candle, avgSell: real) {
    sc.sell > avgSell * 1.5 && sc.close >= sc.open
  }

  /** Two candles of strengthening buying pressure after the climax. */
  predicate BuyConfirmed(r1: Candle, r2: Candle, avgBuy: real) {
    r1.buy > avgBuy && r2.buy > r1.buy
  }

  /** Buying climax on a non-bullish candle: the guard of the SELL branch. */
  predicate SellClimax(sc: Candle, avgBuy: real) {
    sc.buy > avgBuy * 1.5 && sc.close <= sc.open
  }

  /** Two candles of strengthening selling pressure after the climax. */
  predicate SellConfirmed(r1: Candle, r2: Candle, avgSell: real) {
    r1.sell > avgSell && r2.sell > r1.sell
  }

  /** Stop-loss below and take-profit above the entry price. */
  predicate BracketsLong(s: Signal, entry: real) {
    s.sl < entry < s.tp
  }

  /** Take-profit below and stop-loss above the entry price. */
  predicate BracketsShort(s: Signal, entry: real) {
    s.tp < entry < s.sl
  }

  /**
   * The detection rule. `data` is non-empty: on an empty series script.js
   * dereferences a missing candle. With at most three candles the baseline
   * is empty, its mean is NaN and no comparison holds, so nothing fires.
   * The SELL branch is an `else` of the BUY climax guard: it is not tried
   * when the climax guard held and only the BUY confirmation failed.
   */
  function Detect(data: seq<Candle>, symbol: string): (r: Option<Signal>)
    requires |data| > 0
    ensures |data| <= RecentCount ==> r == None
    ensures r.Some? ==> |data| > RecentCount
    // a fired signal refers to the climax candle and the caller's symbol
    ensures r.Some? ==> r.value.time == data[|data| - 3].time && r.value.symbol == symbol
    // BUY exactly when the climax and confirmation conditions all hold
    ensures r.Some? && r.value.kind == Buy <==>
      |data| > RecentCount &&
      BuyClimax(data[|data| - 3], AvgSell(data).value) &&
      BuyConfirmed(data[|data| - 2], data[|data| - 1], AvgBuy(data).value)
    // SELL exactly when the BUY climax guard fails and the mirrored conditions hold
    ensures r.Some? && r.value.kind == Sell <==>
      |data| > RecentCount &&
      !BuyClimax(data[|data| - 3], AvgSell(data).value) &&
      SellClimax(data[|data| - 3], AvgBuy(data).value) &&
      SellConfirmed(data[|data| - 2], data[|data| - 1], AvgSell(data).value)
    ensures r.Some? && r.value.kind == Buy ==>
      r.value.sl == 0.98 * data[|data| - 3].close && r.value.tp == 1.04 * data[|data| - 3].close
    ensures r.Some? && r.value.kind == Sell ==>
      r.value.sl == 1.02 * data[|data| - 3].close && r.value.tp == 0.96 * data[|data| - 3].close
    // the levels bracket a positive entry price on the protective side
    ensures r.Some? && r.value.kind == Buy && data[|data| - 3].close > 0.0 ==>
      BracketsLong(r.value, data[|data| - 3].close)
    ensures r.Some? && r.value.kind == Sell && data[|data| - 3].close > 0.0 ==>
      BracketsShort(r.value, data[|data| - 3].close)
  {
    if |data| <= RecentCount then None
    else
      var avgSell := AvgSell(data).value;
      var avgBuy := AvgBuy(data).value;
      var recent := data[|data| - RecentCount..];
      var sc := recent[0];
      if BuyClimax(sc, avgSell) then
        if BuyConfirmed(recent[1], recent[2], avgBuy) then
          Some(Signal(Buy, sc.close * 0.98, sc.close * 1.04, sc.time, symbol))
        else None
      else if SellClimax(sc, avgBuy) then
        if SellConfirmed(recent[1], recent[2], avgSell) then
          Some(Signal(Sell, sc.close * 1.02, sc.close * 0.96, sc.time, symbol))
        else None
      else None
  }

  /** The SELL branch is shadowed by the BUY climax guard: a climax candle
      that passes it never yields a SELL, even when every SELL condition
      holds (possible only on a flat candle). */
  lemma {:induction false} BuyClimaxShadowsSell(data: seq<Candle>, symbol: string)
    requires |data| > RecentCount
    requires BuyClimax(data[|data| - 3], AvgSell(data).value)
    requires !BuyConfirmed(data[|data| - 2], data[|data| - 1], AvgBuy(data).value)
    ensures Detect(data, symbol) == None
    ensures SellClimax(data[|data| - 3], AvgBuy(data).value) ==> data[|data| - 3].close == data[|data| - 3].open
  {
  }

  /** A climax candle that is just like every baseline candle never fires,
      whatever the two confirmation candles are: with non-negative pressures
      it equals its own baselines and cannot exceed one and a half times
      them. */
  lemma {:induction false} UniformMarketIsQuiet(data: seq<Candle>, symbol: string)
    requires |data| > 0
    requires |data| > RecentCount ==>
      forall i :: 0 <= i < |data| - RecentCount ==> data[i] == data[|data| - 3]
    requires data[0].buy >= 0.0 && data[0].sell >= 0.0
    ensures Detect(data, symbol) == None
  {
    if |data| > RecentCount {
      var w := Window(data);
      var sc := data[|data| - 3];
      MeanConstant(Buys(w), sc.buy);
      MeanConstant(Sells(w), sc.sell);
    }
  }
}
