/**
 * Concrete detection passes over normalized klines: a BUY reversal, its
 * SELL mirror image, and a flat climax candle that passes both climax
 * guards, where the `else if` structure suppresses the SELL signal.
 */
module Scenarios {
  import opened Wrappers
  import opened Candles
  import opened Baseline
  import opened Detector

  function Repeat(c: RawCandle, n: nat): (r: seq<RawCandle>)
    ensures |r| == n && forall i :: 0 <= i < n ==> r[i] == c
  {
    seq(n, _ => c)
  }

  /** A kline series: seven baseline klines followed by the climax and the
      two confirmation klines. */
  function Series(base: RawCandle, climax: RawCandle, first: RawCandle, second: RawCandle): seq<RawCandle> {
    Repeat(base, 7) + [climax, first, second]
  }

  /** The baselines of such a series are the split of the repeated kline. */
  lemma SeriesBaselines(base: RawCandle, climax: RawCandle, first: RawCandle, second: RawCandle)
    ensures var data := Normalize(Series(base, climax, first, second));
      |data| == 10 &&
      AvgBuy(data) == Some(NormalizeCandle(base).buy) &&
      AvgSell(data) == Some(NormalizeCandle(base).sell) &&
      data[7] == NormalizeCandle(climax) &&
      data[8] == NormalizeCandle(first) &&
      data[9] == NormalizeCandle(second)
  {
    var raw := Series(base, climax, first, second);
    var data := Normalize(raw);
    var w := Window(data);
    assert |w| == 7;
    forall i | 0 <= i < 7 ensures w[i] == NormalizeCandle(base) {
      assert raw[i] == base;
    }
    MeanConstant(Buys(w), NormalizeCandle(base).buy);
    MeanConstant(Sells(w), NormalizeCandle(base).sell);
    assert raw[7] == climax && raw[8] == first && raw[9] == second;
  }

  /** Bullish baseline (buy 7, sell 3), a bullish climax with selling
      pressure 6 > 4.5, then buying pressure 14 > 7 and 21 > 14: a BUY at
      entry 101 with stop-loss 98.98 and take-profit 105.04. */
  lemma BuyReversal()
    ensures Detect(Normalize(Series(
              RawCandle(1, 100.0, 102.0, 99.0, 101.0, 10.0),
              RawCandle(8, 100.0, 102.0, 99.0, 101.0, 20.0),
              RawCandle(9, 101.0, 103.0, 100.0, 102.0, 20.0),
              RawCandle(10, 102.0, 104.0, 101.0, 103.0, 30.0))), "BTCUSDT")
            == Some(Signal(Buy, 98.98, 105.04, 8, "BTCUSDT"))
  {
    SeriesBaselines(
      RawCandle(1, 100.0, 102.0, 99.0, 101.0, 10.0),
      RawCandle(8, 100.0, 102.0, 99.0, 101.0, 20.0),
      RawCandle(9, 101.0, 103.0, 100.0, 102.0, 20.0),
      RawCandle(10, 102.0, 104.0, 101.0, 103.0, 30.0));
  }

  /** The mirror image: bearish baseline (buy 3, sell 7), a bearish climax
      with buying pressure 6 > 4.5, then selling pressure 14 > 7 and 21 > 14:
      a SELL at entry 99 with stop-loss 100.98 and take-profit 95.04. */
  lemma SellReversal()
    ensures Detect(Normalize(Series(
              RawCandle(1, 101.0, 102.0, 99.0, 100.0, 10.0),
              RawCandle(8, 100.0, 101.0, 98.0, 99.0, 20.0),
              RawCandle(9, 99.0, 100.0, 97.0, 98.0, 20.0),
              RawCandle(10, 98.0, 99.0, 96.0, 97.0, 30.0))), "ETHUSDT")
            == Some(Signal(Sell, 100.98, 95.04, 8, "ETHUSDT"))
  {
    SeriesBaselines(
      RawCandle(1, 101.0, 102.0, 99.0, 100.0, 10.0),
      RawCandle(8, 100.0, 101.0, 98.0, 99.0, 20.0),
      RawCandle(9, 99.0, 100.0, 97.0, 98.0, 20.0),
      RawCandle(10, 98.0, 99.0, 96.0, 97.0, 30.0));
  }

  /** Bullish baseline (buy 7, sell 3); a flat climax of volume 20 passes
      both climax guards (sell 6 > 4.5 and buy 14 > 10.5); the two bearish
      confirmation klines fail the BUY confirmation but satisfy the SELL one
      (sell 7 > 3, 14 > 7). No signal fires: the SELL branch is never tried. */
  lemma FlatClimaxSuppressesSell()
    ensures var data := Normalize(Series(
              RawCandle(1, 100.0, 102.0, 99.0, 101.0, 10.0),
              RawCandle(8, 101.0, 102.0, 100.0, 101.0, 20.0),
              RawCandle(9, 101.0, 102.0, 99.0, 100.0, 10.0),
              RawCandle(10, 100.0, 101.0, 98.0, 99.0, 20.0)));
      && SellClimax(data[7], AvgBuy(data).value)
      && SellConfirmed(data[8], data[9], AvgSell(data).value)
      && Detect(data, "BTCUSDT") == None
  {
    SeriesBaselines(
      RawCandle(1, 100.0, 102.0, 99.0, 101.0, 10.0),
      RawCandle(8, 101.0, 102.0, 100.0, 101.0, 20.0),
      RawCandle(9, 101.0, 102.0, 99.0, 100.0, 10.0),
      RawCandle(10, 100.0, 101.0, 98.0, 99.0, 20.0));
  }
}
