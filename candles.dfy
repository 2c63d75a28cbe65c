/**
 * Candle normalizer: the per-candle mapping that turns an exchange kline
 * into a candle record with an estimated 70/30 split of its volume into
 * buying and selling pressure.
 *
 * Prices and volumes are mathematical reals; parsing the exchange's decimal
 * strings is not modelled, and the display formatting of the open time is
 * replaced by the raw open time itself.
 */
module Candles {

  /** One kline as the exchange delivers it (open time, OHLC, volume). */
  datatype RawCandle = RawCandle(openTime: int, open: real, high: real, low: real, close: real, volume: real)

  /** The normalized candle consumed by the detector and the averager. */
  datatype Candle = Candle(time: int, open: real, close: real, volume: real, buy: real, sell: real)

  /** The share of volume attributed to the dominant side. */
  const MajorityShare: real := 0.7
  /** The share of volume attributed to the other side. */
  const MinorityShare: real := 0.3

  predicate IsBearish(c: RawCandle) {
    c.close < c.open
  }

  /** Normalizes one kline: 70% of the volume to buyers, 30% to sellers,
      and the other way round on a bearish candle. */
  function NormalizeCandle(c: RawCandle): (k: Candle)
    ensures k.time == c.openTime && k.open == c.open && k.close == c.close && k.volume == c.volume
    ensures k.buy + k.sell == k.volume
    ensures (k.buy == 0.7 * c.volume && k.sell == 0.3 * c.volume) ||
            (k.buy == 0.3 * c.volume && k.sell == 0.7 * c.volume)
    // the 70% share goes to sellers exactly on a bearish candle
    ensures c.volume != 0.0 ==> (k.sell == 0.7 * c.volume <==> IsBearish(c))
    ensures c.volume > 0.0 ==> (k.sell > k.buy <==> IsBearish(c))
    ensures c.volume >= 0.0 && !IsBearish(c) ==> k.buy >= k.sell
    ensures c.volume >= 0.0 && IsBearish(c) ==> k.buy <= k.sell
  {
    var buy := MajorityShare * c.volume;
    var sell := MinorityShare * c.volume;
    if IsBearish(c) then
      Candle(c.openTime, c.open, c.close, c.volume, sell, buy)
    else
      Candle(c.openTime, c.open, c.close, c.volume, buy, sell)
  }

  /** The whole mapping over a kline series: same length, same order. */
  function Normalize(data: seq<RawCandle>): (r: seq<Candle>)
    ensures |r| == |data|
    ensures forall i :: 0 <= i < |data| ==> r[i] == NormalizeCandle(data[i])
  {
    if data == [] then [] else [NormalizeCandle(data[0])] + Normalize(data[1..])
  }

  /** Normalizing a concatenation is concatenating the normalizations. */
  lemma {:induction false} NormalizeAppend(a: seq<RawCandle>, b: seq<RawCandle>)
    ensures Normalize(a + b) == Normalize(a) + Normalize(b)
  {
    if a == [] {
      assert a + b == b;
    } else {
      assert (a + b)[1..] == a[1..] + b;
      NormalizeAppend(a[1..], b);
    }
  }
}
