/**
 * Baseline averager: the mean buying and selling pressure over every candle
 * except the three under evaluation.
 *
 * script.js divides the sum by the length, so an empty baseline yields NaN;
 * here that case is the explicit `None`.
 */
module Baseline {
  import opened Wrappers
  import opened Candles

  /** Number of most recent candles the detector evaluates. */
  const RecentCount: nat := 3

  /** Left-to-right sum starting from 0, the order of `reduce`. */
  function Sum(xs: seq<real>): real {
    if xs == [] then 0.0 else Sum(xs[..|xs| - 1]) + xs[|xs| - 1]
  }

  /** Folding from the right gives the same sum: the order of `reduce`
      does not matter over the reals. */
  lemma {:induction false} SumRightFold(xs: seq<real>)
    requires xs != []
    ensures Sum(xs) == xs[0] + Sum(xs[1..])
  {
    var n := |xs|;
    if n > 1 {
      SumRightFold(xs[..n - 1]);
      assert xs[..n - 1][1..] == xs[1..][..n - 2];
    }
  }

  /** Arithmetic mean; `None` stands for the NaN of `0 / 0`. */
  function Mean(xs: seq<real>): (r: Option<real>)
    ensures r.Some? <==> |xs| > 0
    ensures r.Some? ==> r.value * (|xs| as real) == Sum(xs)
  {
    if |xs| == 0 then None else Some(Sum(xs) / (|xs| as real))
  }

  function Buys(data: seq<Candle>): (r: seq<real>)
    ensures |r| == |data| && forall i :: 0 <= i < |data| ==> r[i] == data[i].buy
  {
    seq(|data|, i requires 0 <= i < |data| => data[i].buy)
  }

  function Sells(data: seq<Candle>): (r: seq<real>)
    ensures |r| == |data| && forall i :: 0 <= i < |data| ==> r[i] == data[i].sell
  {
    seq(|data|, i requires 0 <= i < |data| => data[i].sell)
  }

  function Volumes(data: seq<Candle>): (r: seq<real>)
    ensures |r| == |data| && forall i :: 0 <= i < |data| ==> r[i] == data[i].volume
  {
    seq(|data|, i requires 0 <= i < |data| => data[i].volume)
  }

  /** The baseline window, `data.slice(0, -3)`: everything but the last
      three candles, and nothing when there are at most three. */
  function Window(data: seq<Candle>): (w: seq<Candle>)
    ensures |data| <= RecentCount ==> w == []
    ensures |data| > RecentCount ==> |w| == |data| - RecentCount
    ensures w == data[..|w|]
  {
    if |data| <= RecentCount then [] else data[..|data| - RecentCount]
  }

  /** Mean buying pressure of the baseline window. */
  function AvgBuy(data: seq<Candle>): (r: Option<real>)
    ensures r.Some? <==> |data| > RecentCount
    ensures r.Some? ==> r.value * ((|data| - RecentCount) as real) == Sum(Buys(data[..|data| - RecentCount]))
  {
    Mean(Buys(Window(data)))
  }

  /** Mean selling pressure of the baseline window. */
  function AvgSell(data: seq<Candle>): (r: Option<real>)
    ensures r.Some? <==> |data| > RecentCount
    ensures r.Some? ==> r.value * ((|data| - RecentCount) as real) == Sum(Sells(data[..|data| - RecentCount]))
  {
    Mean(Sells(Window(data)))
  }

  /** The sum of a sequence of equal values. */
  lemma {:induction false} SumConstant(xs: seq<real>, c: real)
    requires forall i :: 0 <= i < |xs| ==> xs[i] == c
    ensures Sum(xs) == (|xs| as real) * c
  {
    if xs != [] {
      SumConstant(xs[..|xs| - 1], c);
    }
  }

  /** The mean of a non-empty sequence of equal values is that value. */
  lemma MeanConstant(xs: seq<real>, c: real)
    requires |xs| > 0
    requires forall i :: 0 <= i < |xs| ==> xs[i] == c
    ensures Mean(xs) == Some(c)
  {
    SumConstant(xs, c);
    var n := |xs| as real;
    var m := Mean(xs).value;
    assert m * n == Sum(xs) == n * c;
    CancelFactor(m, c, n);
  }

  /** Sum distributes over the buy/sell split of each candle. */
  lemma {:induction false} SumSplit(data: seq<Candle>)
    requires forall i :: 0 <= i < |data| ==> data[i].buy + data[i].sell == data[i].volume
    ensures Sum(Buys(data)) + Sum(Sells(data)) == Sum(Volumes(data))
  {
    if data != [] {
      var init := data[..|data| - 1];
      assert Buys(data)[..|data| - 1] == Buys(init);
      assert Sells(data)[..|data| - 1] == Sells(init);
      assert Volumes(data)[..|data| - 1] == Volumes(init);
      SumSplit(init);
    }
  }

  /** A real equation can be divided by a positive factor. */
  lemma CancelFactor(x: real, y: real, n: real)
    requires n > 0.0 && (x * n == y * n || x * n == n * y)
    ensures x == y
  {
    assert (x - y) * n == 0.0;
  }

  /** Quotients by a common positive factor add up when the dividends do. */
  lemma SharesAdd(b: real, s: real, v: real, n: real, bn: real, sn: real, vn: real)
    requires n > 0.0 && b * n == bn && s * n == sn && v * n == vn && bn + sn == vn
    ensures b + s == v
  {
    assert (b + s) * n == v * n;
    CancelFactor(b + s, v, n);
  }

  /** When every candle's buy and sell add up to its volume, the two means
      add up to the mean volume. */
  lemma MeanSplit(w: seq<Candle>)
    requires |w| > 0
    requires forall i :: 0 <= i < |w| ==> w[i].buy + w[i].sell == w[i].volume
    ensures Mean(Buys(w)).value + Mean(Sells(w)).value == Mean(Volumes(w)).value
  {
    SumSplit(w);
    var n := |w| as real;
    var b, s, v := Mean(Buys(w)).value, Mean(Sells(w)).value, Mean(Volumes(w)).value;
    SharesAdd(b, s, v, n, Sum(Buys(w)), Sum(Sells(w)), Sum(Volumes(w)));
  }

  /** On normalized candles the two baselines add up to the mean volume of
      the baseline window. */
  lemma BaselineSplitsVolume(raw: seq<RawCandle>)
    requires |raw| > RecentCount
    ensures AvgBuy(Normalize(raw)).value + AvgSell(Normalize(raw)).value == Mean(Volumes(Window(Normalize(raw)))).value
  {
    var data := Normalize(raw);
    var w := Window(data);
    forall i | 0 <= i < |w| ensures w[i].buy + w[i].sell == w[i].volume {
      assert w[i] == NormalizeCandle(raw[i]);
    }
    MeanSplit(w);
  }
}
