/** The synthetic candlestick generator of the price chart: the initial
    history for a selected time range, the once-a-second tick that evicts the
    oldest candle and appends a new one, the visible window, the padded price
    range and the vertical scale of the chart.

    Prices are exact reals. Every call to the random source is a draw in
    [0, 1) handed in as a parameter, and the wall clock is the parameter `now`. */
module TradingChart {

  import opened Wrappers
  import opened Extrema
  import opened Draws

  datatype TimeRange = OneHour | FourHours | OneDay

  /** Length of the history for a time range, in milliseconds: a whole,
      positive number of hours. */
  function RangeDuration(r: TimeRange): (d: nat)
    ensures d > 0 && d % (60 * 60 * 1000) == 0
  {
    match r
    case OneHour => 60 * 60 * 1000
    case FourHours => 4 * 60 * 60 * 1000
    case OneDay => 24 * 60 * 60 * 1000
  }

  /** Width of one candle for a time range, in milliseconds: a whole,
      positive number of minutes that divides the range. */
  function CandleInterval(r: TimeRange): (i: nat)
    ensures i > 0 && i % (60 * 1000) == 0
    ensures RangeDuration(r) % i == 0
  {
    match r
    case OneHour => 60 * 1000
    case FourHours => 5 * 60 * 1000
    case OneDay => 15 * 60 * 1000
  }

  /** Number of candles in the initial history: the range divides into whole candles. */
  function NumCandles(r: TimeRange): (n: nat)
    ensures n > 0 && n * CandleInterval(r) == RangeDuration(r)
    ensures r == OneHour ==> n == 60
    ensures r == FourHours ==> n == 48
    ensures r == OneDay ==> n == 96
  {
    RangeDuration(r) / CandleInterval(r)
  }

  const VISIBLE_CANDLES: nat := 50
  const TREND_CHANGE_PROBABILITY: real := 0.1
  const BASE_VOLATILITY: real := 0.001
  const MAX_TREND: real := 0.002
  const INITIAL_PRICE: real := 100.0
  const PRICE_POINTS: nat := 10

  datatype Candle = Candle(timestamp: int, open: real, high: real, low: real, close: real, volume: real)

  /** The random draws one candle consumes, in the order the generator asks for
      them: the roll that decides whether the trend changes, the new trend's
      draw (consumed only when the roll is below the change probability), one
      draw per intra-candle price point, and the volume draw. */
  datatype CandleDraws = CandleDraws(trendRoll: real, trendDraw: real, ticks: seq<real>, volumeDraw: real)

  predicate DrawsOk(d: CandleDraws)
  {
    && Unit(d.trendRoll)
    && Unit(d.trendDraw)
    && |d.ticks| == PRICE_POINTS
    && (forall j :: 0 <= j < |d.ticks| ==> Unit(d.ticks[j]))
    && Unit(d.volumeDraw)
  }

  predicate TrendInBounds(t: real)
  {
    -MAX_TREND <= t < MAX_TREND
  }

  /** The trend after one candle's roll: a fresh draw in [-MAX_TREND, MAX_TREND)
      with the change probability, otherwise the old trend. */
  function NextTrend(trend: real, d: CandleDraws): (t: real)
    ensures d.trendRoll >= TREND_CHANGE_PROBABILITY ==> t == trend
    ensures Unit(d.trendDraw) && TrendInBounds(trend) ==> TrendInBounds(t)
  {
    if d.trendRoll < TREND_CHANGE_PROBABILITY then (d.trendDraw - 0.5) * 2.0 * MAX_TREND else trend
  }

  /** The trend after a run of candles, starting from `trend`; it stays put when
      no roll falls below the change probability. */
  function TrendAfter(trend: real, ds: seq<CandleDraws>): (t: real)
    ensures (forall k :: 0 <= k < |ds| ==> ds[k].trendRoll >= TREND_CHANGE_PROBABILITY) ==> t == trend
    decreases |ds|
  {
    if |ds| == 0 then trend else NextTrend(TrendAfter(trend, ds[..|ds| - 1]), ds[|ds| - 1])
  }

  /** The relative move of one price point: uniform noise of at most
      BASE_VOLATILITY either way, plus the trend. */
  function PriceChange(r: real, trend: real): (c: real)
    ensures Unit(r) && TrendInBounds(trend) ==> -0.003 <= c < 0.003
  {
    (r - 0.5) * 2.0 * BASE_VOLATILITY + trend
  }

  /** One intra-candle price: a perturbation of the candle's open price (not of
      the previous price point), so it stays within 0.3% of the open. */
  function PricePoint(basePrice: real, trend: real, r: real): (p: real)
    ensures basePrice > 0.0 && Unit(r) && TrendInBounds(trend) ==> 0.997 * basePrice <= p < 1.003 * basePrice
  {
    var factor := 1.0 + PriceChange(r, trend);
    if basePrice > 0.0 && 0.997 <= factor < 1.003 then ScaleBounds(basePrice, factor); basePrice * factor
    else basePrice * factor
  }

  /** Scaling a positive price by a factor in [0.997, 1.003) keeps it within
      0.3% of itself. */
  lemma ScaleBounds(price: real, factor: real)
    requires price > 0.0 && 0.997 <= factor < 1.003
    ensures 0.997 * price <= price * factor < 1.003 * price
  {
    assert price * factor - 0.997 * price == price * (factor - 0.997);
    assert 1.003 * price - price * factor == price * (1.003 - factor);
  }

  /** Every intra-candle price stays within 0.3% of the open, so all of them
      stay positive: prices do not drift within a candle. */
  lemma PricePathBounds(basePrice: real, trend: real, ticks: seq<real>)
    requires basePrice > 0.0 && TrendInBounds(trend)
    requires forall j :: 0 <= j < |ticks| ==> Unit(ticks[j])
    ensures forall j :: 0 <= j < |ticks| ==>
      0.0 < 0.997 * basePrice <= PricePath(basePrice, trend, ticks)[j] < 1.003 * basePrice
  {
    forall j | 0 <= j < |ticks|
      ensures 0.0 < 0.997 * basePrice <= PricePath(basePrice, trend, ticks)[j] < 1.003 * basePrice
    {
      assert PricePath(basePrice, trend, ticks)[j] == PricePoint(basePrice, trend, ticks[j]);
    }
  }

  /** All intra-candle prices of a candle, in order. */
  function PricePath(basePrice: real, trend: real, ticks: seq<real>): (p: seq<real>)
    ensures |p| == |ticks|
  {
    seq(|ticks|, j requires 0 <= j < |ticks| => PricePoint(basePrice, trend, ticks[j]))
  }

  /** The candle the generator builds: it opens at `basePrice`, its high and low
      are the extremes of the open and every price point, it closes at the last
      price point, and its volume is a uniform draw in [50, 150). */
  function CandleOf(timestamp: int, basePrice: real, trend: real, d: CandleDraws): (c: Candle)
    ensures c.timestamp == timestamp && c.open == basePrice
  {
    var path := PricePath(basePrice, trend, d.ticks);
    var prices := [basePrice] + path;
    var close := if |path| == 0 then basePrice else path[|path| - 1];
    Candle(timestamp, basePrice, SeqMax(prices), SeqMin(prices), close, d.volumeDraw * 100.0 + 50.0)
  }

  /** The shape every generated candle has. */
  predicate WellFormed(c: Candle)
  {
    && 0.0 < c.low <= c.open <= c.high
    && c.low <= c.close <= c.high
    && 50.0 <= c.volume < 150.0
  }

  /** The extremes of a candle bound every intra-candle price, and its close is
      the last price point. */
  lemma CandleOfExtremes(timestamp: int, basePrice: real, trend: real, d: CandleDraws)
    requires |d.ticks| == PRICE_POINTS
    ensures var c := CandleOf(timestamp, basePrice, trend, d);
      && (forall j :: 0 <= j < PRICE_POINTS ==> c.low <= PricePoint(basePrice, trend, d.ticks[j]) <= c.high)
      && c.close == PricePoint(basePrice, trend, d.ticks[PRICE_POINTS - 1])
  {
    var path := PricePath(basePrice, trend, d.ticks);
    var prices := [basePrice] + path;
    SeqMaxIsMax(prices);
    SeqMinIsMin(prices);
    forall j | 0 <= j < PRICE_POINTS
      ensures SeqMin(prices) <= PricePoint(basePrice, trend, d.ticks[j]) <= SeqMax(prices)
    {
      assert prices[j + 1] == path[j];
    }
  }

  /** From a positive open, in-range trend and valid draws, the candle is well formed. */
  lemma CandleOfWellFormed(timestamp: int, basePrice: real, trend: real, d: CandleDraws)
    requires basePrice > 0.0 && TrendInBounds(trend) && DrawsOk(d)
    ensures WellFormed(CandleOf(timestamp, basePrice, trend, d))
  {
    CandleOfOrdered(timestamp, basePrice, trend, d);
    var path := PricePath(basePrice, trend, d.ticks);
    var prices := [basePrice] + path;
    SeqMinIsMin(prices);
    var k :| 0 <= k < |prices| && prices[k] == SeqMin(prices);
    PricePathBounds(basePrice, trend, d.ticks);
    if k > 0 {
      assert prices[k] == path[k - 1];
    }
  }

  /** A candle's open and close lie between its low and its high. */
  lemma CandleOfOrdered(timestamp: int, basePrice: real, trend: real, d: CandleDraws)
    ensures var c := CandleOf(timestamp, basePrice, trend, d);
      c.low <= c.open <= c.high && c.low <= c.close <= c.high
  {
    var path := PricePath(basePrice, trend, d.ticks);
    var prices := [basePrice] + path;
    SeqMaxIsMax(prices);
    SeqMinIsMin(prices);
    assert prices[0] == basePrice;
    assert CandleOf(timestamp, basePrice, trend, d).close == prices[|prices| - 1];
  }

  /** Builds one candle, as both the initial loop and the tick do. */
  method GenerateCandle(timestamp: int, basePrice: real, trend: real, d: CandleDraws) returns (c: Candle)
    requires |d.ticks| == PRICE_POINTS
    ensures c == CandleOf(timestamp, basePrice, trend, d)
  {
    var open := basePrice;
    var high, low, close := open, open, open;
    ghost var path := PricePath(basePrice, trend, d.ticks);
    ghost var seen := [basePrice];
    var j := 0;
    while j < PRICE_POINTS
      invariant 0 <= j <= PRICE_POINTS
      invariant seen == [basePrice] + path[..j]
      invariant high == SeqMax(seen) && low == SeqMin(seen)
      invariant close == seen[|seen| - 1]
    {
      var price := PricePoint(basePrice, trend, d.ticks[j]);
      assert SeqMax(seen + [price]) == Max(high, price) by { SeqMaxSnoc(seen, price); }
      assert SeqMin(seen + [price]) == Min(low, price) by { SeqMinSnoc(seen, price); }
      assert [basePrice] + path[..j + 1] == seen + [price] by {
        assert path[..j + 1] == path[..j] + [path[j]];
      }
      seen := seen + [price];
      high := Max(high, price);
      low := Min(low, price);
      close := price;
      j := j + 1;
    }
    assert seen == [basePrice] + path by { assert path[..j] == path; }
    var volume := d.volumeDraw * 100.0 + 50.0;
    c := Candle(timestamp, open, high, low, close, volume);
  }

  /** Each candle opens at the previous candle's close. */
  predicate Chained(h: seq<Candle>)
  {
    forall i :: 0 < i < |h| ==> h[i].open == h[i - 1].close
  }

  /** A history of well-formed candles, chained open-to-close. */
  predicate WellFormedHistory(h: seq<Candle>)
  {
    (forall i :: 0 <= i < |h| ==> WellFormed(h[i])) && Chained(h)
  }

  predicate Increasing(h: seq<Candle>)
  {
    forall i, j :: 0 <= i < j < |h| ==> h[i].timestamp < h[j].timestamp
  }

  /** The history the initial loop builds from the given draws, one candle per
      draw: candle `i` is stamped `startTime + i * interval`, the first opens at
      INITIAL_PRICE and every later one at its predecessor's close, and each is
      built with the trend as it stands after that candle's own roll. */
  function InitialHistory(startTime: int, interval: int, trend0: real, draws: seq<CandleDraws>): (h: seq<Candle>)
    ensures |h| == |draws|
    decreases |draws|
  {
    if |draws| == 0 then []
    else
      var i := |draws| - 1;
      var prev := InitialHistory(startTime, interval, trend0, draws[..i]);
      var basePrice := if i == 0 then INITIAL_PRICE else prev[i - 1].close;
      prev + [CandleOf(startTime + i * interval, basePrice, TrendAfter(trend0, draws), draws[i])]
  }

  /** One step of the generation loop: the history of the first `i + 1` draws
      extends the history of the first `i` with candle `i`. */
  lemma InitialHistoryStep(startTime: int, interval: int, trend0: real, draws: seq<CandleDraws>, i: nat,
                           basePrice: real, trend: real)
    requires i < |draws|
    requires basePrice == if i == 0 then INITIAL_PRICE
                          else InitialHistory(startTime, interval, trend0, draws[..i])[i - 1].close
    requires trend == TrendAfter(trend0, draws[..i + 1])
    ensures InitialHistory(startTime, interval, trend0, draws[..i + 1])
      == InitialHistory(startTime, interval, trend0, draws[..i]) + [CandleOf(startTime + i * interval, basePrice, trend, draws[i])]
  {
    assert draws[..i + 1][..i] == draws[..i];
  }

  /** From an in-range trend the trend stays in range, whatever the rolls. */
  lemma {:induction false} TrendAfterBounds(trend: real, ds: seq<CandleDraws>)
    requires TrendInBounds(trend)
    requires forall i :: 0 <= i < |ds| ==> DrawsOk(ds[i])
    ensures TrendInBounds(TrendAfter(trend, ds))
    decreases |ds|
  {
    if |ds| > 0 {
      TrendAfterBounds(trend, ds[..|ds| - 1]);
    }
  }

  /** The initial history opens at INITIAL_PRICE, is chained open-to-close
      and consists of well-formed candles. */
  lemma {:induction false} InitialHistoryShape(startTime: int, interval: int, trend0: real, draws: seq<CandleDraws>)
    requires TrendInBounds(trend0)
    requires forall i :: 0 <= i < |draws| ==> DrawsOk(draws[i])
    ensures var h := InitialHistory(startTime, interval, trend0, draws);
      && (|h| > 0 ==> h[0].open == INITIAL_PRICE)
      && WellFormedHistory(h)
    decreases |draws|
  {
    if |draws| > 0 {
      var i := |draws| - 1;
      InitialHistoryShape(startTime, interval, trend0, draws[..i]);
      var prev := InitialHistory(startTime, interval, trend0, draws[..i]);
      var basePrice := if i == 0 then INITIAL_PRICE else prev[i - 1].close;
      TrendAfterBounds(trend0, draws);
      CandleOfWellFormed(startTime + i * interval, basePrice, TrendAfter(trend0, draws), draws[i]);
    }
  }

  /** Candle `k` of the initial history is stamped `startTime + k * interval`. */
  lemma {:induction false} InitialHistoryStamps(startTime: int, interval: int, trend0: real, draws: seq<CandleDraws>)
    ensures forall k :: 0 <= k < |draws| ==>
      InitialHistory(startTime, interval, trend0, draws)[k].timestamp == startTime + k * interval
    decreases |draws|
  {
    if |draws| > 0 {
      var i := |draws| - 1;
      InitialHistoryStamps(startTime, interval, trend0, draws[..i]);
      var prev := InitialHistory(startTime, interval, trend0, draws[..i]);
      var basePrice := if i == 0 then INITIAL_PRICE else prev[i - 1].close;
      var last := CandleOf(startTime + i * interval, basePrice, TrendAfter(trend0, draws), draws[i]);
      var h := InitialHistory(startTime, interval, trend0, draws);
      assert h == prev + [last];
      forall k | 0 <= k < |h|
        ensures h[k].timestamp == startTime + k * interval
      {
        if k < i {
          assert h[k] == prev[k];
        }
      }
    }
  }

  /** Timestamps `start + k * step` with a positive step are evenly spaced and
      strictly increasing. */
  lemma EvenStamps(h: seq<Candle>, start: int, step: int)
    requires step > 0
    requires forall k :: 0 <= k < |h| ==> h[k].timestamp == start + k * step
    ensures forall i :: 0 < i < |h| ==> h[i].timestamp == h[i - 1].timestamp + step
    ensures Increasing(h)
  {
    forall i | 0 < i < |h|
      ensures h[i].timestamp == h[i - 1].timestamp + step
    {
      assert i * step == (i - 1) * step + step;
    }
    forall i, j | 0 <= i < j < |h|
      ensures h[i].timestamp < h[j].timestamp
    {
      assert j * step - i * step == (j - i) * step;
      assert (j - i) * step > 0;
    }
  }

  /** The initial history of a range is stamped at even candle intervals,
      strictly increasing, from `now - range` up to one interval before `now`. */
  lemma InitialTimestampsSpaced(r: TimeRange, now: int, trend0: real, draws: seq<CandleDraws>)
    requires |draws| == NumCandles(r)
    ensures var h := InitialHistory(now - RangeDuration(r), CandleInterval(r), trend0, draws);
      && h[0].timestamp == now - RangeDuration(r)
      && (forall i :: 0 < i < |h| ==> h[i].timestamp == h[i - 1].timestamp + CandleInterval(r))
      && Increasing(h)
      && h[|h| - 1].timestamp == now - CandleInterval(r)
  {
    var h := InitialHistory(now - RangeDuration(r), CandleInterval(r), trend0, draws);
    var start, step := now - RangeDuration(r), CandleInterval(r);
    InitialHistoryStamps(start, step, trend0, draws);
    EvenStamps(h, start, step);
    assert h[|h| - 1].timestamp == start + (|h| - 1) * step;
    assert (|h| - 1) * step == |h| * step - step;
  }

  /** The trailing window of at most VISIBLE_CANDLES candles that is displayed. */
  function Visible(h: seq<Candle>): (v: seq<Candle>)
    ensures |v| <= |h| && |v| <= VISIBLE_CANDLES
  {
    if |h| <= VISIBLE_CANDLES then h else h[|h| - VISIBLE_CANDLES..]
  }

  /** The window is the trailing `min(VISIBLE_CANDLES, |h|)` candles. */
  lemma VisibleWindow(h: seq<Candle>)
    ensures |Visible(h)| == if |h| < VISIBLE_CANDLES then |h| else VISIBLE_CANDLES
    ensures Visible(h) == h[|h| - |Visible(h)|..]
  {
  }

  /** The 4-hour range shows all of its 48 candles; the others show 50. */
  lemma VisibleCount(h: seq<Candle>, r: TimeRange)
    requires |h| == NumCandles(r)
    ensures |Visible(h)| == if r == FourHours then 48 else 50
  {
    var n := NumCandles(r);
    assert n == if r == OneHour then 60 else if r == FourHours then 48 else 96 by {
      match r
      case OneHour => assert n * 60000 == 3600000;
      case FourHours => assert n * 300000 == 14400000;
      case OneDay => assert n * 900000 == 86400000;
    }
    VisibleWindow(h);
  }

  /** Every high and every low of the candles, in order (the source's `flatMap`). */
  function AllPrices(cs: seq<Candle>): (p: seq<real>)
    ensures |p| == 2 * |cs|
  {
    if |cs| == 0 then [] else [cs[0].high, cs[0].low] + AllPrices(cs[1..])
  }

  /** Candle `i` contributes its high at position `2i` and its low at `2i + 1`. */
  lemma {:induction false} AllPricesAt(cs: seq<Candle>, i: nat)
    requires i < |cs|
    ensures AllPrices(cs)[2 * i] == cs[i].high && AllPrices(cs)[2 * i + 1] == cs[i].low
    decreases i
  {
    if i > 0 {
      AllPricesAt(cs[1..], i - 1);
    }
  }

  /** Every entry of the flattened list is a high or a low of some candle. */
  lemma AllPricesFrom(cs: seq<Candle>, k: nat)
    requires k < |AllPrices(cs)|
    ensures AllPrices(cs)[k] == cs[k / 2].high || AllPrices(cs)[k] == cs[k / 2].low
  {
    AllPricesAt(cs, k / 2);
  }

  datatype Range = Range(min: real, max: real)

  /** The padded price range of the visible candles: the extremes of all their
      highs and lows, widened by 10% of the span on each side. None stands for the
      empty window, where `Math.min()` of nothing is `Infinity` and `Math.max()`
      is `-Infinity`; a tick's window is never empty, since it holds the new
      candle. */
  function PriceRangeOf(visible: seq<Candle>): (r: Option<Range>)
    ensures r.Some? <==> |visible| > 0
  {
    if |visible| == 0 then None
    else
      var allPrices := AllPrices(visible);
      var minPrice := SeqMin(allPrices);
      var maxPrice := SeqMax(allPrices);
      var padding := (maxPrice - minPrice) * 0.1;
      Some(Range(minPrice - padding, maxPrice + padding))
  }

  /** The range encloses every high and low of the visible candles, and its
      minimum does not exceed its maximum. */
  lemma PriceRangeBounds(visible: seq<Candle>)
    requires |visible| > 0
    ensures var r := PriceRangeOf(visible).value;
      && r.min <= r.max
      && forall i :: 0 <= i < |visible| ==>
        && r.min <= visible[i].low && r.min <= visible[i].high
        && visible[i].low <= r.max && visible[i].high <= r.max
  {
    SeqMinIsMin(AllPrices(visible));
    SeqMaxIsMax(AllPrices(visible));
    forall i | 0 <= i < |visible|
      ensures var all := AllPrices(visible);
        && SeqMin(all) <= visible[i].low && SeqMin(all) <= visible[i].high
        && visible[i].low <= SeqMax(all) && visible[i].high <= SeqMax(all)
    {
      AllPricesAt(visible, i);
    }
  }

  /** `p` is a visible high or low that no visible high or low undercuts. */
  predicate LowestPrice(visible: seq<Candle>, p: real)
  {
    && (exists i :: 0 <= i < |visible| && (visible[i].low == p || visible[i].high == p))
    && (forall i :: 0 <= i < |visible| ==> p <= visible[i].low && p <= visible[i].high)
  }

  /** `p` is a visible high or low that no visible high or low exceeds. */
  predicate HighestPrice(visible: seq<Candle>, p: real)
  {
    && (exists i :: 0 <= i < |visible| && (visible[i].low == p || visible[i].high == p))
    && (forall i :: 0 <= i < |visible| ==> visible[i].low <= p && visible[i].high <= p)
  }

  /** The range is exactly the span from the lowest to the highest visible
      price, widened by a tenth of that span on each side; it has zero width
      exactly when every visible high and low is the same price. */
  lemma PriceRangeTight(visible: seq<Candle>)
    requires |visible| > 0
    ensures exists lo :: LowestPrice(visible, lo)
    ensures exists hi :: HighestPrice(visible, hi)
    ensures forall lo, hi :: LowestPrice(visible, lo) && HighestPrice(visible, hi) ==>
      && PriceRangeOf(visible).value.min == lo - (hi - lo) / 10.0
      && PriceRangeOf(visible).value.max == hi + (hi - lo) / 10.0
    ensures var r := PriceRangeOf(visible).value;
      r.min == r.max <==> forall i :: 0 <= i < |visible| ==> visible[i].low == visible[0].high && visible[i].high == visible[0].high
  {
    var all := AllPrices(visible);
    var lo := SeqMin(all);
    var hi := SeqMax(all);
    SeqMinIsMin(all);
    SeqMaxIsMax(all);
    var r := PriceRangeOf(visible).value;
    assert r.min == lo - (hi - lo) / 10.0 && r.max == hi + (hi - lo) / 10.0;
    forall i | 0 <= i < |visible|
      ensures lo <= visible[i].low && lo <= visible[i].high
      ensures visible[i].low <= hi && visible[i].high <= hi
    {
      AllPricesAt(visible, i);
    }
    var a :| 0 <= a < |all| && all[a] == lo;
    AllPricesFrom(visible, a);
    var b :| 0 <= b < |all| && all[b] == hi;
    AllPricesFrom(visible, b);
    assert LowestPrice(visible, lo) by {
      assert visible[a / 2].low == lo || visible[a / 2].high == lo;
    }
    assert HighestPrice(visible, hi) by {
      assert visible[b / 2].low == hi || visible[b / 2].high == hi;
    }
    forall lo', hi' | LowestPrice(visible, lo') && HighestPrice(visible, hi')
      ensures r.min == lo' - (hi' - lo') / 10.0 && r.max == hi' + (hi' - lo') / 10.0
    {
      var i :| 0 <= i < |visible| && (visible[i].low == lo' || visible[i].high == lo');
      var j :| 0 <= j < |visible| && (visible[j].low == hi' || visible[j].high == hi');
      assert lo' == lo;
      assert hi' == hi;
    }
    if r.min == r.max {
      assert lo == hi;
      forall i | 0 <= i < |visible|
        ensures visible[i].low == visible[0].high && visible[i].high == visible[0].high
      {
      }
    }
    if forall i :: 0 <= i < |visible| ==> visible[i].low == visible[0].high && visible[i].high == visible[0].high {
      assert all[a] == visible[0].high && all[b] == visible[0].high;
    }
  }

  /** The vertical pixel position of a price: the range's minimum maps to the
      bottom of the chart and its maximum to the top. Only defined once the
      renderer has checked that the range is not empty. */
  function YScale(value: real, range: Range, chartHeight: real): (y: real)
    requires range.max - range.min != 0.0
    ensures value == range.min ==> y == chartHeight
    ensures value == range.max ==> y == 0.0
  {
    var scale := chartHeight / (range.max - range.min);
    assert scale * (range.max - range.min) == chartHeight;
    chartHeight - scale * (value - range.min)
  }

  /** Within a non-degenerate range the scale is decreasing and stays inside the chart. */
  lemma YScaleMonotone(a: real, b: real, range: Range, chartHeight: real)
    requires range.min < range.max && chartHeight > 0.0
    requires range.min <= a <= b <= range.max
    ensures 0.0 <= YScale(b, range, chartHeight) <= YScale(a, range, chartHeight) <= chartHeight
  {
    var span := range.max - range.min;
    var scale := chartHeight / span;
    assert scale > 0.0;
    assert scale * span == chartHeight;
    assert scale * (a - range.min) <= scale * (b - range.min);
    assert scale * (b - range.min) <= scale * span;
    assert 0.0 <= scale * (a - range.min);
    assert YScale(a, range, chartHeight) == chartHeight - scale * (a - range.min);
    assert YScale(b, range, chartHeight) == chartHeight - scale * (b - range.min);
  }

  datatype CandleYs = CandleYs(highY: real, lowY: real, openY: real, closeY: real)

  /** The vertical geometry of one candle as the render map computes it, or None
      where the renderer draws nothing for it: an unmeasured chart, an empty data
      set or a zero-height price range. */
  function CandleGeometry(entry: Candle, range: Range, chartWidth: real, chartHeight: real, count: nat): (g: Option<CandleYs>)
    ensures g.Some? <==> chartWidth != 0.0 && chartHeight != 0.0 && count != 0 && range.max != range.min
  {
    if chartWidth == 0.0 || chartHeight == 0.0 || count == 0 then None
    else if range.max - range.min == 0.0 then None
    else Some(CandleYs(
      YScale(entry.high, range, chartHeight),
      YScale(entry.low, range, chartHeight),
      YScale(entry.open, range, chartHeight),
      YScale(entry.close, range, chartHeight)))
  }

  /** A visible candle drawn against the price range computed from the visible
      window has all four of its y values inside the chart: the high on top, the
      low at the bottom, and the open and the close between them. */
  lemma CandleDrawnInside(visible: seq<Candle>, i: nat, chartWidth: real, chartHeight: real)
    requires i < |visible|
    requires forall k :: 0 <= k < |visible| ==> WellFormed(visible[k])
    requires chartWidth > 0.0 && chartHeight > 0.0
    requires PriceRangeOf(visible).value.min != PriceRangeOf(visible).value.max
    ensures var g := CandleGeometry(visible[i], PriceRangeOf(visible).value, chartWidth, chartHeight, |visible|);
      && g.Some?
      && 0.0 <= g.value.highY <= g.value.openY <= g.value.lowY <= chartHeight
      && g.value.highY <= g.value.closeY <= g.value.lowY
  {
    var range := PriceRangeOf(visible).value;
    var c := visible[i];
    PriceRangeBounds(visible);
    YScaleMonotone(c.low, c.open, range, chartHeight);
    YScaleMonotone(c.open, c.high, range, chartHeight);
    YScaleMonotone(c.low, c.close, range, chartHeight);
    YScaleMonotone(c.close, c.high, range, chartHeight);
  }

  /** Evicting the oldest candle and appending a well-formed one that opens at
      the last close keeps the length, the shape of every candle and the
      open-to-close chaining. */
  lemma EvictAppend(h: seq<Candle>, c: Candle)
    requires |h| > 0 && WellFormedHistory(h) && c.open == h[|h| - 1].close
    requires WellFormed(c)
    ensures var n := h[1..] + [c];
      && |n| == |h| && n[|n| - 1] == c
      && WellFormedHistory(n)
  {
    var n := h[1..] + [c];
    forall i | 0 < i < |n|
      ensures n[i].open == n[i - 1].close
    {
      if i < |n| - 1 {
        assert n[i] == h[i + 1] && n[i - 1] == h[i];
      }
    }
  }

  /** The same eviction keeps timestamps increasing when the new candle is
      stamped after the last one. */
  lemma EvictAppendIncreasing(h: seq<Candle>, c: Candle)
    requires |h| > 0
    ensures Increasing(h) && h[|h| - 1].timestamp < c.timestamp ==> Increasing(h[1..] + [c])
  {
  }

  /** One iteration of the generation loop: possibly redraw the trend, then
      build candle `i` from the previous close (or the initial price) at its
      slot of the range. */
  method GenerateStep(startTime: int, candleInterval: int, trend0: real, draws: seq<CandleDraws>, i: nat,
                      initialData: seq<Candle>, trend: real)
    returns (nextData: seq<Candle>, nextTrend: real)
    requires i < |draws| && DrawsOk(draws[i])
    requires initialData == InitialHistory(startTime, candleInterval, trend0, draws[..i])
    requires trend == TrendAfter(trend0, draws[..i])
    ensures nextData == InitialHistory(startTime, candleInterval, trend0, draws[..i + 1])
    ensures nextTrend == TrendAfter(trend0, draws[..i + 1])
  {
    var timestamp := startTime + i * candleInterval;
    nextTrend := trend;
    if draws[i].trendRoll < TREND_CHANGE_PROBABILITY {
      nextTrend := (draws[i].trendDraw - 0.5) * 2.0 * MAX_TREND;
    }
    assert nextTrend == TrendAfter(trend0, draws[..i + 1]) by {
      assert draws[..i + 1][..i] == draws[..i];
      assert nextTrend == NextTrend(trend, draws[i]);
    }
    var basePrice := if i == 0 then INITIAL_PRICE else initialData[i - 1].close;
    var candle := GenerateCandle(timestamp, basePrice, nextTrend, draws[i]);
    InitialHistoryStep(startTime, candleInterval, trend0, draws, i, basePrice, nextTrend);
    nextData := initialData + [candle];
  }

  /** The initial generation loop: one candle per draw, opening each candle
      at the previous close and redrawing the trend as it goes. Returns the
      candles and the trend after the last draw. */
  method GenerateHistory(startTime: int, candleInterval: int, trend0: real, draws: seq<CandleDraws>)
    returns (initialData: seq<Candle>, trend: real)
    requires forall i :: 0 <= i < |draws| ==> DrawsOk(draws[i])
    ensures initialData == InitialHistory(startTime, candleInterval, trend0, draws)
    ensures trend == TrendAfter(trend0, draws)
  {
    initialData := [];
    trend := trend0;
    var i := 0;
    while i < |draws|
      invariant 0 <= i <= |draws|
      invariant initialData == InitialHistory(startTime, candleInterval, trend0, draws[..i])
      invariant trend == TrendAfter(trend0, draws[..i])
    {
      initialData, trend := GenerateStep(startTime, candleInterval, trend0, draws, i, initialData, trend);
      i := i + 1;
    }
    assert draws[..i] == draws;
  }

  /** The generator's state: the refs that survive between ticks (trend, last
      price, full history) and the React state the chart renders (the visible
      data, the current price and the padded price range). */
  class Chart {
    var timeRange: TimeRange
    var data: seq<Candle>
    var currentPrice: real
    var priceRange: Range
    var trend: real
    var lastPrice: real
    var history: seq<Candle>

    ghost predicate Valid()
      reads this
    {
      && TrendInBounds(trend)
      && lastPrice > 0.0
      && WellFormedHistory(history)
      && (|history| > 0 ==> lastPrice == history[|history| - 1].close)
      && data == Visible(history)
      && currentPrice == lastPrice
    }

    /** The state on mount, before the first history is generated. */
    constructor ()
      ensures Valid()
      ensures timeRange == OneHour && data == [] && currentPrice == INITIAL_PRICE
      ensures priceRange == Range(0.0, 0.0)
      ensures trend == 0.0 && lastPrice == INITIAL_PRICE && history == []
    {
      timeRange := OneHour;
      data := [];
      currentPrice := INITIAL_PRICE;
      priceRange := Range(0.0, 0.0);
      trend := 0.0;
      lastPrice := INITIAL_PRICE;
      history := [];
    }

    /** Regenerates the full history for a selected range. The trend carries
        over from the previous state and the price range is left as it was. */
    method Init(range: TimeRange, now: int, draws: seq<CandleDraws>)
      requires Valid()
      requires |draws| == NumCandles(range)
      requires forall i :: 0 <= i < |draws| ==> DrawsOk(draws[i])
      modifies this
      ensures Valid()
      ensures timeRange == range
      ensures history == InitialHistory(now - RangeDuration(range), CandleInterval(range), old(trend), draws)
      ensures trend == TrendAfter(old(trend), draws)
      ensures |history| == NumCandles(range)
      ensures priceRange == old(priceRange)
    {
      var startTime := now - RangeDuration(range);
      var candleInterval := CandleInterval(range);
      var initialData, newTrend := GenerateHistory(startTime, candleInterval, trend, draws);
      assert && TrendInBounds(newTrend)
             && WellFormedHistory(initialData)
      by {
        TrendAfterBounds(old(trend), draws);
        InitialHistoryShape(startTime, candleInterval, old(trend), draws);
      }
      Install(range, initialData, newTrend);
    }

    /** Installs a freshly generated history: the refs take the history, its
        last close and the trend, and the displayed state follows them. */
    method Install(range: TimeRange, initialData: seq<Candle>, newTrend: real)
      requires |initialData| > 0 && TrendInBounds(newTrend)
      requires WellFormedHistory(initialData)
      modifies this`timeRange, this`history, this`trend, this`lastPrice, this`data, this`currentPrice
      ensures Valid()
      ensures timeRange == range && history == initialData && trend == newTrend
    {
      timeRange := range;
      trend := newTrend;
      history := initialData;
      lastPrice := initialData[|initialData| - 1].close;
      data := Visible(initialData);
      currentPrice := lastPrice;
    }

    /** One timer tick: possibly redraws the trend, builds a candle stamped with
        the wall clock that opens at the last close, and appends it. */
    method Tick(now: int, d: CandleDraws)
      requires Valid() && |history| > 0 && DrawsOk(d)
      modifies this
      ensures Valid()
      ensures timeRange == old(timeRange)
      ensures trend == NextTrend(old(trend), d)
      ensures |history| == |old(history)|
      ensures history == old(history)[1..] + [CandleOf(now, old(lastPrice), trend, d)]
      ensures lastPrice == history[|history| - 1].close
      ensures PriceRangeOf(data) == Some(priceRange)
      ensures Increasing(old(history)) && old(history)[|old(history)| - 1].timestamp < now ==> Increasing(history)
    {
      if d.trendRoll < TREND_CHANGE_PROBABILITY {
        trend := (d.trendDraw - 0.5) * 2.0 * MAX_TREND;
      }
      var basePrice := lastPrice;
      var newCandle := GenerateCandle(now, basePrice, trend, d);
      CandleOfWellFormed(now, basePrice, trend, d);
      AppendCandle(newCandle);
    }

    /** The second half of a tick: evicts the oldest candle, appends the new one,
        and recomputes the last price, the visible window, the padded price range
        and the current price from it. */
    method AppendCandle(newCandle: Candle)
      requires Valid() && |history| > 0
      requires WellFormed(newCandle) && newCandle.open == lastPrice
      modifies this`history, this`lastPrice, this`priceRange, this`data, this`currentPrice
      ensures Valid()
      ensures |history| == |old(history)|
      ensures history == old(history)[1..] + [newCandle]
      ensures lastPrice == newCandle.close
      ensures PriceRangeOf(data) == Some(priceRange)
      ensures Increasing(old(history)) && old(history)[|old(history)| - 1].timestamp < newCandle.timestamp ==> Increasing(history)
    {
      var newData := history[1..] + [newCandle];
      assert |newData| == |history| && newData[|newData| - 1] == newCandle && WellFormedHistory(newData) by {
        EvictAppend(history, newCandle);
      }
      EvictAppendIncreasing(history, newCandle);
      var visibleData := Visible(newData);
      VisibleWindow(newData);
      var range := PriceRangeOf(visibleData);
      history, lastPrice, priceRange, data, currentPrice := newData, newCandle.close, range.value, visibleData, newCandle.close;
    }
  }
}
