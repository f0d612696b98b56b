/** The simulated order book: every refresh builds ten bid and ten ask levels
    around a fixed base price, one tick apart, with random sizes; the table
    shows one row per level with depth bars scaled by the largest level total,
    and the header shows the first ask.

    Prices are exact reals: the three-decimal rounding of a level price leaves
    `100 ± k/10` unchanged. The four-decimal rounding of a size is modelled. */
module OrderBook {

  import opened Wrappers
  import opened Extrema
  import opened Draws

  const BASE_PRICE: real := 100.0
  const LEVELS: nat := 10
  const TICK_SIZE: real := 0.1
  /** Largest size a draw scales to, before rounding. */
  const MAX_SIZE: real := 10.0

  datatype Order = Order(price: real, size: real, total: real)

  /** The two size draws one level consumes, bid first. */
  datatype LevelDraws = LevelDraws(bidDraw: real, askDraw: real)

  /** `+x.toFixed(4)` on a non-negative x: round half up to four decimals. */
  function ToFixed4(x: real): (y: real)
    ensures x >= 0.0 ==> y >= 0.0
    ensures -0.00005 < y - x <= 0.00005
  {
    ((x * 10000.0 + 0.5).Floor as real) / 10000.0
  }

  /** The size of a level drawn from `r`. */
  function SizeOf(r: real): (s: real)
    ensures Unit(r) ==> 0.0 <= s <= MAX_SIZE
  {
    ToFixed4(r * MAX_SIZE)
  }

  /** Rounding lets a size reach the upper end of its range: a draw just below
      one rounds to exactly ten. */
  lemma SizeReachesMax()
    ensures Unit(0.99999999) && SizeOf(0.99999999) == MAX_SIZE
  {
    assert (0.99999999 * MAX_SIZE * 10000.0 + 0.5).Floor == 100000;
  }

  /** Bid level `i` lies `i + 1` ticks below the base price. */
  function BidPrice(i: nat): (p: real)
    ensures p < BASE_PRICE && BASE_PRICE - p == (i + 1) as real * TICK_SIZE
  {
    BASE_PRICE - (i + 1) as real * TICK_SIZE
  }

  /** Ask level `i` lies `i + 1` ticks above the base price. */
  function AskPrice(i: nat): (p: real)
    ensures p > BASE_PRICE && p - BASE_PRICE == (i + 1) as real * TICK_SIZE
  {
    BASE_PRICE + (i + 1) as real * TICK_SIZE
  }

  /** Bid level `i`, one tick further below the base per level. */
  function BidOrder(i: nat, r: real): (o: Order)
    ensures o.price < BASE_PRICE
    ensures Unit(r) ==> 0.0 <= o.size <= MAX_SIZE
    ensures o.total == o.size * o.price
  {
    var size := SizeOf(r);
    Order(BidPrice(i), size, size * BidPrice(i))
  }

  /** Ask level `i`, one tick further above the base per level. */
  function AskOrder(i: nat, r: real): (o: Order)
    ensures o.price > BASE_PRICE
    ensures Unit(r) ==> 0.0 <= o.size <= MAX_SIZE
    ensures o.total == o.size * o.price
  {
    var size := SizeOf(r);
    Order(AskPrice(i), size, size * AskPrice(i))
  }

  /** The bid side a refresh builds from the given draws. */
  function Bids(draws: seq<LevelDraws>): (bids: seq<Order>)
    ensures |bids| == |draws|
  {
    seq(|draws|, i requires 0 <= i < |draws| => BidOrder(i, draws[i].bidDraw))
  }

  /** The ask side a refresh builds from the given draws. */
  function Asks(draws: seq<LevelDraws>): (asks: seq<Order>)
    ensures |asks| == |draws|
  {
    seq(|draws|, i requires 0 <= i < |draws| => AskOrder(i, draws[i].askDraw))
  }

  /** The loop of the generator: ten levels on each side, pushed in order. */
  method GenerateData(draws: seq<LevelDraws>) returns (bids: seq<Order>, asks: seq<Order>)
    requires |draws| == LEVELS
    ensures bids == Bids(draws) && asks == Asks(draws)
    ensures |bids| == LEVELS && |asks| == LEVELS
  {
    bids := [];
    asks := [];
    for i := 0 to LEVELS
      invariant bids == Bids(draws)[..i]
      invariant asks == Asks(draws)[..i]
    {
      var bidSize := SizeOf(draws[i].bidDraw);
      var askSize := SizeOf(draws[i].askDraw);
      var bidPrice := BASE_PRICE - (i + 1) as real * TICK_SIZE;
      var askPrice := BASE_PRICE + (i + 1) as real * TICK_SIZE;
      var bid := Order(bidPrice, bidSize, bidSize * bidPrice);
      var ask := Order(askPrice, askSize, askSize * askPrice);
      assert bids + [bid] == Bids(draws)[..i + 1] by {
        assert bid == BidOrder(i, draws[i].bidDraw);
      }
      assert asks + [ask] == Asks(draws)[..i + 1] by {
        assert ask == AskOrder(i, draws[i].askDraw);
      }
      bids := bids + [bid];
      asks := asks + [ask];
    }
  }

  /** Every level's two draws lie in [0, 1). */
  predicate AllDrawsOk(draws: seq<LevelDraws>)
  {
    forall i :: 0 <= i < |draws| ==> Unit(draws[i].bidDraw) && Unit(draws[i].askDraw)
  }

  /** The generated book is a price ladder: bids fall and asks rise one tick
      per level, and the base price separates the two sides. */
  lemma Ladder(draws: seq<LevelDraws>)
    ensures forall i :: 0 <= i < |draws| ==> Bids(draws)[i].price == BASE_PRICE - (i + 1) as real * TICK_SIZE
    ensures forall i :: 0 <= i < |draws| ==> Asks(draws)[i].price == BASE_PRICE + (i + 1) as real * TICK_SIZE
    ensures forall i, j :: 0 <= i < j < |draws| ==> Bids(draws)[i].price > Bids(draws)[j].price
    ensures forall i, j :: 0 <= i < j < |draws| ==> Asks(draws)[i].price < Asks(draws)[j].price
    ensures forall i, j :: 0 <= i < |draws| && 0 <= j < |draws| ==> Bids(draws)[i].price < BASE_PRICE < Asks(draws)[j].price
  {
  }

  /** Every generated level has a size in [0, 10] and a non-negative total. */
  lemma LevelSizes(draws: seq<LevelDraws>)
    requires |draws| == LEVELS
    requires AllDrawsOk(draws)
    ensures forall i :: 0 <= i < |draws| ==> 0.0 <= Bids(draws)[i].size <= MAX_SIZE && Bids(draws)[i].total >= 0.0
    ensures forall i :: 0 <= i < |draws| ==> 0.0 <= Asks(draws)[i].size <= MAX_SIZE && Asks(draws)[i].total >= 0.0
  {
    forall i | 0 <= i < |draws|
      ensures Bids(draws)[i].total >= 0.0 && Asks(draws)[i].total >= 0.0
    {
      var b := Bids(draws)[i];
      var a := Asks(draws)[i];
      assert b.price > 0.0 && a.price > 0.0;
      assert b.size >= 0.0 && a.size >= 0.0;
      assert b.size * b.price >= 0.0;
      assert a.size * a.price >= 0.0;
    }
  }

  function Totals(orders: seq<Order>): (ts: seq<real>)
    ensures |ts| == |orders|
  {
    seq(|orders|, i requires 0 <= i < |orders| => orders[i].total)
  }

  /** The largest level total over both sides; `None` is the `-Infinity` that
      `Math.max` of no values gives. */
  function MaxTotal(bids: seq<Order>, asks: seq<Order>): (m: Option<real>)
    ensures m.Some? <==> |bids| + |asks| > 0
  {
    if |bids| + |asks| == 0 then None else Some(SeqMax(Totals(bids) + Totals(asks)))
  }

  /** The largest total bounds every level's total on both sides, and some
      level attains it. */
  lemma MaxTotalBounds(bids: seq<Order>, asks: seq<Order>)
    requires |bids| + |asks| > 0
    ensures forall i :: 0 <= i < |bids| ==> bids[i].total <= MaxTotal(bids, asks).value
    ensures forall i :: 0 <= i < |asks| ==> asks[i].total <= MaxTotal(bids, asks).value
    ensures (exists i :: 0 <= i < |bids| && bids[i].total == MaxTotal(bids, asks).value)
         || (exists i :: 0 <= i < |asks| && asks[i].total == MaxTotal(bids, asks).value)
  {
    var ts := Totals(bids) + Totals(asks);
    SeqMaxIsMax(ts);
    var m := SeqMax(ts);
    forall i | 0 <= i < |bids|
      ensures bids[i].total <= m
    {
      assert ts[i] == bids[i].total;
    }
    forall i | 0 <= i < |asks|
      ensures asks[i].total <= m
    {
      assert ts[|bids| + i] == asks[i].total;
    }
    var k :| 0 <= k < |ts| && ts[k] == m;
    if k < |bids| {
      assert bids[k].total == m;
    } else {
      assert asks[k - |bids|].total == m;
    }
  }

  /** The table has a row for every level of the longer side. */
  function RowCount(bids: seq<Order>, asks: seq<Order>): (n: nat)
    ensures n >= |bids| && n >= |asks|
    ensures n == |bids| || n == |asks|
  {
    if |bids| < |asks| then |asks| else |bids|
  }

  /** The level at row `i`, absent past the end of its side. */
  function LevelAt(orders: seq<Order>, i: nat): (o: Option<Order>)
    ensures o.Some? <==> i < |orders|
    ensures o.Some? ==> o.value == orders[i]
  {
    if i < |orders| then Some(orders[i]) else None
  }

  /** A depth bar in percent of the largest total. A missing level has no bar;
      a present level over a zero largest total is `None`, the non-finite
      quotient of a division by zero. */
  function Depth(level: Option<Order>, maxTotal: real): (d: Option<real>)
    ensures level.None? ==> d == Some(0.0)
    ensures d.None? <==> level.Some? && maxTotal == 0.0
  {
    match level
    case None => Some(0.0)
    case Some(o) => if maxTotal == 0.0 then None else Some(o.total / maxTotal * 100.0)
  }

  /** Depth scales a total that the largest total bounds to a percentage. */
  lemma DepthInRange(level: Option<Order>, maxTotal: real)
    requires maxTotal > 0.0
    requires level.Some? ==> 0.0 <= level.value.total <= maxTotal
    ensures Depth(level, maxTotal).Some?
    ensures 0.0 <= Depth(level, maxTotal).value <= 100.0
  {
    if level.Some? {
      var t := level.value.total;
      assert t / maxTotal <= 1.0 by {
        assert t / maxTotal * maxTotal == t;
      }
    }
  }

  datatype Row = Row(bid: Option<Order>, ask: Option<Order>, bidDepth: Option<real>, askDepth: Option<real>)

  /** The rows of the depth table. */
  function Rows(bids: seq<Order>, asks: seq<Order>): (rows: seq<Row>)
    ensures |rows| == RowCount(bids, asks)
    ensures forall i :: 0 <= i < |rows| ==> rows[i].bid == LevelAt(bids, i) && rows[i].ask == LevelAt(asks, i)
  {
    var n := RowCount(bids, asks);
    if n == 0 then []
    else
      var m := MaxTotal(bids, asks).value;
      seq(n, i requires 0 <= i < n =>
        Row(LevelAt(bids, i), LevelAt(asks, i), Depth(LevelAt(bids, i), m), Depth(LevelAt(asks, i), m)))
  }

  /** When all totals are non-negative and the largest is positive, every bar
      is a finite percentage, and rows past the end of a side have no bar there. */
  lemma RowsDepthInRange(bids: seq<Order>, asks: seq<Order>)
    requires forall i :: 0 <= i < |bids| ==> bids[i].total >= 0.0
    requires forall i :: 0 <= i < |asks| ==> asks[i].total >= 0.0
    requires MaxTotal(bids, asks).Some? && MaxTotal(bids, asks).value > 0.0
    ensures forall i :: 0 <= i < |Rows(bids, asks)| ==>
      Rows(bids, asks)[i].bidDepth.Some? && 0.0 <= Rows(bids, asks)[i].bidDepth.value <= 100.0 &&
      Rows(bids, asks)[i].askDepth.Some? && 0.0 <= Rows(bids, asks)[i].askDepth.value <= 100.0
    ensures forall i :: |bids| <= i < |Rows(bids, asks)| ==> Rows(bids, asks)[i].bidDepth == Some(0.0)
    ensures forall i :: |asks| <= i < |Rows(bids, asks)| ==> Rows(bids, asks)[i].askDepth == Some(0.0)
  {
    var rows := Rows(bids, asks);
    var m := MaxTotal(bids, asks).value;
    MaxTotalBounds(bids, asks);
    forall i | 0 <= i < |rows|
      ensures rows[i].bidDepth.Some? && 0.0 <= rows[i].bidDepth.value <= 100.0
      ensures rows[i].askDepth.Some? && 0.0 <= rows[i].askDepth.value <= 100.0
    {
      DepthInRange(LevelAt(bids, i), m);
      DepthInRange(LevelAt(asks, i), m);
    }
  }

  /** The header price: the first ask, absent while the book is empty. */
  function BestAsk(asks: seq<Order>): (p: Option<real>)
    ensures p.Some? <==> |asks| > 0
  {
    if |asks| > 0 then Some(asks[0].price) else None
  }

  /** On a generated book the header shows the lowest ask, one tick above the base. */
  lemma BestAskOfGenerated(draws: seq<LevelDraws>)
    requires |draws| == LEVELS
    ensures BestAsk(Asks(draws)) == Some(BASE_PRICE + TICK_SIZE)
    ensures forall i :: 0 <= i < LEVELS ==> BestAsk(Asks(draws)).value <= Asks(draws)[i].price
  {
    Ladder(draws);
  }

  /** The component's state: the two sides of the book. */
  class Book {
    var bids: seq<Order>
    var asks: seq<Order>

    constructor ()
      ensures bids == [] && asks == []
    {
      bids := [];
      asks := [];
    }

    /** One refresh: both sides are replaced by a newly generated ladder. */
    method Refresh(draws: seq<LevelDraws>)
      requires |draws| == LEVELS
      modifies this
      ensures bids == Bids(draws) && asks == Asks(draws)
      ensures RowCount(bids, asks) == LEVELS
    {
      var newBids, newAsks := GenerateData(draws);
      bids := newBids;
      asks := newAsks;
    }
  }
}
