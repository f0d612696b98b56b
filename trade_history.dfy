/** The simulated trade feed: every refresh generates a batch of five trades
    stamped one second apart, backwards from `now`, and puts them in front of
    the previous list, which is cut to its ten newest entries.

    The wall clock is the parameter `now` (milliseconds); the displayed time is
    this stamp, and its locale formatting is not modelled. */
module TradeHistory {

  import opened Draws

  const BATCH_SIZE: nat := 5
  const MAX_TRADES: nat := 10
  /** Milliseconds between consecutive trades of one batch. */
  const TRADE_SPACING: int := 1000

  datatype Side = Buy | Sell

  datatype Trade = Trade(time: int, side: Side, price: real, size: real, pnl: real)

  /** The four draws one trade consumes, in the order the generator asks for them. */
  datatype TradeDraws = TradeDraws(sideDraw: real, priceDraw: real, sizeDraw: real, pnlDraw: real)

  predicate DrawsOk(d: TradeDraws)
  {
    Unit(d.sideDraw) && Unit(d.priceDraw) && Unit(d.sizeDraw) && Unit(d.pnlDraw)
  }

  /** Trade number `i` of a batch generated at `now`. */
  function TradeOf(now: int, i: int, d: TradeDraws): (t: Trade)
    ensures DrawsOk(d) ==> 100.0 <= t.price < 110.0
    ensures DrawsOk(d) ==> 0.0 <= t.size < 5.0
    ensures DrawsOk(d) ==> -500.0 <= t.pnl < 500.0
    ensures t.side == Buy <==> d.sideDraw > 0.5
  {
    Trade(now - i * TRADE_SPACING,
          if d.sideDraw > 0.5 then Buy else Sell,
          100.0 + d.priceDraw * 10.0,
          d.sizeDraw * 5.0,
          (d.pnlDraw - 0.5) * 1000.0)
  }

  /** The batch a refresh at `now` generates from the given draws. */
  function Batch(now: int, draws: seq<TradeDraws>): (b: seq<Trade>)
    ensures |b| == |draws|
  {
    seq(|draws|, i requires 0 <= i < |draws| => TradeOf(now, i, draws[i]))
  }

  /** Within a batch the trades are stamped one second apart, newest first. */
  lemma BatchTimes(now: int, draws: seq<TradeDraws>)
    ensures forall i :: 0 <= i < |draws| ==> Batch(now, draws)[i].time == now - i * TRADE_SPACING
    ensures forall i, j :: 0 <= i < j < |draws| ==> Batch(now, draws)[i].time > Batch(now, draws)[j].time
  {
  }

  /** The loop of the generator: five trades, pushed in order. */
  method GenerateTrades(now: int, draws: seq<TradeDraws>) returns (newTrades: seq<Trade>)
    requires |draws| == BATCH_SIZE
    ensures newTrades == Batch(now, draws)
    ensures |newTrades| == BATCH_SIZE
  {
    newTrades := [];
    for i := 0 to BATCH_SIZE
      invariant newTrades == Batch(now, draws)[..i]
    {
      var side := if draws[i].sideDraw > 0.5 then Buy else Sell;
      var price := 100.0 + draws[i].priceDraw * 10.0;
      var size := draws[i].sizeDraw * 5.0;
      var pnl := (draws[i].pnlDraw - 0.5) * 1000.0;
      var time := now - i * TRADE_SPACING;
      newTrades := newTrades + [Trade(time, side, price, size, pnl)];
    }
  }

  /** The state update: the new batch in front of the previous list, keeping
      at most the first `MAX_TRADES` entries. */
  function Merge(newTrades: seq<Trade>, prev: seq<Trade>): (r: seq<Trade>)
    ensures |r| == if |newTrades| + |prev| < MAX_TRADES then |newTrades| + |prev| else MAX_TRADES
    ensures |newTrades| <= MAX_TRADES ==> r[..|newTrades|] == newTrades
    ensures |newTrades| <= MAX_TRADES ==> r[|newTrades|..] == prev[..|r| - |newTrades|]
  {
    var all := newTrades + prev;
    if |all| < MAX_TRADES then all else all[..MAX_TRADES]
  }

  /** The list after a run of refreshes from an empty list, one batch per
      refresh, oldest batch first. */
  function FeedAfter(batches: seq<seq<Trade>>): (feed: seq<Trade>)
    ensures |feed| <= MAX_TRADES
    decreases |batches|
  {
    if |batches| == 0 then []
    else Merge(batches[|batches| - 1], FeedAfter(batches[..|batches| - 1]))
  }

  /** Five trades after the first refresh, ten from the second one on. */
  lemma {:induction false} FeedAfterLength(batches: seq<seq<Trade>>)
    requires |batches| > 0
    requires forall k :: 0 <= k < |batches| ==> |batches[k]| == BATCH_SIZE
    ensures |FeedAfter(batches)| == if |batches| == 1 then BATCH_SIZE else MAX_TRADES
    decreases |batches|
  {
    var init := batches[..|batches| - 1];
    if |batches| > 1 {
      FeedAfterLength(init);
    }
  }

  /** The newest batch is always on top of the list. */
  lemma FeedAfterNewestFirst(batches: seq<seq<Trade>>)
    requires |batches| > 0
    requires |batches[|batches| - 1]| == BATCH_SIZE
    ensures FeedAfter(batches)[..BATCH_SIZE] == batches[|batches| - 1]
  {
  }

  /** Batches overlap in time: each batch reaches four seconds back while
      refreshes are two seconds apart, so after a second refresh the last trade
      of the new batch is older than the first trade of the previous one. The
      list is not in time order. */
  lemma FeedNotTimeOrdered(t: int, first: seq<TradeDraws>, second: seq<TradeDraws>)
    requires |first| == BATCH_SIZE && |second| == BATCH_SIZE
    ensures var feed := Merge(Batch(t + 2000, second), Batch(t, first));
      |feed| == MAX_TRADES && feed[4].time == t - 2000 && feed[5].time == t && feed[4].time < feed[5].time
  {
    var feed := Merge(Batch(t + 2000, second), Batch(t, first));
    assert feed[4] == Batch(t + 2000, second)[4];
    assert feed[5] == Batch(t, first)[0];
  }

  /** The P&L cell's sign prefix: a plus sign exactly for a non-negative P&L. */
  function PnlPrefix(pnl: real): (s: string)
    ensures s == "+" <==> pnl >= 0.0
    ensures s == "" <==> pnl < 0.0
  {
    if pnl >= 0.0 then "+" else ""
  }

  /** The component's state: the displayed list of trades. */
  class TradeFeed {
    var trades: seq<Trade>

    /** The list holds no trade, one batch or a full page. */
    ghost predicate Valid()
      reads this
    {
      |trades| == 0 || |trades| == BATCH_SIZE || |trades| == MAX_TRADES
    }

    constructor ()
      ensures Valid()
      ensures trades == []
    {
      trades := [];
    }

    /** One refresh: generate a batch and merge it in front of the list. */
    method Refresh(now: int, draws: seq<TradeDraws>)
      requires Valid()
      requires |draws| == BATCH_SIZE
      modifies this
      ensures Valid()
      ensures trades == Merge(Batch(now, draws), old(trades))
      ensures |trades| == if |old(trades)| == 0 then BATCH_SIZE else MAX_TRADES
      ensures trades[..BATCH_SIZE] == Batch(now, draws)
      ensures trades[BATCH_SIZE..] == old(trades)[..|trades| - BATCH_SIZE]
    {
      var newTrades := GenerateTrades(now, draws);
      trades := Merge(newTrades, trades);
    }
  }
}
