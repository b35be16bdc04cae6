/**
 * The order book's data handling: the market depth turned into one price-ordered
 * list of tagged orders, the premium of a price against the middle of the
 * previous list, and the capped list of recent trades.
 */
module OrderBook {
  import opened Ordering

  datatype OrderSide = Buy | Sell

  /** A premium in percent; `NonFinite` stands for the IEEE infinity or NaN of a division by zero. */
  datatype Premium = Finite(percent: real) | NonFinite

  datatype OrderFlow = OrderFlow(price: real, size: real, side: OrderSide, premium: Premium, timestamp: int)

  /** Price levels as [price, size] pairs. */
  datatype MarketDepth = MarketDepth(bids: seq<(real, real)>, asks: seq<(real, real)>)

  datatype TradeSide = Long | Short

  datatype Trade = Trade(id: string, symbol: string, side: TradeSide, size: real, price: real, timestamp: int)

  const MaxRecentTrades: nat := 50

  // ---------------------------------------------------------------------------
  // Market depth

  /** One side of the book as order-flow entries: premium 0, stamped with the clock reading `now`. */
  function Tag(levels: seq<(real, real)>, side: OrderSide, now: int): (r: seq<OrderFlow>)
    ensures |r| == |levels|
    ensures forall i :: 0 <= i < |levels| ==> r[i] == OrderFlow(levels[i].0, levels[i].1, side, Finite(0.0), now)
  {
    seq(|levels|, i requires 0 <= i < |levels| => OrderFlow(levels[i].0, levels[i].1, side, Finite(0.0), now))
  }

  /** The sort callback `b.price - a.price`: `a` may go first when its price is not lower. */
  function PriceDescending(): (OrderFlow, OrderFlow) -> bool {
    (a: OrderFlow, b: OrderFlow) => b.price - a.price <= 0.0
  }

  lemma PriceDescendingIsTotalPreorder()
    ensures TotalPreorder(PriceDescending())
  {
  }

  /** Asks tagged `Sell` followed by bids tagged `Buy`, before sorting. */
  function Unsorted(depth: MarketDepth, now: int): seq<OrderFlow> {
    Tag(depth.asks, Sell, now) + Tag(depth.bids, Buy, now)
  }

  /** Both sides merged into one list ordered by descending price; no entry is lost or added. */
  function TransformMarketDepth(depth: MarketDepth, now: int): (r: seq<OrderFlow>)
    ensures |r| == |depth.asks| + |depth.bids|
    ensures forall i, j :: 0 <= i < j < |r| ==> r[i].price >= r[j].price
    ensures multiset(r) == multiset(Unsorted(depth, now))
  {
    PriceDescendingIsTotalPreorder();
    InsertionSort(Unsorted(depth, now), PriceDescending())
  }

  /** Sorting neither adds nor drops entries. */
  lemma TransformSameEntries(depth: MarketDepth, now: int, o: OrderFlow)
    ensures o in TransformMarketDepth(depth, now) <==> o in Unsorted(depth, now)
  {
    var r := TransformMarketDepth(depth, now);
    var u := Unsorted(depth, now);
    assert o in r <==> o in multiset(r);
    assert o in u <==> o in multiset(u);
  }

  /** Every ask appears, with its own price and size, tagged `Sell`. */
  lemma AsksTaggedSell(depth: MarketDepth, now: int, i: int)
    requires 0 <= i < |depth.asks|
    ensures OrderFlow(depth.asks[i].0, depth.asks[i].1, Sell, Finite(0.0), now) in TransformMarketDepth(depth, now)
  {
    var u := Unsorted(depth, now);
    assert u[i] == Tag(depth.asks, Sell, now)[i];
    TransformSameEntries(depth, now, u[i]);
  }

  /** Every bid appears, with its own price and size, tagged `Buy`. */
  lemma BidsTaggedBuy(depth: MarketDepth, now: int, i: int)
    requires 0 <= i < |depth.bids|
    ensures OrderFlow(depth.bids[i].0, depth.bids[i].1, Buy, Finite(0.0), now) in TransformMarketDepth(depth, now)
  {
    var u := Unsorted(depth, now);
    var k := |depth.asks| + i;
    assert u[k] == Tag(depth.bids, Buy, now)[i];
    TransformSameEntries(depth, now, u[k]);
  }

  /** Every entry comes from the side its tag names and carries premium 0. */
  lemma EntriesComeFromTheirSide(depth: MarketDepth, now: int, o: OrderFlow)
    requires o in TransformMarketDepth(depth, now)
    ensures o.premium == Finite(0.0) && o.timestamp == now
    ensures o.side == Sell ==> (o.price, o.size) in depth.asks
    ensures o.side == Buy ==> (o.price, o.size) in depth.bids
  {
    var u := Unsorted(depth, now);
    var asks := Tag(depth.asks, Sell, now);
    var bids := Tag(depth.bids, Buy, now);
    TransformSameEntries(depth, now, o);
    var k :| 0 <= k < |u| && u[k] == o;
    if k < |asks| {
      assert o == asks[k];
      assert depth.asks[k] == (o.price, o.size);
    } else {
      assert o == bids[k - |asks|];
      assert depth.bids[k - |asks|] == (o.price, o.size);
    }
  }

  // ---------------------------------------------------------------------------
  // Premium

  /** The reference price: the entry at index floor(n / 2) of the previous list. */
  function MarketPrice(orders: seq<OrderFlow>): real
    requires orders != []
  {
    orders[|orders| / 2].price
  }

  /**
   * The percentage by which `price` lies above the reference price; 0 for an empty
   * list. The reference price plus that percentage of itself gives back `price`.
   */
  function CalculatePremium(price: real, orders: seq<OrderFlow>): (r: Premium)
    ensures orders == [] ==> r == Finite(0.0)
    ensures orders != [] ==> (r == NonFinite <==> MarketPrice(orders) == 0.0)
    ensures orders != [] && r.Finite? ==>
      MarketPrice(orders) + MarketPrice(orders) * r.percent / 100.0 == price
  {
    if orders == [] then Finite(0.0)
    else
      var marketPrice := MarketPrice(orders);
      if marketPrice == 0.0 then NonFinite
      else
        var p := ((price - marketPrice) / marketPrice) * 100.0;
        assert marketPrice * ((price - marketPrice) / marketPrice) == price - marketPrice;
        Finite(p)
  }

  /** Against a positive reference price the premium has the sign of the price difference. */
  lemma PremiumSign(price: real, orders: seq<OrderFlow>)
    requires orders != [] && MarketPrice(orders) > 0.0
    ensures var r := CalculatePremium(price, orders);
      && r.Finite?
      && (r.percent == 0.0 <==> price == MarketPrice(orders))
      && (r.percent > 0.0 <==> price > MarketPrice(orders))
      && (r.percent < 0.0 <==> price < MarketPrice(orders))
  {
    var m := MarketPrice(orders);
    var r := CalculatePremium(price, orders);
    assert m * r.percent / 100.0 == price - m;
    assert m * r.percent == (price - m) * 100.0;
  }

  /** A price equal to the reference price has premium 0, whatever the (non-zero) reference. */
  lemma PremiumAtMarketIsZero(orders: seq<OrderFlow>)
    requires orders != [] && MarketPrice(orders) != 0.0
    ensures CalculatePremium(MarketPrice(orders), orders) == Finite(0.0)
  {
  }

  /**
   * A depth message: the new depth transformed, each entry's premium computed
   * against the previous list.
   */
  function ApplyDepthUpdate(prev: seq<OrderFlow>, depth: MarketDepth, now: int): (r: seq<OrderFlow>)
    ensures |r| == |depth.asks| + |depth.bids|
    ensures forall i, j :: 0 <= i < j < |r| ==> r[i].price >= r[j].price
    ensures forall i :: 0 <= i < |r| ==> r[i].premium == CalculatePremium(r[i].price, prev)
    ensures forall i :: 0 <= i < |r| ==>
      r[i].(premium := Finite(0.0)) == TransformMarketDepth(depth, now)[i]
  {
    var orders := TransformMarketDepth(depth, now);
    forall i | 0 <= i < |orders| ensures orders[i].premium == Finite(0.0) {
      EntriesComeFromTheirSide(depth, now, orders[i]);
    }
    seq(|orders|, i requires 0 <= i < |orders| => orders[i].(premium := CalculatePremium(orders[i].price, prev)))
  }

  // ---------------------------------------------------------------------------
  // Recent trades

  /** A trade message: the new trade in front, the list cut to its first 50 entries. */
  function AddTrade(prev: seq<Trade>, t: Trade): (r: seq<Trade>)
    ensures |r| == if |prev| + 1 <= MaxRecentTrades then |prev| + 1 else MaxRecentTrades
    ensures r[0] == t
    ensures forall i :: 1 <= i < |r| ==> r[i] == prev[i - 1]
  {
    Window([t] + prev)
  }

  /** `slice(0, 50)`. */
  function Window(s: seq<Trade>): seq<Trade> {
    if |s| <= MaxRecentTrades then s else s[..MaxRecentTrades]
  }

  function Reverse(s: seq<Trade>): (r: seq<Trade>)
    ensures |r| == |s|
  {
    if s == [] then [] else Reverse(s[1..]) + [s[0]]
  }

  /** A run of trade messages, oldest first. */
  function AddTrades(prev: seq<Trade>, incoming: seq<Trade>): seq<Trade>
    decreases |incoming|
  {
    if incoming == [] then prev else AddTrades(AddTrade(prev, incoming[0]), incoming[1..])
  }

  lemma WindowOfWindow(a: seq<Trade>, b: seq<Trade>)
    ensures Window(a + Window(b)) == Window(a + b)
  {
    if |b| > MaxRecentTrades {
      assert (a + Window(b))[..MaxRecentTrades] == (a + b)[..MaxRecentTrades];
    }
  }

  /** After a non-empty run of messages the list holds the newest trades first, at most 50 of them. */
  lemma {:induction false} AddTradesKeepsNewest(prev: seq<Trade>, incoming: seq<Trade>)
    requires incoming != []
    ensures AddTrades(prev, incoming) == Window(Reverse(incoming) + prev)
    decreases |incoming|
  {
    var t, rest := incoming[0], incoming[1..];
    assert Reverse(incoming) == Reverse(rest) + [t];
    if rest == [] {
      assert Reverse(incoming) + prev == [t] + prev;
    } else {
      AddTradesKeepsNewest(AddTrade(prev, t), rest);
      WindowOfWindow(Reverse(rest), [t] + prev);
      assert Reverse(rest) + ([t] + prev) == Reverse(incoming) + prev;
    }
  }
}
