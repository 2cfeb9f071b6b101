/**
 * Quoting against the hedge venue's book and what a hedged fill earns
 * (backend/core_fallback.py:9-74). Rates are fractions: 1 bps is 0.0001.
 */
module Pricing {
  import opened Domain
  import opened PaperQueue
  import opened PaperVenue
  import opened BookWalk
  import opened QuoteEngine

  /** The margin left after fees and slippage, in basis points, if any is left. */
  function Profitability(spread: real, fee: real, slippage: real): Result<real>
  {
    var floor := spread - fee - slippage;
    if floor <= 0.0 then Err(ValueError) else Ok(floor)
  }

  function SlipOf(maxSlip: real): real { Max(0.0, maxSlip) / 10000.0 }

  function LimitPrice(reference: real, maxSlip: real, buyHedge: bool): real
  {
    if buyHedge then reference * (1.0 + SlipOf(maxSlip)) else reference * (1.0 - SlipOf(maxSlip))
  }

  predicate Within(level: Level, limit: real, buyHedge: bool)
  {
    if buyHedge then level.price <= limit else level.price >= limit
  }

  /** Exactly the first `used` levels stay within the slippage limit. */
  predicate Leads(levels: seq<Level>, used: nat, limit: real, buyHedge: bool)
  {
    && used <= |levels|
    && (forall k :: 0 <= k < used ==> Within(levels[k], limit, buyHedge))
    && (used < |levels| ==> !Within(levels[used], limit, buyHedge))
  }

  /** The depth of the leading levels within the slippage limit; a negative size counts as nothing. */
  method HedgeableSize(levels: seq<Level>, reference: real, maxSlip: real, buyHedge: bool) returns (total: real)
    ensures exists used: nat ::
              Leads(levels, used, LimitPrice(reference, maxSlip, buyHedge), buyHedge) && total == Ahead(levels, used)
  {
    var limit := LimitPrice(reference, maxSlip, buyHedge);
    total := 0.0;
    var k := 0;
    while k < |levels|
      invariant k <= |levels| && total == Ahead(levels, k)
      invariant forall j :: 0 <= j < k ==> Within(levels[j], limit, buyHedge)
    {
      if (buyHedge && levels[k].price > limit) || (!buyHedge && levels[k].price < limit) {
        assert Leads(levels, k, limit, buyHedge);
        return total;
      }
      total := total + Max(0.0, levels[k].size);
      k := k + 1;
    }
    assert Leads(levels, k, limit, buyHedge);
  }

  lemma {:induction false} AheadIsDepth(levels: seq<Level>, k: nat)
    requires Positive(levels) && k <= |levels|
    ensures Ahead(levels, k) == Depth(levels[..k])
  {
    if k > 0 {
      AheadIsDepth(levels, k - 1);
      assert levels[..k][..k - 1] == levels[..k - 1];
    }
  }

  datatype Quote = Quote(side: Side, price: real, size: real, source: real)

  function FloorTo(x: real, tick: Step): real { (x / tick).Floor as real * tick }

  function CeilTo(x: real, tick: Step): real { -((-x / tick).Floor as real * tick) }

  /** A quote is safe when the hedge side of the book holds its whole size within the slippage limit. */
  ghost predicate Backed(q: Quote, hedgeLevels: seq<Level>, maxSlip: real)
  {
    exists used: nat ::
      && used <= |hedgeLevels| && q.size <= Depth(hedgeLevels[..used])
      && forall k :: 0 <= k < used ==> Within(hedgeLevels[k], LimitPrice(q.source, maxSlip, q.side == Sell), q.side == Sell)
  }

  lemma LeadsBack(q: Quote, levels: seq<Level>, maxSlip: real, depth: real)
    requires Positive(levels) && q.size <= depth
    requires exists used: nat ::
               Leads(levels, used, LimitPrice(q.source, maxSlip, q.side == Sell), q.side == Sell) && depth == Ahead(levels, used)
    ensures Backed(q, levels, maxSlip)
  {
    var used: nat :|
      Leads(levels, used, LimitPrice(q.source, maxSlip, q.side == Sell), q.side == Sell) && depth == Ahead(levels, used);
    AheadIsDepth(levels, used);
  }

  /** The size is the depth of the leading levels within the slippage limit, up to the largest size allowed. */
  ghost predicate Sized(q: Quote, hedgeLevels: seq<Level>, maxSlip: real, maxSize: real)
  {
    exists used: nat ::
      && Leads(hedgeLevels, used, LimitPrice(q.source, maxSlip, q.side == Sell), q.side == Sell)
      && q.size == Min(Ahead(hedgeLevels, used), maxSize)
  }

  ghost predicate OnGrid(price: real, tick: Step)
  {
    exists n: int :: price == Grid(n, tick)
  }

  function Grid(n: int, tick: Step): real
  {
    n as real * tick
  }

  lemma GridPrices(x: real, tick: Step)
    ensures OnGrid(FloorTo(x, tick), tick) && OnGrid(CeilTo(x, tick), tick)
  {
    assert FloorTo(x, tick) == Grid((x / tick).Floor, tick);
    var m := (-x / tick).Floor;
    assert CeilTo(x, tick) == Grid(-m, tick);
  }

  method MakeQuotes(
    bid: real, ask: real, bids: seq<Level>, asks: seq<Level>, spread: real, maxSize: real, tick: real, maxSlip: real)
    returns (r: Result<(Quote, Quote)>)
    ensures r.Err? <==> bid <= 0.0 || ask <= bid || maxSize <= 0.0 || tick <= 0.0
    ensures r.Ok? ==>
              && r.value.0.side == Buy && r.value.0.source == bid && r.value.0.price <= bid * (1.0 - spread / 10000.0)
              && r.value.1.side == Sell && r.value.1.source == ask && r.value.1.price >= ask * (1.0 + spread / 10000.0)
              && (Positive(bids) ==> Backed(r.value.0, bids, maxSlip)) && (Positive(asks) ==> Backed(r.value.1, asks, maxSlip))
              && r.value.0.size <= maxSize && r.value.1.size <= maxSize
    ensures r.Ok? ==> Sized(r.value.0, bids, maxSlip, maxSize) && Sized(r.value.1, asks, maxSlip, maxSize)
    ensures r.Ok? ==> OnGrid(r.value.0.price, tick) && OnGrid(r.value.1.price, tick)
    ensures r.Ok? ==> r.value.0.price > bid * (1.0 - spread / 10000.0) - tick
    ensures r.Ok? ==> r.value.1.price < ask * (1.0 + spread / 10000.0) + tick
  {
    if bid <= 0.0 || ask <= bid || maxSize <= 0.0 || tick <= 0.0 {
      return Err(ValueError);
    }
    var buyRaw, sellRaw := bid * (1.0 - spread / 10000.0), ask * (1.0 + spread / 10000.0);
    FloorLaw(buyRaw, tick);
    CeilLaw(sellRaw, tick);
    GridPrices(buyRaw, tick);
    GridPrices(sellRaw, tick);
    hide FloorTo, CeilTo, OnGrid;
    var sellDepth := HedgeableSize(bids, bid, maxSlip, false);
    var buyDepth := HedgeableSize(asks, ask, maxSlip, true);
    var buy := Quote(Buy, FloorTo(buyRaw, tick), Min(sellDepth, maxSize), bid);
    var sell := Quote(Sell, CeilTo(sellRaw, tick), Min(buyDepth, maxSize), ask);
    if Positive(bids) {
      LeadsBack(buy, bids, maxSlip, sellDepth);
    }
    if Positive(asks) {
      LeadsBack(sell, asks, maxSlip, buyDepth);
    }
    r := Ok((buy, sell));
  }

  lemma CeilLaw(x: real, tick: Step)
    ensures x <= CeilTo(x, tick) < x + tick
  {
    FloorLaw(-x, tick);
    assert CeilTo(x, tick) == -FloorTo(-x, tick);
    hide FloorTo, CeilTo;
  }

  lemma FloorLaw(x: real, tick: Step)
    ensures x - tick < FloorTo(x, tick) <= x
  {
    var q := x / tick;
    assert q * tick == x;
    TimesMono(q.Floor as real, q, tick);
    NextStep(q, q.Floor as real, tick, x);
  }

  // ----- what a hedged fill earns -----

  /** Spread and fees of a client fill of `qty` at `price`, hedged for `hedged` in all. */
  function NetPnl(side: Side, price: real, qty: real, hedged: real, makerFee: real, hedgeFee: real): real
  {
    (if side == Buy then hedged - price * qty else price * qty - hedged) - price * qty * makerFee - hedged * hedgeFee
  }

  /** The program's own form: prices per unit, the client fee signed as it is paid out. */
  function TradePnl(side: Side, price: real, hedge: real, qty: real, clientFee: real, hedgeFee: real): (pnl: (real, real))
  {
    var spread := if side == Buy then (hedge - price) * qty else (price - hedge) * qty;
    (spread, spread + clientFee - hedgeFee)
  }

  lemma NetPnlIsTradePnl(side: Side, price: real, qty: real, hedged: real, makerFee: real, hedgeFee: real)
    requires qty > 0.0
    ensures TradePnl(side, price, hedged / qty, qty, -price * qty * makerFee, hedged * hedgeFee).1 ==
              NetPnl(side, price, qty, hedged, makerFee, hedgeFee)
  {
    var h := hedged / qty;
    assert h * qty == hedged;
    assert (h - price) * qty == h * qty - price * qty;
    assert (price - h) * qty == price * qty - h * qty;
    assert -price * qty * makerFee == -(price * qty * makerFee);
  }

  /** A backed size, walked through the book, costs at most (or brings at least) the limit price a unit. */
  lemma HedgeCost(q: Quote, levels: seq<Level>, maxSlip: real, qty: real)
    requires Positive(levels) && Backed(q, levels, maxSlip) && 0.0 <= qty <= q.size
    ensures Depth(levels) >= qty
    ensures q.side == Buy ==> Cost(levels, qty) >= Worth(qty, LimitPrice(q.source, maxSlip, false))
    ensures q.side == Sell ==> Cost(levels, qty) <= Worth(qty, LimitPrice(q.source, maxSlip, true))
  {
    var used: nat :| used <= |levels| && q.size <= Depth(levels[..used])
      && forall k :: 0 <= k < used ==> Within(levels[k], LimitPrice(q.source, maxSlip, q.side == Sell), q.side == Sell);
    CostOfPrefix(levels, used, qty);
    var limit := LimitPrice(q.source, maxSlip, q.side == Sell);
    forall k | 0 <= k < used ensures Within(levels[..used][k], limit, q.side == Sell) {
      assert levels[..used][k] == levels[k];
    }
    if q.side == Buy {
      CostAtLeast(levels[..used], qty, limit);
    } else {
      CostAtMost(levels[..used], qty, limit);
    }
  }

  lemma ScaleDown(a: real, b: real, c: real)
    requires a <= b && c >= 0.0
    ensures a * c <= b * c
  {
  }

  /** Buying from the client at `s` under the bid and selling at no less than `l` under it. */
  lemma BuyMargin(bid: real, qty: real, price: real, hedged: real, s: real, l: real, m: real, f: real)
    requires bid > 0.0 && qty >= 0.0 && m >= -1.0 && f <= 1.0
    requires price <= bid * (1.0 - s) && hedged >= bid * (1.0 - l) * qty
    ensures NetPnl(Buy, price, qty, hedged, m, f) >= bid * qty * (s - m - f - l + l * f + s * m)
  {
    ScaleDown(bid * (1.0 - l) * qty, hedged, 1.0 - f);
    ScaleDown(price, bid * (1.0 - s), qty);
    ScaleDown(price * qty, bid * (1.0 - s) * qty, 1.0 + m);
    BuyAlgebra(bid * qty, s, l, m, f);
    assert bid * (1.0 - l) * qty == bid * qty * (1.0 - l);
    assert bid * (1.0 - s) * qty == bid * qty * (1.0 - s);
    assert hedged * (1.0 - f) == hedged - hedged * f;
    assert price * qty * (1.0 + m) == price * qty + price * qty * m;
  }

  lemma BuyAlgebra(v: real, s: real, l: real, m: real, f: real)
    ensures v * (1.0 - l) * (1.0 - f) - v * (1.0 - s) * (1.0 + m) == v * (s - m - f - l + l * f + s * m)
  {
  }

  lemma SellMargin(ask: real, qty: real, price: real, hedged: real, s: real, l: real, m: real, f: real)
    requires ask > 0.0 && qty >= 0.0 && m <= 1.0 && f >= -1.0
    requires price >= ask * (1.0 + s) && hedged <= ask * (1.0 + l) * qty
    ensures NetPnl(Sell, price, qty, hedged, m, f) >= ask * qty * (s - m - f - l - s * m - l * f)
  {
    ScaleDown(hedged, ask * (1.0 + l) * qty, 1.0 + f);
    ScaleDown(ask * (1.0 + s), price, qty);
    ScaleDown(ask * (1.0 + s) * qty, price * qty, 1.0 - m);
    SellAlgebra(ask * qty, s, l, m, f);
    assert ask * (1.0 + l) * qty == ask * qty * (1.0 + l);
    assert ask * (1.0 + s) * qty == ask * qty * (1.0 + s);
    assert hedged * (1.0 + f) == hedged + hedged * f;
    assert price * qty * (1.0 - m) == price * qty - price * qty * m;
  }

  lemma SellAlgebra(v: real, s: real, l: real, m: real, f: real)
    ensures v * (1.0 + s) * (1.0 - m) - v * (1.0 + l) * (1.0 + f) == v * (s - m - f - l - s * m - l * f)
  {
  }

  // ----- the guarantee behind the configured spread -----

  /** A configuration in basis points that the profitability check has let through. */
  datatype Config = Config(spread: real, makerFee: real, hedgeFee: real, maxSlip: real, slippage: real) {
    /** service configuration: the slippage checked is never less than the one the quotes allow. */
    predicate Ok()
    {
      && -10000.0 <= makerFee <= 10000.0 && 0.0 <= hedgeFee <= 10000.0
      && 0.0 <= maxSlip <= slippage && maxSlip <= 10000.0 && spread > 0.0
    }

    function S(): real { spread / 10000.0 }
    function M(): real { makerFee / 10000.0 }
    function F(): real { hedgeFee / 10000.0 }
    function L(): real { SlipOf(maxSlip) }
  }

  lemma MarginLeft(c: Config, floor: real)
    requires c.Ok() && Profitability(c.spread, c.hedgeFee + c.makerFee, c.slippage) == Result.Ok(floor)
    ensures c.S() - c.M() - c.F() - c.L() >= floor / 10000.0 > 0.0
  {
  }

  /** What the walk of BookWalk.Walk promises about its results. */
  predicate Walked(levels: seq<Level>, target: real, step: Step, filled: real, notional: real)
  {
    && filled == StepDown(Min(target, Depth(levels)), step)
    && (Depth(levels) >= target == StepDown(target, step) ==> notional == Cost(levels, target))
  }

  lemma ScaleMargin(v: real, margin: real, floor: real, extra: real)
    requires v >= 0.0 && margin >= floor
    ensures v * (margin + extra) >= v * (floor + extra)
  {
    assert v * (margin - floor) >= 0.0;
    assert v * (margin + extra) == v * (margin - floor) + v * (floor + extra);
  }

  lemma WalkFills(levels: seq<Level>, qty: real, step: Step, filled: real, hedged: real)
    requires Depth(levels) >= qty == StepDown(qty, step) && Walked(levels, qty, step, filled, hedged)
    ensures filled == qty && hedged == Cost(levels, qty)
  {
  }

  /** A quantity within the backed size is hedged at no worse than the slippage limit. */
  lemma HedgedSale(q: Quote, levels: seq<Level>, maxSlip: real, qty: real, limit: real, cost: real)
    requires Positive(levels) && Backed(q, levels, maxSlip) && 0.0 <= qty <= q.size && q.side == Buy
    requires limit == LimitPrice(q.source, maxSlip, false) && cost == Cost(levels, qty)
    ensures cost >= limit * qty
  {
    hide LimitPrice, Backed, Cost, Depth;
    HedgeCost(q, levels, maxSlip, qty);
  }

  lemma HedgedPurchase(q: Quote, levels: seq<Level>, maxSlip: real, qty: real, limit: real, cost: real)
    requires Positive(levels) && Backed(q, levels, maxSlip) && 0.0 <= qty <= q.size && q.side == Sell
    requires limit == LimitPrice(q.source, maxSlip, true) && cost == Cost(levels, qty)
    ensures cost <= limit * qty
  {
    hide LimitPrice, Backed, Cost, Depth;
    HedgeCost(q, levels, maxSlip, qty);
  }

  lemma BuyFloor(bid: real, qty: real, price: real, hedged: real, s: real, l: real, m: real, f: real, floor: real)
    requires bid > 0.0 && qty >= 0.0 && m >= -1.0 && f <= 1.0
    requires price <= bid * (1.0 - s) && hedged >= bid * (1.0 - l) * qty && s - m - f - l >= floor
    ensures NetPnl(Buy, price, qty, hedged, m, f) >= bid * qty * (floor + l * f + s * m)
  {
    BuyMargin(bid, qty, price, hedged, s, l, m, f);
    var extra := l * f + s * m;
    assert s - m - f - l + l * f + s * m == s - m - f - l + extra;
    ScaleMargin(bid * qty, s - m - f - l, floor, extra);
  }

  lemma DropExtra(net: real, source: real, qty: real, floor: real, l: real, f: real, s: real, m: real)
    requires source >= 0.0 && qty >= 0.0 && l >= 0.0 && f >= 0.0 && s >= 0.0 && m >= 0.0
    requires net >= source * qty * (floor + l * f + s * m)
    ensures net >= source * qty * floor
  {
    var v, extra := source * qty, l * f + s * m;
    assert v >= 0.0 && l * f >= 0.0 && s * m >= 0.0;
    assert v * extra >= 0.0;
    assert floor + l * f + s * m == floor + extra;
    assert v * (floor + extra) == v * floor + v * extra;
  }

  lemma SellFloor(ask: real, qty: real, price: real, hedged: real, s: real, l: real, m: real, f: real, floor: real)
    requires ask > 0.0 && qty >= 0.0 && m <= 1.0 && f >= -1.0
    requires price >= ask * (1.0 + s) && hedged <= ask * (1.0 + l) * qty && s - m - f - l >= floor
    ensures NetPnl(Sell, price, qty, hedged, m, f) >= ask * qty * (floor - s * m - l * f)
  {
    SellMargin(ask, qty, price, hedged, s, l, m, f);
    var extra := -(s * m) - l * f;
    assert s - m - f - l - s * m - l * f == s - m - f - l + extra;
    ScaleMargin(ask * qty, s - m - f - l, floor, extra);
  }

  lemma SaleAt(hedged: real, limit: real, source: real, l: real, qty: real)
    requires hedged >= limit * qty && limit == source * (1.0 - l)
    ensures hedged >= source * (1.0 - l) * qty
  {
  }

  lemma PurchaseAt(hedged: real, limit: real, source: real, l: real, qty: real)
    requires hedged <= limit * qty && limit == source * (1.0 + l)
    ensures hedged <= source * (1.0 + l) * qty
  {
  }

  lemma LimitIs(source: real, maxSlip: real, l: real)
    requires l == SlipOf(maxSlip)
    ensures LimitPrice(source, maxSlip, false) == source * (1.0 - l) && LimitPrice(source, maxSlip, true) == source * (1.0 + l)
  {
    hide SlipOf;
  }

  lemma SaleBound(q: Quote, levels: seq<Level>, maxSlip: real, qty: real, limit: real, l: real, hedged: real)
    requires Positive(levels) && q.side == Buy && Backed(q, levels, maxSlip)
    requires 0.0 <= qty <= q.size && hedged == Cost(levels, qty) && l == SlipOf(maxSlip)
    requires limit == LimitPrice(q.source, maxSlip, false)
    ensures hedged >= q.source * (1.0 - l) * qty
  {
    hide *;
    LimitIs(q.source, maxSlip, l);
    assert hedged >= limit * qty by {
      HedgedSale(q, levels, maxSlip, qty, limit, hedged);
    }
    SaleAt(hedged, limit, q.source, l, qty);
  }

  lemma PurchaseBound(q: Quote, levels: seq<Level>, maxSlip: real, qty: real, limit: real, l: real, hedged: real)
    requires Positive(levels) && q.side == Sell && Backed(q, levels, maxSlip)
    requires 0.0 <= qty <= q.size && hedged == Cost(levels, qty) && l == SlipOf(maxSlip)
    requires limit == LimitPrice(q.source, maxSlip, true)
    ensures hedged <= q.source * (1.0 + l) * qty
  {
    hide *;
    LimitIs(q.source, maxSlip, l);
    assert hedged <= limit * qty by {
      HedgedPurchase(q, levels, maxSlip, qty, limit, hedged);
    }
    PurchaseAt(hedged, limit, q.source, l, qty);
  }

  /** The walk fills a backed quantity completely. */
  lemma BackedFills(q: Quote, levels: seq<Level>, maxSlip: real, qty: real, step: Step, filled: real, hedged: real)
    requires Positive(levels) && Backed(q, levels, maxSlip)
    requires 0.0 <= qty == StepDown(qty, step) <= q.size && Walked(levels, qty, step, filled, hedged)
    ensures filled == qty && hedged == Cost(levels, qty)
  {
    HedgeCost(q, levels, maxSlip, qty);
    WalkFills(levels, qty, step, filled, hedged);
  }

  /** What the check has established about the rates, as fractions. */
  predicate Rates(c: Config, s: real, l: real, m: real, f: real, floor: real)
  {
    && s == c.S() && l == SlipOf(c.maxSlip) && m == c.M() && f == c.F()
    && Profitability(c.spread, c.hedgeFee + c.makerFee, c.slippage) == Result.Ok(floor * 10000.0)
  }

  lemma RatesFair(c: Config, s: real, l: real, m: real, f: real, floor: real)
    requires c.Ok() && Rates(c, s, l, m, f, floor)
    ensures -1.0 <= m <= 1.0 && 0.0 <= f <= 1.0 && s >= 0.0 && l >= 0.0 && s - m - f - l >= floor > 0.0
    ensures c.makerFee >= 0.0 ==> m >= 0.0
    ensures l == SlipOf(c.maxSlip)
  {
  }

  /**
   * A client purchase at the quoted price, any quantity up to the quoted size, hedged through the book:
   * the trade nets the validated margin and two products of rates on top.
   */
  lemma BuyProfit(
    c: Config, q: Quote, levels: seq<Level>, qty: real, s: real, l: real, m: real, f: real, floor: real)
    requires c.Ok() && Rates(c, s, l, m, f, floor)
    requires Positive(levels) && q.side == Buy && q.source > 0.0 && Backed(q, levels, c.maxSlip)
    requires q.price <= q.source * (1.0 - s) && 0.0 <= qty <= q.size
    ensures NetPnl(Buy, q.price, qty, Cost(levels, qty), m, f) >= q.source * qty * (floor + l * f + s * m)
  {
    hide *;
    RatesFair(c, s, l, m, f, floor);
    var hedged := Cost(levels, qty);
    SaleBound(q, levels, c.maxSlip, qty, LimitPrice(q.source, c.maxSlip, false), l, hedged);
    BuyFloor(q.source, qty, q.price, hedged, s, l, m, f, floor);
  }

  /** Without a maker rebate a purchase nets at least the validated margin. */
  lemma BuyProfitFloor(
    c: Config, q: Quote, levels: seq<Level>, qty: real, s: real, l: real, m: real, f: real, floor: real)
    requires c.Ok() && Rates(c, s, l, m, f, floor) && c.makerFee >= 0.0
    requires Positive(levels) && q.side == Buy && q.source > 0.0 && Backed(q, levels, c.maxSlip)
    requires q.price <= q.source * (1.0 - s) && 0.0 <= qty <= q.size
    ensures NetPnl(Buy, q.price, qty, Cost(levels, qty), m, f) >= q.source * qty * floor
  {
    hide *;
    BuyProfit(c, q, levels, qty, s, l, m, f, floor);
    RatesFair(c, s, l, m, f, floor);
    DropExtra(NetPnl(Buy, q.price, qty, Cost(levels, qty), m, f), q.source, qty, floor, l, f, s, m);
  }

  /** A client sale: the products of the rates come off the validated margin. */
  lemma SellProfit(
    c: Config, q: Quote, levels: seq<Level>, qty: real, s: real, l: real, m: real, f: real, floor: real)
    requires c.Ok() && Rates(c, s, l, m, f, floor)
    requires Positive(levels) && q.side == Sell && q.source > 0.0 && Backed(q, levels, c.maxSlip)
    requires q.price >= q.source * (1.0 + s) && 0.0 <= qty <= q.size
    ensures NetPnl(Sell, q.price, qty, Cost(levels, qty), m, f) >= q.source * qty * (floor - s * m - l * f)
  {
    hide *;
    RatesFair(c, s, l, m, f, floor);
    var hedged := Cost(levels, qty);
    PurchaseBound(q, levels, c.maxSlip, qty, LimitPrice(q.source, c.maxSlip, true), l, hedged);
    SellFloor(q.source, qty, q.price, hedged, s, l, m, f, floor);
  }

  lemma Swapped(a: real, b: real, q: real)
    ensures a * b * q == a * q * b
  {
  }

  lemma FeesOff(x: real, y: real, m: real, f: real)
    ensures x * (1.0 - m) - y * (1.0 + f) == x - y - x * m - y * f
  {
  }

  lemma SameFactor(v: real, a: real, b: real)
    requires a == b
    ensures v * a == v * b
  {
  }

  lemma SignOfProduct(v: real, rest: real)
    requires v > 0.0
    ensures v * rest > 0.0 <==> rest > 0.0
  {
  }

  /** What a sale at its bounds nets, for any rates. */
  lemma SellNet(ask: real, qty: real, s: real, l: real, m: real, f: real)
    ensures NetPnl(Sell, ask * (1.0 + s), qty, ask * (1.0 + l) * qty, m, f) == ask * qty * (s - m - f - l - s * m - l * f)
  {
    var x, y := ask * (1.0 + s) * qty, ask * (1.0 + l) * qty;
    assert NetPnl(Sell, ask * (1.0 + s), qty, ask * (1.0 + l) * qty, m, f) == x - y - x * m - y * f;
    hide NetPnl;
    Swapped(ask, 1.0 + s, qty);
    Swapped(ask, 1.0 + l, qty);
    FeesOff(x, y, m, f);
    SellAlgebra(ask * qty, s, l, m, f);
  }

  lemma SellTightAt(ask: real, qty: real, s: real, l: real, m: real, f: real, margin: real)
    requires ask > 0.0 && qty > 0.0 && s - m - f - l == margin
    ensures var net := NetPnl(Sell, ask * (1.0 + s), qty, ask * (1.0 + l) * qty, m, f);
            && net == ask * qty * (margin - s * m - l * f)
            && (net > 0.0 <==> margin > s * m + l * f)
  {
    SellNet(ask, qty, s, l, m, f);
    hide NetPnl;
    SameFactor(ask * qty, s - m - f - l - s * m - l * f, margin - s * m - l * f);
    PositiveProduct(ask, qty);
    SignOfProduct(ask * qty, margin - s * m - l * f);
  }

  /** The checked margin, where the checked slippage is the allowed one. */
  lemma MarginOf(c: Config, s: real, l: real, m: real, f: real, floor: real)
    requires c.Ok() && Rates(c, s, l, m, f, floor) && c.slippage == c.maxSlip
    ensures s - m - f - l == floor
  {
  }

  /**
   * The sale bound is exact: at the quoted price's lower limit, hedged at the slippage limit, with the
   * checked slippage equal to the allowed one, the trade nets just that. So a sale at these prices
   * makes money if and only if the margin exceeds the two products.
   */
  lemma SellTight(c: Config, ask: real, qty: real, s: real, l: real, m: real, f: real, floor: real)
    requires c.Ok() && Rates(c, s, l, m, f, floor)
    requires ask > 0.0 && qty > 0.0 && c.slippage == c.maxSlip
    ensures var net := NetPnl(Sell, ask * (1.0 + s), qty, ask * (1.0 + l) * qty, m, f);
            && net == ask * qty * (floor - s * m - l * f)
            && (net > 0.0 <==> floor > s * m + l * f)
  {
    hide *;
    MarginOf(c, s, l, m, f, floor);
    SellTightAt(ask, qty, s, l, m, f, floor);
  }

  /** A spread of 100, a maker fee of 50 and a hedge fee of 49.9 basis points, as fractions. */
  predicate Narrow(s: real, l: real, m: real, f: real)
  {
    s == 0.01 && l == 0.0 && m == 0.005 && f == 0.00499
  }

  /** A configuration the check lets through whose sales lose money. */
  lemma ValidatedSaleLoses(ask: real, qty: real, s: real, l: real, m: real, f: real)
    requires ask > 0.0 && qty > 0.0 && Narrow(s, l, m, f)
    ensures var c := Config(100.0, 50.0, 49.9, 0.0, 0.0);
            && c.Ok() && Rates(c, s, l, m, f, 0.00001)
            && NetPnl(Sell, ask * (1.0 + s), qty, ask * (1.0 + l) * qty, m, f) < 0.0
  {
    hide *;
    NarrowRates(s, l, m, f);
    SaleLoses(ask, qty, s, l, m, f);
  }

  lemma NarrowRates(s: real, l: real, m: real, f: real)
    requires Narrow(s, l, m, f)
    ensures Config(100.0, 50.0, 49.9, 0.0, 0.0).Ok() && Rates(Config(100.0, 50.0, 49.9, 0.0, 0.0), s, l, m, f, 0.00001)
    ensures s - m - f - l - s * m - l * f < 0.0
  {
  }

  lemma SaleLoses(ask: real, qty: real, s: real, l: real, m: real, f: real)
    requires ask > 0.0 && qty > 0.0 && s - m - f - l - s * m - l * f < 0.0
    ensures NetPnl(Sell, ask * (1.0 + s), qty, ask * (1.0 + l) * qty, m, f) < 0.0
  {
    SellNet(ask, qty, s, l, m, f);
    hide NetPnl;
    PositiveProduct(ask, qty);
    NegativeProduct(ask * qty, s - m - f - l - s * m - l * f);
  }

  lemma NegativeProduct(a: real, b: real)
    requires a > 0.0 && b < 0.0
    ensures a * b < 0.0
  {
  }
}
