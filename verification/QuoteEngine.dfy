/** Choosing a maker price from the visible book (backend/engine/quote_engine.py:32-68). */
module QuoteEngine {
  import opened Domain
  import opened PaperQueue
  import opened PaperVenue

  /** Decimal's ROUND_UP goes away from zero, ROUND_DOWN towards it. */
  function RoundUp(x: real): int
  {
    if x >= 0.0 then -(-x).Floor else x.Floor
  }

  function Boundary(side: Side, hedge: real, edge: real, tick: Step): real
  {
    if side == Sell then RoundUp(hedge * (1.0 + edge) / tick) as real * tick
    else Truncate(hedge * (1.0 - edge) / tick) as real * tick
  }

  /** The volume the search counts in front of level i. */
  function Ahead(levels: seq<Level>, i: nat): (ahead: real)
    requires i <= |levels|
    ensures ahead >= 0.0
  {
    if i == 0 then 0.0 else Ahead(levels, i - 1) + Max(0.0, levels[i - 1].size)
  }

  predicate Reached(side: Side, price: real, boundary: real)
  {
    if side == Sell then price >= boundary else price <= boundary
  }

  function BudgetQty(budget: real, price: real): real
  {
    if price > 0.0 then budget / price else 0.0
  }

  predicate Fits(levels: seq<Level>, i: nat, budget: real)
    requires i < |levels|
  {
    Ahead(levels, i) <= BudgetQty(budget, levels[i].price)
  }

  /** One tick in front of the level, but never beyond the boundary. */
  function Join(side: Side, boundary: real, price: real, tick: Step): real
  {
    if side == Sell then Max(boundary, price - tick) else Min(boundary, price + tick)
  }

  function Guarded(side: Side, price: real, oppositeBest: Option<real>): Option<real>
  {
    if oppositeBest == None || (if side == Sell then price > oppositeBest.value else price < oppositeBest.value)
    then Some(price) else None
  }

  predicate Selects(side: Side, levels: seq<Level>, i: nat, boundary: real, budget: real)
    requires i < |levels|
  {
    Reached(side, levels[i].price, boundary) && Fits(levels, i, budget)
  }

  ghost predicate FirstAt(side: Side, levels: seq<Level>, boundary: real, budget: real, i: nat)
  {
    && i < |levels| && Selects(side, levels, i, boundary, budget)
    && forall k: nat :: k < i ==> !Selects(side, levels, k, boundary, budget)
  }

  /** The price belongs to the first level that reaches the boundary and fits the budget. */
  ghost predicate Chosen(
    side: Side, levels: seq<Level>, boundary: real, budget: real, tick: Step, oppositeBest: Option<real>, r: Option<real>)
  {
    || (exists i: nat :: FirstAt(side, levels, boundary, budget, i)
                    && r == Guarded(side, Join(side, boundary, levels[i].price, tick), oppositeBest))
    || (r == None && forall k: nat :: k < |levels| ==> !Selects(side, levels, k, boundary, budget))
  }

  /** An edge is a fraction here, not basis points. */
  method TargetPrice(
    levels: seq<Level>, hedge: real, edge: real, budget: real, tick: real, side: Side, oppositeBest: Option<real>)
    returns (r: Option<real>)
    ensures levels == [] || hedge <= 0.0 || tick <= 0.0 ==> r == None
    ensures levels != [] && hedge > 0.0 && tick > 0.0 ==>
              Chosen(side, levels, Boundary(side, hedge, edge, tick), budget, tick, oppositeBest, r)
  {
    if levels == [] || hedge <= 0.0 || tick <= 0.0 {
      return None;
    }
    var boundary := Boundary(side, hedge, edge, tick);
    var ahead := 0.0;
    for i := 0 to |levels|
      invariant ahead == Ahead(levels, i)
      invariant forall k: nat :: k < i ==> !Selects(side, levels, k, boundary, budget)
    {
      var price, size := levels[i].price, levels[i].size;
      var budgetQty := if price > 0.0 then budget / price else 0.0;
      if (if side == Sell then price >= boundary else price <= boundary) && ahead <= budgetQty {
        assert FirstAt(side, levels, boundary, budget, i);
        var result := if side == Sell then Max(boundary, price - tick) else Min(boundary, price + tick);
        if oppositeBest == None || (if side == Sell then result > oppositeBest.value else result < oppositeBest.value) {
          return Some(result);
        }
        return None;
      }
      ahead := ahead + Max(0.0, size);
    }
    r := None;
  }

  // ----- the boundary -----

  lemma RoundLaw(x: real)
    ensures x >= 0.0 ==> RoundUp(x) as real >= x
    ensures x >= 0.0 ==> 0.0 <= Truncate(x) as real <= x
    ensures x < 0.0 ==> RoundUp(x) as real <= x <= Truncate(x) as real
  {
  }

  lemma QuotientTimes(amount: real, tick: Step, n: int)
    ensures n as real >= amount / tick ==> n as real * tick >= amount
    ensures n as real <= amount / tick ==> n as real * tick <= amount
  {
    var q := amount / tick;
    assert q * tick == amount;
    if n as real >= q { TimesMono(q, n as real, tick); } else { TimesMono(n as real, q, tick); }
  }

  lemma RoundedBack(target: real, tick: Step)
    requires target >= 0.0
    ensures RoundUp(target / tick) as real * tick >= target
    ensures Truncate(target / tick) as real * tick <= target
  {
    NonNegative(target, tick);
    RoundLaw(target / tick);
    hide RoundUp, Truncate;
    QuotientTimes(target, tick, RoundUp(target / tick));
    QuotientTimes(target, tick, Truncate(target / tick));
  }

  lemma NonNegative(a: real, tick: Step)
    requires a >= 0.0
    ensures a / tick >= 0.0
  {
  }

  lemma ProductNonNegative(a: real, b: real)
    requires a >= 0.0 && b >= 0.0
    ensures a * b >= 0.0
  {
  }

  /** Selling never below, buying never above, the hedge price with its edge (up to an edge of one). */
  lemma BoundaryLaw(hedge: real, edge: real, tick: Step)
    requires hedge > 0.0
    ensures edge >= -1.0 ==> Boundary(Sell, hedge, edge, tick) >= hedge * (1.0 + edge)
    ensures edge <= 1.0 ==> Boundary(Buy, hedge, edge, tick) <= hedge * (1.0 - edge)
  {
    if edge >= -1.0 {
      SellRounds(hedge, edge, tick);
    }
    if edge <= 1.0 {
      BuyRounds(hedge, edge, tick);
    }
    hide *;
  }

  lemma SellRounds(hedge: real, edge: real, tick: Step)
    requires hedge > 0.0 && edge >= -1.0
    ensures Boundary(Sell, hedge, edge, tick) >= hedge * (1.0 + edge)
  {
    ProductNonNegative(hedge, 1.0 + edge);
    hide RoundUp, Truncate;
    RoundedBack(hedge * (1.0 + edge), tick);
  }

  lemma BuyRounds(hedge: real, edge: real, tick: Step)
    requires hedge > 0.0 && edge <= 1.0
    ensures Boundary(Buy, hedge, edge, tick) <= hedge * (1.0 - edge)
  {
    ProductNonNegative(hedge, 1.0 - edge);
    hide RoundUp, Truncate;
    RoundedBack(hedge * (1.0 - edge), tick);
  }

  lemma PositiveProduct(a: real, b: real)
    requires a > 0.0 && b > 0.0
    ensures a * b > 0.0
  {
  }

  // ----- the volume in front -----

  lemma {:induction false} AheadSlice(levels: seq<Level>, n: nat, i: nat)
    requires i <= n <= |levels|
    ensures Ahead(levels[..n], i) == Ahead(levels, i)
  {
    if i > 0 {
      AheadSlice(levels, n, i - 1);
      assert levels[..n][i - 1] == levels[i - 1];
    }
  }

  lemma {:induction false} AheadGrows(levels: seq<Level>, i: nat, j: nat)
    requires i <= j <= |levels|
    ensures Ahead(levels, i) <= Ahead(levels, j)
  {
    if i < j {
      AheadGrows(levels, i, j - 1);
    }
  }

  lemma {:induction false} AheadTail(levels: seq<Level>, i: nat)
    requires 0 < i <= |levels|
    ensures Ahead(levels, i) == Max(0.0, levels[0].size) + Ahead(levels[1..], i - 1)
  {
    if i > 1 {
      AheadTail(levels, i - 1);
      assert levels[1..][i - 2] == levels[i - 1];
    } else {
      assert Ahead(levels, 0) == 0.0 && Ahead(levels[1..], 0) == 0.0;
    }
  }

  /** Volume that counts only in front of level i is no more than what the search counted there. */
  lemma {:induction false} CountedAhead(levels: seq<Level>, counts: Level -> bool, i: nat)
    requires i <= |levels| && LevelsOk(levels)
    requires forall k :: i <= k < |levels| ==> !counts(levels[k])
    ensures SizeWhere(levels, counts) <= Ahead(levels, i)
  {
    if levels != [] {
      forall k | (if i > 0 then i - 1 else 0) <= k < |levels[1..]| ensures !counts(levels[1..][k]) {
        assert levels[1..][k] == levels[k + 1];
      }
      CountedAhead(levels[1..], counts, if i > 0 then i - 1 else 0);
      if i > 0 {
        AheadTail(levels, i);
      } else {
        assert !counts(levels[0]);
      }
    }
  }

  predicate Sorted(side: Side, levels: seq<Level>)
  {
    forall j, k :: 0 <= j < k < |levels| ==>
      if side == Sell then levels[j].price <= levels[k].price else levels[j].price >= levels[k].price
  }

  predicate Priced(levels: seq<Level>)
  {
    forall k :: 0 <= k < |levels| ==> levels[k].price > 0.0
  }

  /** The visible volume that trades before an order at `price` (the queue model's better-priced volume). */
  function InFront(levels: seq<Level>, side: Side, price: real): real
  {
    FromLevels(levels, side, price).better
  }

  lemma InFrontStep(levels: seq<Level>, side: Side, price: real)
    requires levels != []
    ensures InFront(levels, side, price) ==
              (if (if side == Sell then levels[0].price < price else levels[0].price > price) then levels[0].size else 0.0)
              + InFront(levels[1..], side, price)
  {
  }

  lemma InFrontAhead(side: Side, levels: seq<Level>, i: nat, price: real)
    requires Sorted(side, levels) && LevelsOk(levels) && i < |levels|
    requires if side == Sell then price <= levels[i].price else price >= levels[i].price
    ensures 0.0 <= InFront(levels, side, price) <= Ahead(levels, i)
  {
    CountedAhead(levels, (l: Level) => if side == Sell then l.price < price else l.price > price, i);
  }

  lemma QuotientFits(qty: real, budget: real, price: real, value: real)
    requires price > 0.0 && 0.0 <= qty <= budget / price && 0.0 <= value <= price
    ensures qty * value <= budget
  {
    var q := budget / price;
    assert q * price == budget;
    assert (q - qty) * price >= 0.0;
    assert qty * (price - value) >= 0.0;
    assert q * price - qty * price == (q - qty) * price;
    assert qty * price - qty * value == qty * (price - value);
  }

  // ----- selling -----

  /** Once the first level at the boundary is too far back, no later one can fit. */
  lemma SellFitsFirst(levels: seq<Level>, budget: real, i: nat, k: nat)
    requires Sorted(Sell, levels) && Priced(levels) && i <= k < |levels| && Fits(levels, k, budget)
    ensures Fits(levels, i, budget)
  {
    AheadGrows(levels, i, k);
    var a, p, q := Ahead(levels, i), levels[i].price, levels[k].price;
    if budget / p < a {
      BudgetShrinks(a, budget, p, q);
    }
  }

  lemma BudgetShrinks(a: real, budget: real, p: real, q: real)
    requires 0.0 < p <= q && a >= 0.0 && budget / p < a
    ensures budget / q < a
  {
    var x, y := budget / p, budget / q;
    assert x * p == budget && y * q == budget;
  }

  /** Level i is the first at or above the boundary. */
  predicate FirstReached(levels: seq<Level>, boundary: real, i: nat)
  {
    i < |levels| && levels[i].price >= boundary && forall k :: 0 <= k < i ==> levels[k].price < boundary
  }

  /** The joined price of the level, if it beats the opposite best. */
  function Offer(side: Side, levels: seq<Level>, i: nat, boundary: real, tick: Step, oppositeBest: Option<real>): Option<real>
    requires i < |levels|
  {
    Guarded(side, Join(side, boundary, levels[i].price, tick), oppositeBest)
  }

  lemma SelectedIsFirst(levels: seq<Level>, boundary: real, budget: real, i: nat)
    requires Sorted(Sell, levels) && Priced(levels) && FirstAt(Sell, levels, boundary, budget, i)
    ensures FirstReached(levels, boundary, i)
  {
    forall k | 0 <= k < i ensures levels[k].price < boundary {
      if levels[k].price >= boundary {
        SellFitsFirst(levels, budget, k, i);
        assert Selects(Sell, levels, k, boundary, budget);
      }
    }
  }

  /**
   * The search agrees with its simple reading: at the first level at or above the boundary it either
   * fits and offers the joined price, or there is no price at all.
   */
  lemma SellIff(
    levels: seq<Level>, boundary: real, budget: real, tick: Step, oppositeBest: Option<real>, r: Option<real>, i: nat)
    requires Sorted(Sell, levels) && Priced(levels) && FirstReached(levels, boundary, i)
    requires Chosen(Sell, levels, boundary, budget, tick, oppositeBest, r)
    ensures r == if Fits(levels, i, budget) then Offer(Sell, levels, i, boundary, tick, oppositeBest) else None
  {
    if j: nat :| FirstAt(Sell, levels, boundary, budget, j) && r == Offer(Sell, levels, j, boundary, tick, oppositeBest) {
      SelectedIsFirst(levels, boundary, budget, j);
      assert i == j;
    } else {
      assert !Selects(Sell, levels, i, boundary, budget);
    }
  }

  lemma SellNone(levels: seq<Level>, boundary: real, budget: real, tick: Step, oppositeBest: Option<real>, r: Option<real>)
    requires forall k :: 0 <= k < |levels| ==> levels[k].price < boundary
    requires Chosen(Sell, levels, boundary, budget, tick, oppositeBest, r)
    ensures r == None
  {
  }

  lemma SellFront(levels: seq<Level>, budget: real, i: nat, x: real)
    requires Sorted(Sell, levels) && LevelsOk(levels) && i < |levels| && Fits(levels, i, budget)
    requires 0.0 < x <= levels[i].price
    ensures InFront(levels, Sell, x) <= Ahead(levels, i) && Worth(InFront(levels, Sell, x), x) <= budget
  {
    InFrontAhead(Sell, levels, i, x);
    FitsValue(InFront(levels, Sell, x), Ahead(levels, i), budget, levels[i].price, x);
  }

  lemma FitsValue(qty: real, ahead: real, budget: real, price: real, value: real)
    requires 0.0 <= qty <= ahead <= BudgetQty(budget, price) && price > 0.0 && 0.0 <= value <= price
    ensures Worth(qty, value) <= budget
  {
    QuotientFits(qty, budget, price, value);
  }

  lemma SellBoundary(hedge: real, edge: real, tick: Step)
    requires hedge > 0.0 && edge > -1.0
    ensures Boundary(Sell, hedge, edge, tick) >= hedge * (1.0 + edge) > 0.0
  {
    BoundaryLaw(hedge, edge, tick);
    PositiveProduct(hedge, 1.0 + edge);
    hide Boundary;
  }

  /** A selling price is at or above the boundary, joins its level, and has at most the budget in front of it. */
  lemma SellJoins(
    levels: seq<Level>, boundary: real, budget: real, tick: Step, oppositeBest: Option<real>, x: real)
    requires boundary > 0.0 && Sorted(Sell, levels) && LevelsOk(levels)
    requires Chosen(Sell, levels, boundary, budget, tick, oppositeBest, Some(x))
    ensures x >= boundary && (oppositeBest.Some? ==> x > oppositeBest.value)
    ensures exists i: nat :: i < |levels| && levels[i].price - tick <= x <= levels[i].price
    ensures Worth(InFront(levels, Sell, x), x) <= budget
  {
    hide Worth, InFront;
    var i: nat :| FirstAt(Sell, levels, boundary, budget, i) && Some(x) == Offer(Sell, levels, i, boundary, tick, oppositeBest);
    assert levels[i].price - tick <= x <= levels[i].price;
    SellFront(levels, budget, i, x);
  }

  /** A selling price earns its edge, joins its level, and has at most the budget in front of it. */
  lemma SellBounds(
    levels: seq<Level>, hedge: real, edge: real, boundary: real, budget: real, tick: Step, oppositeBest: Option<real>,
    x: real)
    requires hedge > 0.0 && edge > -1.0 && Sorted(Sell, levels) && LevelsOk(levels)
    requires boundary == Boundary(Sell, hedge, edge, tick)
    requires Chosen(Sell, levels, boundary, budget, tick, oppositeBest, Some(x))
    ensures x >= hedge * (1.0 + edge)
    ensures oppositeBest.Some? ==> x > oppositeBest.value
    ensures exists i: nat :: i < |levels| && levels[i].price - tick <= x <= levels[i].price
    ensures Worth(InFront(levels, Sell, x), x) <= budget
  {
    SellBoundary(hedge, edge, tick);
    hide *;
    SellJoins(levels, boundary, budget, tick, oppositeBest, x);
  }

  // ----- buying -----

  lemma OneTickMore(qty: real, p: real, tick: real, x: real)
    requires qty >= 0.0 && x <= p + tick
    ensures Worth(qty, x) <= Worth(qty, p) + Worth(qty, tick)
  {
    assert qty * (p + tick - x) >= 0.0;
    assert qty * (p + tick - x) == qty * p + qty * tick - qty * x;
  }

  lemma BuyFront(levels: seq<Level>, budget: real, i: nat, tick: Step, x: real)
    requires Sorted(Buy, levels) && LevelsOk(levels) && Priced(levels) && i < |levels| && Fits(levels, i, budget)
    requires levels[i].price <= x <= levels[i].price + tick
    ensures Worth(InFront(levels, Buy, x), levels[i].price) <= budget
    ensures Worth(InFront(levels, Buy, x), x) <= budget + Worth(InFront(levels, Buy, x), tick)
  {
    InFrontAhead(Buy, levels, i, x);
    var qty, p := InFront(levels, Buy, x), levels[i].price;
    FitsValue(qty, Ahead(levels, i), budget, p, p);
    OneTickMore(qty, p, tick, x);
  }

  /** A buying price keeps its edge; the volume in front fits the budget at the level's own price. */
  lemma BuyBounds(
    levels: seq<Level>, hedge: real, edge: real, boundary: real, budget: real, tick: Step, oppositeBest: Option<real>,
    x: real)
    requires hedge > 0.0 && edge <= 1.0 && Sorted(Buy, levels) && LevelsOk(levels) && Priced(levels)
    requires boundary == Boundary(Buy, hedge, edge, tick)
    requires Chosen(Buy, levels, boundary, budget, tick, oppositeBest, Some(x))
    ensures x <= hedge * (1.0 - edge)
    ensures oppositeBest.Some? ==> x < oppositeBest.value
    ensures exists i: nat :: i < |levels| && levels[i].price <= x <= levels[i].price + tick
                             && Worth(InFront(levels, Buy, x), levels[i].price) <= budget
    ensures Worth(InFront(levels, Buy, x), x) <= budget + Worth(InFront(levels, Buy, x), tick)
  {
    var i: nat :| FirstAt(Buy, levels, boundary, budget, i) && Some(x) == Offer(Buy, levels, i, boundary, tick, oppositeBest);
    BuyFront(levels, budget, i, tick, x);
    assert x <= hedge * (1.0 - edge) by {
      BoundaryLaw(hedge, edge, tick);
    }
  }

  /** Level j is the first one that is not priced better than x. */
  predicate FirstBehind(levels: seq<Level>, x: real, j: nat)
  {
    j < |levels| && levels[j].price <= x && forall k :: 0 <= k < j ==> levels[k].price > x
  }

  lemma {:induction false} InFrontIsAhead(levels: seq<Level>, x: real, j: nat)
    requires Sorted(Buy, levels) && LevelsOk(levels) && FirstBehind(levels, x, j)
    ensures InFront(levels, Buy, x) == Ahead(levels, j)
  {
    InFrontStep(levels, Buy, x);
    if j > 0 {
      forall k | 0 <= k < j - 1 ensures levels[1..][k].price > x {
        assert levels[1..][k] == levels[k + 1];
      }
      assert levels[1..][j - 1] == levels[j];
      InFrontIsAhead(levels[1..], x, j - 1);
      AheadTail(levels, j);
    } else {
      InFrontAhead(Buy, levels, 0, x);
    }
  }

  /** Up to level i, which is not above x, some level is the first that is not priced better than x. */
  lemma {:induction false} SomeBehind(levels: seq<Level>, x: real, i: nat) returns (j: nat)
    requires i < |levels| && levels[i].price <= x
    ensures j <= i && FirstBehind(levels, x, j)
    decreases i
  {
    if k :| 0 <= k < i && levels[k].price <= x {
      j := SomeBehind(levels, x, k);
    } else {
      j := i;
    }
  }

  lemma WorthGrows(a: real, b: real, price: real)
    requires 0.0 <= a <= b && price >= 0.0
    ensures Worth(a, price) <= Worth(b, price)
  {
    ProductNonNegative(b - a, price);
    assert (b - a) * price == b * price - a * price;
  }

  /** A volume that does not fit at a level is worth more than the budget at the level's price, and above it. */
  lemma UnfitExceeds(a: real, budget: real, price: real, x: real)
    requires 0.0 < price <= x && a >= 0.0 && a > BudgetQty(budget, price)
    ensures Worth(a, x) > budget
  {
    var q := budget / price;
    assert q * price == budget;
    PositiveProduct(a - q, price);
    assert (a - q) * price == a * price - q * price;
    ProductNonNegative(a, x - price);
    assert a * (x - price) == a * x - a * price;
  }

  /** The offered price lies between the level joined and the boundary. */
  lemma BuyJoins(
    levels: seq<Level>, boundary: real, budget: real, tick: Step, oppositeBest: Option<real>, i: nat, x: real)
    requires FirstAt(Buy, levels, boundary, budget, i) && Offer(Buy, levels, i, boundary, tick, oppositeBest) == Some(x)
    ensures x == Min(boundary, levels[i].price + tick) && levels[i].price <= x <= boundary
  {
  }

  /**
   * A buying price x joins the chosen level i. Valued at x, what stands in front of it fits the budget if
   * and only if the volume counted in front of level i does, at the smaller of the boundary and one tick
   * above the level. (A level passed over that is not above x did not fit, so then neither does.)
   */
  lemma BuyBudgetIff(
    levels: seq<Level>, boundary: real, budget: real, tick: Step, oppositeBest: Option<real>, i: nat, x: real)
    requires Sorted(Buy, levels) && LevelsOk(levels) && Priced(levels) && FirstAt(Buy, levels, boundary, budget, i)
    requires Offer(Buy, levels, i, boundary, tick, oppositeBest) == Some(x)
    ensures Worth(InFront(levels, Buy, x), x) <= budget
       <==> Worth(Ahead(levels, i), Min(boundary, levels[i].price + tick)) <= budget
  {
    BuyJoins(levels, boundary, budget, tick, oppositeBest, i, x);
    var j := SomeBehind(levels, x, i);
    InFrontIsAhead(levels, x, j);
    if j < i {
      assert !Selects(Buy, levels, j, boundary, budget);
      UnfitExceeds(Ahead(levels, j), budget, levels[j].price, x);
      AheadGrows(levels, j, i);
      hide *;
      WorthGrows(Ahead(levels, j), Ahead(levels, i), x);
    }
  }

  /** Every price on the tick grid is the boundary for some hedge price. */
  lemma GridBoundary(n: nat, tick: Step)
    ensures Boundary(Buy, n as real * tick, 0.0, tick) == n as real * tick
  {
    assert n as real * tick * (1.0 - 0.0) == n as real * tick;
    assert n as real * tick / tick == n as real;
  }

  lemma SlackFits(s: real, p: real, budget: real)
    requires p > 0.0 && s >= 0.0 && Worth(s, p) <= budget
    ensures s <= BudgetQty(budget, p)
  {
    var q := budget / p;
    assert q * p == budget;
    if q < s {
      PositiveProduct(s - q, p);
      assert (s - q) * p == s * p - q * p;
    }
  }

  /**
   * So the budget can be exceeded: a level at p, whose volume in front stands two ticks above it and
   * just fits at p, is joined one tick above p, where that volume no longer fits.
   */
  lemma BuyOverBudget(p: real, tick: Step, s: real, t: real, boundary: real, budget: real, levels: seq<Level>, x: real)
    requires p > 0.0 && s > 0.0 && t >= 0.0 && Worth(s, p) <= budget < Worth(s, p + tick)
    requires levels == [Level(p + 2.0 * tick, s), Level(p, t)]
    requires boundary == p + tick && Chosen(Buy, levels, boundary, budget, tick, None, Some(x))
    ensures x == p + tick && Worth(InFront(levels, Buy, x), x) > budget
  {
    hide Worth;
    assert Ahead(levels, 0) == 0.0 && Ahead(levels, 1) == s;
    SlackFits(s, p, budget);
    assert !Selects(Buy, levels, 0, boundary, budget);
    assert Selects(Buy, levels, 1, boundary, budget);
    var i: nat :| FirstAt(Buy, levels, boundary, budget, i) && Some(x) == Offer(Buy, levels, i, boundary, tick, None);
    assert i == 1 && x == p + tick;
    InFrontIsAhead(levels, x, 1);
  }
}
