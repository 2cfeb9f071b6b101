/** Walking one side of an order book for a quantity (paper_exchange.py:558-573). */
module BookWalk {
  import opened Domain
  import opened PaperQueue
  import opened PaperVenue

  predicate Positive(levels: seq<Level>)
  {
    forall k :: 0 <= k < |levels| ==> levels[k].size > 0.0
  }

  function Depth(levels: seq<Level>): (depth: real)
    ensures Positive(levels) ==> depth >= 0.0
  {
    if levels == [] then 0.0 else Depth(levels[..|levels| - 1]) + levels[|levels| - 1].size
  }

  /** The part of the last level that a quantity reaches. */
  function Share(levels: seq<Level>, qty: real): real
    requires levels != []
  {
    Max(0.0, Min(levels[|levels| - 1].size, qty - Depth(levels[..|levels| - 1])))
  }

  /** What a quantity costs, level by level; beyond the depth nothing more is added. */
  function Cost(levels: seq<Level>, qty: real): real
  {
    if levels == [] then 0.0
    else Cost(levels[..|levels| - 1], qty) + Worth(Share(levels, qty), levels[|levels| - 1].price)
  }

  /** Levels beyond those that hold the quantity cost nothing. */
  lemma {:induction false} CostOfPrefix(levels: seq<Level>, k: nat, qty: real)
    requires k <= |levels| && Positive(levels) && qty <= Depth(levels[..k])
    ensures Cost(levels, qty) == Cost(levels[..k], qty) && Depth(levels[..k]) <= Depth(levels)
  {
    if k == |levels| {
      assert levels[..k] == levels;
    } else {
      var front := levels[..|levels| - 1];
      assert front[..k] == levels[..k];
      CostOfPrefix(front, k, qty);
      assert Share(levels, qty) == 0.0;
    }
  }

  lemma WorthMono(qty: real, low: real, price: real)
    requires qty >= 0.0 && low <= price
    ensures Worth(qty, low) <= Worth(qty, price)
  {
  }

  lemma WorthSum(a: real, b: real, price: real)
    ensures Worth(a, price) + Worth(b, price) == Worth(a + b, price)
  {
  }

  /** Where no price is below a limit, a quantity within the depth costs at least the limit a unit. */
  lemma {:induction false} CostAtLeast(levels: seq<Level>, qty: real, limit: real)
    requires Positive(levels) && qty >= 0.0
    requires forall k :: 0 <= k < |levels| ==> levels[k].price >= limit
    ensures Cost(levels, qty) >= Worth(Min(qty, Depth(levels)), limit)
  {
    if levels != [] {
      var front, last := levels[..|levels| - 1], levels[|levels| - 1];
      CostAtLeast(front, qty, limit);
      WorthMono(Share(levels, qty), limit, last.price);
      WorthSum(Min(qty, Depth(front)), Share(levels, qty), limit);
      assert Min(qty, Depth(front)) + Share(levels, qty) == Min(qty, Depth(levels));
    }
  }

  lemma {:induction false} CostAtMost(levels: seq<Level>, qty: real, limit: real)
    requires Positive(levels) && qty >= 0.0
    requires forall k :: 0 <= k < |levels| ==> levels[k].price <= limit
    ensures Cost(levels, qty) <= Worth(Min(qty, Depth(levels)), limit)
  {
    if levels != [] {
      var front, last := levels[..|levels| - 1], levels[|levels| - 1];
      CostAtMost(front, qty, limit);
      WorthMono(Share(levels, qty), last.price, limit);
      WorthSum(Min(qty, Depth(front)), Share(levels, qty), limit);
      assert Min(qty, Depth(front)) + Share(levels, qty) == Min(qty, Depth(levels));
    }
  }

  /**
   * The walk takes the quantity or the whole depth, rounded down to the step. When depth and grid allow
   * the whole quantity, the notional is exactly what the levels cost; otherwise the correction uses the
   * price of the last level touched.
   */
  method Walk(levels: seq<Level>, target: real, step: Step) returns (filled: real, notional: real)
    requires Positive(levels) && target >= 0.0
    ensures filled == StepDown(Min(target, Depth(levels)), step)
    ensures Depth(levels) >= target == StepDown(target, step) ==> notional == Cost(levels, target)
  {
    filled, notional := 0.0, 0.0;
    var lastPrice := 0.0;
    var k := 0;
    while k < |levels|
      invariant k <= |levels| && filled == Min(target, Depth(levels[..k])) && notional == Cost(levels[..k], target)
    {
      var take := Min(levels[k].size, target - filled);
      if take <= 0.0 {
        CostOfPrefix(levels, k, target);
        break;
      }
      assert levels[..k + 1][..k] == levels[..k];
      assert take == Share(levels[..k + 1], target);
      filled := filled + take;
      notional := notional + Worth(take, levels[k].price);
      lastPrice := levels[k].price;
      k := k + 1;
    }
    assert levels[..|levels|] == levels;
    var aligned := StepDown(filled, step);
    if aligned < filled {
      notional := notional - (filled - aligned) * lastPrice;
    }
    StepDownLaw(filled, step);
    filled := aligned;
  }
}
