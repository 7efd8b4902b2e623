/** Taker fills: walking one side of a book up to a limit price. */
module BookWalk {
  import opened Trading

  /** How much the walk takes from each level; it stops at the first level beyond the limit. */
  function Takes(levels: seq<Level>, remaining: real, limit: real, side: Side): (a: seq<real>)
    ensures |a| == |levels|
  {
    if levels == [] then []
    else if remaining <= 0.0 || !NoWorse(side, levels[0].price, limit) then
      [0.0] + Takes(levels[1..], 0.0, limit, side)
    else
      var fill := MinReal(remaining, levels[0].qty);
      [fill] + Takes(levels[1..], remaining - fill, limit, side)
  }

  function Total(a: seq<real>): real {
    if a == [] then 0.0 else Total(a[..|a| - 1]) + a[|a| - 1]
  }

  function Cost(levels: seq<Level>, a: seq<real>): real
    requires |a| == |levels|
  {
    if a == [] then 0.0
    else Cost(levels[..|a| - 1], a[..|a| - 1]) + Notional(levels[|a| - 1].price, a[|a| - 1])
  }

  /** Average price and quantity, or nothing when nothing fills. */
  function Average(levels: seq<Level>, a: seq<real>): Option<(real, real)>
    requires |a| == |levels|
  {
    if Total(a) > 0.0 then Some((Cost(levels, a) / Total(a), Total(a))) else None
  }

  /** The walk's result as a function of the book side and the order. */
  function Walked(levels: seq<Level>, requested: real, limit: real, side: Side): Option<(real, real)> {
    Average(levels, Takes(levels, requested, limit, side))
  }

  method WalkBook(levels: seq<Level>, requested: real, limit: real, side: Side)
    returns (r: Option<(real, real)>)
    ensures r == Walked(levels, requested, limit, side)
  {
    hide Notional, Total, Cost, Takes, MinReal;
    var remaining := requested;
    var cost, qty := 0.0, 0.0;
    ghost var taken: seq<real> := [];
    NothingTaken(levels);
    assert levels[0..] == levels;
    var i := 0;
    while i < |levels|
      invariant 0 <= i <= |levels| && |taken| == i
      invariant taken + Takes(levels[i..], remaining, limit, side) == Takes(levels, requested, limit, side)
      invariant qty == Total(taken) && cost == Cost(levels[..i], taken)
    {
      if remaining <= 0.0 || !NoWorse(side, levels[i].price, limit) {
        StoppedTakes(levels[i..], remaining, limit, side);
        ZeroTail(levels, taken, Takes(levels[i..], remaining, limit, side));
        break;
      }
      var fill := MinReal(remaining, levels[i].qty);
      Append(levels, taken, fill);
      TakesStep(levels, i, remaining, limit, side);
      taken := taken + [fill];
      cost := cost + Notional(levels[i].price, fill);
      qty := qty + fill;
      remaining := remaining - fill;
      i := i + 1;
    }
    if i == |levels| {
      assert levels[..i] == levels && levels[i..] == [];
      NoTakes(remaining, limit, side);
      assert taken + [] == taken;
    }
    r := if qty > 0.0 then Some((cost / qty, qty)) else None;
  }

  lemma NothingTaken(levels: seq<Level>)
    ensures Total([]) == 0.0 && Cost(levels[..0], []) == 0.0
  {
  }

  lemma NoTakes(remaining: real, limit: real, side: Side)
    ensures Takes([], remaining, limit, side) == []
  {
  }

  lemma TakesStep(levels: seq<Level>, i: nat, remaining: real, limit: real, side: Side)
    requires i < |levels| && remaining > 0.0 && NoWorse(side, levels[i].price, limit)
    ensures var fill := MinReal(remaining, levels[i].qty);
      Takes(levels[i..], remaining, limit, side) == [fill] + Takes(levels[i + 1..], remaining - fill, limit, side)
  {
    assert levels[i..][1..] == levels[i + 1..];
  }

  lemma Append(levels: seq<Level>, a: seq<real>, fill: real)
    requires |a| < |levels|
    ensures Total(a + [fill]) == Total(a) + fill
    ensures Cost(levels[..|a| + 1], a + [fill]) == Cost(levels[..|a|], a) + Notional(levels[|a|].price, fill)
  {
    hide Notional;
    assert (a + [fill])[..|a|] == a;
    assert levels[..|a| + 1][..|a|] == levels[..|a|];
  }

  ghost predicate AllZero(a: seq<real>) {
    forall i :: 0 <= i < |a| ==> a[i] == 0.0
  }

  lemma {:induction false} StoppedTakes(levels: seq<Level>, remaining: real, limit: real, side: Side)
    requires levels == [] || remaining <= 0.0 || !NoWorse(side, levels[0].price, limit)
    ensures AllZero(Takes(levels, remaining, limit, side))
    decreases |levels|
  {
    if levels != [] {
      StoppedTakes(levels[1..], 0.0, limit, side);
    }
  }

  lemma {:induction false} ZeroTail(levels: seq<Level>, taken: seq<real>, zeros: seq<real>)
    requires |levels| == |taken| + |zeros| && AllZero(zeros)
    ensures Total(taken + zeros) == Total(taken)
    ensures Cost(levels, taken + zeros) == Cost(levels[..|taken|], taken)
    decreases |zeros|
  {
    hide Notional;
    if zeros == [] {
      assert taken + zeros == taken && levels[..|taken|] == levels;
    } else {
      var n := |levels| - 1;
      WorthAdds(levels[n].price, 0.0, 0.0);
      ZeroTail(levels[..n], taken, zeros[..|zeros| - 1]);
      assert (taken + zeros)[..n] == taken + zeros[..|zeros| - 1];
      assert levels[..n][..|taken|] == levels[..|taken|];
    }
  }

  lemma {:induction false} TotalFront(a: seq<real>)
    requires a != []
    ensures Total(a) == a[0] + Total(a[1..])
  {
    if |a| == 1 {
      assert a[..0] == [] && a[1..] == [];
    } else {
      TotalFront(a[..|a| - 1]);
      assert a[..|a| - 1][1..] == a[1..][..|a| - 2];
    }
  }

  /** Whatever the book holds, a walk never takes more than was asked for. */
  lemma {:induction false} NeverOverfills(levels: seq<Level>, requested: real, limit: real, side: Side)
    ensures Total(Takes(levels, requested, limit, side)) <= MaxReal(requested, 0.0)
    decreases |levels|
  {
    if levels != [] {
      var a := Takes(levels, requested, limit, side);
      TotalFront(a);
      if requested <= 0.0 || !NoWorse(side, levels[0].price, limit) {
        NeverOverfills(levels[1..], 0.0, limit, side);
      } else {
        NeverOverfills(levels[1..], requested - a[0], limit, side);
      }
    }
  }

  // ----- optimality on well-formed books

  /** Best-first: prices get no better for the taker as the walk goes on. */
  ghost predicate BestFirst(levels: seq<Level>, side: Side) {
    forall i, j :: 0 <= i < j < |levels| ==> NoWorse(side, levels[i].price, levels[j].price)
  }

  ghost predicate NonNegative(levels: seq<Level>) {
    forall i :: 0 <= i < |levels| ==> levels[i].qty >= 0.0
  }

  /** Quantity offered at prices within the limit, over the whole side. */
  ghost function Depth(levels: seq<Level>, limit: real, side: Side): real {
    if levels == [] then 0.0 else
      (if NoWorse(side, levels[0].price, limit) then levels[0].qty else 0.0)
      + Depth(levels[1..], limit, side)
  }

  /** A way to spread a purchase over the levels a limit allows. */
  ghost predicate IsAllocation(levels: seq<Level>, limit: real, side: Side, a: seq<real>) {
    |a| == |levels| &&
    forall i :: 0 <= i < |a| ==>
      0.0 <= a[i] <= levels[i].qty && (a[i] > 0.0 ==> NoWorse(side, levels[i].price, limit))
  }

  /** The walk is one of the allocations it is compared with. */
  lemma {:induction false} WalkIsAnAllocation(levels: seq<Level>, remaining: real, limit: real, side: Side)
    requires NonNegative(levels)
    ensures IsAllocation(levels, limit, side, Takes(levels, remaining, limit, side))
    decreases |levels|
  {
    if levels != [] {
      if remaining <= 0.0 || !NoWorse(side, levels[0].price, limit) {
        WalkIsAnAllocation(levels[1..], 0.0, limit, side);
      } else {
        WalkIsAnAllocation(levels[1..], remaining - MinReal(remaining, levels[0].qty), limit, side);
      }
    }
  }

  lemma {:induction false} NoDepthBeyondLimit(levels: seq<Level>, limit: real, side: Side)
    requires BestFirst(levels, side) && levels != [] && !NoWorse(side, levels[0].price, limit)
    ensures Depth(levels, limit, side) == 0.0
    decreases |levels|
  {
    if |levels| > 1 {
      assert NoWorse(side, levels[0].price, levels[1].price);
      NoDepthBeyondLimit(levels[1..], limit, side);
    }
  }

  lemma {:induction false} DepthNonNegative(levels: seq<Level>, limit: real, side: Side)
    requires NonNegative(levels)
    ensures Depth(levels, limit, side) >= 0.0
    decreases |levels|
  {
    if levels != [] {
      DepthNonNegative(levels[1..], limit, side);
    }
  }

  /** The walk fills exactly the smaller of the request and the depth within the limit. */
  lemma {:induction false} FillsAvailableDepth(levels: seq<Level>, requested: real, limit: real, side: Side)
    requires BestFirst(levels, side) && NonNegative(levels)
    ensures Total(Takes(levels, requested, limit, side))
         == if requested <= 0.0 then 0.0 else MinReal(requested, Depth(levels, limit, side))
    decreases |levels|
  {
    DepthNonNegative(levels, limit, side);
    if levels != [] {
      TotalFront(Takes(levels, requested, limit, side));
      if requested > 0.0 && NoWorse(side, levels[0].price, limit) {
        FillsAvailableDepth(levels[1..], requested - MinReal(requested, levels[0].qty), limit, side);
        DepthNonNegative(levels[1..], limit, side);
      } else {
        FillsAvailableDepth(levels[1..], 0.0, limit, side);
        if requested > 0.0 {
          NoDepthBeyondLimit(levels, limit, side);
        }
      }
    }
  }

  /**
   * A price that separates the walk `g` from an allocation `a`: the walk takes more only from levels
   * at least as good as the pivot, and less only from levels at least as bad.
   */
  ghost predicate IsPivot(levels: seq<Level>, g: seq<real>, a: seq<real>, pivot: real, side: Side)
    requires |g| == |a| == |levels|
  {
    forall i :: 0 <= i < |levels| ==>
      (g[i] > a[i] ==> NoWorse(side, levels[i].price, pivot)) &&
      (g[i] < a[i] ==> NoWorse(side, pivot, levels[i].price))
  }

  lemma {:induction false} FindPivot(
    levels: seq<Level>, remaining: real, limit: real, side: Side, a: seq<real>) returns (pivot: real)
    requires BestFirst(levels, side) && IsAllocation(levels, limit, side, a)
    ensures IsPivot(levels, Takes(levels, remaining, limit, side), a, pivot, side)
    ensures levels != [] ==> NoWorse(side, levels[0].price, pivot)
    decreases |levels|
  {
    pivot := 0.0;
    if levels != [] {
      var g := Takes(levels, remaining, limit, side);
      if remaining <= 0.0 || !NoWorse(side, levels[0].price, limit) || remaining < levels[0].qty {
        pivot := levels[0].price;
        if remaining <= 0.0 || !NoWorse(side, levels[0].price, limit) {
          StoppedTakes(levels, remaining, limit, side);
        } else {
          StoppedTakes(levels[1..], 0.0, limit, side);
        }
      } else if |levels| == 1 {
        pivot := levels[0].price;
      } else {
        pivot := FindPivot(levels[1..], remaining - levels[0].qty, limit, side, a[1..]);
        var rest := Takes(levels[1..], remaining - levels[0].qty, limit, side);
        assert g == [levels[0].qty] + rest;
        assert forall i :: 1 <= i < |levels| ==> levels[i] == levels[1..][i - 1] && a[i] == a[1..][i - 1];
      }
    }
  }

  /** Moving one level's quantity from `a` to `g` changes the cost, relative to the pivot, one way. */
  lemma OneLevel(side: Side, g: real, a: real, price: real, pivot: real)
    requires g > a ==> NoWorse(side, price, pivot)
    requires g < a ==> NoWorse(side, pivot, price)
    ensures NoWorse(side, Notional(price, g) - Notional(price, a), Notional(pivot, g - a))
  {
    assert (g - a) * (price - pivot) == g * price - a * price - pivot * (g - a);
    match side {
      case Buy => assert (g - a) * (price - pivot) <= 0.0;
      case Sell => assert (g - a) * (price - pivot) >= 0.0;
    }
  }

  lemma WorthAdds(price: real, a: real, b: real)
    ensures Notional(price, a + b) == Notional(price, a) + Notional(price, b) && Notional(price, 0.0) == 0.0
  {
  }

  lemma {:induction false} PivotBoundsCost(
    levels: seq<Level>, g: seq<real>, a: seq<real>, pivot: real, side: Side)
    requires |g| == |a| == |levels| && IsPivot(levels, g, a, pivot, side)
    ensures NoWorse(side, Cost(levels, g) - Cost(levels, a), Notional(pivot, Total(g) - Total(a)))
    decreases |levels|
  {
    hide Notional;
    WorthAdds(pivot, 0.0, 0.0);
    if levels != [] {
      var n := |levels| - 1;
      PivotBoundsCost(levels[..n], g[..n], a[..n], pivot, side);
      OneLevel(side, g[n], a[n], levels[n].price, pivot);
      var before := Total(g[..n]) - Total(a[..n]);
      WorthAdds(pivot, before, g[n] - a[n]);
      assert Total(g) - Total(a) == before + (g[n] - a[n]);
    }
  }

  /**
   * On a best-first side with nonnegative quantities the walk takes min(request, depth), and among
   * all ways to take that quantity within the limit it is the cheapest for a buyer and the dearest
   * for a seller.
   */
  lemma {:induction false} WalkIsOptimal(
    levels: seq<Level>, requested: real, limit: real, side: Side, a: seq<real>)
    requires BestFirst(levels, side) && NonNegative(levels) && requested > 0.0
    requires IsAllocation(levels, limit, side, a)
    requires Total(a) == MinReal(requested, Depth(levels, limit, side))
    ensures var g := Takes(levels, requested, limit, side);
      IsAllocation(levels, limit, side, g) && Total(g) == Total(a) &&
      NoWorse(side, Cost(levels, g), Cost(levels, a))
  {
    hide Notional;
    WalkIsAnAllocation(levels, requested, limit, side);
    FillsAvailableDepth(levels, requested, limit, side);
    var pivot := FindPivot(levels, requested, limit, side, a);
    PivotBoundsCost(levels, Takes(levels, requested, limit, side), a, pivot, side);
    WorthAdds(pivot, 0.0, 0.0);
  }

  lemma {:induction false} CostWithinLimit(levels: seq<Level>, limit: real, side: Side, a: seq<real>)
    requires IsAllocation(levels, limit, side, a)
    ensures NoWorse(side, Cost(levels, a), Notional(limit, Total(a)))
    decreases |levels|
  {
    hide Notional;
    WorthAdds(limit, 0.0, 0.0);
    if levels != [] {
      var n := |levels| - 1;
      WorthAdds(levels[n].price, 0.0, 0.0);
      CostWithinLimit(levels[..n], limit, side, a[..n]);
      OneLevel(side, a[n], 0.0, levels[n].price, limit);
      WorthAdds(limit, Total(a[..n]), a[n]);
    }
  }

  /** A reported average price is never beyond the limit, and a fill is never larger than the request. */
  lemma AverageWithinLimit(levels: seq<Level>, requested: real, limit: real, side: Side)
    requires NonNegative(levels)
    ensures match Walked(levels, requested, limit, side)
      case None => true
      case Some((average, qty)) => NoWorse(side, average, limit) && 0.0 < qty <= requested
  {
    var a := Takes(levels, requested, limit, side);
    WalkIsAnAllocation(levels, requested, limit, side);
    CostWithinLimit(levels, limit, side, a);
    NeverOverfills(levels, requested, limit, side);
    if Total(a) > 0.0 {
      Quotient(side, Cost(levels, a), limit, Total(a));
    }
  }

  lemma Quotient(side: Side, cost: real, limit: real, qty: real)
    requires qty > 0.0 && NoWorse(side, cost, Notional(limit, qty))
    ensures NoWorse(side, cost / qty, limit)
  {
    var average := cost / qty;
    assert average * qty == cost;
    assert (limit - average) * qty == limit * qty - cost;
  }
}
