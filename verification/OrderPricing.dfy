/** Tick-safe limit prices of taker orders (execution/order_pricing.py). */
module OrderPricing {
  import opened Decimals

  datatype Side = TakerBuy | TakerSell | OtherSide

  datatype Reject = InvalidTick | InvalidSide | MaxSlippageExceeded | OutOfBounds

  datatype Limit = Limit(price: real) | Rejected(reason: Reject)

  datatype Cap = NoCap | Cap(ratio: real)

  function CeilToTick(price: real, tick: real): real
    requires tick > 0.0
  {
    Ceiling(price / tick) as real * tick
  }

  function FloorToTick(price: real, tick: real): real
    requires tick > 0.0
  {
    (price / tick).Floor as real * tick
  }

  function Abs(x: real): real { if x < 0.0 then -x else x }

  function ComputeLimitPrice(side: Side, quote: real, buffer: real, tick: real, low: real, high: real,
      cap: Cap): Limit {
    if tick <= 0.0 then Rejected(InvalidTick)
    else if side.OtherSide? then Rejected(InvalidSide)
    else
      var limit := if side.TakerBuy? then CeilToTick(quote + buffer, tick) else FloorToTick(quote - buffer, tick);
      if cap.Cap? && quote > 0.0 && Abs(limit - quote) / quote > cap.ratio then Rejected(MaxSlippageExceeded)
      else if limit < low || limit > high then Rejected(OutOfBounds)
      else Limit(limit)
  }

  /** The price a taker aims at before rounding. */
  function Aim(side: Side, quote: real, buffer: real): real {
    if side.TakerBuy? then quote + buffer else quote - buffer
  }

  function Ticks(k: int, tick: real): real { k as real * tick }

  ghost predicate IsTick(x: real, tick: real) { exists k: int :: x == Ticks(k, tick) }

  /** `x` is at least as aggressive as `y`: higher for a buyer, lower for a seller. */
  predicate AtLeastAsAggressive(side: Side, x: real, y: real) {
    if side.TakerBuy? then x >= y else x <= y
  }

  /** The tick on the aggressive side of the aim that gives least away. */
  ghost predicate Tightest(side: Side, x: real, aim: real, tick: real) {
    && IsTick(x, tick) && AtLeastAsAggressive(side, x, aim)
    && forall k: int :: AtLeastAsAggressive(side, Ticks(k, tick), aim) ==> AtLeastAsAggressive(side, Ticks(k, tick), x)
  }

  predicate Acceptable(x: real, quote: real, low: real, high: real, cap: Cap) {
    low <= x <= high && (cap.Cap? && quote > 0.0 ==> Abs(x - quote) <= cap.ratio * quote)
  }

  lemma CeilBelowMultiples(p: real, tick: real, k: int)
    requires tick > 0.0 && Ticks(k, tick) >= p
    ensures Ticks(k, tick) >= CeilToTick(p, tick)
  {
    var x, c := p / tick, Ceiling(p / tick);
    assert x <= k as real by { ScaleBack(p, tick); ScaleOrder(x, k as real, tick); }
    CeilingIsLeast(x, k);
    ScaleOrder(c as real, k as real, tick);
  }

  lemma FloorAboveMultiples(p: real, tick: real, k: int)
    requires tick > 0.0 && Ticks(k, tick) <= p
    ensures Ticks(k, tick) <= FloorToTick(p, tick)
  {
    var x, f := p / tick, (p / tick).Floor;
    assert k as real <= x by { ScaleBack(p, tick); ScaleOrder(k as real, x, tick); }
    assert k <= f;
    ScaleOrder(k as real, f as real, tick);
  }

  lemma CeilIsTightest(p: real, tick: real)
    requires tick > 0.0
    ensures Tightest(TakerBuy, CeilToTick(p, tick), p, tick)
  {
    CeilingIsLeast(p / tick, 0);
    ScaleOrder(p / tick, Ceiling(p / tick) as real, tick);
    ScaleBack(p, tick);
    assert CeilToTick(p, tick) == Ticks(Ceiling(p / tick), tick);
    hide CeilToTick, Ticks;
    forall k: int | Ticks(k, tick) >= p
      ensures Ticks(k, tick) >= CeilToTick(p, tick)
    {
      CeilBelowMultiples(p, tick, k);
    }
  }

  lemma FloorIsTightest(p: real, tick: real)
    requires tick > 0.0
    ensures Tightest(TakerSell, FloorToTick(p, tick), p, tick)
  {
    ScaleOrder((p / tick).Floor as real, p / tick, tick);
    ScaleBack(p, tick);
    assert FloorToTick(p, tick) == Ticks((p / tick).Floor, tick);
    hide FloorToTick, Ticks;
    forall k: int | Ticks(k, tick) <= p
      ensures Ticks(k, tick) <= FloorToTick(p, tick)
    {
      FloorAboveMultiples(p, tick, k);
    }
  }

  lemma SlippageWithin(d: real, quote: real, ratio: real)
    requires quote > 0.0
    ensures d / quote > ratio <==> d > ratio * quote
  {
    ScaleOrder(d / quote, ratio, quote);
  }

  /** A price is returned exactly when it is the tightest tick on the aggressive side and acceptable;
      nothing is ever clamped. */
  lemma LimitIsTightestOrRejected(side: Side, quote: real, buffer: real, tick: real, low: real, high: real, cap: Cap,
      x: real)
    requires tick > 0.0 && !side.OtherSide?
    ensures ComputeLimitPrice(side, quote, buffer, tick, low, high, cap) == Limit(x)
       <==> Tightest(side, x, Aim(side, quote, buffer), tick) && Acceptable(x, quote, low, high, cap)
  {
    hide CeilToTick, FloorToTick, Ticks;
    var aim := Aim(side, quote, buffer);
    var best := if side.TakerBuy? then CeilToTick(aim, tick) else FloorToTick(aim, tick);
    if side.TakerBuy? { CeilIsTightest(aim, tick); } else { FloorIsTightest(aim, tick); }
    if Tightest(side, x, aim, tick) {
      var k: int :| x == Ticks(k, tick);
      var b: int :| best == Ticks(b, tick);
      assert AtLeastAsAggressive(side, Ticks(k, tick), best) && AtLeastAsAggressive(side, Ticks(b, tick), x);
      assert x == best;
    }
    if cap.Cap? && quote > 0.0 { SlippageWithin(Abs(best - quote), quote, cap.ratio); }
  }

  /** The reasons, in the order they are checked. */
  lemma RejectedBecause(side: Side, quote: real, buffer: real, tick: real, low: real, high: real, cap: Cap, x: real)
    requires tick > 0.0 && !side.OtherSide? && Tightest(side, x, Aim(side, quote, buffer), tick)
    requires !Acceptable(x, quote, low, high, cap)
    ensures ComputeLimitPrice(side, quote, buffer, tick, low, high, cap) ==
      Rejected(if cap.Cap? && quote > 0.0 && Abs(x - quote) > cap.ratio * quote then MaxSlippageExceeded
          else OutOfBounds)
  {
    hide CeilToTick, FloorToTick, Ticks;
    var aim := Aim(side, quote, buffer);
    var best := if side.TakerBuy? then CeilToTick(aim, tick) else FloorToTick(aim, tick);
    if side.TakerBuy? { CeilIsTightest(aim, tick); } else { FloorIsTightest(aim, tick); }
    var k: int :| x == Ticks(k, tick);
    var b: int :| best == Ticks(b, tick);
    assert AtLeastAsAggressive(side, Ticks(k, tick), best) && AtLeastAsAggressive(side, Ticks(b, tick), x);
    assert x == best;
    if cap.Cap? && quote > 0.0 { SlippageWithin(Abs(best - quote), quote, cap.ratio); }
  }
}
