/** Greedy walks through an order book: buying for a stake from the cheapest ask up
    (analysis/golden_sample_economics.py), and selling shares from the dearest bid down
    (execution/paper_tracker.py). */
module DepthWalk {
  import opened Wrappers
  import Decimals
  import opened RealSums

  datatype Level = Level(price: real, size: real)

  predicate Positive(l: Level) { l.price > 0.0 && l.size > 0.0 }

  predicate Book(ls: seq<Level>) { forall k :: 0 <= k < |ls| ==> Positive(ls[k]) }

  predicate Ascending(ls: seq<Level>) { forall j, k :: 0 <= j < k < |ls| ==> ls[j].price <= ls[k].price }
  predicate Descending(ls: seq<Level>) { forall j, k :: 0 <= j < k < |ls| ==> ls[j].price >= ls[k].price }

  function CostOf(l: Level): real { l.price * l.size }
  function SizeOf(l: Level): real { l.size }

  /** What the whole book costs, and how many shares it holds. */
  function Notional(ls: seq<Level>): real { Sum(CostOf, ls) }
  function Depth(ls: seq<Level>): real { Sum(SizeOf, ls) }

  // ---- ways to trade against a book ------------------------------------------------------------

  /** A plan takes some shares of every level, never more than are there. */
  predicate Plan(ls: seq<Level>, takes: seq<real>) {
    |takes| == |ls| && forall k :: 0 <= k < |ls| ==> 0.0 <= takes[k] <= ls[k].size
  }

  function Taken(takes: seq<real>): real {
    if takes == [] then 0.0 else takes[0] + Taken(takes[1..])
  }

  function Paid(ls: seq<Level>, takes: seq<real>): real
    requires |takes| == |ls|
  {
    if ls == [] then 0.0 else takes[0] * ls[0].price + Paid(ls[1..], takes[1..])
  }

  // ---- buying ----------------------------------------------------------------------------------

  /** Shares bought for `stake` walking up, or None when the book does not hold that much. */
  function SharesFor(asks: seq<Level>, stake: real): Option<real>
    requires Book(asks)
    decreases |asks|
  {
    if asks == [] then None
    else
      var l := asks[0];
      if CostOf(l) >= stake then Some(stake / l.price)
      else
        More(l.size, SharesFor(asks[1..], stake - CostOf(l)))
  }

  function More(got: real, rest: Option<real>): Option<real> { if rest.None? then None else Some(got + rest.value) }

  /** The loop of `_walk_ask_depth_vwap`: average price, shares and cost, or insufficient depth. */
  method WalkAskDepth(asks: seq<Level>, stake: real) returns (shares: Option<real>, cost: real, average: real)
    requires Book(asks) && stake > 0.0
    ensures shares == SharesFor(asks, stake)
    ensures shares.Some? ==> cost == stake && shares.value > 0.0 && average == stake / shares.value
  {
    hide CostOf;
    var k, got := 0, 0.0;
    cost, average := 0.0, 0.0;
    while k < |asks|
      invariant 0 <= k <= |asks| && cost < stake && got >= 0.0
      invariant SharesFor(asks, stake) == More(got, SharesFor(asks[k..], stake - cost))
    {
      var l := asks[k];
      assert asks[k..][0] == l && asks[k..][1..] == asks[k + 1..];
      var level := CostOf(l);
      if cost + level >= stake {
        var take := (stake - cost) / l.price;
        QuotientPositive(stake - cost, l.price);
        got := got + take;
        return Some(got), stake, stake / got;
      }
      assert stake - cost - level == stake - (cost + level);
      cost := cost + level;
      got := got + l.size;
      k := k + 1;
    }
    return None, cost, average;
  }

  lemma {:induction false} SharesArePositive(asks: seq<Level>, stake: real)
    requires Book(asks) && stake > 0.0
    ensures SharesFor(asks, stake).Some? ==> SharesFor(asks, stake).value > 0.0
    decreases |asks|
  {
    hide CostOf;
    if asks != [] {
      var l := asks[0];
      if CostOf(l) < stake { SharesArePositive(asks[1..], stake - CostOf(l)); }
      else { QuotientPositive(stake, l.price); }
    }
  }

  lemma QuotientPositive(a: real, b: real)
    requires a > 0.0 && b > 0.0
    ensures a / b > 0.0 && a / b * b == a
  {
  }

  lemma BooksCost(ls: seq<Level>)
    requires Book(ls)
    ensures forall l :: l in ls ==> CostOf(l) > 0.0
    ensures Sum(CostOf, []) == 0.0
  {
    forall l | l in ls ensures CostOf(l) > 0.0 { assert l.price * l.size > 0.0; }
  }

  /** The walk fails exactly when everything on the book costs less than the stake. */
  lemma {:induction false} FailsExactlyWhenShallow(asks: seq<Level>, stake: real)
    requires Book(asks) && stake > 0.0
    ensures SharesFor(asks, stake).None? <==> Notional(asks) < stake
    decreases |asks|
  {
    hide CostOf, Sum;
    BooksCost(asks);
    if asks != [] {
      var l, rest := asks[0], asks[1..];
      SumFront(CostOf, asks);
      if CostOf(l) < stake {
        FailsExactlyWhenShallow(rest, stake - CostOf(l));
      } else {
        SumIsNonNegative(CostOf, rest);
      }
    }
  }

  // -- optimality, by the price of the level where the walk stops

  /** What a buyer gains on a level who values a share at `m`. */
  function GainOn(m: real, l: Level): real { if l.price < m then l.size * (m - l.price) else 0.0 }

  function Gain(m: real): Level -> real { (l: Level) => GainOn(m, l) }

  lemma {:induction false} GainIsNonNegative(ls: seq<Level>, m: real)
    requires Book(ls)
    ensures Sum(Gain(m), ls) >= 0.0
  {
    forall l | l in ls ensures GainOn(m, l) >= 0.0 { ProductNonNegative(l.size, m - l.price); }
    SumIsNonNegative(Gain(m), ls);
  }

  lemma ProductNonNegative(a: real, b: real)
    ensures a >= 0.0 && b >= 0.0 ==> a * b >= 0.0
    ensures a > 0.0 && b > 0.0 ==> a * b > 0.0
  {
  }

  lemma Distribute(a: real, b: real, c: real)
    ensures a * (b + c) == a * b + a * c
  {
  }

  lemma LevelGain(l: Level, take: real, m: real)
    requires 0.0 <= take <= l.size
    ensures m * take <= take * l.price + GainOn(m, l)
  {
    if l.price < m { ProductNonNegative(l.size - take, m - l.price); } else { ProductNonNegative(take, l.price - m); }
  }

  /** No plan does better, at any valuation, than paying and collecting every gain. */
  lemma {:induction false} NoPlanBeatsTheGains(ls: seq<Level>, takes: seq<real>, m: real)
    requires Plan(ls, takes)
    ensures m * Taken(takes) <= Paid(ls, takes) + Sum(Gain(m), ls)
    decreases |ls|
  {
    hide GainOn;
    if ls != [] {
      NoPlanBeatsTheGains(ls[1..], takes[1..], m);
      LevelGain(ls[0], takes[0], m);
      SumFront(Gain(m), ls);
      var t, rest := takes[0], Taken(takes[1..]);
      assert Taken(takes) == t + rest && Paid(ls, takes) == t * ls[0].price + Paid(ls[1..], takes[1..]);
      hide Sum, Taken, Paid, Plan;
      Distribute(m, t, rest);
    }
  }

  lemma GainApplied(m: real, l: Level)
    ensures Gain(m)(l) == GainOn(m, l)
  {
  }

  predicate HasPrice(ls: seq<Level>, m: real) { exists k :: 0 <= k < |ls| && ls[k].price == m }

  /** `shares` for `stake` collects every gain of the book at the valuation `m`. */
  predicate Collects(asks: seq<Level>, stake: real, shares: real, m: real) {
    m > 0.0 && m * shares == stake + Sum(Gain(m), asks)
  }

  lemma StopsHere(asks: seq<Level>, stake: real)
    requires Book(asks) && Ascending(asks) && stake > 0.0 && asks != []
    ensures Collects(asks, stake, stake / asks[0].price, asks[0].price)
  {
    hide Sum, Gain;
    NoGains(asks, asks[0].price);
    QuotientPositive(stake, asks[0].price);
  }

  lemma GoesOn(asks: seq<Level>, stake: real, shares: real, m: real)
    requires asks != [] && asks[0].price <= m && Collects(asks[1..], stake - CostOf(asks[0]), shares, m)
    ensures Collects(asks, stake, asks[0].size + shares, m)
  {
    var l := asks[0];
    SumFront(Gain(m), asks);
    GainApplied(m, l);
    hide Sum, Gain, GainOn, CostOf;
    OneMoreLevel(l, m, stake, shares, Sum(Gain(m), asks[1..]));
  }

  /** The walk collects every gain, valuing shares at the price of the level it stops in. */
  lemma {:induction false} WalkCollectsTheGains(asks: seq<Level>, stake: real) returns (m: real)
    requires Book(asks) && Ascending(asks) && stake > 0.0 && SharesFor(asks, stake).Some?
    ensures Collects(asks, stake, SharesFor(asks, stake).value, m) && HasPrice(asks, m)
    decreases |asks|
  {
    hide CostOf, Collects;
    var l, rest := asks[0], asks[1..];
    if CostOf(l) >= stake {
      m := l.price;
      StopsHere(asks, stake);
    } else {
      m := WalkCollectsTheGains(rest, stake - CostOf(l));
      var k :| 0 <= k < |rest| && rest[k].price == m;
      assert asks[k + 1].price == m && l.price <= m;
      GoesOn(asks, stake, SharesFor(rest, stake - CostOf(l)).value, m);
    }
  }

  lemma OneMoreLevel(l: Level, m: real, stake: real, shares: real, gains: real)
    requires m * shares == stake - CostOf(l) + gains && l.price <= m
    ensures m * (l.size + shares) == stake + (GainOn(m, l) + gains)
  {
    Distribute(m, l.size, shares);
    GainWhenCheaper(m, l);
    hide GainOn, CostOf;
    assert m * (l.size + shares) == m * l.size + m * shares;
  }

  lemma GainWhenCheaper(m: real, l: Level)
    requires l.price <= m
    ensures GainOn(m, l) == m * l.size - CostOf(l)
  {
    Distribute(l.size, m, -l.price);
    if l.price < m {
      assert GainOn(m, l) == l.size * (m + -l.price);
    }
  }

  lemma {:induction false} NoGains(ls: seq<Level>, m: real)
    requires forall k :: 0 <= k < |ls| ==> ls[k].price >= m
    ensures Sum(Gain(m), ls) == 0.0
    decreases |ls|
  {
    if ls != [] { NoGains(ls[..|ls| - 1], m); }
  }

  lemma CancelFactor(m: real, a: real, b: real)
    requires m > 0.0 && m * a <= m * b
    ensures a <= b
  {
    Decimals.ScaleOrder(a, b, m);
  }

  /** Whatever the order the book comes in, no way to take at most each level's size for the stake buys more
      shares than the walk over its sorted levels. */
  lemma WalkIsOptimal(book: seq<Level>, asks: seq<Level>, stake: real, takes: seq<real>)
    requires Book(asks) && Ascending(asks) && multiset(asks) == multiset(book) && stake > 0.0
    requires Plan(book, takes) && Paid(book, takes) == stake && SharesFor(asks, stake).Some?
    ensures Taken(takes) <= SharesFor(asks, stake).value
  {
    hide SharesFor, Gain, Taken, Paid, Sum, Plan, Ascending, HasPrice;
    var m := WalkCollectsTheGains(asks, stake);
    NoPlanBeatsTheGains(book, takes, m);
    SumPermutes(Gain(m), asks, book);
    CancelFactor(m, Taken(takes), SharesFor(asks, stake).value);
  }

  /** What the walk takes of each level. */
  function WalkTakes(asks: seq<Level>, stake: real): seq<real>
    requires Book(asks)
    decreases |asks|
  {
    if asks == [] then []
    else
      var l := asks[0];
      if CostOf(l) >= stake then [stake / l.price] + seq(|asks| - 1, _ => 0.0)
      else [l.size] + WalkTakes(asks[1..], stake - CostOf(l))
  }

  lemma {:induction false} NothingTaken(ls: seq<Level>)
    ensures Plan(ls, seq(|ls|, _ => 0.0)) || !Book(ls)
    ensures Taken(seq(|ls|, _ => 0.0)) == 0.0 && Paid(ls, seq(|ls|, _ => 0.0)) == 0.0
    decreases |ls|
  {
    if ls != [] {
      NothingTaken(ls[1..]);
      assert seq(|ls|, _ => 0.0)[1..] == seq(|ls[1..]|, _ => 0.0);
    }
  }

  /** The walk itself is a plan that spends exactly the stake: the optimum is attained. */
  lemma {:induction false} WalkIsAPlan(asks: seq<Level>, stake: real)
    requires Book(asks) && stake > 0.0 && SharesFor(asks, stake).Some?
    ensures var takes := WalkTakes(asks, stake);
      Plan(asks, takes) && Paid(asks, takes) == stake && Taken(takes) == SharesFor(asks, stake).value
    decreases |asks|
  {
    var l, rest := asks[0], asks[1..];
    var takes := WalkTakes(asks, stake);
    if CostOf(l) >= stake {
      NothingTaken(rest);
      QuotientPositive(stake, l.price);
      CancelFactor(l.price, stake / l.price, l.size);
      assert takes[1..] == seq(|rest|, _ => 0.0);
    } else {
      hide CostOf;
      WalkIsAPlan(rest, stake - CostOf(l));
      assert takes[1..] == WalkTakes(rest, stake - CostOf(l));
    }
  }

  /** Two walks over the same levels, in any two sorted orders, buy the same shares. */
  lemma LevelsDecide(asks: seq<Level>, asks': seq<Level>, stake: real)
    requires Book(asks) && Book(asks') && Ascending(asks) && Ascending(asks') && multiset(asks) == multiset(asks')
        && stake > 0.0
    ensures SharesFor(asks, stake) == SharesFor(asks', stake)
  {
    hide SharesFor, WalkTakes, Plan, Paid, Taken, Book, Ascending, Sum;
    FailsExactlyWhenShallow(asks, stake);
    FailsExactlyWhenShallow(asks', stake);
    SumPermutes(CostOf, asks, asks');
    if SharesFor(asks, stake).Some? {
      WalkIsAPlan(asks, stake);
      WalkIsAPlan(asks', stake);
      WalkIsOptimal(asks, asks', stake, WalkTakes(asks, stake));
      WalkIsOptimal(asks', asks, stake, WalkTakes(asks', stake));
    }
  }

  /** A larger stake buys at an average at least as high. */
  lemma AverageNeverFalls(asks: seq<Level>, small: real, large: real)
    requires Book(asks) && Ascending(asks) && 0.0 < small <= large
    requires SharesFor(asks, small).Some? && SharesFor(asks, large).Some?
    ensures SharesFor(asks, small).value > 0.0 && SharesFor(asks, large).value > 0.0
    ensures small / SharesFor(asks, small).value <= large / SharesFor(asks, large).value
  {
    hide SharesFor, WalkTakes, Plan, Taken, Paid, HasPrice, Book, Ascending;
    SharesArePositive(asks, small);
    SharesArePositive(asks, large);
    var m := WalkCollectsTheGains(asks, small);
    WalkIsAPlan(asks, large);
    NoPlanBeatsTheGains(asks, WalkTakes(asks, large), m);
    GainIsNonNegative(asks, m);
    Slower(small, large, SharesFor(asks, small).value, SharesFor(asks, large).value, m, Sum(Gain(m), asks));
  }

  lemma Slower(s1: real, s2: real, f1: real, f2: real, m: real, g: real)
    requires 0.0 < s1 <= s2 && f1 > 0.0 && f2 > 0.0 && m > 0.0 && g >= 0.0
    requires m * f1 == s1 + g && m * f2 <= s2 + g
    ensures s1 / f1 <= s2 / f2
  {
    assert (m * f2) * s1 <= (s2 + g) * s1 by { ScaleBy(m * f2, s2 + g, s1); }
    assert g * s1 <= g * s2 by { ScaleBy(s1, s2, g); }
    assert (s2 + g) * s1 <= (s1 + g) * s2;
    assert m * (f2 * s1) <= m * (f1 * s2);
    CancelFactor(m, f2 * s1, f1 * s2);
    Ratio(s1, f1, s2, f2);
  }

  lemma ScaleBy(a: real, b: real, c: real)
    requires a <= b && c >= 0.0
    ensures a * c <= b * c && c * a <= c * b
  {
    ProductNonNegative(b - a, c);
  }

  lemma Ratio(s1: real, f1: real, s2: real, f2: real)
    requires f1 > 0.0 && f2 > 0.0 && f2 * s1 <= f1 * s2
    ensures s1 / f1 <= s2 / f2
  {
    var p, q := s1 / f1, s2 / f2;
    Decimals.ScaleBack(s1, f1);
    Decimals.ScaleBack(s2, f2);
    assert p * (f1 * f2) == f2 * s1 && q * (f1 * f2) == f1 * s2 by {
      assert p * (f1 * f2) == p * f1 * f2 && q * (f1 * f2) == q * f2 * f1;
    }
    ProductNonNegative(f1, f2);
    Decimals.ScaleOrder(p, q, f1 * f2);
  }

  /** Fair value less average price and fixed costs. */
  function Edge(fair: real, average: real, fee: real, slippage: real, margin: real): real {
    fair - average - fee - slippage - margin
  }

  /** The diagnostic edge never rises with the stake. */
  lemma EdgeNeverRises(asks: seq<Level>, small: real, large: real, fair: real, fee: real, slippage: real, margin: real)
    requires Book(asks) && Ascending(asks) && 0.0 < small <= large
    requires SharesFor(asks, small).Some? && SharesFor(asks, large).Some?
    ensures SharesFor(asks, small).value > 0.0 && SharesFor(asks, large).value > 0.0
    ensures Edge(fair, large / SharesFor(asks, large).value, fee, slippage, margin)
         <= Edge(fair, small / SharesFor(asks, small).value, fee, slippage, margin)
  {
    AverageNeverFalls(asks, small, large);
  }

  // ---- loading a side of the book --------------------------------------------------------------

  /** Stable insertion by price. */
  function Insert(ls: seq<Level>, l: Level): seq<Level>
    decreases |ls|
  {
    if ls == [] || ls[|ls| - 1].price <= l.price then ls + [l]
    else Insert(ls[..|ls| - 1], l) + [ls[|ls| - 1]]
  }

  lemma {:induction false} InsertAdds(ls: seq<Level>, l: Level)
    ensures multiset(Insert(ls, l)) == multiset(ls) + multiset{l}
    decreases |ls|
  {
    if ls != [] && ls[|ls| - 1].price > l.price {
      var front, last := ls[..|ls| - 1], ls[|ls| - 1];
      assert ls == front + [last];
      InsertAdds(front, l);
    }
  }

  lemma MembersOf(r: seq<Level>, front: seq<Level>, l: Level)
    requires multiset(r) == multiset(front) + multiset{l}
    ensures forall x :: x in r ==> x == l || x in front
  {
    forall x | x in r ensures x == l || x in front { assert x in multiset(r); }
  }

  lemma {:induction false} InsertSorts(ls: seq<Level>, l: Level)
    requires Ascending(ls)
    ensures Ascending(Insert(ls, l)) && multiset(Insert(ls, l)) == multiset(ls) + multiset{l}
    decreases |ls|
  {
    InsertAdds(ls, l);
    if ls != [] && ls[|ls| - 1].price > l.price {
      var front, last := ls[..|ls| - 1], ls[|ls| - 1];
      InsertSorts(front, l);
      var r := Insert(front, l);
      MembersOf(r, front, l);
      forall k | 0 <= k < |r| ensures r[k].price <= last.price {
        assert r[k] in r;
      }
      hide Insert;
      assert Ascending(r + [last]);
    }
  }

  /** A level the diagnostic accepts: a probability price and a positive size. */
  predicate Acceptable(l: Level) { 0.0 < l.price < 1.0 && l.size > 0.0 }

  /** One side of a book, cheapest first, or None when some level is malformed. */
  method LoadLevels(raw: seq<Level>) returns (sorted: Option<seq<Level>>)
    ensures sorted.Some? <==> forall k :: 0 <= k < |raw| ==> Acceptable(raw[k])
    ensures sorted.Some? ==> Ascending(sorted.value) && Book(sorted.value) && multiset(sorted.value) == multiset(raw)
  {
    var out: seq<Level>, k := [], 0;
    while k < |raw|
      invariant 0 <= k <= |raw| && Ascending(out) && multiset(out) == multiset(raw[..k])
      invariant forall j :: 0 <= j < k ==> Acceptable(raw[j])
    {
      if !Acceptable(raw[k]) { return None; }
      InsertSorts(out, raw[k]);
      assert raw[..k + 1] == raw[..k] + [raw[k]];
      out := Insert(out, raw[k]);
      k := k + 1;
    }
    assert raw[..k] == raw;
    forall j | 0 <= j < |out| ensures Positive(out[j]) {
      assert out[j] in multiset(raw);
    }
    return Some(out);
  }
}
