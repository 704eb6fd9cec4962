/** The paper tracker's own walks: an entry estimate over the asks and a sale over the bids
    (execution/paper_tracker.py). */
module PaperWalk {
  import opened Wrappers
  import opened Decimals
  import opened RealSums
  import opened DepthWalk

  function Least(a: real, b: real): real { if a <= b then a else b }

  const PRICE_UNIT := 0.0001
  const SHARE_UNIT := 0.000001

  /** Shares bought, dollars left over and levels used. */
  datatype Bought = Bought(shares: real, left: real, levels: nat)

  /** Spend what a level costs, or what is left, and stop once nothing is left. */
  function Buy(asks: seq<Level>, usd: real): Bought
    requires Book(asks)
    decreases |asks|
  {
    if asks == [] then Bought(0.0, usd, 0)
    else
      var l := asks[0];
      var spend := Least(usd, CostOf(l));
      if usd - spend <= 0.0 then Bought(spend / l.price, usd - spend, 1)
      else
        var rest := Buy(asks[1..], usd - spend);
        Bought(spend / l.price + rest.shares, rest.left, 1 + rest.levels)
  }

  datatype Estimate = NoEstimate | Estimate(price: real, high: bool, levels: nat)

  function Summed(b: Bought, usd: real): Estimate {
    if b.shares <= 0.0 || usd - b.left <= 0.0 then NoEstimate
    else Estimate(Quantize((usd - b.left) / b.shares, PRICE_UNIT), b.left <= 0.000000001, b.levels)
  }

  method EstimateEntryPrice(asks: seq<Level>, usd: real) returns (e: Estimate)
    requires Book(asks)
    ensures e == if asks == [] then NoEstimate else Summed(Buy(asks, usd), usd)
  {
    hide CostOf;
    if asks == [] { return NoEstimate; }
    var left, shares, levels, k := usd, 0.0, 0, 0;
    while k < |asks|
      invariant 0 <= k <= |asks| && levels == k
      invariant var rest := Buy(asks[k..], left);
        Buy(asks, usd) == Bought(shares + rest.shares, rest.left, levels + rest.levels)
    {
      var l := asks[k];
      assert asks[k..][0] == l && asks[k..][1..] == asks[k + 1..];
      var spend := Least(left, CostOf(l));
      shares := shares + spend / l.price;
      left := left - spend;
      levels := levels + 1;
      k := k + 1;
      if left <= 0.0 {
        return Summed(Bought(shares, left, levels), usd);
      }
    }
    return Summed(Bought(shares, left, levels), usd);
  }

  /** On a book deep enough the two separately written walks buy the same shares. */
  lemma {:induction false} WalksAgree(asks: seq<Level>, usd: real)
    requires Book(asks) && usd > 0.0 && SharesFor(asks, usd).Some?
    ensures Buy(asks, usd).left == 0.0 && Buy(asks, usd).shares == SharesFor(asks, usd).value
    decreases |asks|
  {
    var l := asks[0];
    if CostOf(l) < usd {
      assert CostOf(l) / l.price == l.size;
      hide CostOf;
      WalksAgree(asks[1..], usd - CostOf(l));
    }
  }

  /** So the tracker's estimate is the diagnostic's average rounded to four places, of high quality. */
  lemma EstimateIsRoundedAverage(asks: seq<Level>, usd: real)
    requires Book(asks) && usd > 0.0 && SharesFor(asks, usd).Some?
    ensures SharesFor(asks, usd).value > 0.0
    ensures var e := Summed(Buy(asks, usd), usd);
      e.Estimate? && e.high && e.price == Quantize(usd / SharesFor(asks, usd).value, 0.0001)
  {
    hide SharesFor, Buy, Quantize;
    WalksAgree(asks, usd);
    SharesArePositive(asks, usd);
  }

  /** On a shallower book the tracker takes everything and reports the average of the whole book, not as
      a full fill. */
  lemma {:induction false} ShallowTakesAll(asks: seq<Level>, usd: real)
    requires Book(asks) && usd > 0.0 && SharesFor(asks, usd).None?
    ensures Buy(asks, usd).left == usd - Notional(asks) && Buy(asks, usd).left > 0.0
        && Buy(asks, usd).shares == Depth(asks)
    decreases |asks|
  {
    if asks != [] {
      var l := asks[0];
      assert CostOf(l) / l.price == l.size;
      SumFront(CostOf, asks);
      SumFront(SizeOf, asks);
      hide CostOf, Sum;
      ShallowTakesAll(asks[1..], usd - CostOf(l));
    }
  }

  /** The estimate is of high quality exactly when all but a billionth of the stake could be spent, and there is
      one exactly when the book is not empty. */
  lemma QualityExactlyWhen(asks: seq<Level>, usd: real)
    requires Book(asks) && usd > 0.0
    ensures var e := if asks == [] then NoEstimate else Summed(Buy(asks, usd), usd);
      && (e.Estimate? <==> asks != [])
      && (e.Estimate? ==> (e.high <==> usd - Notional(asks) <= 0.000000001))
  {
    FailsExactlyWhenShallow(asks, usd);
    if asks != [] {
      DepthIsPositive(asks);
      if SharesFor(asks, usd).Some? { EstimateIsRoundedAverage(asks, usd); } else { ShallowTakesAll(asks, usd); }
    }
    hide Buy, SharesFor, Quantize, Book;
  }

  lemma DepthIsPositive(ls: seq<Level>)
    requires Book(ls) && ls != []
    ensures Depth(ls) > 0.0 && Notional(ls) > 0.0
  {
    SumFront(SizeOf, ls);
    SumFront(CostOf, ls);
    SumIsNonNegative(SizeOf, ls[1..]);
    SumIsNonNegative(CostOf, ls[1..]);
    assert ls[0].size > 0.0 && CostOf(ls[0]) > 0.0;
  }

  /** The levels used are the fewest that together are worth the stake, or all of them. */
  lemma {:induction false} FewestLevels(asks: seq<Level>, usd: real)
    requires Book(asks) && usd > 0.0
    ensures var n := Buy(asks, usd).levels;
      && n <= |asks| && (asks != [] ==> n > 0)
      && (n < |asks| ==> Notional(asks[..n]) >= usd)
      && (forall k :: 0 <= k < n ==> Notional(asks[..k]) < usd)
    decreases |asks|
  {
    if asks != [] {
      var l := asks[0];
      SumFront(CostOf, asks[..1]);
      assert asks[..1][0] == l && asks[..1][1..] == [] && Notional([]) == 0.0;
      assert Notional(asks[..1]) == CostOf(l);
      assert asks[..0] == [];
      if CostOf(l) < usd {
        var rest := usd - CostOf(l);
        FewestLevels(asks[1..], rest);
        var n := Buy(asks, usd).levels;
        assert n == 1 + Buy(asks[1..], rest).levels;
        forall k | 1 <= k <= |asks| ensures Notional(asks[..k]) == CostOf(l) + Notional(asks[1..][..k - 1]) {
          SumFront(CostOf, asks[..k]);
          assert asks[..k][1..] == asks[1..][..k - 1];
        }
        hide CostOf, Sum, Buy;
      }
    }
  }

  // ---- selling ---------------------------------------------------------------------------------

  function ValueOf(take: real, l: Level): real { take * l.price }

  datatype Sold = Sold(proceeds: real, left: real, levels: nat)

  function Sell(bids: seq<Level>, shares: real): Sold
    decreases |bids|
  {
    if bids == [] then Sold(0.0, shares, 0)
    else
      var l := bids[0];
      var take := Least(shares, l.size);
      if shares - take <= 0.0 then Sold(ValueOf(take, l), shares - take, 1)
      else
        var rest := Sell(bids[1..], shares - take);
        Sold(ValueOf(take, l) + rest.proceeds, rest.left, 1 + rest.levels)
  }

  datatype Sale = Sale(average: Option<real>, levels: nat, filled: real, unfilled: real)

  function Rounded(s: Sold, shares: real): Sale {
    var filled := shares - s.left;
    Sale(if filled > 0.0 then Some(Quantize(s.proceeds / filled, SHARE_UNIT)) else None,
         s.levels, Quantize(filled, SHARE_UNIT), Quantize(if s.left > 0.0 then s.left else 0.0, SHARE_UNIT))
  }

  method DepthWalkSell(bids: seq<Level>, shares: real) returns (sale: Sale)
    ensures sale == if bids == [] then Sale(None, 0, 0.0, Quantize(shares, SHARE_UNIT))
        else Rounded(Sell(bids, shares), shares)
  {
    if bids == [] { return Sale(None, 0, 0.0, Quantize(shares, SHARE_UNIT)); }
    var left, proceeds, levels, k := shares, 0.0, 0, 0;
    hide Rounded, ValueOf;
    while k < |bids|
      invariant 0 <= k <= |bids|
      invariant var rest := Sell(bids[k..], left);
        Sell(bids, shares) == Sold(proceeds + rest.proceeds, rest.left, levels + rest.levels)
    {
      var l := bids[k];
      assert bids[k..][0] == l && bids[k..][1..] == bids[k + 1..];
      var take := Least(left, l.size);
      proceeds := proceeds + ValueOf(take, l);
      left := left - take;
      levels := levels + 1;
      k := k + 1;
      if left <= 0.0 { return Rounded(Sold(proceeds, left, levels), shares); }
    }
    return Rounded(Sold(proceeds, left, levels), shares);
  }

  /** What a seller gains on a level who values a share at `m`. */
  function OverOn(m: real, l: Level): real { if l.price > m then l.size * (l.price - m) else 0.0 }
  function Over(m: real): Level -> real { (l: Level) => OverOn(m, l) }

  lemma LevelOver(l: Level, take: real, m: real)
    requires 0.0 <= take <= l.size
    ensures take * l.price <= m * take + OverOn(m, l)
  {
    if l.price > m { ProductNonNegative(l.size - take, l.price - m); } else { ProductNonNegative(take, m - l.price); }
  }

  lemma {:induction false} NoSaleBeatsTheGains(ls: seq<Level>, takes: seq<real>, m: real)
    requires Plan(ls, takes)
    ensures Paid(ls, takes) <= m * Taken(takes) + Sum(Over(m), ls)
    decreases |ls|
  {
    hide OverOn;
    if ls != [] {
      NoSaleBeatsTheGains(ls[1..], takes[1..], m);
      LevelOver(ls[0], takes[0], m);
      SumFront(Over(m), ls);
      var t, rest := takes[0], Taken(takes[1..]);
      assert Taken(takes) == t + rest && Paid(ls, takes) == t * ls[0].price + Paid(ls[1..], takes[1..]);
      hide Sum, Taken, Paid, Plan;
      Distribute(m, t, rest);
    }
  }

  lemma {:induction false} NothingOver(ls: seq<Level>, m: real)
    requires forall k :: 0 <= k < |ls| ==> ls[k].price <= m
    ensures Sum(Over(m), ls) == 0.0
    decreases |ls|
  {
    if ls != [] { NothingOver(ls[..|ls| - 1], m); }
  }

  predicate SellsAll(bids: seq<Level>, sold: real, proceeds: real, m: real) {
    proceeds == m * sold + Sum(Over(m), bids)
  }

  lemma OverWhenDearer(m: real, l: Level)
    requires l.price >= m
    ensures OverOn(m, l) == ValueOf(l.size, l) - m * l.size
  {
    Distribute(l.size, l.price, -m);
    if l.price == m { assert l.size * l.price == m * l.size; }
  }

  lemma SaleGoesOn(bids: seq<Level>, sold: real, proceeds: real, m: real)
    requires bids != [] && bids[0].price >= m && SellsAll(bids[1..], sold, proceeds, m)
    ensures SellsAll(bids, bids[0].size + sold, ValueOf(bids[0].size, bids[0]) + proceeds, m)
  {
    var l := bids[0];
    SumFront(Over(m), bids);
    assert Over(m)(l) == OverOn(m, l);
    OverWhenDearer(m, l);
    hide Sum, Over, OverOn;
    Distribute(m, l.size, sold);
  }

  /** The sale collects every gain, valuing shares at the price of the last level it uses. */
  lemma {:induction false} SaleCollectsTheGains(bids: seq<Level>, shares: real) returns (m: real)
    requires Book(bids) && Descending(bids) && shares > 0.0 && bids != []
    ensures var s := Sell(bids, shares); SellsAll(bids, shares - s.left, s.proceeds, m)
    ensures exists k :: 0 <= k < |bids| && bids[k].price == m
    decreases |bids|
  {
    hide SellsAll;
    var l := bids[0];
    if shares <= l.size || |bids| == 1 {
      m := l.price;
      SaleStops(bids, shares);
    } else {
      m := SaleCollectsTheGains(bids[1..], shares - l.size);
      var k :| 0 <= k < |bids[1..]| && bids[1..][k].price == m;
      assert bids[k + 1].price == m && l.price >= m;
      var rest := Sell(bids[1..], shares - l.size);
      SaleGoesOn(bids, shares - l.size - rest.left, rest.proceeds, m);
    }
  }

  lemma SaleStops(bids: seq<Level>, shares: real)
    requires Book(bids) && Descending(bids) && shares > 0.0 && bids != [] && (shares <= bids[0].size || |bids| == 1)
    ensures var s := Sell(bids, shares); SellsAll(bids, shares - s.left, s.proceeds, bids[0].price)
  {
    var l := bids[0];
    var s := Sell(bids, shares);
    NothingOver(bids, l.price);
    if shares <= l.size {
      assert s.proceeds == ValueOf(shares, l) && s.left == 0.0;
    } else {
      assert Sell(bids[1..], shares - l.size) == Sold(0.0, shares - l.size, 0);
      assert s.proceeds == ValueOf(l.size, l) + 0.0 && s.left == shares - l.size;
    }
  }

  /** Whatever the order of the book, no way to sell the same shares brings more than the walk over the bids
      sorted dearest first. */
  lemma SaleIsOptimal(book: seq<Level>, bids: seq<Level>, shares: real, takes: seq<real>)
    requires Book(bids) && Descending(bids) && multiset(bids) == multiset(book) && shares > 0.0 && bids != []
    requires Plan(book, takes) && Taken(takes) == shares - Sell(bids, shares).left
    ensures Paid(book, takes) <= Sell(bids, shares).proceeds
  {
    hide Sell, Over, Taken, Paid, Sum, Plan, Descending;
    var m := SaleCollectsTheGains(bids, shares);
    NoSaleBeatsTheGains(book, takes, m);
    SumPermutes(Over(m), bids, book);
  }

  /** What is left unsold is what the book does not hold. */
  lemma {:induction false} LeftUnsold(bids: seq<Level>, shares: real)
    requires Book(bids) && shares > 0.0
    ensures Sell(bids, shares).left == if Depth(bids) < shares then shares - Depth(bids) else 0.0
    decreases |bids|
  {
    if bids != [] {
      var l := bids[0];
      SumFront(SizeOf, bids);
      assert Depth(bids) == l.size + Depth(bids[1..]);
      if shares > l.size { LeftUnsold(bids[1..], shares - l.size); }
      else { SumIsNonNegative(SizeOf, bids[1..]); }
    }
  }

  /** The bids used are the fewest that together hold the shares, or all of them. */
  lemma {:induction false} FewestBids(bids: seq<Level>, shares: real)
    requires Book(bids) && shares > 0.0
    ensures var n := Sell(bids, shares).levels;
      && n <= |bids| && (bids != [] ==> n > 0)
      && (n < |bids| ==> Depth(bids[..n]) >= shares)
      && (forall k :: 0 <= k < n ==> Depth(bids[..k]) < shares)
    decreases |bids|
  {
    if bids != [] {
      var l := bids[0];
      SumFront(SizeOf, bids[..1]);
      assert bids[..1][0] == l && bids[..1][1..] == [] && Depth([]) == 0.0;
      assert Depth(bids[..1]) == l.size;
      assert bids[..0] == [];
      if l.size < shares {
        var rest := shares - l.size;
        FewestBids(bids[1..], rest);
        var n := Sell(bids, shares).levels;
        assert n == 1 + Sell(bids[1..], rest).levels;
        forall k | 1 <= k <= |bids| ensures Depth(bids[..k]) == l.size + Depth(bids[1..][..k - 1]) {
          SumFront(SizeOf, bids[..k]);
          assert bids[..k][1..] == bids[1..][..k - 1];
        }
        hide Sum, Sell;
      }
    }
  }

  /** What is reported of a sale: an average exactly when something was sold, the proceeds over the shares that
      were sold; the shares sold are those asked for or all there are, and the rest is unsold. */
  lemma SaleIsReported(bids: seq<Level>, shares: real)
    requires Book(bids) && shares > 0.0 && bids != []
    ensures var sold, s := (if Depth(bids) < shares then Depth(bids) else shares), Sell(bids, shares);
      && sold > 0.0
      && Rounded(s, shares) == Sale(Some(Quantize(s.proceeds / sold, 0.000001)), s.levels, Quantize(sold, 0.000001),
                                    Quantize(shares - sold, 0.000001))
  {
    LeftUnsold(bids, shares);
    DepthIsPositive(bids);
    hide Sell, Quantize;
  }

  // ---- capacity --------------------------------------------------------------------------------

  function CapacityOn(floor: real, l: Level): real { if l.price >= floor then CostOf(l) else 0.0 }
  function Capacity(floor: real): Level -> real { (l: Level) => CapacityOn(floor, l) }

  /** Dearest first, stopping at the first bid below the floor, gives the notional of every bid at or above
      it, whatever order the book came in. */
  method TradableCapacity(bids: seq<Level>, floor: real, ghost book: seq<Level>) returns (notional: real)
    requires Descending(bids) && multiset(bids) == multiset(book)
    ensures notional == Quantize(Sum(Capacity(floor), book), 0.01)
  {
    var total, k := 0.0, 0;
    while k < |bids| && bids[k].price >= floor
      invariant 0 <= k <= |bids| && total == Sum(Capacity(floor), bids[..k])
    {
      assert bids[..k + 1][..k] == bids[..k];
      total := total + CostOf(bids[k]);
      k := k + 1;
    }
    NothingBelow(bids[k..], floor);
    assert bids == bids[..k] + bids[k..];
    SumSplit(Capacity(floor), bids[..k], bids[k..]);
    SumPermutes(Capacity(floor), bids, book);
    return Quantize(total, 0.01);
  }

  lemma {:induction false} NothingBelow(ls: seq<Level>, floor: real)
    requires forall k :: 0 <= k < |ls| ==> ls[k].price < floor
    ensures Sum(Capacity(floor), ls) == 0.0
    decreases |ls|
  {
    if ls != [] { NothingBelow(ls[..|ls| - 1], floor); }
  }
}
