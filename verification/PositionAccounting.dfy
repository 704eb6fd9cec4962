/** Partial fills of a position and its closing profit (main_loop.py, db/logger.py). */
module PositionAccounting {
  import opened Wrappers
  import opened Decimals

  /** The fields a fill updates; absent ones count as zero. */
  datatype Holding = Holding(shares: real, closing: bool, count: nat, sold: real, proceeds: real)

  datatype Fill = Fill(price: real, shares: real)

  function Worth(shares: real, price: real): real { shares * price }

  function ValueOf(f: Fill): real { Worth(f.shares, f.price) }

  /** At 98 percent or more a fill counts as full and changes nothing here. */
  predicate IsPartial(h: Holding, f: Fill) { h.shares > 0.0 && f.shares < h.shares * 0.98 }

  function Applied(h: Holding, f: Fill): Holding {
    if !IsPartial(h, f) then h
    else Holding(Round6(h.shares - f.shares), false, h.count + 1, Round6(h.sold + f.shares),
        Round6(h.proceeds + ValueOf(f)))
  }

  /** Fills one after the other; a full one ends the list in practice and is skipped here. */
  function AppliedAll(h: Holding, fs: seq<Fill>): Holding
    decreases |fs|
  {
    if fs == [] then h else Applied(AppliedAll(h, fs[..|fs| - 1]), fs[|fs| - 1])
  }

  /** The partial ones among the fills, as they meet the position. */
  function Partials(h: Holding, fs: seq<Fill>): seq<Fill>
    decreases |fs|
  {
    if fs == [] then []
    else
      var front, last := fs[..|fs| - 1], fs[|fs| - 1];
      if IsPartial(AppliedAll(h, front), last) then Partials(h, front) + [last] else Partials(h, front)
  }

  /** Shares sold and money received, without any rounding. */
  function SharesOf(fs: seq<Fill>): real
    decreases |fs|
  {
    if fs == [] then 0.0 else SharesOf(fs[..|fs| - 1]) + fs[|fs| - 1].shares
  }

  function MoneyOf(fs: seq<Fill>): real
    decreases |fs|
  {
    if fs == [] then 0.0 else MoneyOf(fs[..|fs| - 1]) + ValueOf(fs[|fs| - 1])
  }

  predicate Near(x: real, y: real, n: nat) { -(n as real) * (MICRO / 2.0) <= x - y <= n as real * (MICRO / 2.0) }

  /** A rounded step in `x` against the same exact step in `y`. */
  lemma RoundedIsNear(x: real, y: real, x': real, y': real, n: nat)
    requires Near(x, y, n) && x' - x == y' - y
    ensures Near(Round6(x'), y', n + 1)
  {
    QuantizeIsNear(x', MICRO);
  }

  lemma Exact(x: real)
    ensures Near(x, x, 0)
  {
  }

  lemma MoreSold(ps: seq<Fill>, f: Fill)
    ensures SharesOf(ps + [f]) == SharesOf(ps) + f.shares && MoneyOf(ps + [f]) == MoneyOf(ps) + ValueOf(f)
  {
    assert (ps + [f])[..|ps|] == ps;
  }

  /** Every recorded figure is within a half-millionth per partial fill of the exact one. */
  predicate Tracks(h: Holding, r: Holding, ps: seq<Fill>) {
    && r.count == h.count + |ps|
    && Near(r.shares, h.shares - SharesOf(ps), |ps|)
    && Near(r.sold, h.sold + SharesOf(ps), |ps|)
    && Near(r.proceeds, h.proceeds + MoneyOf(ps), |ps|)
  }

  lemma TracksOneMore(h: Holding, r: Holding, ps: seq<Fill>, f: Fill)
    requires Tracks(h, r, ps) && IsPartial(r, f)
    ensures Tracks(h, Applied(r, f), ps + [f])
  {
    hide Near, Round6, ValueOf, IsPartial;
    var qs := ps + [f];
    MoreSold(ps, f);
    hide SharesOf, MoneyOf;
    RoundedIsNear(r.shares, h.shares - SharesOf(ps), r.shares - f.shares, h.shares - SharesOf(qs), |ps|);
    RoundedIsNear(r.sold, h.sold + SharesOf(ps), r.sold + f.shares, h.sold + SharesOf(qs), |ps|);
    RoundedIsNear(r.proceeds, h.proceeds + MoneyOf(ps), r.proceeds + ValueOf(f), h.proceeds + MoneyOf(qs), |ps|);
  }

  lemma {:induction false} FiguresAreNear(h: Holding, fs: seq<Fill>)
    ensures Tracks(h, AppliedAll(h, fs), Partials(h, fs))
    decreases |fs|
  {
    if fs == [] {
      Exact(h.shares); Exact(h.sold); Exact(h.proceeds);
    } else {
      hide Tracks, Applied, IsPartial;
      var front, last := fs[..|fs| - 1], fs[|fs| - 1];
      FiguresAreNear(h, front);
      if IsPartial(AppliedAll(h, front), last) { TracksOneMore(h, AppliedAll(h, front), Partials(h, front), last); }
      else { NotApplied(AppliedAll(h, front), last); }
    }
  }

  lemma NotApplied(h: Holding, f: Fill)
    requires !IsPartial(h, f)
    ensures Applied(h, f) == h
  {
  }

  /** Nothing is lost: remaining plus sold shares differ from the shares there were by at most a millionth
      for each partial fill. */
  lemma {:induction false} SharesAreConserved(h: Holding, fs: seq<Fill>)
    ensures var r, n := AppliedAll(h, fs), |Partials(h, fs)| as real;
      -n * MICRO <= (r.shares + r.sold) - (h.shares + h.sold) <= n * MICRO
  {
    FiguresAreNear(h, fs);
  }

  /** A position is never oversold by partial fills. */
  lemma {:induction false} SharesStayPositive(h: Holding, fs: seq<Fill>)
    requires h.shares >= 0.0
    ensures AppliedAll(h, fs).shares >= 0.0
    decreases |fs|
  {
    if fs != [] {
      var front, last := fs[..|fs| - 1], fs[|fs| - 1];
      SharesStayPositive(h, front);
      var r := AppliedAll(h, front);
      if IsPartial(r, last) {
        assert OnGrid(0.0, MICRO);
        QuantizeKeepsSide(r.shares - last.shares, 0.0, MICRO);
      }
    }
  }

  // ---- closing ---------------------------------------------------------------------------------

  /** The profit `log_position_close` records; none without an entry and an exit price. */
  function ClosingProfit(h: Holding, entry: Option<real>, exit: Option<real>, cost: real): Option<real> {
    if entry.None? || entry.value == 0.0 || exit.None? then None
    else if h.proceeds > 0.0 then Some(Round6(h.proceeds + Worth(h.shares, exit.value) - cost))
    else Some(Return(entry.value, exit.value, cost))
  }

  /** A profit is recorded exactly when there is an entry price that is not zero and an exit price. */
  lemma ProfitExactlyWhen(h: Holding, entry: Option<real>, exit: Option<real>, cost: real)
    ensures ClosingProfit(h, entry, exit, cost).Some? <==> entry.Some? && entry.value != 0.0 && exit.Some?
  {
  }

  /** What the whole cost made between entry and exit. */
  function Return(entry: real, exit: real, cost: real): real
    requires entry != 0.0
  {
    (exit - entry) / entry * cost
  }

  /** The cumulative account: exact proceeds of every fill, plus the recorded remaining shares at the exit
      price, less the cost. */
  function Account(h: Holding, fs: seq<Fill>, exit: real, cost: real): real {
    h.proceeds + MoneyOf(Partials(h, fs)) + Worth(AppliedAll(h, fs).shares, exit) - cost
  }

  /** Where the recorded proceeds are positive, the recorded profit is the cumulative account within half a
      millionth for each partial fill and one more. */
  lemma ProfitIsAccounted(h: Holding, fs: seq<Fill>, entry: real, exit: real, cost: real)
    requires entry != 0.0 && AppliedAll(h, fs).proceeds > 0.0
    ensures var profit := ClosingProfit(AppliedAll(h, fs), Some(entry), Some(exit), cost);
      profit.Some? && Near(profit.value, Account(h, fs, exit, cost), |Partials(h, fs)| + 1)
  {
    FiguresAreNear(h, fs);
    var r, ps := AppliedAll(h, fs), Partials(h, fs);
    hide Near, Round6, AppliedAll, Partials, MoneyOf, Worth;
    var rest, money := Worth(r.shares, exit), h.proceeds + MoneyOf(ps);
    RoundedIsNear(r.proceeds, money, r.proceeds + rest - cost, money + rest - cost, |ps|);
  }

  /** What the recorded profit adds to the account when it is not cumulative: the shares that were bought
      and are no longer there count as sold at the exit price, and the fills' own money does not count. */
  function Forgotten(shares: real, money: real, entry: real, exit: real, cost: real): real
    requires entry != 0.0
  {
    Worth(cost / entry - shares, exit) - money
  }

  lemma ReturnOnCost(entry: real, exit: real, cost: real)
    requires entry != 0.0
    ensures Return(entry, exit, cost) == Worth(cost / entry, exit) - cost
  {
    var gain, bought := (exit - entry) / entry, cost / entry;
    assert gain * entry == exit - entry && bought * entry == cost;
    assert gain * (entry * bought) == (gain * entry) * bought;
    assert (exit - entry) * bought == exit * bought - entry * bought;
  }

  lemma WorthSplits(a: real, b: real, price: real)
    ensures Worth(a - b, price) == Worth(a, price) - Worth(b, price)
    ensures Worth(a, price) == 0.0 <==> a == 0.0 || price == 0.0
  {
    if price != 0.0 && a * price == 0.0 { assert a == a * price / price; }
  }

  /** Where the recorded proceeds are not positive, the recorded profit misses the account by exactly
      `Forgotten`.  So the two agree if and only if the fills' money is what the missing shares are worth at
      the exit price. */
  lemma ProfitIsForgetfulExactlyWhen(h: Holding, fs: seq<Fill>, entry: real, exit: real, cost: real)
    requires entry != 0.0 && AppliedAll(h, fs).proceeds <= 0.0
    ensures var r, money := AppliedAll(h, fs), h.proceeds + MoneyOf(Partials(h, fs));
      var profit := ClosingProfit(r, Some(entry), Some(exit), cost);
      && profit == Some(Account(h, fs, exit, cost) + Forgotten(r.shares, money, entry, exit, cost))
      && (profit == Some(Account(h, fs, exit, cost)) <==> Worth(cost / entry - r.shares, exit) == money)
  {
    var r := AppliedAll(h, fs);
    ReturnOnCost(entry, exit, cost);
    WorthSplits(cost / entry, r.shares, exit);
    hide AppliedAll, Partials, MoneyOf, Round6, Worth, Return;
  }

  /** In particular, where the fills brought in exactly nothing, the account is kept if and only if the rest
      is worthless too or the remaining shares are all that were bought. */
  lemma WorthlessFillsCountExactlyWhen(h: Holding, fs: seq<Fill>, entry: real, exit: real, cost: real)
    requires entry != 0.0 && AppliedAll(h, fs).proceeds <= 0.0 && h.proceeds + MoneyOf(Partials(h, fs)) == 0.0
    ensures ClosingProfit(AppliedAll(h, fs), Some(entry), Some(exit), cost) == Some(Account(h, fs, exit, cost))
      <==> exit == 0.0 || AppliedAll(h, fs).shares == cost / entry
  {
    hide ClosingProfit, Account, AppliedAll, Partials, MoneyOf, Worth, Forgotten;
    ProfitIsForgetfulExactlyWhen(h, fs, entry, exit, cost);
    WorthSplits(cost / entry - AppliedAll(h, fs).shares, 0.0, exit);
  }

  /** Partial fills that brought nothing in are forgotten: half of ten shares given away at zero, the rest
      sold at one, still counts as all ten sold at one. */
  lemma WorthlessFillsAreForgotten()
    ensures var r := AppliedAll(Holding(10.0, false, 0, 0.0, 0.0), [Fill(0.0, 5.0)]);
      r.shares == 5.0 && ClosingProfit(r, Some(0.5), Some(1.0), 5.0) == Some(5.0)
      && Account(Holding(10.0, false, 0, 0.0, 0.0), [Fill(0.0, 5.0)], 1.0, 5.0) == 0.0
  {
    var h, f := Holding(10.0, false, 0, 0.0, 0.0), Fill(0.0, 5.0);
    assert [f][..0] == [];
    assert AppliedAll(h, []) == h && AppliedAll(h, [f]) == Applied(h, f);
    assert Round6(5.0) == 5.0 && Round6(0.0) == 0.0;
    assert Partials(h, []) == [] && Partials(h, [f]) == [f];
    MoreSold([], f);
  }

  // ---- the position as the loop updates it -----------------------------------------------------

  class Position {
    var shares: real
    var closing: bool
    var count: nat
    var sold: real
    var proceeds: real
    const entry: Option<real>
    const cost: real

    constructor (shares: real, entry: Option<real>, cost: real)
      ensures State() == Holding(shares, false, 0, 0.0, 0.0) && this.entry == entry && this.cost == cost
    {
      this.shares, this.entry, this.cost := shares, entry, cost;
      closing, count, sold, proceeds := false, 0, 0.0, 0.0;
    }

    function State(): Holding
      reads this
    {
      Holding(shares, closing, count, sold, proceeds)
    }

    method ApplyPartialFill(f: Fill) returns (partial: bool)
      modifies this
      ensures partial == IsPartial(old(State()), f) && State() == Applied(old(State()), f)
      ensures partial <==> old(shares) > 0.0 && f.shares < 0.98 * old(shares)
    {
      var was := shares;
      if was <= 0.0 || f.shares >= was * 0.98 { return false; }
      shares := Round6(was - f.shares);
      closing := false;
      count := count + 1;
      sold := Round6(sold + f.shares);
      proceeds := Round6(proceeds + ValueOf(f));
      return true;
    }

    /** One live exit attempt: a failed sale or a partial one leaves the position open, a full one closes it
        with the profit that is logged. */
    method TryExit(sale: Option<Fill>) returns (closed: bool, profit: Option<real>)
      modifies this
      ensures closed <==> sale.Some? && (old(shares) <= 0.0 || sale.value.shares >= 0.98 * old(shares))
      ensures !closed ==> !closing && profit.None?
      ensures sale.None? ==> State() == old(State()).(closing := false)
      ensures sale.Some? && !closed ==> State() == Applied(old(State()), sale.value)
      ensures closed ==> State() == old(State()).(closing := true)
      ensures closed ==> profit == ClosingProfit(State(), entry, Some(sale.value.price), cost)
    {
      closing := true;
      if sale.None? {
        closing := false;
        return false, None;
      }
      var partial := ApplyPartialFill(sale.value);
      if partial { return false, None; }
      return true, ClosingProfit(State(), entry, Some(sale.value.price), cost);
    }
  }
}
