/** The session counters and the three gates that bound how much a session may do. */
module SessionBreakers {
  import Decimals

  datatype Limits = Limits(trades: int, burst: int, minSubmits: int, floor: real) {
    predicate Sensible() { trades > 0 && burst > 0 && minSubmits > 0 && 0.0 < floor <= 1.0 }
  }

  const SHIPPED := Limits(6, 3, 6, 0.25)

  datatype Stats = Stats(trades: int, streak: int, submits: int)

  const ZERO := Stats(0, 0, 0)

  datatype Halt = Continue | Stop | Raises

  function MaxTradesHalt(trades: int, limit: int): Halt {
    if limit <= 0 || trades < 0 then Raises else if trades >= limit then Stop else Continue
  }

  function NoFillBurstHalt(streak: int, limit: int): Halt {
    if limit <= 0 || streak < 0 then Raises else if streak >= limit then Stop else Continue
  }

  /** Few opens for many submissions; too few submissions prove nothing. */
  function FillToSubmitHalt(entered: int, submitted: int, minSubmits: int, floor: real): Halt {
    if minSubmits <= 0 || floor <= 0.0 || floor > 1.0 || entered < 0 || submitted < 0 || entered > submitted then Raises
    else if submitted < minSubmits then Continue
    else if entered as real / submitted as real < floor then Stop
    else Continue
  }

  /** The gates in the order they are asked. */
  function Gates(lim: Limits, s: Stats): Halt {
    var a, b := MaxTradesHalt(s.trades, lim.trades), NoFillBurstHalt(s.streak, lim.burst);
    if !a.Continue? then a else if !b.Continue? then b
        else FillToSubmitHalt(s.trades, s.submits, lim.minSubmits, lim.floor)
  }

  /** What a call of `execute` comes to: it raises before returning; a position is opened; nothing is (no
      answer, a killed order or RECOVERY_REQUIRED); it returns DUPLICATE and no other counter moves; or it
      returns a plain position whose log write raises. */
  datatype Outcome = Threw | Opened | NoFill | Silent | Unlogged {
    /** The call returned, and neither opened nor missed. */
    predicate Uncounted() { Silent? || Unlogged? }
    /** The exception ends the scan. */
    predicate Ends() { Threw? || Unlogged? }
  }

  predicate AllCounted(os: seq<Outcome>) { forall o :: o in os ==> !o.Uncounted() }

  function After(s: Stats, o: Outcome): Stats {
    match o
    case Threw => s
    case Opened => Stats(s.trades + 1, 0, s.submits + 1)
    case NoFill => Stats(s.trades, s.streak + 1, s.submits + 1)
    case Silent | Unlogged => s.(submits := s.submits + 1)
  }

  /** One candidate that has passed everything before the gates. */
  function Offered(lim: Limits, s: Stats, o: Outcome): Stats {
    if Gates(lim, s).Continue? then After(s, o) else s
  }

  function Session(lim: Limits, s: Stats, os: seq<Outcome>): Stats
    decreases |os|
  {
    if os == [] then s else Session(lim, Offered(lim, s, os[0]), os[1..])
  }

  // ---- bounds on every session -----------------------------------------------------------------

  /** The submissions the ratio gate leaves room for. */
  predicate RatioRoom(lim: Limits, submits: int) {
    submits <= lim.minSubmits || lim.floor * (submits - 1) as real <= (lim.trades - 1) as real
  }

  /** The submissions the burst gate leaves room for, if every one opens or misses. */
  function BurstRoom(lim: Limits, trades: int): int { lim.burst * trades }

  /** Counters never leave these bounds; without uncounted outcomes the last one is tighter. */
  predicate Bounded(lim: Limits, s: Stats, uncounted: bool) {
    && 0 <= s.trades <= s.submits && s.trades <= lim.trades && 0 <= s.streak <= lim.burst
    && RatioRoom(lim, s.submits)
    && (!uncounted ==> s.submits <= BurstRoom(lim, s.trades) + s.streak)
  }

  lemma RatioAllows(t: int, sub: int, floor: real)
    requires sub > 0 && !(t as real / sub as real < floor)
    ensures floor * sub as real <= t as real
  {
    Decimals.ScaleBack(t as real, sub as real);
    Decimals.ScaleOrder(floor, t as real / sub as real, sub as real);
  }

  /** What the gates let through leaves room for one more submission. */
  lemma GatesAllow(lim: Limits, s: Stats)
    requires lim.Sensible() && 0 <= s.trades <= s.submits && Gates(lim, s).Continue?
    ensures s.trades < lim.trades && s.streak < lim.burst && RatioRoom(lim, s.submits + 1)
  {
    if s.submits >= lim.minSubmits { RatioAllows(s.trades, s.submits, lim.floor); }
  }

  lemma RoomGrows(lim: Limits, trades: int)
    ensures BurstRoom(lim, trades + 1) == BurstRoom(lim, trades) + lim.burst
  {
  }

  lemma OfferedStaysBounded(lim: Limits, s: Stats, o: Outcome, uncounted: bool)
    requires lim.Sensible() && Bounded(lim, s, uncounted) && (o.Uncounted() ==> uncounted)
    ensures Bounded(lim, Offered(lim, s, o), uncounted)
  {
    if Gates(lim, s).Continue? {
      GatesAllow(lim, s);
      RoomGrows(lim, s.trades);
      hide Gates, RatioRoom, BurstRoom;
    }
  }

  lemma {:induction false} SessionStaysBounded(lim: Limits, s: Stats, os: seq<Outcome>, uncounted: bool)
    requires lim.Sensible() && Bounded(lim, s, uncounted) && (!uncounted ==> AllCounted(os))
    ensures Bounded(lim, Session(lim, s, os), uncounted)
    decreases |os|
  {
    hide Bounded, Offered;
    if os != [] {
      OfferedStaysBounded(lim, s, os[0], uncounted);
      SessionStaysBounded(lim, Offered(lim, s, os[0]), os[1..], uncounted);
    }
  }

  lemma NeverRaises(lim: Limits, s: Stats, uncounted: bool)
    requires lim.Sensible() && Bounded(lim, s, uncounted)
    ensures !Gates(lim, s).Raises?
  {
  }

  /** Under any limits: opened never exceeds submitted, so the ratio gate never raises; the opens never
      exceed their limit; and without uncounted outcomes there are at most burst times trades submissions. */
  lemma AnySession(lim: Limits, os: seq<Outcome>)
    requires lim.Sensible()
    ensures var s := Session(lim, ZERO, os);
      && 0 <= s.trades <= s.submits && s.trades <= lim.trades && !Gates(lim, s).Raises?
      && RatioRoom(lim, s.submits)
      && (AllCounted(os) ==> s.submits <= lim.burst * lim.trades)
  {
    hide Session, Gates;
    SessionStaysBounded(lim, ZERO, os, true);
    NeverRaises(lim, Session(lim, ZERO, os), true);
    if AllCounted(os) {
      SessionStaysBounded(lim, ZERO, os, false);
      SilentFree(lim, os);
    }
  }

  /** When the last trade opens the streak is zero, so the final room is not used. */
  lemma {:induction false} LastOpenResets(lim: Limits, s: Stats, os: seq<Outcome>)
    requires lim.Sensible() && (s.trades >= lim.trades ==> s.streak == 0) && s.trades >= 0
    ensures var r := Session(lim, s, os); r.trades >= lim.trades ==> r.streak == 0
    decreases |os|
  {
    if os != [] { LastOpenResets(lim, Offered(lim, s, os[0]), os[1..]); }
  }

  lemma SilentFree(lim: Limits, os: seq<Outcome>)
    requires lim.Sensible() && Bounded(lim, Session(lim, ZERO, os), false)
    ensures Session(lim, ZERO, os).submits <= lim.burst * lim.trades
  {
    var s := Session(lim, ZERO, os);
    LastOpenResets(lim, ZERO, os);
    if s.trades < lim.trades {
      RoomGrows(lim, s.trades);
      MultiplyOrder(lim.burst, s.trades + 1, lim.trades);
    }
  }

  lemma MultiplyOrder(c: int, a: int, b: int)
    requires c >= 0 && a <= b
    ensures c * a <= c * b
  {
  }

  /** With the shipped limits at most 6 trades open and at most 21 calls return, 18 if none is uncounted. */
  lemma ShippedSession(os: seq<Outcome>)
    ensures var s := Session(SHIPPED, ZERO, os);
      s.trades <= 6 && s.submits <= 21 && (AllCounted(os) ==> s.submits <= 18)
  {
    AnySession(SHIPPED, os);
  }

  /** A gate that refuses refuses for the rest of the session. */
  lemma {:induction false} RefusalIsFinal(lim: Limits, s: Stats, os: seq<Outcome>)
    requires !Gates(lim, s).Continue?
    ensures Session(lim, s, os) == s
    decreases |os|
  {
    if os != [] { RefusalIsFinal(lim, s, os[1..]); }
  }

  // -- the bounds are reached

  function Repeat(o: Outcome, n: nat): seq<Outcome> { seq(n, _ => o) }

  lemma {:induction false} SilentRun(t: int, from: int, n: nat)
    requires 0 <= t < 6 && t <= from && (4 * t >= from + n - 1 || from + n <= 6)
    ensures Session(SHIPPED, Stats(t, 0, from), Repeat(Silent, n)) == Stats(t, 0, from + n)
    decreases n
  {
    if n > 0 {
      var s := Stats(t, 0, from);
      if from >= 6 { RatioHolds(t, from); }
      assert Offered(SHIPPED, s, Silent) == Stats(t, 0, from + 1);
      assert Repeat(Silent, n)[1..] == Repeat(Silent, n - 1);
      SilentRun(t, from + 1, n - 1);
    }
  }

  lemma RatioHolds(t: int, sub: int)
    requires sub > 0 && 4 * t >= sub
    ensures !(t as real / sub as real < 0.25)
  {
    QuarterHolds(t as real, sub as real);
  }

  lemma QuarterHolds(t: real, sub: real)
    requires sub > 0.0 && 4.0 * t >= sub
    ensures t / sub >= 0.25
  {
    Decimals.ScaleBack(t, sub);
    Decimals.ScaleOrder(0.25, t / sub, sub);
  }

  lemma {:induction false} Chain(lim: Limits, s: Stats, a: seq<Outcome>, b: seq<Outcome>)
    ensures Session(lim, s, a + b) == Session(lim, Session(lim, s, a), b)
    decreases |a|
  {
    if a == [] {
      assert a + b == b;
    } else {
      assert (a + b)[0] == a[0] && (a + b)[1..] == a[1..] + b;
      Chain(lim, Offered(lim, s, a[0]), a[1..], b);
    }
  }

  lemma {:induction false} OpenRun(from: int, n: nat)
    requires 0 <= from <= from + n <= 6
    ensures Session(SHIPPED, Stats(from, 0, from), Repeat(Opened, n)) == Stats(from + n, 0, from + n)
    decreases n
  {
    if n > 0 {
      assert Offered(SHIPPED, Stats(from, 0, from), Opened) == Stats(from + 1, 0, from + 1);
      assert Repeat(Opened, n)[1..] == Repeat(Opened, n - 1);
      OpenRun(from + 1, n - 1);
    }
  }

  /** Five opens, fifteen duplicates and a sixth open: six trades in twenty-one calls. */
  lemma TwentyOneIsReached()
    ensures Session(SHIPPED, ZERO, Repeat(Opened, 5) + Repeat(Silent, 15) + [Opened]) == Stats(6, 0, 21)
  {
    var a, b, c := Repeat(Opened, 5), Repeat(Silent, 15), [Opened];
    Chain(SHIPPED, ZERO, a + b, c);
    Chain(SHIPPED, ZERO, a, b);
    OpenRun(0, 5);
    SilentRun(5, 5, 15);
    RatioHolds(5, 20);
    assert Session(SHIPPED, Stats(5, 0, 20), c) == Stats(6, 0, 21) by { assert c[1..] == []; }
  }

  /** Two misses before each of six opens: eighteen calls and none uncounted. */
  lemma {:induction false} EighteenIsReached(n: nat)
    requires n <= 6
    ensures exists os :: AllCounted(os) && Session(SHIPPED, ZERO, os) == Stats(n, 0, 3 * n)
    decreases n
  {
    if n == 0 {
      assert Session(SHIPPED, ZERO, []) == ZERO;
    } else {
      EighteenIsReached(n - 1);
      var os :| AllCounted(os) && Session(SHIPPED, ZERO, os) == Stats(n - 1, 0, 3 * (n - 1));
      var more := [NoFill, NoFill, Opened];
      Chain(SHIPPED, ZERO, os, more);
      MissMissOpen(n - 1);
      assert AllCounted(os + more);
    }
  }

  lemma MissMissOpen(t: int)
    requires 0 <= t < 6
    ensures Session(SHIPPED, Stats(t, 0, 3 * t), [NoFill, NoFill, Opened]) == Stats(t + 1, 0, 3 * t + 3)
  {
    if 3 * t >= 6 { RatioHolds(t, 3 * t); }
    if 3 * t + 1 >= 6 { RatioHolds(t, 3 * t + 1); }
    if 3 * t + 2 >= 6 { RatioHolds(t, 3 * t + 2); }
    var a, b, c := Stats(t, 0, 3 * t), Stats(t, 1, 3 * t + 1), Stats(t, 2, 3 * t + 2);
    assert Offered(SHIPPED, a, NoFill) == b && Offered(SHIPPED, b, NoFill) == c;
    assert Offered(SHIPPED, c, Opened) == Stats(t + 1, 0, 3 * t + 3);
    assert [NoFill, NoFill, Opened][1..] == [NoFill, Opened] && [NoFill, Opened][1..] == [Opened]
        && [Opened][1..] == [];
  }

  // ---- the counters and the scan ---------------------------------------------------------------

  /** The three process-runtime counters. */
  class ExecutionStats {
    var tradeCount: nat
    var noFillStreak: nat
    var submitCount: nat

    constructor (tradeCount: nat, noFillStreak: nat, submitCount: nat)
      ensures Snapshot() == Stats(tradeCount, noFillStreak, submitCount)
    {
      this.tradeCount, this.noFillStreak, this.submitCount := tradeCount, noFillStreak, submitCount;
    }

    function Snapshot(): Stats
      reads this
    {
      Stats(tradeCount, noFillStreak, submitCount)
    }

    method IncrementTradeCount()
      modifies this
      ensures Snapshot() == old(Snapshot()).(trades := old(tradeCount) + 1)
    {
      tradeCount := tradeCount + 1;
    }

    method IncrementNoFillStreak()
      modifies this
      ensures Snapshot() == old(Snapshot()).(streak := old(noFillStreak) + 1)
    {
      noFillStreak := noFillStreak + 1;
    }

    method IncrementSubmitCount()
      modifies this
      ensures Snapshot() == old(Snapshot()).(submits := old(submitCount) + 1)
    {
      submitCount := submitCount + 1;
    }

    method ResetNoFillStreak()
      modifies this
      ensures Snapshot() == old(Snapshot()).(streak := 0)
    {
      noFillStreak := 0;
    }

    method ResetAll()
      modifies this
      ensures Snapshot() == ZERO
    {
      tradeCount, noFillStreak, submitCount := 0, 0, 0;
    }
  }

  /** A finding of a scan: `cleared` when council, authority, entry switch and risk mode let it through. */
  datatype Finding = Finding(slug: string, cleared: bool, outcome: Outcome)

  datatype Scan = Scan(stats: Stats, positions: seq<string>, aborted: bool)

  predicate Skipped(f: Finding, positions: seq<string>, failed: set<string>) {
    f.slug in positions || f.slug in failed || !f.cleared
  }

  /** One finding at a time, stopping when the position limit is reached or an exception ends the scan. */
  function ScanFrom(lim: Limits, maxOpen: int, failed: set<string>, x: Scan, fs: seq<Finding>): Scan
    decreases |fs|
  {
    if fs == [] || x.aborted || |x.positions| >= maxOpen then x
    else
      var f := fs[0];
      if Skipped(f, x.positions, failed) || !Gates(lim, x.stats).Continue?
          then ScanFrom(lim, maxOpen, failed, x, fs[1..])
      else
        ScanFrom(lim, maxOpen, failed,
          Scan(After(x.stats, f.outcome), if f.outcome.Opened? then x.positions + [f.slug]
              else x.positions, f.outcome.Ends()), fs[1..])
  }

  /** The loop of `_scan_and_execute` over its findings. */
  method ScanAndExecute(stats: ExecutionStats, lim: Limits, maxOpen: int, failed: set<string>, positions: seq<string>,
      findings: seq<Finding>)
    returns (after: seq<string>, aborted: bool)
    requires lim.Sensible() && stats.Snapshot().trades <= stats.Snapshot().submits
    modifies stats
    ensures Scan(stats.Snapshot(), after, aborted) ==
      ScanFrom(lim, maxOpen, failed, Scan(old(stats.Snapshot()), positions, false), findings)
    ensures stats.Snapshot().trades <= stats.Snapshot().submits
  {
    hide Gates;
    after, aborted := positions, false;
    var k := 0;
    while k < |findings|
      invariant 0 <= k <= |findings| && !aborted && stats.Snapshot().trades <= stats.Snapshot().submits
      invariant ScanFrom(lim, maxOpen, failed, Scan(stats.Snapshot(), after, false), findings[k..]) ==
        ScanFrom(lim, maxOpen, failed, Scan(old(stats.Snapshot()), positions, false), findings)
    {
      if |after| >= maxOpen { return; }
      var f := findings[k];
      assert findings[k..][0] == f && findings[k..][1..] == findings[k + 1..];
      k := k + 1;
      if f.slug in after || f.slug in failed || !f.cleared { continue; }
      if !Gates(lim, stats.Snapshot()).Continue? { continue; }
      match f.outcome
      case Threw => aborted := true; return;
      case Opened =>
        stats.IncrementSubmitCount();
        after := after + [f.slug];
        stats.IncrementTradeCount();
        stats.ResetNoFillStreak();
      case NoFill =>
        stats.IncrementSubmitCount();
        stats.IncrementNoFillStreak();
      case Silent =>
        stats.IncrementSubmitCount();
      case Unlogged =>
        stats.IncrementSubmitCount();
        aborted := true;
        return;
    }
  }

  /** A scan is a stretch of a session: its counters are those of the outcomes it got. */
  lemma {:induction false} ScanIsSession(lim: Limits, maxOpen: int, failed: set<string>, x: Scan, fs: seq<Finding>)
      returns (os: seq<Outcome>)
    ensures ScanFrom(lim, maxOpen, failed, x, fs).stats == Session(lim, x.stats, os) && |os| <= |fs|
    ensures forall o :: o in os ==> exists k :: 0 <= k < |fs| && fs[k].outcome == o
    decreases |fs|
  {
    os := [];
    if fs != [] && !x.aborted && |x.positions| < maxOpen {
      var f := fs[0];
      if Skipped(f, x.positions, failed) || !Gates(lim, x.stats).Continue? {
        os := ScanIsSession(lim, maxOpen, failed, x, fs[1..]);
        forall o | o in os ensures exists k :: 0 <= k < |fs| && fs[k].outcome == o {
          var k :| 0 <= k < |fs[1..]| && fs[1..][k].outcome == o;
          assert fs[k + 1].outcome == o;
        }
      } else {
        var next := Scan(After(x.stats, f.outcome), if f.outcome.Opened? then x.positions + [f.slug]
            else x.positions, f.outcome.Ends());
        var rest := ScanIsSession(lim, maxOpen, failed, next, fs[1..]);
        os := [f.outcome] + rest;
        assert os[1..] == rest;
        forall o | o in os ensures exists k :: 0 <= k < |fs| && fs[k].outcome == o {
          if o in rest {
            var k :| 0 <= k < |fs[1..]| && fs[1..][k].outcome == o;
            assert fs[k + 1].outcome == o;
          }
        }
      }
    }
  }

  /** Finding `f` may be tried: it is cleared, did not fail before, and has no position. */
  predicate Eligible(f: Finding, positions: seq<string>, failed: set<string>) {
    f.cleared && f.slug !in failed && f.slug !in positions
  }

  /** Some cleared finding of the slug came to an open. */
  predicate Won(fs: seq<Finding>, slug: string) {
    exists f :: f in fs && f.slug == slug && f.cleared && f.outcome.Opened?
  }

  /** What a scan opens: slugs of eligible findings that came to an open, each once and within the limit, and
      counted one by one. */
  lemma {:induction false} ScanOpens(lim: Limits, maxOpen: int, failed: set<string>, x: Scan, fs: seq<Finding>)
      returns (added: seq<string>)
    ensures var y := ScanFrom(lim, maxOpen, failed, x, fs);
      && y.positions == x.positions + added
      && y.stats.trades == x.stats.trades + |added|
      && (added != [] ==> |y.positions| <= maxOpen)
    ensures forall k :: 0 <= k < |added| ==> added[k] !in x.positions && added[k] !in failed
    ensures forall j, k :: 0 <= j < k < |added| ==> added[j] != added[k]
    ensures forall k :: 0 <= k < |added| ==> Won(fs, added[k])
    decreases |fs|
  {
    added := [];
    if fs != [] && !x.aborted && |x.positions| < maxOpen {
      var f := fs[0];
      hide Gates;
      if Skipped(f, x.positions, failed) || !Gates(lim, x.stats).Continue? {
        added := ScanOpens(lim, maxOpen, failed, x, fs[1..]);
        forall k | 0 <= k < |added| ensures Won(fs, added[k]) { Shifted(fs, added[k]); }
      } else {
        var won := f.outcome.Opened?;
        var next := Scan(After(x.stats, f.outcome), if won then x.positions + [f.slug]
            else x.positions, f.outcome.Ends());
        var rest := ScanOpens(lim, maxOpen, failed, next, fs[1..]);
        forall k | 0 <= k < |rest| ensures Won(fs, rest[k]) { Shifted(fs, rest[k]); }
        added := if won then [f.slug] + rest else rest;
        assert won ==> f in fs && Won(fs, f.slug);
        assert won ==> x.positions + [f.slug] + rest == x.positions + added;
        assert forall k :: 0 <= k < |rest| ==> rest[k] !in next.positions;
        assert won ==> forall k :: 1 <= k < |added| ==> added[k] == rest[k - 1];
        assert won ==> f.slug in next.positions;
      }
    } else {
      assert x.positions + [] == x.positions;
    }
  }

  lemma Shifted(fs: seq<Finding>, slug: string)
    requires fs != [] && Won(fs[1..], slug)
    ensures Won(fs, slug)
  {
    var f :| f in fs[1..] && f.slug == slug && f.cleared && f.outcome.Opened?;
    assert f in fs;
  }

  /** No chance is missed: with room and open gates, a scan that changes nothing met no eligible finding. */
  lemma {:induction false} NoChanceIsMissed(lim: Limits, maxOpen: int, failed: set<string>, x: Scan, fs: seq<Finding>)
    requires !x.aborted && |x.positions| < maxOpen && Gates(lim, x.stats).Continue?
    requires ScanFrom(lim, maxOpen, failed, x, fs) == x
    ensures forall f :: f in fs ==> !Eligible(f, x.positions, failed)
    decreases |fs|
  {
    if fs != [] {
      var f := fs[0];
      hide Gates;
      if Skipped(f, x.positions, failed) {
        NoChanceIsMissed(lim, maxOpen, failed, x, fs[1..]);
        assert forall g :: g in fs ==> g == f || g in fs[1..];
      } else {
        var next := Scan(After(x.stats, f.outcome), if f.outcome.Opened? then x.positions + [f.slug]
            else x.positions, f.outcome.Ends());
        NeverBackwards(lim, maxOpen, failed, next, fs[1..]);
      }
    }
  }

  /** Submissions and the end of a scan are never undone. */
  lemma {:induction false} NeverBackwards(lim: Limits, maxOpen: int, failed: set<string>, x: Scan, fs: seq<Finding>)
    ensures var y := ScanFrom(lim, maxOpen, failed, x, fs);
      y.stats.submits >= x.stats.submits && (x.aborted ==> y.aborted)
    decreases |fs|
  {
    if fs != [] && !x.aborted && |x.positions| < maxOpen {
      var f := fs[0];
      hide Gates;
      if Skipped(f, x.positions, failed) || !Gates(lim, x.stats).Continue? {
        NeverBackwards(lim, maxOpen, failed, x, fs[1..]);
      } else {
        NeverBackwards(lim, maxOpen, failed,
          Scan(After(x.stats, f.outcome), if f.outcome.Opened? then x.positions + [f.slug]
              else x.positions, f.outcome.Ends()), fs[1..]);
      }
    }
  }
}
