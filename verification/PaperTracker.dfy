/** The paper position's running statistics and model exits (execution/paper_tracker.py). */
module PaperTracker {
  import opened Wrappers
  import opened Decimals

  const MFE_ARM := 0.15
  const BREAKEVEN_BUFFER := -0.03
  const CATASTROPHE_MAE := -0.45
  const GAMMA_HOLD_SECS := 90.0
  const MIN_HOLD_SECS := 15.0
  const EARLY_GRACE_SECS := 30.0
  const WIDE_FLOOR := -0.35
  const STOP_MAX := 0.25
  const STOP_MIN := 0.12
  const DRIFT_INVALIDATE := 0.003
  const TP_LEVELS := [15, 20, 30]

  /** One price update: our token's bid, the reference market's price, the seconds left, and the monotonic
      time since opening. */
  datatype Tick = Tick(price: real, hl: Option<real>, secs: Option<real>, elapsed: real, stamp: string)

  /** What does not change while the position is open. */
  datatype Terms = Terms(entry: real, ref: Option<real>, yes: bool, usd: real)

  datatype Model = Current | Conservative | Balanced | MfeBreakeven

  const MODELS := [Current, Conservative, Balanced, MfeBreakeven]

  datatype Verdict = Hold(why: string) | Exit(why: string) | CatastropheExit(why: string)

  datatype Locked = Locked(price: real, why: string, stamp: string)

  datatype State = State(
    peak: real, trough: real, tPeak: Option<real>, tTrough: Option<real>, armed: bool,
    exits: map<Model, Locked>, hits: set<int>, measured: seq<int>)

  const FRESH := State(0.0, 0.0, None, None, false, map[], {}, [])

  // ---- one tick's figures ----------------------------------------------------------------------

  function Move(k: Terms, t: Tick): real { if k.entry > 0.0 then (t.price - k.entry) / k.entry else 0.0 }

  function Drift(k: Terms, t: Tick): real {
    if k.ref.Some? && k.ref.value != 0.0 && t.hl.Some? && t.hl.value != 0.0
        then (t.hl.value - k.ref.value) / k.ref.value else 0.0
  }

  /** Missing or zero seconds count as one. */
  function SecsLeft(t: Tick): real {
    var s := if t.secs.Some? && t.secs.value != 0.0 then t.secs.value else 1.0;
    if s > 1.0 then s else 1.0
  }

  /** The part of the window that has passed; the clock is monotonic, so nothing negative has. */
  function Passed(t: Tick): real {
    if t.elapsed + SecsLeft(t) == 0.0 then 0.0 else t.elapsed / (t.elapsed + SecsLeft(t))
  }

  // ---- the four models -------------------------------------------------------------------------

  predicate WrongDirection(drift: real, yes: bool) {
    if yes then drift < -DRIFT_INVALIDATE else drift > DRIFT_INVALIDATE
  }

  function ModelCurrent(dd: real, frac: real): Verdict {
    if dd <= -(STOP_MAX - frac * (STOP_MAX - STOP_MIN)) then Exit("current_stop") else Hold("watch")
  }

  function ModelConservative(dd: real, drift: real, yes: bool, elapsed: real): Verdict {
    if elapsed < EARLY_GRACE_SECS then Hold("early_grace")
    else if WrongDirection(drift, yes) then Exit("signal_invalidated")
    else if dd <= WIDE_FLOOR then Exit("wide_floor") else Hold("noise_tolerance")
  }

  function ModelBalanced(dd: real, drift: real, yes: bool, frac: real): Verdict {
    if WrongDirection(drift, yes) then Exit("signal_invalidated")
    else if dd <= -0.40 + frac * 0.20 then Exit("balanced_stop") else Hold("watch")
  }

  function ModelBreakeven(dd: real, trough: real, secs: Option<real>, elapsed: real, armed: bool): Verdict {
    if trough < CATASTROPHE_MAE then CatastropheExit("catastrophe")
    else if elapsed < MIN_HOLD_SECS then Hold("min_hold")
    else if secs.Some? && secs.value < GAMMA_HOLD_SECS then Hold("gamma_proximity")
    else if armed then (if dd <= BREAKEVEN_BUFFER then Exit("mfe_breakeven_stop") else Hold("breakeven_watch"))
    else if dd <= WIDE_FLOOR then Exit("wide_floor") else Hold("noise_tolerance")
  }

  /** What a model says of a tick, given the trough and the arming that tick leaves behind. */
  function Decide(k: Terms, m: Model, t: Tick, trough: real, armed: bool): Verdict {
    match m
    case Current => ModelCurrent(Move(k, t), Passed(t))
    case Conservative => ModelConservative(Move(k, t), Drift(k, t), k.yes, t.elapsed)
    case Balanced => ModelBalanced(Move(k, t), Drift(k, t), k.yes, Passed(t))
    case MfeBreakeven => ModelBreakeven(Move(k, t), trough, t.secs, t.elapsed, armed)
  }

  /** The reference market moved against the position by more than three tenths of a percent. */
  predicate Against(k: Terms, t: Tick) {
    && k.ref.Some? && k.ref.value != 0.0 && t.hl.Some? && t.hl.value != 0.0
    && var drift := (t.hl.value - k.ref.value) / k.ref.value;
       if k.yes then drift < -0.003 else drift > 0.003
  }

  /** When each model gives up, and why: by the loss since entry, the part of the window that has passed, the
      reference market, the trough, and the arming. */
  lemma ModelsExitExactlyWhen(k: Terms, t: Tick, trough: real, armed: bool)
    ensures var loss, passed := -Move(k, t), Passed(t);
      && Decide(k, Current, t, trough, armed) ==
           (if loss >= 0.25 - 0.13 * passed then Exit("current_stop") else Hold("watch"))
      && Decide(k, Conservative, t, trough, armed) ==
           (if t.elapsed < 30.0 then Hold("early_grace")
            else if Against(k, t) then Exit("signal_invalidated")
            else if loss >= 0.35 then Exit("wide_floor") else Hold("noise_tolerance"))
      && Decide(k, Balanced, t, trough, armed) ==
           (if Against(k, t) then Exit("signal_invalidated")
            else if loss >= 0.40 - 0.20 * passed then Exit("balanced_stop") else Hold("watch"))
      && Decide(k, MfeBreakeven, t, trough, armed) ==
           (if trough < -0.45 then CatastropheExit("catastrophe")
            else if t.elapsed < 15.0 then Hold("min_hold")
            else if t.secs.Some? && t.secs.value < 90.0 then Hold("gamma_proximity")
            else if armed then (if loss >= 0.03 then Exit("mfe_breakeven_stop") else Hold("breakeven_watch"))
            else if loss >= 0.35 then Exit("wide_floor") else Hold("noise_tolerance"))
  {
    assert Drift(k, t) < -0.003 || Drift(k, t) > 0.003 ==> k.ref.Some? && t.hl.Some?;
    hide Move, Passed;
  }

  /** The part of the window that has passed lies between nothing and all of it, and grows with time. */
  lemma WindowPasses(t: Tick, later: Tick)
    requires 0.0 <= t.elapsed <= later.elapsed && SecsLeft(later) <= SecsLeft(t)
    ensures 0.0 <= Passed(t) <= Passed(later) < 1.0
  {
    var a, b, m, n := t.elapsed, SecsLeft(t), later.elapsed, SecsLeft(later);
    ShareGrows(a, b, m, n);
  }

  lemma ShareGrows(a: real, b: real, m: real, n: real)
    requires 0.0 <= a <= m && 1.0 <= n <= b
    ensures 0.0 <= a / (a + b) <= m / (m + n) < 1.0
  {
    CrossOrder(a, b, m, n);
    Cross(a, b, m, n);
    ShareIsProper(a, b);
    ShareIsProper(m, n);
  }

  lemma CrossOrder(a: real, b: real, m: real, n: real)
    requires 0.0 <= a <= m && 1.0 <= n <= b
    ensures a * n <= m * b
  {
    ScaleOrder(a, m, n);
    if m > 0.0 { ScaleOrder(n, b, m); }
  }

  lemma ShareIsProper(a: real, b: real)
    requires 0.0 <= a && 0.0 < b
    ensures 0.0 <= a / (a + b) < 1.0
  {
    DivideOrder(0.0, a, a + b);
    DivideOrder(a + b, a, a + b);
    assert (a + b) / (a + b) == 1.0;
  }

  lemma Cross(a: real, b: real, m: real, n: real)
    requires a + b > 0.0 && m + n > 0.0 && a * n <= m * b
    ensures a / (a + b) <= m / (m + n)
  {
    var x, y := a / (a + b), m / (m + n);
    assert x * (a + b) == a && y * (m + n) == m;
    assert a * (m + n) <= m * (a + b);
    DivideOrder(a * (m + n), m * (a + b), a + b);
    assert a * (m + n) / (a + b) == x * (m + n);
    assert m * (a + b) / (a + b) == m;
    DivideOrder(x * (m + n), m, m + n);
    assert x * (m + n) / (m + n) == x;
  }

  // ---- the in-place state after a tick ---------------------------------------------------------

  function Stamped(s: State, dd: real, elapsed: real): State {
    var up := if dd > s.peak then s.(peak := dd, tPeak := Some(elapsed)) else s;
    if dd < up.trough then up.(trough := dd, tTrough := Some(elapsed)) else up
  }

  function LockIn(k: Terms, s: State, t: Tick, m: Model): map<Model, Locked> {
    var v := Decide(k, m, t, s.trough, s.armed);
    if !v.Hold? && m !in s.exits then s.exits[m := Locked(t.price, v.why, t.stamp)] else s.exits
  }

  function LockAll(k: Terms, s: State, t: Tick, ms: seq<Model>): State
    decreases |ms|
  {
    if ms == [] then s else LockAll(k, s.(exits := LockIn(k, s, t, ms[0])), t, ms[1..])
  }

  predicate Reaches(dd: real, tp: int) { dd >= tp as real / 100.0 }

  function HitAll(s: State, dd: real, tps: seq<int>): State
    decreases |tps|
  {
    if tps == [] then s
    else
      var tp := tps[0];
      HitAll(if Reaches(dd, tp) && tp !in s.hits then s.(hits := s.hits + {tp}, measured := s.measured + [tp])
          else s, dd, tps[1..])
  }

  function Updated(k: Terms, s: State, t: Tick): State {
    var a := Stamped(s, Move(k, t), t.elapsed);
    var b := a.(armed := a.armed || a.peak >= MFE_ARM);
    HitAll(LockAll(k, b, t, MODELS), Move(k, t), TP_LEVELS)
  }

  function After(k: Terms, ts: seq<Tick>): State
    decreases |ts|
  {
    if ts == [] then FRESH else Updated(k, After(k, ts[..|ts| - 1]), ts[|ts| - 1])
  }

  function ReturnOn(k: Terms, price: real): real
    requires k.entry > 0.0
  {
    (price - k.entry) / k.entry * k.usd
  }

  /** Price and profit recorded for a model when the position closes. */
  function Final(k: Terms, s: State, m: Model, closePrice: real, why: string, stamp: string): (Locked, Option<real>) {
    var l := if m in s.exits then s.exits[m] else Locked(closePrice, why, stamp);
    (l, if k.entry > 0.0 then Some(Round6(ReturnOn(k, l.price))) else None)
  }

  // ---- the offline replay ----------------------------------------------------------------------

  /** `v` is the greatest of zero and the moves, first reached at `at`. */
  predicate IsPeak(k: Terms, ts: seq<Tick>, v: real, at: Option<real>) {
    && v >= 0.0 && (forall j :: 0 <= j < |ts| ==> Move(k, ts[j]) <= v)
    && (at.None? ==> v == 0.0)
    && (at.Some? ==>
       v > 0.0 && exists j ::
         0 <= j < |ts| && FirstAtLeast(k, ts, j, v) && Move(k, ts[j]) == v && at.value == ts[j].elapsed)
  }

  predicate FirstAtLeast(k: Terms, ts: seq<Tick>, j: nat, v: real) {
    j < |ts| && Move(k, ts[j]) >= v && forall i :: 0 <= i < j ==> Move(k, ts[i]) < v
  }

  /** `v` is the least of zero and the moves, first reached at `at`. */
  predicate IsTrough(k: Terms, ts: seq<Tick>, v: real, at: Option<real>) {
    && v <= 0.0 && (forall j :: 0 <= j < |ts| ==> Move(k, ts[j]) >= v)
    && (at.None? ==> v == 0.0)
    && (at.Some? ==>
       v < 0.0 && exists j ::
         0 <= j < |ts| && FirstAtMost(k, ts, j, v) && Move(k, ts[j]) == v && at.value == ts[j].elapsed)
  }

  predicate FirstAtMost(k: Terms, ts: seq<Tick>, j: nat, v: real) {
    j < |ts| && Move(k, ts[j]) <= v && forall i :: 0 <= i < j ==> Move(k, ts[i]) > v
  }

  lemma PeakGrows(k: Terms, ts: seq<Tick>, t: Tick, v: real, at: Option<real>)
    requires IsPeak(k, ts, v, at)
    ensures IsPeak(k, ts + [t], if Move(k, t) > v then Move(k, t) else v, if Move(k, t) > v then Some(t.elapsed)
        else at)
  {
    hide Move;
    var us := ts + [t];
    if Move(k, t) > v {
      assert us[|ts|] == t && FirstAtLeast(k, us, |ts|, Move(k, t));
    } else if at.Some? {
      var j :| 0 <= j < |ts| && FirstAtLeast(k, ts, j, v) && Move(k, ts[j]) == v && at.value == ts[j].elapsed;
      assert us[j] == ts[j] && FirstAtLeast(k, us, j, v);
    }
  }

  lemma TroughGrows(k: Terms, ts: seq<Tick>, t: Tick, v: real, at: Option<real>)
    requires IsTrough(k, ts, v, at)
    ensures IsTrough(k, ts + [t], if Move(k, t) < v then Move(k, t) else v, if Move(k, t) < v then Some(t.elapsed)
        else at)
  {
    hide Move;
    var us := ts + [t];
    if Move(k, t) < v {
      assert us[|ts|] == t && FirstAtMost(k, us, |ts|, Move(k, t));
    } else if at.Some? {
      var j :| 0 <= j < |ts| && FirstAtMost(k, ts, j, v) && Move(k, ts[j]) == v && at.value == ts[j].elapsed;
      assert us[j] == ts[j] && FirstAtMost(k, us, j, v);
    }
  }

  /** Lock-ins and take-profit hits leave the statistics alone. */
  lemma {:induction false} LockAllKeeps(k: Terms, s: State, t: Tick, ms: seq<Model>)
    ensures LockAll(k, s, t, ms) == s.(exits := LockAll(k, s, t, ms).exits)
    decreases |ms|
  {
    hide Decide;
    if ms != [] { LockAllKeeps(k, s.(exits := LockIn(k, s, t, ms[0])), t, ms[1..]); }
  }

  lemma {:induction false} HitAllKeeps(s: State, dd: real, tps: seq<int>)
    ensures HitAll(s, dd, tps) == s.(hits := HitAll(s, dd, tps).hits, measured := HitAll(s, dd, tps).measured)
    ensures forall tp :: tp in HitAll(s, dd, tps).hits <==> tp in s.hits || (tp in tps && Reaches(dd, tp))
    decreases |tps|
  {
    if tps != [] {
      var tp := tps[0];
      HitAllKeeps(if Reaches(dd, tp) && tp !in s.hits then s.(hits := s.hits + {tp}, measured := s.measured + [tp])
          else s, dd, tps[1..]);
    }
  }

  lemma UpdatedMeans(k: Terms, s: State, t: Tick)
    ensures var a, r := Stamped(s, Move(k, t), t.elapsed), Updated(k, s, t);
      && r.peak == a.peak && r.trough == a.trough && r.tPeak == a.tPeak && r.tTrough == a.tTrough
      && r.armed == (s.armed || a.peak >= MFE_ARM)
      && r.exits == LockAll(k, a.(armed := r.armed), t, MODELS).exits
      && (forall tp :: tp in r.hits <==> tp in s.hits || (tp in TP_LEVELS && Reaches(Move(k, t), tp)))
      && r.measured == HitAll(s, Move(k, t), TP_LEVELS).measured && r.hits == HitAll(s, Move(k, t), TP_LEVELS).hits
  {
    hide Move, Decide;
    var a := Stamped(s, Move(k, t), t.elapsed);
    var b := a.(armed := a.armed || a.peak >= MFE_ARM);
    LockAllKeeps(k, b, t, MODELS);
    HitAllKeeps(LockAll(k, b, t, MODELS), Move(k, t), TP_LEVELS);
    HitsSame(LockAll(k, b, t, MODELS), s, Move(k, t), TP_LEVELS);
  }

  lemma {:induction false} HitsSame(s: State, r: State, dd: real, tps: seq<int>)
    requires s.hits == r.hits && s.measured == r.measured
    ensures HitAll(s, dd, tps).hits == HitAll(r, dd, tps).hits
        && HitAll(s, dd, tps).measured == HitAll(r, dd, tps).measured
    decreases |tps|
  {
    if tps != [] {
      var tp := tps[0];
      HitsSame(if Reaches(dd, tp) && tp !in s.hits then s.(hits := s.hits + {tp}, measured := s.measured + [tp]) else s,
               if Reaches(dd, tp) && tp !in r.hits then r.(hits := r.hits + {tp}, measured := r.measured + [tp])
                   else r, dd, tps[1..]);
    }
  }

  /** Peak and trough are the running extremes, each with the time it was first reached; breakeven is armed
      exactly when the peak reached 0.15; the take-profit hits are the levels the peak reached. */
  ghost predicate Statistics(k: Terms, ts: seq<Tick>, s: State) {
    && IsPeak(k, ts, s.peak, s.tPeak) && IsTrough(k, ts, s.trough, s.tTrough)
    && (s.armed <==> s.peak >= MFE_ARM)
    && (forall tp :: tp in s.hits <==> tp in TP_LEVELS && Reaches(s.peak, tp))
  }

  lemma StatisticsGrow(k: Terms, ts: seq<Tick>, s: State, t: Tick)
    requires Statistics(k, ts, s)
    ensures Statistics(k, ts + [t], Updated(k, s, t))
  {
    PeakGrows(k, ts, t, s.peak, s.tPeak);
    TroughGrows(k, ts, t, s.trough, s.tTrough);
    UpdatedMeans(k, s, t);
    hide Move, Updated, IsPeak, IsTrough, LockAll, HitAll;
    assert s.peak >= 0.0 && s.trough <= 0.0 by { Signs(k, ts, s); }
  }

  lemma Signs(k: Terms, ts: seq<Tick>, s: State)
    requires Statistics(k, ts, s)
    ensures s.peak >= 0.0 && s.trough <= 0.0
  {
  }

  /** After any sequence of ticks the in-place statistics are those an offline pass over them finds. */
  lemma {:induction false} OnlineIsReplay(k: Terms, ts: seq<Tick>)
    ensures Statistics(k, ts, After(k, ts))
    decreases |ts|
  {
    hide Updated;
    if ts == [] {
      NothingYet(k);
    } else {
      OnlineIsReplay(k, ts[..|ts| - 1]);
      assert ts == ts[..|ts| - 1] + [ts[|ts| - 1]];
      hide Statistics;
      StatisticsGrow(k, ts[..|ts| - 1], After(k, ts[..|ts| - 1]), ts[|ts| - 1]);
    }
  }

  lemma NothingYet(k: Terms)
    ensures Statistics(k, [], FRESH)
  {
    assert forall tp :: tp in TP_LEVELS ==> tp >= 15;
    assert forall tp: int :: tp >= 15 ==> !Reaches(0.0, tp);
  }

  // -- each take-profit level is measured once

  predicate NoRepeat(q: seq<int>) { forall i, j :: 0 <= i < j < |q| ==> q[i] != q[j] }

  ghost predicate Measured(s: State) { NoRepeat(s.measured) && forall tp :: tp in s.hits <==> tp in s.measured }

  lemma {:induction false} HitAllMeasures(s: State, dd: real, tps: seq<int>)
    requires Measured(s)
    ensures Measured(HitAll(s, dd, tps))
    decreases |tps|
  {
    if tps != [] {
      var tp := tps[0];
      HitAllMeasures(if Reaches(dd, tp) && tp !in s.hits then s.(hits := s.hits + {tp}, measured := s.measured + [tp])
          else s, dd, tps[1..]);
    }
  }

  /** Each take-profit level is measured exactly once, and only if the peak reached it. */
  lemma {:induction false} EachLevelOnce(k: Terms, ts: seq<Tick>)
    ensures var s := After(k, ts);
      NoRepeat(s.measured) && forall tp :: tp in s.measured <==> tp in {15, 20, 30} && s.peak >= tp as real / 100.0
    decreases |ts|
  {
    OnlineIsReplay(k, ts);
    MeasuredAfter(k, ts);
  }

  lemma {:induction false} MeasuredAfter(k: Terms, ts: seq<Tick>)
    ensures Measured(After(k, ts))
    decreases |ts|
  {
    hide Updated, Measured, HitAll;
    if ts == [] {
      assert Measured(FRESH) by { NoneMeasured(); }
    } else {
      var s, t := After(k, ts[..|ts| - 1]), ts[|ts| - 1];
      MeasuredAfter(k, ts[..|ts| - 1]);
      UpdatedMeans(k, s, t);
      HitAllMeasures(s, Move(k, t), TP_LEVELS);
      SameMeasured(HitAll(s, Move(k, t), TP_LEVELS), Updated(k, s, t));
    }
  }

  lemma NoneMeasured()
    ensures Measured(FRESH)
  {
  }

  lemma SameMeasured(a: State, b: State)
    requires Measured(a) && a.hits == b.hits && a.measured == b.measured
    ensures Measured(b)
  {
  }

  // ---- model exits -----------------------------------------------------------------------------

  /** The greatest and the least of zero and the moves of the ticks, found offline. */
  function Highest(k: Terms, ts: seq<Tick>): real
    decreases |ts|
  {
    if ts == [] then 0.0
    else
      var rest, m := Highest(k, ts[..|ts| - 1]), Move(k, ts[|ts| - 1]);
      if m > rest then m else rest
  }

  function Lowest(k: Terms, ts: seq<Tick>): real
    decreases |ts|
  {
    if ts == [] then 0.0
    else
      var rest, m := Lowest(k, ts[..|ts| - 1]), Move(k, ts[|ts| - 1]);
      if m < rest then m else rest
  }

  lemma {:induction false} ExtremesAgree(k: Terms, ts: seq<Tick>)
    ensures After(k, ts).peak == Highest(k, ts) && After(k, ts).trough == Lowest(k, ts)
    decreases |ts|
  {
    hide Updated, Move;
    if ts != [] {
      var front := ts[..|ts| - 1];
      ExtremesAgree(k, front);
      OnlineIsReplay(k, front);
      UpdatedMeans(k, After(k, front), ts[|ts| - 1]);
    }
  }

  /** The verdict an offline pass gives of tick `j`: from the extremes of the ticks up to it. */
  function Replayed(k: Terms, m: Model, ts: seq<Tick>, j: nat): Verdict
    requires j < |ts|
  {
    Decide(k, m, ts[j], Lowest(k, ts[..j + 1]), Highest(k, ts[..j + 1]) >= MFE_ARM)
  }

  predicate FirstExit(k: Terms, m: Model, ts: seq<Tick>, j: nat) {
    j < |ts| && !Replayed(k, m, ts, j).Hold? && forall i :: 0 <= i < j ==> Replayed(k, m, ts, i).Hold?
  }

  lemma {:induction false} LockAllMeans(k: Terms, s: State, t: Tick, ms: seq<Model>, m: Model)
    ensures var r := LockAll(k, s, t, ms).exits;
      var v := Decide(k, m, t, s.trough, s.armed);
      && (m in s.exits ==> m in r && r[m] == s.exits[m])
      && (m !in s.exits ==> (m in r <==> m in ms && !v.Hold?) && (m in r ==> r[m] == Locked(t.price, v.why, t.stamp)))
    decreases |ms|
  {
    hide Decide;
    if ms != [] { LockAllMeans(k, s.(exits := LockIn(k, s, t, ms[0])), t, ms[1..], m); }
  }

  lemma OneOfFour(m: Model)
    ensures m in MODELS
  {
    assert MODELS[0] == Current && MODELS[1] == Conservative && MODELS[2] == Balanced && MODELS[3] == MfeBreakeven;
  }

  /** What one more tick does to a model's exit. */
  lemma UpdatedExit(k: Terms, ts: seq<Tick>, m: Model)
    requires ts != []
    ensures var s, r, n := After(k, ts[..|ts| - 1]), After(k, ts), |ts| - 1;
      var v := Replayed(k, m, ts, n);
      && (m in s.exits ==> m in r.exits && r.exits[m] == s.exits[m])
      && (m !in s.exits ==>
         (m in r.exits <==> !v.Hold?) && (m in r.exits ==> r.exits[m] == Locked(ts[n].price, v.why, ts[n].stamp)))
  {
    var n := |ts| - 1;
    var s, t := After(k, ts[..n]), ts[n];
    UpdatedMeans(k, s, t);
    OnlineIsReplay(k, ts);
    ExtremesAgree(k, ts);
    assert ts[..n + 1] == ts;
    hide Updated, Decide, Move, LockAll;
    var a := Stamped(s, Move(k, t), t.elapsed);
    var r := After(k, ts);
    assert r == Updated(k, s, t);
    assert r.armed <==> r.peak >= MFE_ARM;
    LockAllMeans(k, a.(armed := r.armed), t, MODELS, m);
    OneOfFour(m);
  }

  /** A model has an exit exactly when an offline pass finds an EXIT tick for it, and then the recorded one is
      the first: its price, its reason and its time. */
  ghost predicate LocksFirstExit(k: Terms, ts: seq<Tick>, m: Model, exits: map<Model, Locked>) {
    && (m in exits <==> exists j: nat :: FirstExit(k, m, ts, j))
    && (forall j: nat :: FirstExit(k, m, ts, j) ==>
          m in exits && exits[m] == Locked(ts[j].price, Replayed(k, m, ts, j).why, ts[j].stamp))
  }

  /** Up to the last tick the longer sequence has the first exits of the shorter one. */
  lemma EarlierExits(k: Terms, m: Model, ts: seq<Tick>, n: nat, j: nat)
    requires j < n <= |ts|
    ensures FirstExit(k, m, ts[..n], j) <==> FirstExit(k, m, ts, j)
    ensures Replayed(k, m, ts[..n], j) == Replayed(k, m, ts, j) && ts[..n][j] == ts[j]
  {
    hide Replayed;
    forall i: nat | i <= j ensures Replayed(k, m, ts[..n], i) == Replayed(k, m, ts, i) {
      PrefixReplays(k, m, ts, n, i);
    }
  }

  lemma StaysLocked(k: Terms, ts: seq<Tick>, m: Model, was: map<Model, Locked>, now: map<Model, Locked>)
    requires ts != [] && LocksFirstExit(k, ts[..|ts| - 1], m, was) && m in was && m in now && now[m] == was[m]
    ensures LocksFirstExit(k, ts, m, now)
  {
    hide Replayed;
    var n := |ts| - 1;
    var j: nat :| FirstExit(k, m, ts[..n], j);
    EarlierExits(k, m, ts, n, j);
    forall i: nat | FirstExit(k, m, ts, i) ensures i == j { }
  }

  lemma LocksNow(k: Terms, ts: seq<Tick>, m: Model, was: map<Model, Locked>, now: map<Model, Locked>)
    requires ts != [] && LocksFirstExit(k, ts[..|ts| - 1], m, was) && m !in was
    requires m in now <==> !Replayed(k, m, ts, |ts| - 1).Hold?
    requires m in now ==> now[m] == Locked(ts[|ts| - 1].price, Replayed(k, m, ts, |ts| - 1).why, ts[|ts| - 1].stamp)
    ensures LocksFirstExit(k, ts, m, now)
  {
    hide Replayed;
    var n := |ts| - 1;
    NoExitBefore(k, m, ts[..n], n);
    forall i: nat | i < n ensures Replayed(k, m, ts, i).Hold? {
      EarlierExits(k, m, ts, n, i);
    }
    forall i: nat | FirstExit(k, m, ts, i) ensures i == n { }
    if !Replayed(k, m, ts, n).Hold? { assert FirstExit(k, m, ts, n); }
  }

  lemma {:induction false} FirstExitIsLocked(k: Terms, ts: seq<Tick>, m: Model)
    ensures LocksFirstExit(k, ts, m, After(k, ts).exits)
    decreases |ts|
  {
    hide Replayed;
    if ts != [] {
      hide LocksFirstExit, After;
      var was := After(k, ts[..|ts| - 1]).exits;
      FirstExitIsLocked(k, ts[..|ts| - 1], m);
      UpdatedExit(k, ts, m);
      if m in was {
        StaysLocked(k, ts, m, was, After(k, ts).exits);
      } else {
        LocksNow(k, ts, m, was, After(k, ts).exits);
      }
    }
  }

  lemma PrefixReplays(k: Terms, m: Model, ts: seq<Tick>, n: nat, j: nat)
    requires j < n <= |ts|
    ensures Replayed(k, m, ts[..n], j) == Replayed(k, m, ts, j) && ts[..n][j] == ts[j]
  {
    assert ts[..n][..j + 1] == ts[..j + 1];
  }

  /** Without a first EXIT tick there is none at all. */
  lemma {:induction false} NoExitBefore(k: Terms, m: Model, ts: seq<Tick>, n: nat)
    requires n <= |ts| && forall j :: 0 <= j < |ts| ==> !FirstExit(k, m, ts, j)
    ensures forall i :: 0 <= i < n ==> Replayed(k, m, ts, i).Hold?
    decreases n
  {
    if n > 0 {
      NoExitBefore(k, m, ts, n - 1);
      assert !FirstExit(k, m, ts, n - 1);
    }
  }

  /** The exit recorded for a model is that of its first EXIT tick, or the close when there was none. */
  lemma FinalExit(k: Terms, ts: seq<Tick>, m: Model, closePrice: real, why: string, stamp: string)
    ensures var l := Final(k, After(k, ts), m, closePrice, why, stamp).0;
      && (forall j: nat :: FirstExit(k, m, ts, j) ==> l == Locked(ts[j].price, Replayed(k, m, ts, j).why, ts[j].stamp))
      && ((forall j: nat :: j < |ts| ==> Replayed(k, m, ts, j).Hold?) ==> l == Locked(closePrice, why, stamp))
  {
    FirstExitIsLocked(k, ts, m);
    hide Replayed, After, Round6, ReturnOn;
  }

  /** The return is to the dollars what the price's change is to the entry. */
  lemma ReturnMeans(k: Terms, price: real)
    requires k.entry > 0.0
    ensures ReturnOn(k, price) * k.entry == (price - k.entry) * k.usd
  {
    var share := (price - k.entry) / k.entry;
    assert share * k.entry == price - k.entry;
    assert (share * k.usd) * k.entry == (share * k.entry) * k.usd;
  }

  lemma FinalReturn(k: Terms, s: State, m: Model, closePrice: real, why: string, stamp: string)
    ensures var (l, profit) := Final(k, s, m, closePrice, why, stamp);
      profit == if k.entry > 0.0 then Some(Round6(ReturnOn(k, l.price))) else None
  {
    hide Round6, ReturnOn;
  }

  /** The profit recorded for a model is the return on the dollars at the price of its first EXIT tick, or of the
      close when there was none. */
  lemma FinalProfit(k: Terms, ts: seq<Tick>, m: Model, closePrice: real, why: string, stamp: string)
    ensures var (l, profit) := Final(k, After(k, ts), m, closePrice, why, stamp);
      && (forall j: nat :: FirstExit(k, m, ts, j) ==> l == Locked(ts[j].price, Replayed(k, m, ts, j).why, ts[j].stamp))
      && ((forall j: nat :: j < |ts| ==> Replayed(k, m, ts, j).Hold?) ==> l == Locked(closePrice, why, stamp))
      && profit == if k.entry > 0.0 then Some(Round6(ReturnOn(k, l.price))) else None
  {
    hide Replayed, After, Round6, ReturnOn, Final, FirstExit;
    FinalExit(k, ts, m, closePrice, why, stamp);
    FinalReturn(k, After(k, ts), m, closePrice, why, stamp);
  }

  // ---- the state as it is updated --------------------------------------------------------------

  class PaperPosition {
    const terms: Terms
    var peak: real
    var trough: real
    var tPeak: Option<real>
    var tTrough: Option<real>
    var armed: bool
    var exits: map<Model, Locked>
    var hits: set<int>
    var measured: seq<int>

    constructor (terms: Terms)
      ensures this.terms == terms && Now() == FRESH
    {
      this.terms := terms;
      peak, trough, tPeak, tTrough, armed, exits, hits, measured := 0.0, 0.0, None, None, false, map[], {}, [];
    }

    function Now(): State
      reads this
    {
      State(peak, trough, tPeak, tTrough, armed, exits, hits, measured)
    }

    method Stamp(dd: real, elapsed: real)
      modifies this
      ensures Now() == Stamped(old(Now()), dd, elapsed)
    {
      if dd > peak { peak, tPeak := dd, Some(elapsed); }
      if dd < trough { trough, tTrough := dd, Some(elapsed); }
    }

    method Update(t: Tick)
      modifies this
      ensures Now() == Updated(terms, old(Now()), t)
    {
      hide Decide, Move;
      var dd := Move(terms, t);
      Stamp(dd, t.elapsed);
      if peak >= MFE_ARM { armed := true; }
      ghost var b := Now();
      var k := 0;
      while k < |MODELS|
        invariant 0 <= k <= |MODELS| && LockAll(terms, Now(), t, MODELS[k..]) == LockAll(terms, b, t, MODELS)
      {
        var m := MODELS[k];
        assert MODELS[k..][0] == m && MODELS[k..][1..] == MODELS[k + 1..];
        var v := Decide(terms, m, t, trough, armed);
        if !v.Hold? && m !in exits { exits := exits[m := Locked(t.price, v.why, t.stamp)]; }
        k := k + 1;
      }
      ghost var c := Now();
      var j := 0;
      while j < |TP_LEVELS|
        invariant 0 <= j <= |TP_LEVELS| && HitAll(Now(), dd, TP_LEVELS[j..]) == HitAll(c, dd, TP_LEVELS)
      {
        var tp := TP_LEVELS[j];
        assert TP_LEVELS[j..][0] == tp && TP_LEVELS[j..][1..] == TP_LEVELS[j + 1..];
        if Reaches(dd, tp) && tp !in hits { hits, measured := hits + {tp}, measured + [tp]; }
        j := j + 1;
      }
    }
  }
}
