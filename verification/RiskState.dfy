/** The persisted risk snapshot and its synchronisation with the runtime signals. */
module RiskState {
  import opened Wrappers
  import opened Faults

  datatype Blocker = KillSwitchOn | HaltedOn | ManualReview | DailyLoss | CooldownOn | UnknownBlocker(name: string)

  datatype Mode = Operational | Cooldown | ExitOnly | Halted | KillSwitch

  function Priority(m: Mode): nat {
    match m
    case Operational => 0
    case Cooldown => 1
    case ExitOnly => 2
    case Halted => 3
    case KillSwitch => 4
  }

  function ModeOf(b: Blocker): Mode {
    match b
    case KillSwitchOn => KillSwitch
    case HaltedOn => Halted
    case ManualReview => Halted
    case DailyLoss => ExitOnly
    case CooldownOn => Cooldown
    case UnknownBlocker(_) => Operational
  }

  predicate AllKnown(bs: seq<Blocker>) { forall b :: b in bs ==> !b.UnknownBlocker? }

  /** The highest-priority mode of the blockers; Operational without any. */
  function Worst(bs: seq<Blocker>): Mode
    decreases |bs|
  {
    if bs == [] then Operational
    else
      var m, n := Worst(bs[..|bs| - 1]), ModeOf(bs[|bs| - 1]);
      if Priority(n) > Priority(m) then n else m
  }

  /** None where the code raises on a blocker it does not know. */
  function Reduce(bs: seq<Blocker>): Option<Mode> { if AllKnown(bs) then Some(Worst(bs)) else None }

  method ReduceRiskMode(bs: seq<Blocker>) returns (m: Option<Mode>)
    ensures m == Reduce(bs)
  {
    var effective, k := Operational, 0;
    while k < |bs|
      invariant 0 <= k <= |bs| && effective == Worst(bs[..k]) && AllKnown(bs[..k])
    {
      assert bs[..k + 1][..k] == bs[..k];
      if bs[k].UnknownBlocker? { assert bs[k] in bs; return None; }
      var mode := ModeOf(bs[k]);
      if Priority(mode) > Priority(effective) { effective := mode; }
      k := k + 1;
    }
    assert bs[..k] == bs;
    return Some(effective);
  }

  /** The reducer is the maximum: no blocker is worse than it, and some blocker is as bad, so neither order
      nor repetition matters. */
  lemma {:induction false} WorstIsMaximum(bs: seq<Blocker>)
    ensures forall b :: b in bs ==> Priority(ModeOf(b)) <= Priority(Worst(bs))
    ensures Worst(bs) == Operational || exists b :: b in bs && ModeOf(b) == Worst(bs)
    decreases |bs|
  {
    if bs != [] { WorstIsMaximum(bs[..|bs| - 1]); }
  }

  lemma SameBlockersSameMode(a: seq<Blocker>, b: seq<Blocker>)
    requires forall x :: x in a <==> x in b
    ensures Reduce(a) == Reduce(b)
  {
    WorstIsMaximum(a);
    WorstIsMaximum(b);
    PriorityTells(Worst(a), Worst(b));
  }

  lemma PriorityTells(m: Mode, n: Mode)
    ensures Priority(m) == Priority(n) ==> m == n
  {
  }

  // ---- signals ---------------------------------------------------------------------------------

  datatype Breaker = Quiet | SoftStop | HardStop | UnknownStatus(text: string)

  const DAILY_LOSS_LIMIT := 0.35

  /** None where the code raises: the start equity is not positive. */
  function DailyLossHalt(equity: real, pnl: real): Option<bool> {
    if equity <= 0.0 then None
    else
      var loss := -pnl / equity;
      Some((if loss > 0.0 then loss else 0.0) >= DAILY_LOSS_LIMIT)
  }

  function When(c: bool, b: Blocker): seq<Blocker> { if c then [b] else [] }

  function BuildBlockers(dailyLoss: bool, breaker: Breaker, kill: bool, review: bool): Option<seq<Blocker>> {
    if breaker.UnknownStatus? then None
    else Some(When(kill, KillSwitchOn) + When(review, ManualReview) + When(breaker.HardStop?, HaltedOn)
              + When(dailyLoss, DailyLoss) + When(breaker.SoftStop?, CooldownOn))
  }

  // ---- the stored row --------------------------------------------------------------------------

  datatype Snapshot = Snapshot(
    day: string, equity: real, pnl: real, blockers: seq<Blocker>, mode: Mode, updatedAt: string, schema: int,
    approvedBy: string, reason: string)

  /** The singleton row: absent, not a snapshot at all, or a payload with all its fields. */
  datatype Row = Missing | Garbage | Stored(snap: Snapshot)

  predicate Valid(s: Snapshot) { s.schema == 1 && Reduce(s.blockers) == Some(s.mode) }

  /** None where the code raises RiskStateCorruptError. */
  function Load(r: Row): Option<Snapshot> { if r.Stored? && Valid(r.snap) then Some(r.snap) else None }

  /** A row is written as a whole; the write may fail, or take effect and be reported as failed. */
  function Save(r: Row, s: Snapshot, f: Fault): (Row, bool) {
    if !Valid(s) || f.Lost? then (r, false) else (Stored(s), f.Fine?)
  }

  function DayZero(r: Row, day: string, equity: real, now: string, who: string, reason: string, f: Fault): (Row, bool) {
    if equity <= 0.0 || Blank(day) || Blank(now) || Blank(who) || Blank(reason) || !r.Missing? then (r, false)
    else Save(r, Snapshot(day, equity, 0.0, [], Operational, now, 1, who, reason), f)
  }

  /** Text order, as the days are compared. */
  predicate Before(a: string, b: string)
    decreases |a|
  {
    if b == "" then false else if a == "" then true
    else a[0] < b[0] || (a[0] == b[0] && Before(a[1..], b[1..]))
  }

  function WithoutDailyLoss(bs: seq<Blocker>): seq<Blocker>
    decreases |bs|
  {
    if bs == [] then []
    else
      var front, last := WithoutDailyLoss(bs[..|bs| - 1]), bs[|bs| - 1];
      if last.DailyLoss? then front else front + [last]
  }

  /** The first snapshot of a later day: daily figures start again, other blockers stay. `isDate` says which
      texts parse as dates. */
  function Rollover(isDate: string -> bool, s: Snapshot, day: string, equity: real, now: string): Option<Snapshot> {
    if equity <= 0.0 || Blank(now) || Blank(day) || !isDate(day) || Blank(s.day) || !isDate(s.day)
        || Before(day, s.day) then None
    else if day == s.day then Some(s)
    else
      var bs := WithoutDailyLoss(s.blockers);
      if Reduce(bs).None? then None
      else Some(Snapshot(day, equity, 0.0, bs, Reduce(bs).value, now, s.schema, s.approvedBy, s.reason))
  }

  datatype Signals = Signals(day: string, now: string, equity: real, pnl: real, breaker: Breaker, kill: bool,
      review: bool)

  function Base(isDate: string -> bool, s: Snapshot, g: Signals): Option<Snapshot> {
    if Before(s.day, g.day) then Rollover(isDate, s, g.day, g.equity, g.now) else Some(s)
  }

  /** What the signals make of the base snapshot; the loss is measured against its locked start equity. */
  function Assessed(base: Snapshot, g: Signals): Option<Snapshot> {
    var loss := DailyLossHalt(base.equity, g.pnl);
    if loss.None? then None
    else
      var bs := BuildBlockers(loss.value, g.breaker, g.kill, g.review);
      if bs.None? || Reduce(bs.value).None? then None
      else Some(Snapshot(g.day, base.equity, g.pnl, bs.value, Reduce(bs.value).value, g.now, base.schema,
          base.approvedBy, base.reason))
  }

  /** Everything but the time stamp and the audit fields. */
  predicate SameTrigger(a: Snapshot, b: Snapshot) {
    a.blockers == b.blockers && a.mode == b.mode && a.pnl == b.pnl && a.equity == b.equity && a.day == b.day
  }

  /** The row after a synchronisation and the snapshot it returns, or None where it raises. */
  function Sync(isDate: string -> bool, r: Row, g: Signals, f: Fault): (Row, Option<Snapshot>) {
    if Load(r).None? then (r, None)
    else
      var loaded := Load(r).value;
      var base := Base(isDate, loaded, g);
      if base.None? || Assessed(base.value, g).None? then (r, None)
      else
        var now := Assessed(base.value, g).value;
        if SameTrigger(now, loaded) then (r, Some(loaded))
        else
          var (r', ok) := Save(r, now, f);
          (r', if ok then Some(now) else None)
  }

  // ---- every reachable row ---------------------------------------------------------------------

  datatype Op =
    | Bootstrap(day: string, equity: real, now: string, who: string, reason: string, f: Fault)
    | Synchronise(g: Signals, f: Fault)

  function Apply(isDate: string -> bool, r: Row, op: Op): Row {
    match op
    case Bootstrap(day, equity, now, who, reason, f) => DayZero(r, day, equity, now, who, reason, f).0
    case Synchronise(g, f) => Sync(isDate, r, g, f).0
  }

  function Run(isDate: string -> bool, r: Row, ops: seq<Op>): Row
    decreases |ops|
  {
    if ops == [] then r else Run(isDate, Apply(isDate, r, ops[0]), ops[1..])
  }

  /** Nothing is stored yet, or a valid snapshot with positive start equity. */
  predicate Healthy(r: Row) { r.Missing? || (r.Stored? && Valid(r.snap) && r.snap.equity > 0.0) }

  lemma AssessedIsValid(base: Snapshot, g: Signals)
    requires base.schema == 1
    ensures Assessed(base, g).Some? ==>
      Valid(Assessed(base, g).value) && Assessed(base, g).value.equity == base.equity > 0.0
  {
  }

  lemma ApplyKeepsHealthy(isDate: string -> bool, r: Row, op: Op)
    requires Healthy(r)
    ensures Healthy(Apply(isDate, r, op))
  {
    hide Before, Reduce, BuildBlockers, WithoutDailyLoss, DailyLossHalt, Blank;
    if op.Synchronise? && Load(r).Some? {
      var base := Base(isDate, r.snap, op.g);
      if base.Some? { AssessedIsValid(base.value, op.g); }
    }
    assert Reduce([]) == Some(Operational) by { NoBlockers(); }
  }

  lemma NoBlockers()
    ensures Reduce([]) == Some(Operational)
  {
  }

  /** From a bootstrap on, whatever signals come and whatever writes fail, what is stored is a valid snapshot
      with positive start equity and the mode of its own blockers. */
  lemma {:induction false} ReachableIsHealthy(isDate: string -> bool, r: Row, ops: seq<Op>)
    requires Healthy(r)
    ensures Healthy(Run(isDate, r, ops))
    decreases |ops|
  {
    hide Healthy, Apply;
    if ops != [] {
      ApplyKeepsHealthy(isDate, r, ops[0]);
      ReachableIsHealthy(isDate, Apply(isDate, r, ops[0]), ops[1..]);
    }
  }

  // ---- one synchronisation ---------------------------------------------------------------------

  /** A synchronisation changes the start equity only when its day comes after the stored one, and then to
      the current equity.  Over a run that locks the equity of a day only while no earlier day comes in
      between: see `EquityIsLockedForTheDay`. */
  lemma EquityIsLocked(isDate: string -> bool, r: Row, g: Signals, f: Fault)
    requires Load(r).Some?
    ensures var r' := Sync(isDate, r, g, f).0;
      && r'.Stored?
      && (r'.snap.equity != r.snap.equity ==>
         Before(r.snap.day, g.day) && r'.snap.equity == g.equity && r'.snap.day == g.day)
      && (r' != r ==> r'.snap.day == g.day)
  {
    hide Before, Reduce, BuildBlockers, WithoutDailyLoss, DailyLossHalt, Blank, Valid;
  }

  /** A synchronisation that raises leaves the row alone, unless its commit took effect and was reported as
      failed. */
  lemma FailureChangesNothing(isDate: string -> bool, r: Row, g: Signals, f: Fault)
    requires Sync(isDate, r, g, f).1.None? && !f.Lied?
    ensures Sync(isDate, r, g, f).0 == r
  {
    hide Before, Reduce, BuildBlockers, WithoutDailyLoss, DailyLossHalt, Blank;
  }

  lemma {:induction false} NotBeforeItself(a: string)
    ensures !Before(a, a)
    decreases |a|
  {
    if a != "" { NotBeforeItself(a[1..]); }
  }

  /** Synchronising again with the same day and signals writes nothing and returns what is stored, whatever
      the time and the equity are by then. */
  lemma RepeatWritesNothing(isDate: string -> bool, r: Row, g: Signals, f: Fault, g2: Signals, f2: Fault)
    requires Sync(isDate, r, g, f).1.Some? && Healthy(r)
    requires g2 == g.(now := g2.now, equity := g2.equity)
    ensures var (r1, s1) := Sync(isDate, r, g, f);
      r1.Stored? && Sync(isDate, r1, g2, f2) == (r1, Some(r1.snap)) && SameTrigger(r1.snap, s1.value)
  {
    var (r1, s1) := Sync(isDate, r, g, f);
    var base := SyncStores(isDate, r, g, f);
    NotBeforeItself(g.day);
    hide Before, Valid, Rollover, Sync;
    AssessedAgain(base, r1.snap, g, g2);
    assert Base(isDate, r1.snap, g2) == Some(r1.snap);
    SyncAgain(isDate, r1, g2, f2);
  }

  /** What a successful synchronisation leaves stored. */
  lemma SyncStores(isDate: string -> bool, r: Row, g: Signals, f: Fault) returns (base: Snapshot)
    requires Sync(isDate, r, g, f).1.Some? && Healthy(r)
    ensures var (r1, s1) := Sync(isDate, r, g, f);
      && r1.Stored? && Valid(r1.snap) && r1.snap.day == g.day && base.schema == 1
      && Assessed(base, g).Some? && SameTrigger(r1.snap, Assessed(base, g).value) && SameTrigger(s1.value, r1.snap)
  {
    hide Before, DailyLossHalt, BuildBlockers, Reduce, WithoutDailyLoss, Blank;
    base := Base(isDate, Load(r).value, g).value;
    AssessedIsValid(base, g);
    hide Assessed;
  }

  /** Assessing what is stored by the same signals finds it as it is. */
  lemma AssessedAgain(base: Snapshot, stored: Snapshot, g: Signals, g2: Signals)
    requires Assessed(base, g).Some? && SameTrigger(stored, Assessed(base, g).value)
        && g2 == g.(now := g2.now, equity := g2.equity)
    ensures Assessed(stored, g2).Some? && SameTrigger(Assessed(stored, g2).value, stored)
  {
    hide DailyLossHalt, BuildBlockers, Reduce;
  }

  lemma SyncAgain(isDate: string -> bool, r: Row, g: Signals, f: Fault)
    requires r.Stored? && Valid(r.snap) && Base(isDate, r.snap, g) == Some(r.snap)
    requires Assessed(r.snap, g).Some? && SameTrigger(Assessed(r.snap, g).value, r.snap)
    ensures Sync(isDate, r, g, f) == (r, Some(r.snap))
  {
    hide Valid, Base, Assessed;
  }

  /** After a successful synchronisation the mode is Operational exactly when no signal is active and the
      day's loss is under the limit times the locked start equity. */
  lemma OperationalExactlyWhen(isDate: string -> bool, r: Row, g: Signals, f: Fault)
    requires Sync(isDate, r, g, f).1.Some? && Healthy(r)
    ensures var s := Sync(isDate, r, g, f).1.value;
      s.mode.Operational? <==> !g.kill && !g.review && g.breaker.Quiet? && -g.pnl < DAILY_LOSS_LIMIT * s.equity
  {
    var base := SyncStores(isDate, r, g, f);
    hide Sync;
    AssessedMode(base, g);
  }

  lemma AssessedMode(base: Snapshot, g: Signals)
    requires Assessed(base, g).Some?
    ensures var s := Assessed(base, g).value;
      s.mode.Operational? <==> !g.kill && !g.review && g.breaker.Quiet? && -g.pnl < DAILY_LOSS_LIMIT * s.equity
  {
    assert base.equity > 0.0;
    LossUnderLimit(base.equity, g.pnl);
    var loss := DailyLossHalt(base.equity, g.pnl).value;
    hide DailyLossHalt, BuildBlockers, Reduce;
    QuietBlockers(loss, g.breaker, g.kill, g.review);
  }

  /** After a successful synchronisation the blockers are those of the active signals, in the canonical
      order, and the mode is that of the gravest one. */
  lemma SignalsSetMode(isDate: string -> bool, r: Row, g: Signals, f: Fault)
    requires Sync(isDate, r, g, f).1.Some? && Healthy(r)
    ensures var s := Sync(isDate, r, g, f).1.value;
      var lost := -g.pnl >= 0.35 * s.equity;
      && s.day == g.day && s.pnl == g.pnl
      && (s.mode.KillSwitch? <==> g.kill)
      && (s.mode.Halted? <==> !g.kill && (g.review || g.breaker.HardStop?))
      && (s.mode.ExitOnly? <==> !g.kill && !g.review && !g.breaker.HardStop? && lost)
      && (s.mode.Cooldown? <==> !g.kill && !g.review && !lost && g.breaker.SoftStop?)
      && s.blockers ==
           (if g.kill then [KillSwitchOn] else []) + (if g.review then [ManualReview] else [])
           + (if g.breaker.HardStop? then [HaltedOn] else []) + (if lost then [DailyLoss] else [])
           + (if g.breaker.SoftStop? then [CooldownOn] else [])
  {
    var base := SyncStores(isDate, r, g, f);
    hide Sync;
    assert base.equity > 0.0;
    LossUnderLimit(base.equity, g.pnl);
    var loss := DailyLossHalt(base.equity, g.pnl).value;
    SignalsAreListed(loss, g.breaker, g.kill, g.review);
    hide DailyLossHalt, BuildBlockers, Reduce, Healthy, Valid;
    assert Assessed(base, g).value.blockers == BuildBlockers(loss, g.breaker, g.kill, g.review).value;
  }

  predicate Active(b: Blocker, loss: bool, breaker: Breaker, kill: bool, review: bool) {
    match b
    case KillSwitchOn => kill
    case ManualReview => review
    case HaltedOn => breaker.HardStop?
    case DailyLoss => loss
    case CooldownOn => breaker.SoftStop?
    case UnknownBlocker(_) => false
  }

  lemma ActiveAreBuilt(loss: bool, breaker: Breaker, kill: bool, review: bool)
    requires !breaker.UnknownStatus?
    ensures BuildBlockers(loss, breaker, kill, review).Some?
    ensures forall b :: b in BuildBlockers(loss, breaker, kill, review).value <==>
        Active(b, loss, breaker, kill, review)
  {
  }

  lemma SignalsAreListed(loss: bool, breaker: Breaker, kill: bool, review: bool)
    requires !breaker.UnknownStatus?
    ensures BuildBlockers(loss, breaker, kill, review).Some?
    ensures var bs := BuildBlockers(loss, breaker, kill, review).value;
      && bs == (if kill then [KillSwitchOn] else []) + (if review then [ManualReview] else [])
               + (if breaker.HardStop? then [HaltedOn] else []) + (if loss then [DailyLoss] else [])
               + (if breaker.SoftStop? then [CooldownOn] else [])
      && Reduce(bs).Some?
      && var m := Reduce(bs).value;
         && (m.KillSwitch? <==> kill)
         && (m.Halted? <==> !kill && (review || breaker.HardStop?))
         && (m.ExitOnly? <==> !kill && !review && !breaker.HardStop? && loss)
         && (m.Cooldown? <==> !kill && !review && !breaker.HardStop? && !loss && breaker.SoftStop?)
  {
    var bs := BuildBlockers(loss, breaker, kill, review).value;
    ActiveAreBuilt(loss, breaker, kill, review);
    WorstIsMaximum(bs);
    WorstOfActive(bs, loss, breaker, kill, review);
    hide Worst, Active;
  }

  lemma WorstOfActive(bs: seq<Blocker>, loss: bool, breaker: Breaker, kill: bool, review: bool)
    requires forall b :: b in bs <==> Active(b, loss, breaker, kill, review)
    ensures AllKnown(bs)
    ensures var m := Worst(bs);
      && (m.KillSwitch? <==> kill)
      && (m.Halted? <==> !kill && (review || breaker.HardStop?))
      && (m.ExitOnly? <==> !kill && !review && !breaker.HardStop? && loss)
      && (m.Cooldown? <==> !kill && !review && !breaker.HardStop? && !loss && breaker.SoftStop?)
  {
    WorstIsMaximum(bs);
    hide Worst;
    assert Active(KillSwitchOn, loss, breaker, kill, review) <==> KillSwitchOn in bs;
    assert Active(ManualReview, loss, breaker, kill, review) <==> ManualReview in bs;
    assert Active(HaltedOn, loss, breaker, kill, review) <==> HaltedOn in bs;
    assert Active(DailyLoss, loss, breaker, kill, review) <==> DailyLoss in bs;
    assert Active(CooldownOn, loss, breaker, kill, review) <==> CooldownOn in bs;
  }

  /** What a synchronisation does not decide stays: the schema and who approved the bootstrap and why.  The
      snapshot is stamped with the time of the signals, unless nothing else changed. */
  lemma AuditFieldsStay(isDate: string -> bool, r: Row, g: Signals, f: Fault)
    requires Sync(isDate, r, g, f).1.Some? && Healthy(r)
    ensures var s := Sync(isDate, r, g, f).1.value;
      && s.schema == 1 && s.approvedBy == r.snap.approvedBy && s.reason == r.snap.reason
      && (s == r.snap || s.updatedAt == g.now)
  {
    hide Before, DailyLossHalt, BuildBlockers, Reduce, WithoutDailyLoss, Blank;
  }

  lemma {:induction false} OthersRemain(bs: seq<Blocker>)
    ensures forall b :: b in WithoutDailyLoss(bs) <==> b in bs && b != DailyLoss
    decreases |bs|
  {
    if bs != [] {
      OthersRemain(bs[..|bs| - 1]);
      assert bs == bs[..|bs| - 1] + [bs[|bs| - 1]];
    }
  }

  /** A rollover to a later day starts the day's figures again, keeps every blocker but the daily loss, and has
      the mode that the kept ones give; on the same day it changes nothing, and into the past it raises. */
  lemma RolloverMeans(isDate: string -> bool, s: Snapshot, day: string, equity: real, now: string)
    ensures var r := Rollover(isDate, s, day, equity, now);
      && (Before(day, s.day) ==> r.None?)
      && (r.Some? && day == s.day ==> r.value == s)
      && (r.Some? && day != s.day ==>
            && r.value.day == day && r.value.equity == equity > 0.0 && r.value.pnl == 0.0 && r.value.updatedAt == now
            && (forall b :: b in r.value.blockers <==> b in s.blockers && b != DailyLoss)
            && Reduce(r.value.blockers) == Some(r.value.mode)
            && r.value.approvedBy == s.approvedBy && r.value.reason == s.reason && r.value.schema == s.schema)
  {
    OthersRemain(s.blockers);
    hide WithoutDailyLoss, Before, Blank, Reduce;
  }

  /** A synchronisation whose write works succeeds exactly when the breaker status is known and, for a later
      day, the new equity is positive and the texts are what the rollover wants. */
  lemma SucceedsExactlyWhen(isDate: string -> bool, r: Row, g: Signals)
    requires Healthy(r) && r.Stored?
    ensures Sync(isDate, r, g, Fine).1.Some? <==>
      && !g.breaker.UnknownStatus?
      && (Before(r.snap.day, g.day) ==>
            g.equity > 0.0 && !Blank(g.now) && Dated(isDate, g.day) && Dated(isDate, r.snap.day))
  {
    BeforeIsAnOrder(g.day, r.snap.day, g.day);
    NotBeforeItself(g.day);
    KnownWithoutDailyLoss(r.snap.blockers);
    var base := Base(isDate, r.snap, g);
    hide Before, Blank, WithoutDailyLoss, DailyLossHalt;
    if base.Some? && !g.breaker.UnknownStatus? { AssessedUnlessUnknown(base.value, g); }
    hide Worst;
  }

  /** Every blocker the signals give raises the mode. */
  lemma QuietBlockers(loss: bool, breaker: Breaker, kill: bool, review: bool)
    requires !breaker.UnknownStatus?
    ensures var bs := BuildBlockers(loss, breaker, kill, review).value;
      Reduce(bs).Some? && (Reduce(bs).value.Operational? <==> !loss && breaker.Quiet? && !kill && !review)
  {
    var bs := BuildBlockers(loss, breaker, kill, review).value;
    assert AllKnown(bs);
    WorstIsMaximum(bs);
    if bs == [] { NoBlockers(); } else {
      assert bs[0] in bs;
      KnownBlockersCount(bs[0]);
    }
  }

  lemma KnownBlockersCount(b: Blocker)
    requires !b.UnknownBlocker?
    ensures Priority(ModeOf(b)) > 0 && Priority(Operational) == 0
  {
  }

  lemma LossUnderLimit(equity: real, pnl: real)
    requires equity > 0.0
    ensures DailyLossHalt(equity, pnl) == Some(-pnl >= DAILY_LOSS_LIMIT * equity)
  {
    var loss := -pnl / equity;
    assert loss * equity == -pnl;
    if loss >= DAILY_LOSS_LIMIT { assert (loss - DAILY_LOSS_LIMIT) * equity >= 0.0; }
    else { assert (DAILY_LOSS_LIMIT - loss) * equity > 0.0; }
  }

  /** A stored row is loaded exactly when its schema is the known one, all its blockers are known, and its mode
      is the gravest of theirs; any other row makes a synchronisation raise, and stays as it is. */
  lemma LoadsExactlyWhen(isDate: string -> bool, r: Row, g: Signals, f: Fault)
    ensures Load(r).Some? <==>
      && r.Stored? && r.snap.schema == 1
      && (forall b :: b in r.snap.blockers ==> !b.UnknownBlocker? && Priority(ModeOf(b)) <= Priority(r.snap.mode))
      && (r.snap.mode == Operational || exists b :: b in r.snap.blockers && ModeOf(b) == r.snap.mode)
    ensures Load(r).Some? ==> Load(r) == Some(r.snap)
    ensures Load(r).None? ==> Sync(isDate, r, g, f) == (r, None)
  {
    if r.Stored? {
      WorstIsMaximum(r.snap.blockers);
      PriorityTells(Worst(r.snap.blockers), r.snap.mode);
      hide Worst;
    }
  }

  /** The bootstrap works exactly on a missing row, with positive equity and texts that are not blank; then a
      snapshot without blockers is stored. */
  lemma BootstrapsExactlyWhen(r: Row, day: string, equity: real, now: string, who: string, reason: string, f: Fault)
    ensures var (r', ok) := DayZero(r, day, equity, now, who, reason, f);
      var fit := r.Missing? && equity > 0.0 && !Blank(day) && !Blank(now) && !Blank(who) && !Blank(reason);
      && (ok <==> fit && f.Fine?)
      && r' == (if fit && !f.Lost? then Stored(Snapshot(day, equity, 0.0, [], Operational, now, 1, who, reason)) else r)
  {
    hide Blank;
    NoBlockers();
  }

  // ---- days that go back -----------------------------------------------------------------------

  lemma {:induction false} BeforeIsAnOrder(a: string, b: string, c: string)
    ensures Before(a, b) ==> !Before(b, a)
    ensures Before(a, b) && Before(b, c) ==> Before(a, c)
    ensures Before(a, b) || Before(b, a) || a == b
    decreases |a|
  {
    if a != "" && b != "" && a[0] == b[0] {
      BeforeIsAnOrder(a[1..], b[1..], if c == "" then "" else c[1..]);
      assert a == [a[0]] + a[1..] && b == [b[0]] + b[1..];
    } else if a != "" && b != "" && c != "" && b[0] == c[0] {
      assert Before(a, b) ==> a[0] < b[0];
    }
  }

  /** The stored day goes back exactly when the signals carry an earlier day with a known breaker status and
      the write takes effect: the rollover's own check for past days is never asked. */
  lemma DayGoesBackExactlyWhen(isDate: string -> bool, r: Row, g: Signals, f: Fault)
    requires Healthy(r) && r.Stored?
    ensures var r' := Sync(isDate, r, g, f).0;
      && r'.Stored?
      && (Before(r'.snap.day, r.snap.day) <==> Before(g.day, r.snap.day) && !g.breaker.UnknownStatus? && !f.Lost?)
      && (Before(r'.snap.day, r.snap.day) ==> r'.snap.day == g.day && r'.snap.equity == r.snap.equity)
  {
    BeforeIsAnOrder(g.day, r.snap.day, g.day);
    BeforeIsAnOrder(r.snap.day, r.snap.day, r.snap.day);
    if Before(g.day, r.snap.day) && !g.breaker.UnknownStatus? {
      AssessedUnlessUnknown(r.snap, g);
    } else {
      EquityIsLocked(isDate, r, g, f);
      hide Healthy, Assessed, Rollover;
    }
    hide Before, Assessed, Reduce;
  }

  lemma AssessedUnlessUnknown(base: Snapshot, g: Signals)
    requires base.equity > 0.0 && base.schema == 1 && !g.breaker.UnknownStatus?
    ensures Assessed(base, g).Some? && Valid(Assessed(base, g).value) && Assessed(base, g).value.day == g.day
    ensures Assessed(base, g).value.equity == base.equity
  {
    LossUnderLimit(base.equity, g.pnl);
    QuietBlockers(DailyLossHalt(base.equity, g.pnl).value, g.breaker, g.kill, g.review);
    AssessedIsValid(base, g);
    hide Reduce, DailyLossHalt, BuildBlockers;
  }

  /** No synchronisation of the run carries a day before the one stored when it comes. */
  predicate NeverBack(isDate: string -> bool, r: Row, ops: seq<Op>)
    decreases |ops|
  {
    ops == [] ||
    (&& (ops[0].Synchronise? && r.Stored? ==> !Before(ops[0].g.day, r.snap.day))
     && NeverBack(isDate, Apply(isDate, r, ops[0]), ops[1..]))
  }

  /** The stored snapshot has stayed on its day with its start equity, or is of a later day. */
  predicate Locked(was: Snapshot, now: Snapshot) {
    (now.day == was.day && now.equity == was.equity) || Before(was.day, now.day)
  }

  lemma StepKeepsLock(isDate: string -> bool, r: Row, op: Op)
    requires Healthy(r) && r.Stored? && (op.Synchronise? ==> !Before(op.g.day, r.snap.day))
    ensures var r' := Apply(isDate, r, op); r'.Stored? && Locked(r.snap, r'.snap)
  {
    if op.Synchronise? {
      EquityIsLocked(isDate, r, op.g, op.f);
      BeforeIsAnOrder(op.g.day, r.snap.day, op.g.day);
    }
    hide Before, Sync, Healthy;
  }

  lemma {:induction false} RunKeepsLock(isDate: string -> bool, r: Row, ops: seq<Op>)
    requires Healthy(r) && r.Stored? && NeverBack(isDate, r, ops)
    ensures var r' := Run(isDate, r, ops); r'.Stored? && Locked(r.snap, r'.snap)
    decreases |ops|
  {
    hide Healthy, Apply, Before;
    if ops != [] {
      var next := Apply(isDate, r, ops[0]);
      StepKeepsLock(isDate, r, ops[0]);
      ApplyKeepsHealthy(isDate, r, ops[0]);
      RunKeepsLock(isDate, next, ops[1..]);
      BeforeIsAnOrder(r.snap.day, next.snap.day, Run(isDate, r, ops).snap.day);
    }
  }

  lemma {:induction false} RunSplits(isDate: string -> bool, r: Row, a: seq<Op>, b: seq<Op>)
    ensures Run(isDate, r, a + b) == Run(isDate, Run(isDate, r, a), b)
    ensures NeverBack(isDate, r, a + b) ==> NeverBack(isDate, r, a) && NeverBack(isDate, Run(isDate, r, a), b)
    decreases |a|
  {
    hide Apply, Before;
    if a == [] { assert a + b == b; } else {
      assert (a + b)[0] == a[0] && (a + b)[1..] == a[1..] + b;
      RunSplits(isDate, Apply(isDate, r, a[0]), a[1..], b);
    }
  }

  /** While no synchronisation comes for a day before the stored one, any two snapshots ever stored for one
      day have the same start equity.  `StepBackUnlocks` is the converse: after any other synchronisation
      the next one can store the day with any start equity.  Together they are the exact condition. */
  lemma EquityIsLockedForTheDay(isDate: string -> bool, r: Row, ops: seq<Op>, i: nat, j: nat)
    requires Healthy(r) && NeverBack(isDate, r, ops) && i <= j <= |ops|
    ensures var a, b := Run(isDate, r, ops[..i]), Run(isDate, r, ops[..j]);
      a.Stored? ==> b.Stored? && (a.snap.day == b.snap.day ==> a.snap.equity == b.snap.equity)
  {
    hide Healthy, Apply, Before, Run, NeverBack;
    assert ops == ops[..j] + ops[j..] && ops[..j] == ops[..i] + ops[i..j];
    RunSplits(isDate, r, ops[..j], ops[j..]);
    RunSplits(isDate, r, ops[..i], ops[i..j]);
    ReachableIsHealthy(isDate, r, ops[..i]);
    var a := Run(isDate, r, ops[..i]);
    if a.Stored? {
      RunKeepsLock(isDate, a, ops[i..j]);
      NotBeforeItself(a.snap.day);
    }
  }

  lemma OneStep(isDate: string -> bool, r: Row, a: seq<Op>, op: Op)
    ensures Run(isDate, r, a + [op]) == Apply(isDate, Run(isDate, r, a), op)
  {
    RunSplits(isDate, r, a, [op]);
    assert [op][1..] == [];
  }

  lemma SyncBack(isDate: string -> bool, r: Row, g: Signals)
    requires Healthy(r) && r.Stored? && Before(g.day, r.snap.day) && !g.breaker.UnknownStatus?
    ensures var r' := Sync(isDate, r, g, Fine).0;
      Healthy(r') && r'.Stored? && r'.snap.day == g.day && r'.snap.equity == r.snap.equity
  {
    DayGoesBackExactlyWhen(isDate, r, g, Fine);
    ApplyKeepsHealthy(isDate, r, Synchronise(g, Fine));
    hide Before, Healthy, Sync;
  }

  /** A later day is stored with the equity of that moment. */
  lemma SyncOn(isDate: string -> bool, r: Row, g: Signals)
    requires Healthy(r) && r.Stored? && Before(r.snap.day, g.day) && !g.breaker.UnknownStatus? && g.equity > 0.0
    requires isDate(g.day) && isDate(r.snap.day) && !Blank(g.day) && !Blank(r.snap.day) && !Blank(g.now)
    ensures var r' := Sync(isDate, r, g, Fine).0; r'.Stored? && r'.snap.day == g.day && r'.snap.equity == g.equity
  {
    BeforeIsAnOrder(g.day, r.snap.day, g.day);
    NotBeforeItself(g.day);
    KnownWithoutDailyLoss(r.snap.blockers);
    var base := Rollover(isDate, r.snap, g.day, g.equity, g.now).value;
    hide Before, Blank, Reduce, WithoutDailyLoss;
    AssessedUnlessUnknown(base, g);
    hide Assessed;
  }

  lemma {:induction false} KnownWithoutDailyLoss(bs: seq<Blocker>)
    requires AllKnown(bs)
    ensures AllKnown(WithoutDailyLoss(bs))
    decreases |bs|
  {
    if bs != [] {
      var front := bs[..|bs| - 1];
      assert forall b :: b in front ==> b in bs;
      KnownWithoutDailyLoss(front);
      assert bs[|bs| - 1] in bs;
    }
  }

  predicate Dated(isDate: string -> bool, day: string) { isDate(day) && !Blank(day) }

  /** From any stored day, a synchronisation for an earlier one followed by one for the stored day again
      leaves that day with whatever equity the account then has. */
  lemma StepBackUnlocks(isDate: string -> bool, r: Row, early: Signals, late: Signals)
    requires Healthy(r) && r.Stored? && Before(early.day, r.snap.day) && late.day == r.snap.day
    requires Dated(isDate, early.day) && Dated(isDate, late.day) && !Blank(late.now) && late.equity > 0.0
    requires !early.breaker.UnknownStatus? && !late.breaker.UnknownStatus?
    ensures var r' := Run(isDate, r, [Synchronise(early, Fine), Synchronise(late, Fine)]);
      r'.Stored? && r'.snap.day == r.snap.day && r'.snap.equity == late.equity
  {
    hide Healthy, Before, Sync, Blank;
    var first, second := Synchronise(early, Fine), Synchronise(late, Fine);
    OneStep(isDate, r, [], first);
    OneStep(isDate, r, [first], second);
    assert [] + [first] == [first] && [first] + [second] == [first, second];
    SyncBack(isDate, r, early);
    SyncOn(isDate, Run(isDate, r, [first]), late);
  }

  /** After `g`, synchronisation `h`, which is no step back, stores the day of `r` with another equity. */
  predicate Unlocks(isDate: string -> bool, r: Row, g: Signals, h: Signals)
    requires r.Stored?
  {
    var r1 := Run(isDate, r, [Synchronise(g, Fine)]);
    var r2 := Run(isDate, r, [Synchronise(g, Fine), Synchronise(h, Fine)]);
    && r1.Stored? && !Before(h.day, r1.snap.day)
    && r2.Stored? && r2.snap.day == r.snap.day && r2.snap.equity != r.snap.equity
  }

  /** A synchronisation unlocks the stored day exactly when it is for an earlier one. */
  lemma UnlockedExactlyWhen(isDate: string -> bool, r: Row, g: Signals)
    requires Healthy(r) && r.Stored? && Dated(isDate, r.snap.day) && Dated(isDate, g.day) && !g.breaker.UnknownStatus?
    ensures (exists h :: Unlocks(isDate, r, g, h)) <==> Before(g.day, r.snap.day)
  {
    assert r.snap.equity > 0.0;
    hide Healthy, Before, Sync, Blank, Run, Unlocks, NeverBack;
    if Before(g.day, r.snap.day) {
      var h := Signals(r.snap.day, "now", r.snap.equity + 1.0, 0.0, Quiet, false, false);
      assert !Blank("now") by { TheDays(); }
      StepBackUnlocks(isDate, r, g, h);
      ComesBack(isDate, r, g, h);
    } else {
      forall h ensures !Unlocks(isDate, r, g, h) { StaysUnlessBack(isDate, r, g, h); }
    }
  }

  lemma ComesBack(isDate: string -> bool, r: Row, g: Signals, h: Signals)
    requires Healthy(r) && r.Stored? && Before(g.day, r.snap.day) && h.day == r.snap.day && h.equity != r.snap.equity
    requires !g.breaker.UnknownStatus?
    requires var r2 := Run(isDate, r, [Synchronise(g, Fine), Synchronise(h, Fine)]);
      r2.Stored? && r2.snap.day == r.snap.day && r2.snap.equity == h.equity
    ensures Unlocks(isDate, r, g, h)
  {
    hide Healthy, Before, Sync;
    var first := Synchronise(g, Fine);
    OneStep(isDate, r, [], first);
    assert [] + [first] == [first];
    SyncBack(isDate, r, g);
    BeforeIsAnOrder(g.day, r.snap.day, g.day);
    hide Run;
  }

  lemma StaysUnlessBack(isDate: string -> bool, r: Row, g: Signals, h: Signals)
    requires Healthy(r) && r.Stored? && !Before(g.day, r.snap.day)
    ensures !Unlocks(isDate, r, g, h)
  {
    hide Healthy, Before, Sync;
    var ops := [Synchronise(g, Fine), Synchronise(h, Fine)];
    assert ops[1..] == [ops[1]] && ops[1..][1..] == [];
    assert [ops[0]][1..] == [];
    NotBeforeItself(r.snap.day);
    if Unlocks(isDate, r, g, h) {
      var r1 := Apply(isDate, r, ops[0]);
      assert Run(isDate, r, [ops[0]]) == r1;
      assert ops[1..][0] == ops[1] && NeverBack(isDate, Apply(isDate, r1, ops[1]), []);
      assert NeverBack(isDate, r1, ops[1..]);
      RunKeepsLock(isDate, r, ops);
    }
  }

  lemma {:induction false} BeforeAfterPrefix(p: string, a: string, b: string)
    ensures Before(p + a, p + b) == Before(a, b)
    decreases |p|
  {
    if p == "" { assert p + a == a && p + b == b; } else {
      assert (p + a)[1..] == p[1..] + a && (p + b)[1..] == p[1..] + b;
      BeforeAfterPrefix(p[1..], a, b);
    }
  }

  const MONDAY := "2026-06-" + "01"
  const TUESDAY := "2026-06-" + "02"

  function Quietly(day: string, equity: real, pnl: real): Op {
    Synchronise(Signals(day, "now", equity, pnl, Quiet, false, false), Fine)
  }

  /** Started on Tuesday with 100 dollars, then synchronised once for Monday and once more for Tuesday, when
      the account holds 50. */
  const BACK_AND_FORTH := [Bootstrap(TUESDAY, 100.0, "now", "me", "start", Fine),
                           Quietly(MONDAY, 50.0, 0.0), Quietly(TUESDAY, 50.0, 0.0)]

  lemma TheDays()
    ensures Before(MONDAY, TUESDAY) && !Before(TUESDAY, MONDAY) && !Before(TUESDAY, TUESDAY)
    ensures !Blank(MONDAY) && !Blank(TUESDAY) && MONDAY != TUESDAY
    ensures !Blank("now") && !Blank("me") && !Blank("start")
  {
    BeforeAfterPrefix("2026-06-", "01", "02");
    assert Before("1", "2") && "01"[1..] == "1" && "02"[1..] == "2";
    BeforeIsAnOrder(MONDAY, TUESDAY, MONDAY);
    NotBeforeItself(TUESDAY);
    assert MONDAY[0] == '2' && TUESDAY[0] == '2' && "now"[0] == 'n' && "me"[0] == 'm' && "start"[0] == 's';
  }

  /** So the start equity of one day can change within the day: this run stores Tuesday with 100 dollars, and
      after Monday was stored in between, Tuesday with 50. */
  lemma LockIsBroken(isDate: string -> bool)
    requires isDate(MONDAY) && isDate(TUESDAY)
    ensures var first, back, last := Run(isDate, Missing, BACK_AND_FORTH[..1]),
        Run(isDate, Missing, BACK_AND_FORTH[..2]),
                                     Run(isDate, Missing, BACK_AND_FORTH);
      && first.Stored? && first.snap.day == TUESDAY && first.snap.equity == 100.0
      && back.Stored? && back.snap.day == MONDAY && back.snap.equity == 100.0
      && last.Stored? && last.snap.day == TUESDAY && last.snap.equity == 50.0
  {
    TheDays();
    NoBlockers();
    assert BACK_AND_FORTH[..1] == [] + [BACK_AND_FORTH[0]];
    assert BACK_AND_FORTH[..2] == BACK_AND_FORTH[..1] + [BACK_AND_FORTH[1]];
    assert BACK_AND_FORTH == BACK_AND_FORTH[..2] + [BACK_AND_FORTH[2]];
    OneStep(isDate, Missing, [], BACK_AND_FORTH[0]);
    OneStep(isDate, Missing, BACK_AND_FORTH[..1], BACK_AND_FORTH[1]);
    OneStep(isDate, Missing, BACK_AND_FORTH[..2], BACK_AND_FORTH[2]);
    hide Before, Run, Blank, Reduce;
    var first := Run(isDate, Missing, BACK_AND_FORTH[..1]);
    assert first == Stored(Snapshot(TUESDAY, 100.0, 0.0, [], Operational, "now", 1, "me", "start"));
    SyncBack(isDate, first, BACK_AND_FORTH[1].g);
    SyncOn(isDate, Run(isDate, Missing, BACK_AND_FORTH[..2]), BACK_AND_FORTH[2].g);
  }

  // ---- the store as it is used -----------------------------------------------------------------

  class RiskStore {
    const isDate: string -> bool
    var row: Row

    constructor (isDate: string -> bool)
      ensures this.isDate == isDate && row == Missing
    {
      this.isDate, this.row := isDate, Missing;
    }

    method LoadRiskState() returns (s: Option<Snapshot>)
      ensures s == Load(row)
    {
      if !row.Stored? { return None; }
      if row.snap.schema != 1 { return None; }
      var expected := ReduceRiskMode(row.snap.blockers);
      if expected.None? || row.snap.mode != expected.value { return None; }
      return Some(row.snap);
    }

    method SaveRiskState(s: Snapshot, f: Fault) returns (ok: bool)
      modifies this
      ensures (row, ok) == Save(old(row), s, f)
    {
      var expected := ReduceRiskMode(s.blockers);
      if s.schema != 1 || expected != Some(s.mode) || f.Lost? { return false; }
      row := Stored(s);
      return f.Fine?;
    }

    method InitializeDayZero(day: string, equity: real, now: string, who: string, reason: string, f: Fault)
        returns (ok: bool)
      modifies this
      ensures (row, ok) == DayZero(old(row), day, equity, now, who, reason, f)
    {
      if equity <= 0.0 || Blank(day) || Blank(now) || Blank(who) || Blank(reason) { return false; }
      if !row.Missing? { return false; }
      ok := SaveRiskState(Snapshot(day, equity, 0.0, [], Operational, now, 1, who, reason), f);
    }

    method SyncRiskState(g: Signals, f: Fault) returns (s: Option<Snapshot>)
      modifies this
      ensures (row, s) == Sync(isDate, old(row), g, f)
    {
      hide Before, Rollover, DailyLossHalt, BuildBlockers, Valid;
      var loaded := LoadRiskState();
      if loaded.None? { return None; }
      var base := loaded;
      if Before(loaded.value.day, g.day) { base := Rollover(isDate, loaded.value, g.day, g.equity, g.now); }
      if base.None? { return None; }
      var loss := DailyLossHalt(base.value.equity, g.pnl);
      if loss.None? { return None; }
      var blockers := BuildBlockers(loss.value, g.breaker, g.kill, g.review);
      if blockers.None? { return None; }
      var mode := ReduceRiskMode(blockers.value);
      if mode.None? { return None; }
      var now := Snapshot(g.day, base.value.equity, g.pnl, blockers.value, mode.value, g.now,
                          base.value.schema, base.value.approvedBy, base.value.reason);
      if SameTrigger(now, loaded.value) { return loaded; }
      var ok := SaveRiskState(now, f);
      return if ok then Some(now) else None;
    }
  }
}
