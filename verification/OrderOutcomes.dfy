/** What a sent order comes to, read off the exchange's raw answer. */
module OrderOutcomes {
  import opened Wrappers
  import opened Faults
  import opened Decimals
  import opened OrderPricing
  import opened OrderStore
  import opened OrderExecution
  import opened OrderTheorems
  import opened OrderPause

  // ---- up to the answer ------------------------------------------------------------------------

  function LimitOf(req: Request, env: Env): real
    requires LiveAsk(req, env.quote).Some? && LimitFor(LiveAsk(req, env.quote).value).Limit?
  {
    LimitFor(LiveAsk(req, env.quote).value).price
  }

  /** The tables when the order has been sent. */
  function Sent(db: Db, req: Request, env: Env): Db
    requires Sends(db, req, env)
  {
    Posting(Mark(db, req, env).0, req, LimitOf(req, env), env)
  }

  /** Only the intent has been written, and it is marked. */
  lemma SentMeans(db: Db, req: Request, env: Env)
    requires Good(db) && Sends(db, req, env)
    ensures Execute(db, req, env) == AfterPost(Sent(db, req, env), env.iid, req, env) && Good(Sent(db, req, env))
    ensures var db2 := Sent(db, req, env);
      && env.iid in db2.intents && db2.intents[env.iid] == Intent(req.Token(), SubmittedUnknown, None, None, None, true)
      && db2.positions == db.positions && !HasPosition(db2, env.iid) && !Paused(db2)
  {
    MayTradeMeans(db, req, env);
    hide LimitFor, LiveAsk, AfterPost;
    MarkIsGood(db, req, env);
    MarkedExactlyWhen(db, req, env);
    PostingIsGood(db, Mark(db, req, env).0, req, LimitOf(req, env), env);
    OpenHasPosition(Sent(db, req, env), env.iid);
    hide Good, Step;
  }

  // ---- a fill ----------------------------------------------------------------------------------

  /** The exchange took `m` dollars for `t` shares. */
  predicate Took(env: Env, t: real, m: real) {
    && env.exchange.Answered? && env.exchange.response.taking == Amount(t) && env.exchange.response.making == Amount(m)
    && env.exchange.response.status !in ["live", "delayed", "open", "resting"]
  }

  function Rest(req: Request, m: real): Status { if m + 0.000001 >= req.usd then Filled else PartialFilled }

  /** A position of `t` shares for `m` dollars against the ask of the decision. */
  function RowFor(req: Request, env: Env, t: real, m: real): Position
    requires t > 0.0 && req.bestAsk.Some? && req.bestAsk.value > 0.0 && env.exchange.Answered?
  {
    var fill, ask := Quantize(m / t, 0.000001), req.bestAsk.value;
    Position(Some(env.iid), t, m, fill, ask, (fill - ask) / ask, env.exchange.response.orderId)
  }

  lemma FillIsClassified(req: Request, env: Env, t: real, m: real)
    requires Took(env, t, m) && t > 0.0 && m > 0.0
    ensures ClassifyFakFill(env.exchange.response, req.usd) == OpenFill(Rest(req, m), t, m, Quantize(m / t, 0.000001))
  {
    hide Quantize;
  }

  /** Full or partial is decided by the dollars alone, and what is booked is what the exchange reported: the
      position holds its shares and dollars at their rounded ratio, and the intent agrees. */
  lemma FilledOrderIsBooked(db: Db, req: Request, env: Env, t: real, m: real)
    requires Good(db) && Sends(db, req, env) && Took(env, t, m) && t > 0.0 && m > 0.0
    requires Quantize(m / t, 0.000001) > 0.0 && req.complete && req.bestAsk.Some? && req.bestAsk.value > 0.0
    requires env.pid !in db.positions && !env.confirmFault.Lost?
    ensures var (db', r) := Execute(db, req, env);
      && env.iid in db'.intents && env.pid in db'.positions
      && var i := db'.intents[env.iid];
      && i.status == (if m + 0.000001 >= req.usd then Filled else PartialFilled)
      && i.token == req.Token() && i.matched == Some(t) && i.exchangeId == Some(env.exchange.response.orderId)
      && db'.positions == db.positions[env.pid := RowFor(req, env, t, m)]
      && (env.confirmFault.Fine? ==> r == OpenedAs(env.pid, RowFor(req, env, t, m).(intent := None)))
  {
    hide Good, Sends, Execute, AfterPost, Sent, ClassifyFakFill, Quantize;
    SentMeans(db, req, env);
    FillIsClassified(req, env, t, m);
    var db2 := Sent(db, req, env);
    AnsweredFillIsBooked(db2, req, env, t, m);
  }

  lemma AnsweredFillIsBooked(db: Db, req: Request, env: Env, t: real, m: real)
    requires env.iid in db.intents && db.intents[env.iid].status.SubmittedUnknown? && !HasPosition(db, env.iid)
    requires t > 0.0 && m > 0.0 && env.exchange.Answered?
    requires ClassifyFakFill(env.exchange.response, req.usd) == OpenFill(Rest(req, m), t, m, Quantize(m / t, 0.000001))
    requires Quantize(m / t, 0.000001) > 0.0 && req.complete && req.bestAsk.Some? && req.bestAsk.value > 0.0
    requires env.pid !in db.positions && !env.confirmFault.Lost?
    ensures var (db', r) := AfterPost(db, env.iid, req, env);
      && env.iid in db'.intents
      && db'.intents[env.iid] == db.intents[env.iid].(status := Rest(req, m), matched := Some(t),
                                                      exchangeId := Some(env.exchange.response.orderId))
      && db'.positions == db.positions[env.pid := RowFor(req, env, t, m)]
      && (env.confirmFault.Fine? ==> r == OpenedAs(env.pid, RowFor(req, env, t, m).(intent := None)))
  {
    hide ClassifyFakFill, Quantize, Ladder;
    var row := RowFor(req, env, t, m).(intent := None);
    var orderId := env.exchange.response.orderId;
    var (db1, c) := ConfirmFill(db, env.iid, env.pid, row, Rest(req, m), env.confirmFault);
    LadderAccounts(db1, env.iid, "CONFIRM_TX_FAILED", orderId, Some(t), env);
  }

  /** A confirmation that took effect, reported or not, is never repeated: the next one for the intent is a
      duplicate, whatever it carries, and changes nothing. */
  lemma SecondConfirmIsDuplicate(db: Db, iid: Id, pid: Id, row: Position, to: Status, f: Fault, pid2: Id,
      row2: Position, to2: Status, f2: Fault)
    requires iid in db.intents && !HasPosition(db, iid) && pid !in db.positions && to.Open() && !f.Lost? && to2.Open()
        && !f2.Lost?
    ensures var (db1, c) := ConfirmFill(db, iid, pid, row, to, f);
      && (c == if f.Fine? then Opened else OrderStore.Raised)
      && ConfirmFill(db1, iid, pid2, row2, to2, f2) == (db1, Duplicate)
  {
    var db1 := ConfirmFill(db, iid, pid, row, to, f).0;
    assert db1.positions[pid].intent == Some(iid);
  }

  /** Booking an intent that has its position already tells the caller so, if the position can be read back. */
  lemma BookedAlready(db: Db, iid: Id, d: Decision, row: Position, orderId: string, env: Env)
    requires d.OpenFill? && d.state.Open() && HasPosition(db, iid) && !env.confirmFault.Lost?
    ensures Book(db, iid, d, row, orderId, env) == (db, if env.readbackWorks then AlreadyOpen(iid) else Crashed)
  {
  }

  /** A move sets the status and whatever details it brings on an intent that is not settled, and leaves a
      settled one, and every other row, as it is. */
  lemma MoveMeans(db: Db, iid: Id, to: Status, d: Details, f: Fault)
    requires iid in db.intents && !f.Lost?
    ensures var (db', ok) := Transition(db, iid, to, d, f);
      var was := db.intents[iid];
      && (was.status in {Filled, PartialFilled, Cancelled, Status.Rejected} && was.status != to ==> db' == db && ok)
      && (was.status !in {Filled, PartialFilled, Cancelled, Status.Rejected} ==>
            && ok == f.Fine?
            && db'.intents == db.intents[iid := Intent(was.token, to,
                 if d.exchangeId.Some? then d.exchangeId else was.exchangeId,
                 if d.matched.Some? then d.matched else was.matched,
                 if d.reason.Some? then d.reason else was.reason,
                 was.pending || to == SubmittedUnknown || to == RecoveryRequired)]
            && db'.positions == db.positions && db'.pause == db.pause && db'.audit == db.audit)
  {
  }

  // ---- anything else ---------------------------------------------------------------------------

  /** A fresh intent of the request, marked and nothing else. */
  function Marked(req: Request): Intent { Intent(req.Token(), SubmittedUnknown, None, None, None, true) }

  /** The recovery ladder leaves RECOVERY_REQUIRED with its reason and what is known of the order, or, where that
      write was not seen to work, the pause; only two lost writes leave neither. */
  predicate Recovered(db: Db, req: Request, env: Env, reason: string, size: Option<real>) {
    && env.iid in db.intents && env.exchange.Answered?
    && db.intents[env.iid] ==
         (if env.recoverFault.Lost? then Marked(req)
          else Intent(req.Token(), RecoveryRequired, Some(env.exchange.response.orderId), size, Some(reason), true))
    && (Paused(db) <==> !env.recoverFault.Fine? && !env.pauseFault.Lost?)
  }

  lemma LadderRecovers(db: Db, req: Request, env: Env, reason: string, size: Option<real>)
    requires Unsettled(db, req, env) && !Paused(db) && env.exchange.Answered?
    ensures Recovered(Ladder(db, env.iid, reason, env.exchange.response.orderId, size, env), req, env, reason, size)
  {
    var d := Details(Some(env.exchange.response.orderId), size, Some(reason));
    var db1 := Transition(db, env.iid, RecoveryRequired, d, env.recoverFault).0;
    var text := "task_h_recovery_write_failed:" + reason;
    StepMovesPause(db1, SetPauseOp(text, "task_h", env.iid, env.now, env.pauseFault));
    hide SetPause;
  }

  predicate Unsettled(db: Db, req: Request, env: Env) { env.iid in db.intents && db.intents[env.iid] == Marked(req) }

  /** The intent is cancelled for want of a fill, if that write takes effect. */
  predicate CancelledFor(db: Db, req: Request, env: Env) {
    && env.iid in db.intents
    && db.intents[env.iid] ==
         if env.cancelFault.Lost? then Marked(req)
             else Marked(req).(status := Cancelled, reason := Some("FAK_ZERO_FILL"))
  }

  predicate IsResting(r: Response) { r.status in ["live", "delayed", "open", "resting"] }

  /** No shares were reported. */
  predicate NoShares(r: Response) { r.taking.Absent? || (r.taking.Amount? && r.taking.value <= 0.0) }

  predicate NoCost(r: Response) { r.making.Absent? || (r.making.Amount? && r.making.value <= 0.0) }

  predicate Readable(r: Response) { !r.taking.Garbled? && !r.making.Garbled? }

  /** What becomes of the intent, and what the caller is told, for every answer that books no fill. */
  predicate Handled(was: Db, db: Db, req: Request, env: Env, r: Result) {
    var x := env.exchange;
    && (x.PostRaised? && x.noMatch ==> CancelledFor(db, req, env) && r == NoTrade)
    && ((x.PostRaised? && !x.noMatch) || x.Empty? ==> Unsettled(db, req, env) && r == NoTrade)
    && (x.Answered? ==> HandledAnswer(was, db, req, env, x.response, r))
  }

  predicate HandledAnswer(was: Db, db: Db, req: Request, env: Env, a: Response, r: Result) {
    && (!Readable(a) ==> Unsettled(db, req, env) && r == Crashed)
    && (Readable(a) && IsResting(a) ==>
          Recovered(db, req, env, "FAK_INVARIANT_BREACH_RESTING", None)
              && r == InRecovery(env.iid, "FAK_INVARIANT_BREACH_RESTING"))
    && (Readable(a) && !IsResting(a) && NoShares(a) && a.orderId != "" ==> Unsettled(db, req, env) && r == NoTrade)
    && (Readable(a) && !IsResting(a) && NoShares(a) && a.orderId == "" ==> CancelledFor(db, req, env) && r == NoTrade)
    && (Readable(a) && !IsResting(a) && !NoShares(a) && NoCost(a) ==>
          Recovered(db, req, env, "FILL_COST_MISSING", Some(a.taking.value))
              && r == InRecovery(env.iid, "FILL_COST_MISSING"))
    && (Readable(a) && !IsResting(a) && !NoShares(a) && !NoCost(a) ==> HandledFill(was, db, req, env, a, r))
  }

  /** A fill that no position row can be made of, or whose confirmation fails: its commit is lost or its
      position id is taken in `was`. */
  predicate HandledFill(was: Db, db: Db, req: Request, env: Env, a: Response, r: Result)
    requires Readable(a) && !NoShares(a) && !NoCost(a)
  {
    var priced := Quantize(a.making.value / a.taking.value, 0.000001) > 0.0;
    var telemetry := req.bestAsk.Some? && req.bestAsk.value > 0.0 && priced;
    && (!telemetry ==>
       Recovered(db, req, env, "TELEMETRY_DATA_MISSING", None) && r == InRecovery(env.iid, "TELEMETRY_DATA_MISSING"))
    && (telemetry && !req.complete ==>
          Recovered(db, req, env, "POSITION_ROW_BUILD_FAILED", None)
              && r == InRecovery(env.iid, "POSITION_ROW_BUILD_FAILED"))
    && (telemetry && req.complete && (env.confirmFault.Lost? || env.pid in was.positions) ==>
          Recovered(db, req, env, "CONFIRM_TX_FAILED", Some(a.taking.value))
              && r == InRecovery(env.iid, "CONFIRM_TX_FAILED"))
  }

  /** Every answer to a sent order is handled by what it says. */
  lemma AnswersAreHandled(db: Db, req: Request, env: Env)
    requires Good(db) && Sends(db, req, env)
    ensures var (db', r) := Execute(db, req, env); Handled(db, db', req, env, r)
  {
    hide Good, Sends, Execute, AfterPost, Sent, HandledAnswer, CancelledFor;
    SentMeans(db, req, env);
    NotBuiltSendsNothing(db, req, env);
    AfterPostHandles(Sent(db, req, env), req, env);
    SameBefore(db, Sent(db, req, env), Execute(db, req, env).0, req, env, Execute(db, req, env).1);
  }

  lemma SameBefore(was: Db, was2: Db, db: Db, req: Request, env: Env, r: Result)
    requires Handled(was2, db, req, env, r) && was2.positions == was.positions
    ensures Handled(was, db, req, env, r)
  {
    hide Quantize, Recovered, CancelledFor, Unsettled;
  }

  lemma NotBuiltSendsNothing(db: Db, req: Request, env: Env)
    requires Sends(db, req, env)
    ensures !env.exchange.NotBuilt?
  {
  }

  lemma AfterPostHandles(db: Db, req: Request, env: Env)
    requires Unsettled(db, req, env) && !HasPosition(db, env.iid) && !Paused(db) && !env.exchange.NotBuilt?
    ensures var (db', r) := AfterPost(db, env.iid, req, env); Handled(db, db', req, env, r)
  {
    hide HandledAnswer, OnAnswer;
    if env.exchange.Answered? { AnswerHandles(db, req, env); }
  }

  lemma AnswerHandles(db: Db, req: Request, env: Env)
    requires Unsettled(db, req, env) && !HasPosition(db, env.iid) && !Paused(db) && env.exchange.Answered?
    ensures var (db', r) := OnAnswer(db, env.iid, req, env.exchange.response, env);
      HandledAnswer(db, db', req, env, env.exchange.response, r)
  {
    var a := env.exchange.response;
    hide Quantize, Ladder, Recovered, HandledFill, Book, BuildRow;
    LadderRecovers(db, req, env, "FAK_INVARIANT_BREACH_RESTING", None);
    if a.taking.Amount? { LadderRecovers(db, req, env, "FILL_COST_MISSING", Some(a.taking.value)); }
    if Readable(a) && !IsResting(a) && !NoShares(a) && !NoCost(a) { FillHandles(db, req, env); }
  }

  lemma FillHandles(db: Db, req: Request, env: Env)
    requires Unsettled(db, req, env) && !HasPosition(db, env.iid) && !Paused(db) && env.exchange.Answered?
    requires var a := env.exchange.response; Readable(a) && !IsResting(a) && !NoShares(a) && !NoCost(a)
    ensures var (db', r) := OnAnswer(db, env.iid, req, env.exchange.response, env);
      HandledFill(db, db', req, env, env.exchange.response, r)
  {
    hide Quantize, Ladder, Recovered;
    var a := env.exchange.response;
    LadderRecovers(db, req, env, "TELEMETRY_DATA_MISSING", None);
    LadderRecovers(db, req, env, "POSITION_ROW_BUILD_FAILED", None);
    LadderRecovers(db, req, env, "CONFIRM_TX_FAILED", Some(a.taking.value));
  }
}
