/** What order submission promises, over every run of sequential calls with any faults. */
module OrderTheorems {
  import opened Wrappers
  import opened Faults
  import opened Decimals
  import opened OrderPricing
  import opened OrderStore
  import opened OrderExecution

  // ---- the record of what happened -------------------------------------------------------------

  predicate Marked(past: seq<Happening>, k: nat, iid: Id, token: string) {
    exists j :: 0 <= j < k && j < |past| && past[j] == Wrote(iid, token, SubmittedUnknown)
  }

  /** Every post has its own intent, of the same token, whose SUBMITTED_UNKNOWN was committed before it. */
  predicate Traced(db: Db) {
    && (forall k :: 0 <= k < |db.past| ==>
       db.past[k].intent in db.intents && db.intents[db.past[k].intent].token == db.past[k].token)
    && (forall k :: 0 <= k < |db.past| && db.past[k].Posted? ==>
       Marked(db.past, k, db.past[k].intent, db.past[k].token))
    && (forall j, k :: 0 <= j < k < |db.past| && db.past[j].Posted? && db.past[k].Posted? ==>
       db.past[j].intent != db.past[k].intent)
  }

  predicate Good(db: Db) { Consistent(db) && AuditOk(db) && Traced(db) }

  /** The happenings added are writes to `iid` only. */
  predicate OnlyWrites(db: Db, db': Db, iid: Id) {
    db.past <= db'.past && forall k :: |db.past| <= k < |db'.past| ==> db'.past[k].Wrote? && db'.past[k].intent == iid
  }

  predicate OthersSame(db: Db, db': Db, iid: Id) {
    forall i :: i in db.intents && i != iid ==> i in db'.intents && db'.intents[i] == db.intents[i]
  }

  /** What one database operation on `iid`, or several, may do. */
  predicate Step(db: Db, db': Db, iid: Id) {
    Monotonic(db, db') && OnlyWrites(db, db', iid) && OthersSame(db, db', iid) && db.audit <= db'.audit
  }

  lemma StepsCompose(a: Db, b: Db, c: Db, iid: Id)
    requires Step(a, b, iid) && Step(b, c, iid)
    ensures Step(a, c, iid)
  {
  }

  predicate TokensAgree(db: Db, db': Db, iid: Id) {
    forall k :: |db.past| <= k < |db'.past| ==> iid in db'.intents && db'.past[k].token == db'.intents[iid].token
  }

  lemma WritesAreTraced(db: Db, db': Db, iid: Id)
    requires Traced(db) && Monotonic(db, db') && OnlyWrites(db, db', iid) && TokensAgree(db, db', iid)
    ensures Traced(db')
  {
    forall k | 0 <= k < |db'.past| && db'.past[k].Posted?
      ensures Marked(db'.past, k, db'.past[k].intent, db'.past[k].token)
    {
      assert k < |db.past| && db'.past[k] == db.past[k];
      var j :| 0 <= j < k && db.past[j] == Wrote(db.past[k].intent, db.past[k].token, SubmittedUnknown);
      assert db'.past[j] == db.past[j];
    }
  }

  lemma ApplyOnlyWrites(db: Db, op: Op)
    ensures OnlyWrites(db, Apply(db, op), op.iid) && OthersSame(db, Apply(db, op), op.iid)
    ensures TokensAgree(db, Apply(db, op), op.iid)
  {
  }

  lemma ApplyIsGood(db: Db, op: Op)
    requires Good(db) && Allowed(db, op)
    ensures Good(Apply(db, op)) && Step(db, Apply(db, op), op.iid)
  {
    hide Consistent, AuditOk, Traced, Monotonic, OnlyWrites, OthersSame, TokensAgree, Apply;
    ApplyKeepsConsistent(db, op);
    ApplyIsMonotonic(db, op);
    ApplyKeepsAudit(db, op);
    ApplyOnlyWrites(db, op);
    WritesAreTraced(db, Apply(db, op), op.iid);
  }

  // ---- pieces of one call ----------------------------------------------------------------------

  lemma LadderIsGood(db: Db, iid: Id, reason: string, orderId: string, size: Option<real>, env: Env)
    requires Good(db)
    ensures Good(Ladder(db, iid, reason, orderId, size, env))
        && Step(db, Ladder(db, iid, reason, orderId, size, env), iid)
  {
    hide Good, Step, Transition, SetPause;
    var op := Move(iid, RecoveryRequired, Details(Some(orderId), size, Some(reason)), env.recoverFault);
    ApplyIsGood(db, op);
    var db1 := Apply(db, op);
    var text := "task_h_recovery_write_failed:" + reason;
    var trip := SetPauseOp(text, "task_h", iid, env.now, env.pauseFault);
    ApplyIsGood(db1, trip);
    StepsCompose(db, db1, Apply(db1, trip), iid);
  }

  lemma CancelIsGood(db: Db, iid: Id, f: Fault)
    requires Good(db)
    ensures var db' := Transition(db, iid, Cancelled, Details(None, None, Some("FAK_ZERO_FILL")), f).0;
      Good(db') && Step(db, db', iid)
  {
    hide Good, Step, Transition;
    ApplyIsGood(db, Move(iid, Cancelled, Details(None, None, Some("FAK_ZERO_FILL")), f));
  }

  lemma StaysIsStep(db: Db, iid: Id)
    ensures Step(db, db, iid)
  {
  }

  lemma BookIsGood(db: Db, iid: Id, d: Decision, row: Position, orderId: string, env: Env)
    requires Good(db) && d.OpenFill? && iid in db.intents
    ensures Good(Book(db, iid, d, row, orderId, env).0) && Step(db, Book(db, iid, d, row, orderId, env).0, iid)
  {
    hide Good, Step, ConfirmFill, Ladder;
    var op := Confirm(iid, env.pid, row, d.state, env.confirmFault);
    ApplyIsGood(db, op);
    var db1 := Apply(db, op);
    LadderIsGood(db1, iid, "CONFIRM_TX_FAILED", orderId, Some(row.shares), env);
    StepsCompose(db, db1, Ladder(db1, iid, "CONFIRM_TX_FAILED", orderId, Some(row.shares), env), iid);
    LadderIsGood(db1, iid, "DB_INCONSISTENCY", orderId, None, env);
    StepsCompose(db, db1, Ladder(db1, iid, "DB_INCONSISTENCY", orderId, None, env), iid);
  }

  lemma AnswerIsGood(db: Db, iid: Id, req: Request, r: Response, env: Env)
    requires Good(db) && iid in db.intents
    ensures Good(OnAnswer(db, iid, req, r, env).0) && Step(db, OnAnswer(db, iid, req, r, env).0, iid)
  {
    hide Good, Step, Transition, Ladder, Book, ClassifyFakFill, BuildRow;
    StaysIsStep(db, iid);
    CancelIsGood(db, iid, env.cancelFault);
    var d := ClassifyFakFill(r, req.usd);
    if d.Recovery? { LadderIsGood(db, iid, d.reason, r.orderId, d.size, env); }
    if d.OpenFill? {
      LadderIsGood(db, iid, "TELEMETRY_DATA_MISSING", r.orderId, None, env);
      LadderIsGood(db, iid, "POSITION_ROW_BUILD_FAILED", r.orderId, None, env);
      var b := BuildRow(req, d, r.orderId);
      if b.Built? { BookIsGood(db, iid, d, b.row, r.orderId, env); }
    }
  }

  lemma AfterPostIsGood(db: Db, iid: Id, req: Request, env: Env)
    requires Good(db) && iid in db.intents
    ensures Good(AfterPost(db, iid, req, env).0) && Step(db, AfterPost(db, iid, req, env).0, iid)
  {
    hide Good, Step, Transition, OnAnswer;
    StaysIsStep(db, iid);
    CancelIsGood(db, iid, env.cancelFault);
    if env.exchange.Answered? { AnswerIsGood(db, iid, req, env.exchange.response, env); }
  }

  /** A fresh intent, and nothing else, is created and marked. */
  lemma MarkIsGood(db: Db, req: Request, env: Env)
    requires Good(db)
    ensures var (db', ok) := Mark(db, req, env);
      && Good(db') && Step(db, db', env.iid)
      && (env.iid in db.intents ==> db' == db && !ok)
      && (ok ==> env.iid !in db.intents && env.iid in db'.intents
                 && db'.intents[env.iid].status == SubmittedUnknown && db'.intents[env.iid].token == req.Token()
                 && |db'.past| > 0 && db'.past[|db'.past| - 1] == Wrote(env.iid, req.Token(), SubmittedUnknown))
  {
    hide Good, Step;
    var create := Create(env.iid, req.Token(), env.createFault);
    ApplyIsGood(db, create);
    var db1 := Apply(db, create);
    var move := Move(env.iid, SubmittedUnknown, Details(None, None, None), env.markFault);
    ApplyIsGood(db1, move);
    StepsCompose(db, db1, Apply(db1, move), env.iid);
  }

  /** Sending the order is recorded after the mark, once. */
  lemma PostingIsGood(db: Db, db1: Db, req: Request, limit: real, env: Env)
    requires Good(db) && Good(db1) && Step(db, db1, env.iid) && env.iid !in db.intents && env.iid in db1.intents
    requires db1.intents[env.iid].token == req.Token()
    requires |db1.past| > 0 && db1.past[|db1.past| - 1] == Wrote(env.iid, req.Token(), SubmittedUnknown)
    ensures Good(Posting(db1, req, limit, env)) && Posting(db1, req, limit, env).intents == db1.intents
  {
    hide Consistent, Traced, OnlyWrites, Monotonic, OthersSame;
    var db2 := Posting(db1, req, limit, env);
    SameTables(db1, db2);
    if db2 != db1 { PostIsTraced(db, db1, db2, env.iid); }
  }

  lemma PostIsTraced(db: Db, db1: Db, db2: Db, iid: Id)
    requires Traced(db) && Traced(db1) && OnlyWrites(db, db1, iid) && iid !in db.intents && iid in db1.intents
    requires |db2.past| == |db1.past| + 1 && db1.past <= db2.past && db2.intents == db1.intents
    requires db2.past[|db1.past|].Posted? && db2.past[|db1.past|].intent == iid
    requires |db1.past| > 0 && db1.past[|db1.past| - 1] == Wrote(iid, db2.past[|db1.past|].token, SubmittedUnknown)
    requires db1.intents[iid].token == db2.past[|db1.past|].token
    ensures Traced(db2)
  {
    forall k | 0 <= k < |db2.past| && db2.past[k].Posted?
      ensures Marked(db2.past, k, db2.past[k].intent, db2.past[k].token)
    {
      if k < |db1.past| {
        var j :| 0 <= j < k && db1.past[j] == Wrote(db1.past[k].intent, db1.past[k].token, SubmittedUnknown);
        assert db2.past[j] == db1.past[j];
      } else {
        assert db2.past[|db1.past| - 1] == db1.past[|db1.past| - 1];
      }
    }
    forall j, k | 0 <= j < k < |db2.past| && db2.past[j].Posted? && db2.past[k].Posted?
      ensures db2.past[j].intent != db2.past[k].intent
    {
      assert db2.past[j] == db1.past[j];
      if j < |db.past| { assert db1.past[j] == db.past[j]; }
    }
  }

  // ---- one call --------------------------------------------------------------------------------

  /** A call leaves every earlier intent and position as it was. */
  predicate Untouched(db: Db, db': Db) {
    && (forall i :: i in db.intents ==> i in db'.intents && db'.intents[i] == db.intents[i])
    && (forall p :: p in db.positions ==> p in db'.positions && db'.positions[p] == db.positions[p])
    && db.past <= db'.past && db.audit <= db'.audit
  }

  /** Every post of the call is for its own fresh intent and passed every check. */
  predicate PostsPassed(db: Db, db': Db, req: Request, env: Env) {
    forall k :: |db.past| <= k < |db'.past| && db'.past[k].Posted? ==>
      && db'.past[k].intent == env.iid && env.iid !in db.intents
      && db'.past[k].token == req.Token() && db'.past[k].usd == req.usd
      && MayTrade(db, req, env) && LiveAsk(req, env.quote).Some?
      && LimitFor(LiveAsk(req, env.quote).value) == Limit(db'.past[k].limit)
  }

  lemma ExecuteIsGood(db: Db, req: Request, env: Env)
    requires Good(db)
    ensures var db' := Execute(db, req, env).0;
      Good(db') && Untouched(db, db') && PostsPassed(db, db', req, env)
  {
    hide Good, Step, Mark, AfterPost, MayTrade, LimitFor, LiveAsk;
    if MayTrade(db, req, env) && LiveAsk(req, env.quote).Some? && LimitFor(LiveAsk(req, env.quote).value).Limit? {
      var limit := LimitFor(LiveAsk(req, env.quote).value).price;
      MarkIsGood(db, req, env);
      var (db1, ok) := Mark(db, req, env);
      if ok {
        PostingIsGood(db, db1, req, limit, env);
        var db2 := Posting(db1, req, limit, env);
        AfterPostIsGood(db2, env.iid, req, env);
        CallAddsUp(db, db1, db2, AfterPost(db2, env.iid, req, env).0, req, env, limit);
      } else if env.iid !in db.intents {
        FreshIsUntouched(db, db1, env.iid);
      }
    }
  }

  lemma FreshIsUntouched(db: Db, db1: Db, iid: Id)
    requires Step(db, db1, iid) && iid !in db.intents
    ensures Untouched(db, db1) && forall k :: |db.past| <= k < |db1.past| ==> !db1.past[k].Posted?
  {
  }

  lemma CallAddsUp(db: Db, db1: Db, db2: Db, db3: Db, req: Request, env: Env, limit: real)
    requires Step(db, db1, env.iid) && env.iid !in db.intents && Step(db2, db3, env.iid)
    requires db2 == Posting(db1, req, limit, env)
    requires MayTrade(db, req, env) && LiveAsk(req, env.quote).Some?
        && LimitFor(LiveAsk(req, env.quote).value) == Limit(limit)
    ensures Untouched(db, db3) && PostsPassed(db, db3, req, env)
  {
    hide MayTrade, LimitFor, LiveAsk;
    forall k | |db.past| <= k < |db3.past|
      ensures db3.past[k].Posted? ==> db3.past[k] == Posted(env.iid, req.Token(), req.usd, limit)
    {
      assert k < |db2.past| ==> db3.past[k] == db2.past[k];
      assert k < |db1.past| ==> db2.past[k] == db1.past[k];
    }
  }

  // ---- no fill is lost -------------------------------------------------------------------------

  /** The exchange said that nothing was filled. */
  predicate NothingFilled(x: Exchange, requested: real) {
    NoMatch(x) || (x.Answered? && ClassifyFakFill(x.response, requested).TerminalZero?)
  }

  /** The exchange reports a fill that a position row can be made of. */
  predicate Bookable(req: Request, env: Env) {
    && env.exchange.Answered?
    && var d := ClassifyFakFill(env.exchange.response, req.usd);
       d.OpenFill? && BuildRow(req, d, env.exchange.response.orderId).Built?
  }

  /** The fill can be booked and is, but the confirmation is reported as failed. */
  predicate BookedUnreported(was: Db, req: Request, env: Env) {
    Bookable(req, env) && env.confirmFault.Lied? && env.pid !in was.positions
  }

  /** Where the intent of a posted order ends up, and what the result tells; `was` holds the positions
      before the fill was booked. */
  predicate Accounted(was: Db, db: Db, req: Request, env: Env, r: Result) {
    && env.iid in db.intents
    && var st := db.intents[env.iid].status;
    && (st.Unresolved() || st.Open() || st.Cancelled?)
    && (st.Open() <==> Bookable(req, env) && !env.confirmFault.Lost? && env.pid !in was.positions)
    && (r.OpenedAs? <==> Bookable(req, env) && env.confirmFault.Fine? && env.pid !in was.positions)
    && (BookedUnreported(was, req, env) ==> r == InRecovery(env.iid, "CONFIRM_TX_FAILED"))
    && (st.Open() ==> env.pid in db.positions && db.positions[env.pid].intent == Some(env.iid))
    && (r.OpenedAs? ==>
       r.pid == env.pid && r.pid in db.positions && db.positions[r.pid] == r.row.(intent := Some(env.iid)))
    && (st.Cancelled? <==> NothingFilled(env.exchange, req.usd) && !env.cancelFault.Lost?)
    && (st.Cancelled? ==> r.NoTrade?)
    && (r.InRecovery? ==> r.iid == env.iid)
    && !r.AlreadyOpen?
  }

  lemma PauseTouchesNoIntent(db: Db, reason: string, source: string, iid: Id, now: int, f: Fault)
    ensures var db' := SetPause(db, reason, source, iid, now, f).0;
        db'.intents == db.intents && db'.positions == db.positions
  {
  }

  /** Moving to RECOVERY_REQUIRED never unblocks an intent and never touches an open one. */
  lemma RecoveryKeepsBlocked(db: Db, iid: Id, d: Details, f: Fault)
    requires iid in db.intents && (db.intents[iid].status.Unresolved() || db.intents[iid].status.Open())
    ensures var db' := Transition(db, iid, RecoveryRequired, d, f).0;
      && iid in db'.intents && db'.positions == db.positions
      && (db.intents[iid].status.Open() ==> db'.intents[iid] == db.intents[iid])
      && (db.intents[iid].status.Unresolved() ==> db'.intents[iid].status.Unresolved())
  {
  }

  lemma LadderAccounts(db: Db, iid: Id, reason: string, orderId: string, size: Option<real>, env: Env)
    requires iid in db.intents && (db.intents[iid].status.Unresolved() || db.intents[iid].status.Open())
    ensures var db' := Ladder(db, iid, reason, orderId, size, env);
      && iid in db'.intents && db'.positions == db.positions
      && (db.intents[iid].status.Open() ==> db'.intents[iid] == db.intents[iid])
      && (db.intents[iid].status.Unresolved() ==> db'.intents[iid].status.Unresolved())
  {
    hide Transition, SetPause;
    var d := Details(Some(orderId), size, Some(reason));
    RecoveryKeepsBlocked(db, iid, d, env.recoverFault);
    PauseTouchesNoIntent(Transition(db, iid, RecoveryRequired, d, env.recoverFault).0,
                         "task_h_recovery_write_failed:" + reason, "task_h", iid, env.now, env.pauseFault);
  }

  lemma BookAccounts(db: Db, req: Request, d: Decision, row: Position, env: Env)
    requires Good(db) && env.iid in db.intents && db.intents[env.iid].status.Unresolved() && Bookable(req, env)
    requires d == ClassifyFakFill(env.exchange.response, req.usd)
    ensures var (db', r) := Book(db, env.iid, d, row, env.exchange.response.orderId, env);
      Accounted(db, db', req, env, r)
  {
    hide Good, Ladder, ClassifyFakFill, BuildRow;
    var orderId := env.exchange.response.orderId;
    OpenHasPosition(db, env.iid);
    var (db1, c) := ConfirmFill(db, env.iid, env.pid, row, d.state, env.confirmFault);
    FillIsOpen(env.exchange.response, req.usd);
    LadderAccounts(db1, env.iid, "CONFIRM_TX_FAILED", orderId, Some(row.shares), env);
    hide Consistent;
  }

  lemma FillIsOpen(r: Response, requested: real)
    requires ClassifyFakFill(r, requested).OpenFill?
    ensures ClassifyFakFill(r, requested).state.Open()
  {
    hide Quantize, Resting;
  }

  lemma OpenHasPosition(db: Db, iid: Id)
    requires Good(db) && iid in db.intents
    ensures db.intents[iid].status.Open() <==> HasPosition(db, iid)
  {
  }

  lemma StillUnresolved(db: Db, req: Request, env: Env, r: Result)
    requires env.iid in db.intents && db.intents[env.iid].status.Unresolved() && (r.NoTrade? || r.Crashed?)
    requires !NothingFilled(env.exchange, req.usd) && !Bookable(req, env)
    ensures Accounted(db, db, req, env, r)
  {
    hide NothingFilled, Bookable;
  }

  lemma CancelAccounts(db: Db, req: Request, env: Env)
    requires env.iid in db.intents && db.intents[env.iid].status.Unresolved() && NothingFilled(env.exchange, req.usd)
    ensures var db' := Transition(db, env.iid, Cancelled, Details(None, None, Some("FAK_ZERO_FILL")),
        env.cancelFault).0;
      Accounted(db, db', req, env, NoTrade)
  {
    assert !Bookable(req, env);
    hide NothingFilled, Bookable;
  }

  lemma RecoveryAccounts(db: Db, req: Request, env: Env, reason: string, size: Option<real>, orderId: string)
    requires env.iid in db.intents && db.intents[env.iid].status.Unresolved()
    requires !NothingFilled(env.exchange, req.usd) && !Bookable(req, env)
    ensures Accounted(db, Ladder(db, env.iid, reason, orderId, size, env), req, env, InRecovery(env.iid, reason))
  {
    LadderAccounts(db, env.iid, reason, orderId, size, env);
    hide Ladder, NothingFilled, Bookable;
  }

  lemma AnswerAccounts(db: Db, req: Request, env: Env)
    requires Good(db) && env.iid in db.intents && db.intents[env.iid].status.Unresolved() && env.exchange.Answered?
    ensures var (db', r) := OnAnswer(db, env.iid, req, env.exchange.response, env); Accounted(db, db', req, env, r)
  {
    hide Good, Transition, Ladder, Book, ClassifyFakFill, BuildRow, Accounted;
    var r := env.exchange.response;
    var d := ClassifyFakFill(r, req.usd);
    match d
    case Unparseable => StillUnresolved(db, req, env, Crashed);
    case BlockUnknown => StillUnresolved(db, req, env, NoTrade);
    case TerminalZero => CancelAccounts(db, req, env);
    case Recovery(reason, size) => RecoveryAccounts(db, req, env, reason, size, r.orderId);
    case OpenFill(_, _, _, _) =>
      var b := BuildRow(req, d, r.orderId);
      if b.Built? { BookAccounts(db, req, d, b.row, env); } else {
        RecoveryAccounts(db, req, env, "TELEMETRY_DATA_MISSING", None, r.orderId);
        RecoveryAccounts(db, req, env, "POSITION_ROW_BUILD_FAILED", None, r.orderId);
      }
  }

  predicate SentOrder(db: Db, db': Db) { exists k :: |db.past| <= k < |db'.past| && db'.past[k].Posted? }

  lemma MarkKeepsPositions(db: Db, req: Request, env: Env)
    ensures Mark(db, req, env).0.positions == db.positions
  {
  }

  lemma SamePositions(was: Db, was2: Db, db: Db, req: Request, env: Env, r: Result)
    requires Accounted(was2, db, req, env, r) && was2.positions == was.positions
    ensures Accounted(was, db, req, env, r)
  {
    hide NothingFilled, Bookable;
  }

  /** Whatever the exchange answers and whichever writes fail or lie, once an order may have been sent its
      intent ends blocked, open with its position, or cancelled on the exchange's word that nothing was
      filled.  It is open exactly when the fill can be booked, the position id is free and the confirmation
      takes effect; the caller is told so unless that confirmation is reported as failed. */
  lemma NoFillIsLost(db: Db, req: Request, env: Env)
    requires Good(db)
    ensures var (db', r) := Execute(db, req, env);
      && (SentOrder(db, db') ==> Accounted(db, db', req, env, r))
      && (r.OpenedAs? || r.InRecovery? || r.AlreadyOpen? ==> Accounted(db, db', req, env, r))
  {
    hide Good, Step, Mark, AfterPost, MayTrade, LimitFor, LiveAsk, ComputeLimitPrice, Accounted;
    if MayTrade(db, req, env) && LiveAsk(req, env.quote).Some? && LimitFor(LiveAsk(req, env.quote).value).Limit? {
      MarkIsGood(db, req, env);
      MarkKeepsPositions(db, req, env);
      var (db1, ok) := Mark(db, req, env);
      if ok {
        var limit := LimitFor(LiveAsk(req, env.quote).value).price;
        PostingIsGood(db, db1, req, limit, env);
        var db2 := Posting(db1, req, limit, env);
        AfterPostAccounts(db2, req, env);
        SamePositions(db, db2, AfterPost(db2, env.iid, req, env).0, req, env, AfterPost(db2, env.iid, req, env).1);
      } else if env.iid !in db.intents {
        FreshIsUntouched(db, db1, env.iid);
      }
    }
  }

  lemma AfterPostAccounts(db: Db, req: Request, env: Env)
    requires Good(db) && env.iid in db.intents && db.intents[env.iid].status.Unresolved()
    ensures var (db', r) := AfterPost(db, env.iid, req, env); Accounted(db, db', req, env, r)
  {
    hide Good, Transition, OnAnswer, ClassifyFakFill, Accounted, BuildRow;
    if NoMatch(env.exchange) { CancelAccounts(db, req, env); }
    else if env.exchange.Answered? { AnswerAccounts(db, req, env); }
    else { StillUnresolved(db, req, env, NoTrade); }
  }

  /** The call sends an order: every check passes and the intent is written and marked. */
  predicate Sends(db: Db, req: Request, env: Env) {
    && env.pauseRead && !(db.pause.Some? && db.pause.value.paused) && req.Token() != "" && env.unresolvedRead
    && (forall i :: i in db.intents && db.intents[i].token == req.Token() ==>
          db.intents[i].status != SubmittedUnknown && db.intents[i].status != RecoveryRequired)
    && req.usd >= 1.0
    && LiveAsk(req, env.quote).Some? && LimitFor(LiveAsk(req, env.quote).value).Limit?
    && env.iid !in db.intents && env.createFault.Fine? && env.markFault.Fine? && !env.exchange.NotBuilt?
  }

  lemma MayTradeMeans(db: Db, req: Request, env: Env)
    ensures MayTrade(db, req, env) <==>
      && env.pauseRead && !(db.pause.Some? && db.pause.value.paused) && req.Token() != "" && env.unresolvedRead
      && (forall i :: i in db.intents && db.intents[i].token == req.Token() ==>
            db.intents[i].status != SubmittedUnknown && db.intents[i].status != RecoveryRequired)
      && req.usd >= 1.0
  {
  }

  lemma MarkedExactlyWhen(db: Db, req: Request, env: Env)
    ensures Mark(db, req, env).1 <==> env.iid !in db.intents && env.createFault.Fine? && env.markFault.Fine?
  {
  }

  lemma SentExactlyWhen(db: Db, req: Request, env: Env)
    requires Good(db)
    ensures SentOrder(db, Execute(db, req, env).0) <==> Sends(db, req, env)
  {
    MayTradeMeans(db, req, env);
    hide Good, Mark, AfterPost, MayTrade, LimitFor, LiveAsk, ComputeLimitPrice;
    if MayTrade(db, req, env) && LiveAsk(req, env.quote).Some? && LimitFor(LiveAsk(req, env.quote).value).Limit? {
      MarkIsGood(db, req, env);
      MarkedExactlyWhen(db, req, env);
      var (db1, ok) := Mark(db, req, env);
      if ok {
        var limit := LimitFor(LiveAsk(req, env.quote).value).price;
        PostingIsGood(db, db1, req, limit, env);
        var db2 := Posting(db1, req, limit, env);
        AfterPostIsGood(db2, env.iid, req, env);
        SentIfPosted(db, db1, db2, AfterPost(db2, env.iid, req, env).0, env.iid);
      }
    }
  }

  lemma SentIfPosted(db: Db, db1: Db, db2: Db, db3: Db, iid: Id)
    requires Step(db, db1, iid) && Step(db2, db3, iid) && db1.past <= db2.past && |db2.past| <= |db1.past| + 1
    requires |db2.past| > |db1.past| ==> db2.past[|db1.past|].Posted?
    ensures SentOrder(db, db3) <==> |db2.past| > |db1.past|
  {
    assert forall k :: |db.past| <= k < |db1.past| ==> db3.past[k] == db2.past[k] == db1.past[k];
    if |db2.past| > |db1.past| { assert db3.past[|db1.past|] == db2.past[|db1.past|]; }
  }

  predicate AddsOnly(db: Db, db': Db, iid: Id) { forall i :: i in db'.intents ==> i in db.intents || i == iid }

  lemma LadderAddsNone(db: Db, iid: Id, reason: string, orderId: string, size: Option<real>, env: Env)
    ensures AddsOnly(db, Ladder(db, iid, reason, orderId, size, env), iid)
  {
  }

  lemma BookAddsNone(db: Db, iid: Id, d: Decision, row: Position, orderId: string, env: Env)
    requires d.OpenFill?
    ensures AddsOnly(db, Book(db, iid, d, row, orderId, env).0, iid)
  {
    hide Ladder;
    var (db1, c) := ConfirmFill(db, iid, env.pid, row, d.state, env.confirmFault);
    LadderAddsNone(db1, iid, "CONFIRM_TX_FAILED", orderId, Some(row.shares), env);
    LadderAddsNone(db1, iid, "DB_INCONSISTENCY", orderId, None, env);
  }

  lemma AfterPostAddsNone(db: Db, req: Request, env: Env)
    ensures AddsOnly(db, AfterPost(db, env.iid, req, env).0, env.iid)
  {
    hide Ladder, Book, ClassifyFakFill, BuildRow;
    if env.exchange.Answered? {
      var r := env.exchange.response;
      var d := ClassifyFakFill(r, req.usd);
      if d.Recovery? { LadderAddsNone(db, env.iid, d.reason, r.orderId, d.size, env); }
      if d.OpenFill? {
        LadderAddsNone(db, env.iid, "TELEMETRY_DATA_MISSING", r.orderId, None, env);
        LadderAddsNone(db, env.iid, "POSITION_ROW_BUILD_FAILED", r.orderId, None, env);
        var b := BuildRow(req, d, r.orderId);
        if b.Built? { BookAddsNone(db, env.iid, d, b.row, r.orderId, env); }
      }
    }
  }

  lemma ExecuteAddsOnlyItsOwn(db: Db, req: Request, env: Env)
    ensures AddsOnly(db, Execute(db, req, env).0, env.iid)
  {
    hide AfterPost, LimitFor, LiveAsk;
    var (db1, ok) := Mark(db, req, env);
    if ok && LiveAsk(req, env.quote).Some? && LimitFor(LiveAsk(req, env.quote).value).Limit? {
      AfterPostAddsNone(Posting(db1, req, LimitFor(LiveAsk(req, env.quote).value).price, env), req, env);
    }
  }

  /** A fill that is booked unreported does not stand in the way of a second order for its token: its
      position is open, and no intent of the token is unresolved, while the caller hears of a recovery. */
  lemma UnreportedFillFreesToken(db: Db, req: Request, env: Env)
    requires Good(db) && Sends(db, req, env) && BookedUnreported(db, req, env)
    ensures var (db', r) := Execute(db, req, env);
      && r == InRecovery(env.iid, "CONFIRM_TX_FAILED")
      && env.iid in db'.intents && db'.intents[env.iid].status.Open() && HasPosition(db', env.iid)
      && !HasUnresolved(db', req.Token())
  {
    MayTradeMeans(db, req, env);
    SentExactlyWhen(db, req, env);
    NoFillIsLost(db, req, env);
    ExecuteIsGood(db, req, env);
    ExecuteAddsOnlyItsOwn(db, req, env);
    assert MayTrade(db, req, env);
    hide Good, Execute, MayTrade, Bookable;
    var db' := Execute(db, req, env).0;
    assert db'.positions[env.pid].intent == Some(env.iid);
  }

  const FIVE_DOLLARS := Request(true, "yes", "no", 5.0, Some(0.5), true)

  const FILLED_AT_HALF := Response("matched", Amount(10.0), Amount(5.0), "o")

  /** Everything works but the confirmation, whose commit takes effect and is reported as failed. */
  const LYING := Env(true, true, Quoted(Some(0.5)), "i", Fine, Fine, Answered(FILLED_AT_HALF), Fine, Fine, Fine, 0,
                     "p", Lied, true)

  /** Five dollars filled in full from an empty database: the caller is told of a recovery, the intent is
      FILLED, and the same request sends a second order at once. */
  lemma FillGoesUnreported()
    ensures Good(EMPTY) && Sends(EMPTY, FIVE_DOLLARS, LYING) && BookedUnreported(EMPTY, FIVE_DOLLARS, LYING)
    ensures var (db', r) := Execute(EMPTY, FIVE_DOLLARS, LYING);
      && r == InRecovery("i", "CONFIRM_TX_FAILED") && "i" in db'.intents && db'.intents["i"].status == Filled
      && HasPosition(db', "i") && Sends(db', FIVE_DOLLARS, LYING.(iid := "j"))
  {
    hide Good, Execute, ClassifyFakFill, BuildRow, LimitFor;
    var limit := HalfIsQuoted();
    HalfIsFilled();
    EmptyIsInOrder();
    UnreportedFillFreesToken(EMPTY, FIVE_DOLLARS, LYING);
    ExecuteLeavesNoPause();
  }

  lemma ExecuteLeavesNoPause()
    ensures var db' := Execute(EMPTY, FIVE_DOLLARS, LYING).0;
      !Paused(db') && "j" !in db'.intents && "i" in db'.intents && db'.intents["i"].status == Filled
  {
    var limit := HalfIsQuoted();
    HalfIsFilled();
    hide ClassifyFakFill, BuildRow, LimitFor;
  }

  lemma HalfIsQuoted() returns (limit: real)
    ensures LimitFor(0.5) == Limit(limit)
  {
    limit := 0.51;
    assert CeilToTick(0.5 + PRICE_PREMIUM, TICK_SIZE) == 0.51;
  }

  lemma HalfIsFilled()
    ensures var d := ClassifyFakFill(FILLED_AT_HALF, 5.0);
      d.OpenFill? && d.state == Filled && BuildRow(FIVE_DOLLARS, d, "o").Built?
  {
    assert FILLED_AT_HALF.status == "matched";
    assert Quantize(0.5, FILL_PRICE_UNIT) == 0.5;
  }

  // ---- sessions --------------------------------------------------------------------------------

  /** A turn of the main loop: a trade attempt, or the pause being set or resolved. */
  datatype Turn = Trade(req: Request, env: Env) | Pausing(op: Op)

  function Turned(db: Db, t: Turn): Db {
    match t
    case Trade(req, env) => Execute(db, req, env).0
    case Pausing(op) => if op.SetPauseOp? || op.ResolvePauseOp? then Apply(db, op) else db
  }

  function Session(db: Db, ts: seq<Turn>): Db
    decreases |ts|
  {
    if ts == [] then db else Session(Turned(db, ts[0]), ts[1..])
  }

  /** No post for `token` was added. */
  predicate NoPostFor(db: Db, db': Db, token: string) {
    db.past <= db'.past && forall k :: |db.past| <= k < |db'.past| && db'.past[k].Posted? ==> db'.past[k].token != token
  }

  lemma TurnIsGood(db: Db, t: Turn)
    requires Good(db)
    ensures Good(Turned(db, t)) && Untouched(db, Turned(db, t))
    ensures forall token :: HasUnresolved(db, token) ==> NoPostFor(db, Turned(db, t), token)
  {
    hide Good, Execute, LimitFor, LiveAsk;
    match t
    case Trade(req, env) => ExecuteIsGood(db, req, env);
    case Pausing(op) =>
      if op.SetPauseOp? || op.ResolvePauseOp? { ApplyIsGood(db, op); }
  }

  /** From any database in order the session keeps it in order: positions agree with statuses, the audit
      log alternates, and every post has its own earlier mark. */
  lemma {:induction false} SessionsStayGood(db: Db, ts: seq<Turn>)
    requires Good(db)
    ensures Good(Session(db, ts)) && Untouched(db, Session(db, ts))
    decreases |ts|
  {
    hide Good, Turned;
    if ts != [] {
      TurnIsGood(db, ts[0]);
      SessionsStayGood(Turned(db, ts[0]), ts[1..]);
    }
  }

  /** Once an intent of a token is left unresolved no later call of the session posts for that token. */
  lemma {:induction false} UnresolvedNeverPostsAgain(db: Db, ts: seq<Turn>, token: string)
    requires Good(db) && HasUnresolved(db, token)
    ensures NoPostFor(db, Session(db, ts), token) && HasUnresolved(Session(db, ts), token)
    decreases |ts|
  {
    hide Good, Turned, Untouched;
    if ts != [] {
      TurnIsGood(db, ts[0]);
      StaysUnresolved(db, Turned(db, ts[0]), token);
      UnresolvedNeverPostsAgain(Turned(db, ts[0]), ts[1..], token);
    }
  }

  lemma StaysUnresolved(db: Db, db': Db, token: string)
    requires Untouched(db, db') && HasUnresolved(db, token)
    ensures HasUnresolved(db', token)
  {
    var i :| i in db.intents && db.intents[i].token == token && db.intents[i].status.Unresolved();
    assert i in db'.intents && db'.intents[i] == db.intents[i];
  }

  // ---- two posts of one token ------------------------------------------------------------------

  /** Every order ever sent has its fate written: its intent is blocked or terminal. */
  predicate PostsSettled(db: Db) {
    forall k :: 0 <= k < |db.past| && db.past[k].Posted? ==>
      && db.past[k].intent in db.intents
      && var st := db.intents[db.past[k].intent].status; st.Unresolved() || st.Terminal()
  }

  lemma EmptyIsInOrder()
    ensures Good(EMPTY) && PostsSettled(EMPTY)
  {
  }

  lemma TradeKeepsSettled(db: Db, req: Request, env: Env)
    requires Good(db) && PostsSettled(db)
    ensures PostsSettled(Execute(db, req, env).0)
  {
    hide Good, Execute, Bookable, NothingFilled, MayTrade, LimitFor, LiveAsk;
    ExecuteIsGood(db, req, env);
    NoFillIsLost(db, req, env);
    var db' := Execute(db, req, env).0;
    forall k | 0 <= k < |db'.past| && db'.past[k].Posted?
      ensures db'.past[k].intent in db'.intents
      ensures var st := db'.intents[db'.past[k].intent].status; st.Unresolved() || st.Terminal()
    {
      if k < |db.past| { assert db'.past[k] == db.past[k]; }
    }
  }

  lemma TurnKeepsSettled(db: Db, t: Turn)
    requires Good(db) && PostsSettled(db)
    ensures PostsSettled(Turned(db, t))
  {
    hide Good, Execute;
    match t
    case Trade(req, env) => TradeKeepsSettled(db, req, env);
    case Pausing(op) => assert Turned(db, t).past == db.past && Turned(db, t).intents == db.intents;
  }

  lemma {:induction false} SessionKeepsSettled(db: Db, ts: seq<Turn>)
    requires Good(db) && PostsSettled(db)
    ensures Good(Session(db, ts)) && PostsSettled(Session(db, ts))
    decreases |ts|
  {
    hide Good, Turned, PostsSettled;
    if ts != [] {
      TurnIsGood(db, ts[0]);
      TurnKeepsSettled(db, ts[0]);
      SessionKeepsSettled(Turned(db, ts[0]), ts[1..]);
    }
  }

  /** Posts number `j` and `k` are for one token, and `k` was made by the turn that led from `before` to
      `after`: then `j` is older than the turn and its intent was terminal when the turn began. */
  predicate SettledFirst(before: Db, after: Db, j: nat, k: nat)
    requires j < |after.past|
  {
    j < |before.past| && after.past[j].intent in before.intents
        && before.intents[after.past[j].intent].status.Terminal()
  }

  lemma TurnFollowsSettlement(db: Db, t: Turn, j: nat, k: nat)
    requires Good(db) && PostsSettled(db) && j < k && |db.past| <= k < |Turned(db, t).past|
    requires Turned(db, t).past[j].Posted? && Turned(db, t).past[k].Posted?
    requires Turned(db, t).past[j].token == Turned(db, t).past[k].token
    ensures SettledFirst(db, Turned(db, t), j, k)
  {
    TurnIsGood(db, t);
    var after := Turned(db, t);
    if t.Trade? {
      ExecuteIsGood(db, t.req, t.env);
      OnePostEach(after, j, k);
      TokenOfPost(db, j);
      hide Good, Execute, LimitFor, LiveAsk;
      assert j < |db.past| ==> after.past[j] == db.past[j];
      assert MayTrade(db, t.req, t.env);
    }
  }

  lemma OnePostEach(db: Db, j: nat, k: nat)
    requires Good(db) && j < k < |db.past| && db.past[j].Posted? && db.past[k].Posted?
    ensures db.past[j].intent != db.past[k].intent
  {
  }

  lemma TokenOfPost(db: Db, j: nat)
    requires Good(db)
    ensures j < |db.past| ==> db.past[j].intent in db.intents && db.intents[db.past[j].intent].token == db.past[j].token
  {
  }

  lemma {:induction false} SessionSplits(db: Db, a: seq<Turn>, b: seq<Turn>)
    ensures Session(db, a + b) == Session(Session(db, a), b)
    decreases |a|
  {
    if a == [] { assert a + b == b; } else {
      assert (a + b)[0] == a[0] && (a + b)[1..] == a[1..] + b;
      SessionSplits(Turned(db, a[0]), a[1..], b);
    }
  }

  /** For any two posts of one token in a session, the earlier one's intent was terminal when the turn that
      made the later one began: filled, cancelled or rejected, not merely unblocked. */
  lemma SecondPostFollowsResolution(db: Db, ts: seq<Turn>, i: nat, j: nat, k: nat)
    requires Good(db) && PostsSettled(db) && i < |ts|
    ensures var before, after := Session(db, ts[..i]), Session(db, ts[..i + 1]);
      && j < k && |before.past| <= k < |after.past| && after.past[j].Posted? && after.past[k].Posted?
      && after.past[j].token == after.past[k].token
      ==> SettledFirst(before, after, j, k)
  {
    hide Good, PostsSettled, Turned, SettledFirst;
    assert ts[..i + 1] == ts[..i] + [ts[i]];
    SessionSplits(db, ts[..i], [ts[i]]);
    SessionKeepsSettled(db, ts[..i]);
    var before, after := Session(db, ts[..i]), Session(db, ts[..i + 1]);
    assert [ts[i]][1..] == [];
    assert after == Turned(before, ts[i]);
    if j < k && |before.past| <= k < |after.past| && after.past[j].Posted? && after.past[k].Posted?
       && after.past[j].token == after.past[k].token {
      TurnFollowsSettlement(before, ts[i], j, k);
    }
  }

  /** The ask a limit is computed from is the quote's, unless the quote has none or says zero: then it is the
      finding's; a quote that raises leaves none. */
  lemma LiveAskMeans(req: Request, q: Quote)
    ensures q.QuoteRaised? ==> LiveAsk(req, q) == None
    ensures q.Quoted? && q.ask.Some? && q.ask.value != 0.0 ==> LiveAsk(req, q) == Some(q.ask.value)
    ensures q.Quoted? && (q.ask.None? || q.ask.value == 0.0) ==> LiveAsk(req, q) == req.bestAsk
  {
  }

  /** Every order is for the token of the finding's action and for the dollars asked for, a dollar or more, while
      the pause is clear; its limit is the lowest cent at least a cent above the live ask, no further from it
      than three percent, and between 0.01 and 0.99. */
  lemma PostsAreLimited(db: Db, req: Request, env: Env)
    requires Good(db)
    ensures var db' := Execute(db, req, env).0;
      forall k :: |db.past| <= k < |db'.past| && db'.past[k].Posted? ==>
        && !Paused(db) && db'.past[k].usd == req.usd >= 1.0
        && db'.past[k].token == (if req.yes then req.yesToken else req.noToken)
        && LiveAsk(req, env.quote).Some?
        && Tightest(TakerBuy, db'.past[k].limit, LiveAsk(req, env.quote).value + 0.01, 0.01)
        && Acceptable(db'.past[k].limit, LiveAsk(req, env.quote).value, 0.01, 0.99, Cap(0.03))
  {
    hide Good, Execute, LiveAsk, Tightest, Acceptable, ComputeLimitPrice;
    ExecuteIsGood(db, req, env);
    var db' := Execute(db, req, env).0;
    if LiveAsk(req, env.quote).Some? {
      var ask := LiveAsk(req, env.quote).value;
      if LimitFor(ask).Limit? {
        LimitIsTightestOrRejected(TakerBuy, ask, PRICE_PREMIUM, TICK_SIZE, PRICE_MIN, PRICE_MAX, Cap(MAX_SLIPPAGE_CAP),
            LimitFor(ask).price);
      }
    }
  }
}
