/** The order tables updated in place, and the calls that update them, proved to do exactly what the
    functions of `OrderStore` and `OrderExecution` say. */
module OrderDesk {
  import opened Wrappers
  import opened Faults
  import opened OrderPricing
  import opened OrderStore
  import opened OrderExecution
  import opened OrderTheorems

  lemma RunIsGood(db: Db, req: Request, env: Env)
    requires Good(db)
    ensures var (db', r) := Execute(db, req, env);
      && Good(db') && Untouched(db, db') && (PostsSettled(db) ==> PostsSettled(db'))
      && (SentOrder(db, db') ==> Accounted(db, db', req, env, r))
  {
    ExecuteIsGood(db, req, env);
    NoFillIsLost(db, req, env);
    if PostsSettled(db) { TradeKeepsSettled(db, req, env); }
    hide Good, Execute, Untouched, PostsSettled, Accounted;
  }

  class Desk {
    var intents: map<Id, Intent>
    var positions: map<Id, Position>
    var pause: Option<PauseRow>
    var audit: seq<AuditEvent>
    ghost var past: seq<Happening>

    ghost function Tables(): Db
      reads this
    {
      Db(intents, positions, pause, audit, past)
    }

    /** The tables are in order: positions agree with statuses, the audit log with the pause row, and every
        order sent has its earlier mark. */
    ghost predicate Valid()
      reads this
    {
      Good(Tables())
    }

    constructor ()
      ensures Tables() == EMPTY && Valid() && PostsSettled(Tables())
    {
      intents, positions, pause, audit, past := map[], map[], None, [], [];
      EmptyIsInOrder();
    }

    method Write(iid: Id, i: Intent)
      modifies this
      ensures Tables() == Put(old(Tables()), iid, i)
    {
      intents := intents[iid := i];
      past := past + [Wrote(iid, i.token, i.status)];
    }

    method InsertIntent(iid: Id, token: string, f: Fault) returns (ok: bool)
      modifies this
      ensures (Tables(), ok) == CreateIntent(old(Tables()), iid, token, f)
      ensures old(Valid()) ==> Valid()
    {
      if Valid() { ApplyIsGood(Tables(), Create(iid, token, f)); }
      hide Good, Step;
      if iid in intents || f.Lost? { return false; }
      Write(iid, Intent(token, IntentCreated, None, None, None, false));
      return f.Fine?;
    }

    method MoveIntent(iid: Id, to: Status, d: Details, f: Fault) returns (ok: bool)
      modifies this
      ensures (Tables(), ok) == Transition(old(Tables()), iid, to, d, f)
      ensures old(Valid()) && !to.Open() ==> Valid()
    {
      if Valid() && !to.Open() { ApplyIsGood(Tables(), Move(iid, to, d, f)); }
      hide Good, Step;
      if f.Lost? { return false; }
      if iid !in intents { return f.Fine?; }
      var status := intents[iid].status;
      if status.Terminal() && status != to { return true; }
      Write(iid, Moved(intents[iid], to, d));
      return f.Fine?;
    }

    method ConfirmFillAtomic(iid: Id, pid: Id, row: Position, to: Status, f: Fault) returns (c: Confirmed)
      modifies this
      ensures (Tables(), c) == ConfirmFill(old(Tables()), iid, pid, row, to, f)
      ensures old(Valid()) && iid in old(intents) ==> Valid()
    {
      if Valid() && iid in intents { ApplyIsGood(Tables(), Confirm(iid, pid, row, to, f)); }
      hide Good, Step;
      if !to.Open() || f.Lost? { return Raised; }
      if exists p :: p in positions && positions[p].intent == Some(iid) {
        assert HasPosition(Tables(), iid);
        return Duplicate;
      }
      assert !HasPosition(Tables(), iid);
      if pid in positions { return Raised; }
      positions := positions[pid := row.(intent := Some(iid))];
      if iid in intents {
        Write(iid, intents[iid].(status := to, matched := Some(row.shares), exchangeId := Some(row.orderId)));
      }
      return if f.Fine? then Opened else Raised;
    }

    method SetEmergencyPause(reason: string, source: string, iid: Id, now: int, f: Fault) returns (ok: bool)
      modifies this
      ensures (Tables(), ok) == SetPause(old(Tables()), reason, source, iid, now, f)
      ensures old(Valid()) ==> Valid()
    {
      if Valid() { ApplyIsGood(Tables(), SetPauseOp(reason, source, iid, now, f)); }
      hide Good, Step;
      if f.Lost? { return false; }
      var paused := pause.Some? && pause.value.paused;
      if paused { return f.Fine?; }
      pause := Some(PauseRow(true, reason, source, iid, now, now));
      audit := audit + [Trip(now, paused, reason, source, iid)];
      return f.Fine?;
    }

    method ResolveEmergencyPause(iid: Id, who: string, reason: string, forced: bool, now: int, f: Fault)
        returns (r: Resolution)
      modifies this
      ensures (Tables(), r) == ResolvePause(old(Tables()), iid, who, reason, forced, now, f)
      ensures old(Valid()) ==> Valid()
    {
      if Valid() { ApplyIsGood(Tables(), ResolvePauseOp(iid, who, reason, forced, now, f)); }
      hide Good, Step;
      if Blank(who) || Blank(reason) { return Invalid; }
      if f.Lost? { return Failed; }
      if iid !in intents { return Blocked(None); }
      var observed := intents[iid].status;
      if !forced && !observed.Terminal() { return Blocked(Some(observed)); }
      if !(pause.Some? && pause.value.paused) { return if f.Fine? then AlreadyClear(observed) else Failed; }
      pause := Some(pause.value.(paused := false, updatedAt := now));
      audit := audit + [Resolve(now, reason, forced, iid, observed, who)];
      return if f.Fine? then Resolved(observed) else Failed;
    }

    method RecoveryLadder(iid: Id, reason: string, orderId: string, size: Option<real>, env: Env)
      modifies this
      ensures Tables() == Ladder(old(Tables()), iid, reason, orderId, size, env)
      ensures old(Valid()) ==> Valid()
    {
      if Valid() { LadderIsGood(Tables(), iid, reason, orderId, size, env); }
      hide Good, Step;
      hide Transition, SetPause;
      var ok := MoveIntent(iid, RecoveryRequired, Details(Some(orderId), size, Some(reason)), env.recoverFault);
      if !ok {
        var _ := SetEmergencyPause("task_h_recovery_write_failed:" + reason, "task_h", iid, env.now, env.pauseFault);
      }
    }

    method BookFill(iid: Id, d: Decision, row: Position, orderId: string, env: Env) returns (r: Result)
      requires d.OpenFill?
      modifies this
      ensures (Tables(), r) == Book(old(Tables()), iid, d, row, orderId, env)
      ensures old(Valid()) && iid in old(intents) ==> Valid()
    {
      if Valid() && iid in intents { BookIsGood(Tables(), iid, d, row, orderId, env); }
      hide Good, Step;
      hide ConfirmFill, Ladder;
      var c := ConfirmFillAtomic(iid, env.pid, row, d.state, env.confirmFault);
      if c.Raised? {
        RecoveryLadder(iid, "CONFIRM_TX_FAILED", orderId, Some(row.shares), env);
        return InRecovery(iid, "CONFIRM_TX_FAILED");
      }
      if c.Opened? { return OpenedAs(env.pid, row); }
      if !env.readbackWorks { return Crashed; }
      var found := exists p :: p in positions && positions[p].intent == Some(iid);
      assert found == HasPosition(Tables(), iid);
      if found { return AlreadyOpen(iid); }
      RecoveryLadder(iid, "DB_INCONSISTENCY", orderId, None, env);
      return InRecovery(iid, "DB_INCONSISTENCY");
    }

    method HandleAnswer(iid: Id, req: Request, answer: Response, env: Env) returns (r: Result)
      modifies this
      ensures (Tables(), r) == OnAnswer(old(Tables()), iid, req, answer, env)
      ensures old(Valid()) && iid in old(intents) ==> Valid()
    {
      if Valid() && iid in intents { AnswerIsGood(Tables(), iid, req, answer, env); }
      hide Good, Step;
      hide Transition, Ladder, Book, ClassifyFakFill, BuildRow;
      var d := ClassifyFakFill(answer, req.usd);
      match d
      case Unparseable => return Crashed;
      case BlockUnknown => return NoTrade;
      case TerminalZero =>
        var _ := MoveIntent(iid, Cancelled, Details(None, None, Some("FAK_ZERO_FILL")), env.cancelFault);
        return NoTrade;
      case Recovery(reason, size) =>
        RecoveryLadder(iid, reason, answer.orderId, size, env);
        return InRecovery(iid, reason);
      case OpenFill(_, _, _, _) =>
        match BuildRow(req, d, answer.orderId) {
          case TelemetryMissing =>
            RecoveryLadder(iid, "TELEMETRY_DATA_MISSING", answer.orderId, None, env);
            return InRecovery(iid, "TELEMETRY_DATA_MISSING");
          case BuildFailed =>
            RecoveryLadder(iid, "POSITION_ROW_BUILD_FAILED", answer.orderId, None, env);
            return InRecovery(iid, "POSITION_ROW_BUILD_FAILED");
          case Built(row) =>
            r := BookFill(iid, d, row, answer.orderId, env);
        }
    }

    /** The marked order is sent, and whatever comes back is handled. */
    method Submit(req: Request, limit: real, env: Env) returns (r: Result)
      modifies this
      ensures (Tables(), r) == AfterPost(Posting(old(Tables()), req, limit, env), env.iid, req, env)
    {
      hide Transition, OnAnswer;
      if !env.exchange.NotBuilt? { past := past + [Posted(env.iid, req.Token(), req.usd, limit)]; }
      if NoMatch(env.exchange) {
        var _ := MoveIntent(env.iid, Cancelled, Details(None, None, Some("FAK_ZERO_FILL")), env.cancelFault);
        return NoTrade;
      }
      if !env.exchange.Answered? { return NoTrade; }
      r := HandleAnswer(env.iid, req, env.exchange.response, env);
    }

    /** The whole call: pause, token, unresolved intents, size, limit; intent and mark; post; answer. */
    method Run(req: Request, env: Env) returns (r: Result)
      requires Valid()
      modifies this
      ensures (Tables(), r) == Execute(old(Tables()), req, env)
      ensures Valid() && Untouched(old(Tables()), Tables())
      ensures old(PostsSettled(Tables())) ==> PostsSettled(Tables())
      ensures SentOrder(old(Tables()), Tables()) ==> Accounted(old(Tables()), Tables(), req, env, r)
    {
      RunIsGood(Tables(), req, env);
      hide Transition, CreateIntent, AfterPost, Posting, LimitFor, LiveAsk;
      hide Good, PostsSettled, Untouched, Accounted, SentOrder;
      if !env.pauseRead || (pause.Some? && pause.value.paused) { return NoTrade; }
      var token := req.Token();
      if token == "" || !env.unresolvedRead { return NoTrade; }
      var blocked := exists i :: i in intents && intents[i].token == token && intents[i].status.Unresolved();
      assert blocked == HasUnresolved(Tables(), token);
      if blocked || req.usd < 1.0 { return NoTrade; }
      var ask := LiveAsk(req, env.quote);
      if ask.None? { return Crashed; }
      var limit := LimitFor(ask.value);
      if limit.Rejected? { return NoTrade; }
      var created := InsertIntent(env.iid, token, env.createFault);
      if !created { return NoTrade; }
      var marked := MoveIntent(env.iid, SubmittedUnknown, Details(None, None, None), env.markFault);
      if !marked { return NoTrade; }
      r := Submit(req, limit.price, env);
    }
  }
}
