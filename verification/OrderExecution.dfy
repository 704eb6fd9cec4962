/** One `execute` call from the pause check to the recovery ladder, and runs of such calls. */
module OrderExecution {
  import opened Wrappers
  import opened Faults
  import opened Decimals
  import opened OrderPricing
  import opened OrderStore

  const PRICE_PREMIUM := 0.01
  const TICK_SIZE := 0.01
  const PRICE_MIN := 0.01
  const PRICE_MAX := 0.99
  const MAX_SLIPPAGE_CAP := 0.03
  const FILL_DUST_TOLERANCE_USD := 0.000001
  const FILL_PRICE_UNIT := 0.000001

  // ---- the exchange's answer -------------------------------------------------------------------

  datatype Amount = Absent | Garbled | Amount(value: real)

  datatype Response = Response(status: string, taking: Amount, making: Amount, orderId: string)

  datatype Decision =
    | Unparseable
    | BlockUnknown
    | TerminalZero
    | Recovery(reason: string, size: Option<real>)
    | OpenFill(state: Status, shares: real, spent: real, price: real)

  predicate Resting(status: string) { status in ["live", "delayed", "open", "resting"] }

  /** FULL or PARTIAL is decided in dollars alone; a fill without a cost, or an order left resting, goes
      to recovery. */
  function ClassifyFakFill(r: Response, requested: real): Decision {
    if r.taking.Garbled? || r.making.Garbled? then Unparseable
    else if Resting(r.status) then Recovery("FAK_INVARIANT_BREACH_RESTING", None)
    else
      var taking := if r.taking.Absent? then 0.0 else r.taking.value;
      if taking <= 0.0 then (if r.orderId != "" then BlockUnknown else TerminalZero)
      else if r.making.Absent? || r.making.value <= 0.0 then Recovery("FILL_COST_MISSING", Some(taking))
      else OpenFill(if r.making.value + FILL_DUST_TOLERANCE_USD >= requested then Filled else PartialFilled,
                    taking, r.making.value, Quantize(r.making.value / taking, FILL_PRICE_UNIT))
  }

  // ---- one call --------------------------------------------------------------------------------

  /** `complete` says that the finding and the gate and risk results hold every field a position row needs. */
  datatype Request = Request(yes: bool, yesToken: string, noToken: string, usd: real, bestAsk: Option<real>,
      complete: bool) {
    function Token(): string { if yes then yesToken else noToken }
  }

  datatype Quote = QuoteRaised | Quoted(ask: Option<real>)

  /** What the exchange client does: it may fail before anything is sent, the submission may raise, with
      or without the exchange's "no orders found to match", or there is an answer. */
  datatype Exchange = NotBuilt(noMatch: bool) | PostRaised(noMatch: bool) | Empty | Answered(response: Response)

  /** Everything a call meets outside its own code. */
  datatype Env = Env(
    pauseRead: bool, unresolvedRead: bool, quote: Quote, iid: Id, createFault: Fault, markFault: Fault,
    exchange: Exchange, cancelFault: Fault, recoverFault: Fault, pauseFault: Fault, now: int,
    pid: Id, confirmFault: Fault, readbackWorks: bool)

  datatype Result = NoTrade | Crashed | OpenedAs(pid: Id, row: Position) | AlreadyOpen(iid: Id)
      | InRecovery(iid: Id, reason: string)

  /** The ask the limit is computed from; a zero quote counts as none. */
  function LiveAsk(req: Request, q: Quote): Option<real> {
    if q.QuoteRaised? then None else if q.ask.Some? && q.ask.value != 0.0 then q.ask else req.bestAsk
  }

  function LimitFor(ask: real): Limit {
    ComputeLimitPrice(TakerBuy, ask, PRICE_PREMIUM, TICK_SIZE, PRICE_MIN, PRICE_MAX, Cap(MAX_SLIPPAGE_CAP))
  }

  /** Recovery is recorded on the intent; if that fails the pause is tripped; if that fails too the intent
      is still unresolved. */
  function Ladder(db: Db, iid: Id, reason: string, orderId: string, size: Option<real>, env: Env): Db {
    var (db1, ok) := Transition(db, iid, RecoveryRequired, Details(Some(orderId), size, Some(reason)),
        env.recoverFault);
    if ok then db1 else SetPause(db1, "task_h_recovery_write_failed:" + reason, "task_h", iid, env.now,
        env.pauseFault).0
  }

  function Slippage(expected: real, fill: real): real
    requires expected > 0.0
  {
    (fill - expected) / expected
  }

  datatype RowBuild = TelemetryMissing | BuildFailed | Built(row: Position)

  function BuildRow(req: Request, d: Decision, orderId: string): RowBuild
    requires d.OpenFill?
  {
    if req.bestAsk.None? || req.bestAsk.value <= 0.0 || d.price <= 0.0 then TelemetryMissing
    else if !req.complete then BuildFailed
    else Built(Position(None, d.shares, d.spent, d.price, req.bestAsk.value, Slippage(req.bestAsk.value, d.price),
        orderId))
  }

  function Book(db: Db, iid: Id, d: Decision, row: Position, orderId: string, env: Env): (Db, Result)
    requires d.OpenFill?
  {
    var (db1, c) := ConfirmFill(db, iid, env.pid, row, d.state, env.confirmFault);
    match c
    case Raised => (Ladder(db1, iid, "CONFIRM_TX_FAILED", orderId, Some(row.shares), env),
        InRecovery(iid, "CONFIRM_TX_FAILED"))
    case Opened => (db1, OpenedAs(env.pid, row))
    case Duplicate =>
      if !env.readbackWorks then (db1, Crashed)
      else if HasPosition(db1, iid) then (db1, AlreadyOpen(iid))
      else (Ladder(db1, iid, "DB_INCONSISTENCY", orderId, None, env), InRecovery(iid, "DB_INCONSISTENCY"))
  }

  function OnAnswer(db: Db, iid: Id, req: Request, r: Response, env: Env): (Db, Result) {
    var d := ClassifyFakFill(r, req.usd);
    match d
    case Unparseable => (db, Crashed)
    case BlockUnknown => (db, NoTrade)
    case TerminalZero => (Transition(db, iid, Cancelled, Details(None, None, Some("FAK_ZERO_FILL")),
        env.cancelFault).0, NoTrade)
    case Recovery(reason, size) => (Ladder(db, iid, reason, r.orderId, size, env), InRecovery(iid, reason))
    case OpenFill(_, _, _, _) =>
      match BuildRow(req, d, r.orderId)
      case TelemetryMissing =>
        (Ladder(db, iid, "TELEMETRY_DATA_MISSING", r.orderId, None, env), InRecovery(iid, "TELEMETRY_DATA_MISSING"))
      case BuildFailed =>
        (Ladder(db, iid, "POSITION_ROW_BUILD_FAILED", r.orderId, None, env),
            InRecovery(iid, "POSITION_ROW_BUILD_FAILED"))
      case Built(row) => Book(db, iid, d, row, r.orderId, env)
  }

  function NoMatch(x: Exchange): bool { (x.NotBuilt? || x.PostRaised?) && x.noMatch }

  function AfterPost(db: Db, iid: Id, req: Request, env: Env): (Db, Result) {
    if NoMatch(env.exchange) then
      (Transition(db, iid, Cancelled, Details(None, None, Some("FAK_ZERO_FILL")), env.cancelFault).0, NoTrade)
    else if env.exchange.Answered? then OnAnswer(db, iid, req, env.exchange.response, env)
    else (db, NoTrade)
  }

  /** The checks before anything is written. */
  predicate MayTrade(db: Db, req: Request, env: Env) {
    && env.pauseRead && !Paused(db) && req.Token() != ""
    && env.unresolvedRead && !HasUnresolved(db, req.Token()) && req.usd >= 1.0
  }

  function Posting(db: Db, req: Request, limit: real, env: Env): Db {
    if env.exchange.NotBuilt? then db else db.(past := db.past + [Posted(env.iid, req.Token(), req.usd, limit)])
  }

  /** The intent is created and marked before the network is touched; None when that failed. */
  function Mark(db: Db, req: Request, env: Env): (Db, bool) {
    var (db1, created) := CreateIntent(db, env.iid, req.Token(), env.createFault);
    if !created then (db1, false)
    else Transition(db1, env.iid, SubmittedUnknown, Details(None, None, None), env.markFault)
  }

  function Execute(db: Db, req: Request, env: Env): (Db, Result) {
    if !MayTrade(db, req, env) then (db, NoTrade)
    else if LiveAsk(req, env.quote).None? then (db, Crashed)
    else
      var limit := LimitFor(LiveAsk(req, env.quote).value);
      if limit.Rejected? then (db, NoTrade)
      else
        var (db1, marked) := Mark(db, req, env);
        if !marked then (db1, NoTrade) else AfterPost(Posting(db1, req, limit.price, env), env.iid, req, env)
  }
}
