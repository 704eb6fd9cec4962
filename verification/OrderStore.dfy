/** The tables order submission rests on, and the operations that change them: the intents, the
    positions, the pause row and its audit log. */
module OrderStore {
  import opened Wrappers
  import opened Faults

  type Id = string

  datatype Status =
    | IntentCreated | SubmittedUnknown | Accepted | PartialFilled | Filled | Cancelled | Rejected | RecoveryRequired
  {
    /** The position counts as open. */
    predicate Open() { Filled? || PartialFilled? }
    predicate Terminal() { Filled? || PartialFilled? || Cancelled? || Rejected? }
    /** No new order for the token. */
    predicate Unresolved() { SubmittedUnknown? || RecoveryRequired? }
  }

  datatype Intent = Intent(token: string, status: Status, exchangeId: Option<string>, matched: Option<real>,
      reason: Option<string>, pending: bool)

  datatype Position = Position(intent: Option<Id>, shares: real, usd: real, entry: real, ask: real, slippage: real,
      orderId: string)

  datatype PauseRow = PauseRow(paused: bool, reason: string, source: string, intent: Id, createdAt: int, updatedAt: int)

  datatype AuditEvent =
    | Trip(ts: int, oldState: bool, reason: string, source: string, intent: Id)
    | Resolve(ts: int, reason: string, forced: bool, intent: Id, observed: Status, who: string)

  /** What happened, in order; the code keeps no such record. */
  datatype Happening =
    | Wrote(intent: Id, token: string, status: Status)
    | Posted(intent: Id, token: string, usd: real, limit: real)

  datatype Db = Db(intents: map<Id, Intent>, positions: map<Id, Position>, pause: Option<PauseRow>,
      audit: seq<AuditEvent>, past: seq<Happening>)

  const EMPTY := Db(map[], map[], None, [], [])

  function Commit(db: Db, after: Db, f: Fault): (Db, bool) {
    match f
    case Fine => (after, true)
    case Lost => (db, false)
    case Lied => (after, false)
  }

  function Put(db: Db, iid: Id, i: Intent): Db {
    db.(intents := db.intents[iid := i], past := db.past + [Wrote(iid, i.token, i.status)])
  }

  /** The table's UNIQUE key refuses a second intent of the same id. */
  function CreateIntent(db: Db, iid: Id, token: string, f: Fault): (Db, bool) {
    if iid in db.intents then (db, false)
    else Commit(db, Put(db, iid, Intent(token, IntentCreated, None, None, None, false)), f)
  }

  datatype Details = Details(exchangeId: Option<string>, matched: Option<real>, reason: Option<string>)

  function Or<T>(a: Option<T>, b: Option<T>): Option<T> { if a.Some? then a else b }

  function Moved(i: Intent, to: Status, d: Details): Intent {
    Intent(i.token, to, Or(d.exchangeId, i.exchangeId), Or(d.matched, i.matched), Or(d.reason, i.reason), i.pending
        || to.Unresolved())
  }

  /** A terminal intent is never moved on; the attempt is not an error. */
  function Transition(db: Db, iid: Id, to: Status, d: Details, f: Fault): (Db, bool) {
    if f.Lost? then (db, false)
    else if iid !in db.intents then (db, f.Fine?)
    else if db.intents[iid].status.Terminal() && db.intents[iid].status != to then (db, true)
    else Commit(db, Put(db, iid, Moved(db.intents[iid], to, d)), f)
  }

  predicate HasPosition(db: Db, iid: Id) { exists p :: p in db.positions && db.positions[p].intent == Some(iid) }

  datatype Confirmed = Opened | Duplicate | Raised

  /** Position row and terminal status in one transaction, once per intent. A position id already taken is
      an integrity error that the readback cannot explain. */
  function ConfirmFill(db: Db, iid: Id, pid: Id, row: Position, to: Status, f: Fault): (Db, Confirmed) {
    if !to.Open() || f.Lost? then (db, Raised)
    else if HasPosition(db, iid) then (db, Duplicate)
    else if pid in db.positions then (db, Raised)
    else
      var written := db.(positions := db.positions[pid := row.(intent := Some(iid))]);
      var after := if iid in db.intents
        then Put(written, iid, db.intents[iid].(status := to, matched := Some(row.shares),
            exchangeId := Some(row.orderId)))
        else written;
      (after, if f.Fine? then Opened else Raised)
  }

  predicate HasUnresolved(db: Db, token: string) {
    exists i :: i in db.intents && db.intents[i].token == token && db.intents[i].status.Unresolved()
  }

  // ---- emergency pause -------------------------------------------------------------------------

  predicate Paused(db: Db) { db.pause.Some? && db.pause.value.paused }

  /** Idempotent: a second trip leaves the first one's reason alone. */
  function SetPause(db: Db, reason: string, source: string, iid: Id, now: int, f: Fault): (Db, bool) {
    if f.Lost? then (db, false)
    else if Paused(db) then (db, f.Fine?)
    else
      Commit(db, db.(pause := Some(PauseRow(true, reason, source, iid, now, now)),
                     audit := db.audit + [Trip(now, Paused(db), reason, source, iid)]), f)
  }

  datatype Resolution = Invalid | Blocked(seen: Option<Status>) | AlreadyClear(observed: Status)
      | Resolved(observed: Status) | Failed

  function ResolvePause(db: Db, iid: Id, who: string, reason: string, forced: bool, now: int, f: Fault): (Db,
      Resolution) {
    if Blank(who) || Blank(reason) then (db, Invalid)
    else if f.Lost? then (db, Failed)
    else if iid !in db.intents then (db, Blocked(None))
    else
      var observed := db.intents[iid].status;
      if !forced && !observed.Terminal() then (db, Blocked(Some(observed)))
      else if !Paused(db) then (db, if f.Fine? then AlreadyClear(observed) else Failed)
      else
        (db.(pause := Some(db.pause.value.(paused := false, updatedAt := now)),
             audit := db.audit + [Resolve(now, reason, forced, iid, observed, who)]),
         if f.Fine? then Resolved(observed) else Failed)
  }

  // ---- runs of operations ----------------------------------------------------------------------

  datatype Op =
    | Create(iid: Id, token: string, f: Fault)
    | Move(iid: Id, to: Status, d: Details, f: Fault)
    | Confirm(iid: Id, pid: Id, row: Position, to: Status, f: Fault)
    | SetPauseOp(reason: string, source: string, iid: Id, now: int, f: Fault)
    | ResolvePauseOp(iid: Id, who: string, reason: string, forced: bool, now: int, f: Fault)

  /** Open states are entered through `ConfirmFill` alone, and only existing intents are confirmed. */
  predicate Allowed(db: Db, op: Op) {
    (op.Move? ==> !op.to.Open()) && (op.Confirm? ==> op.iid in db.intents)
  }

  function Apply(db: Db, op: Op): Db {
    match op
    case Create(iid, token, f) => CreateIntent(db, iid, token, f).0
    case Move(iid, to, d, f) => Transition(db, iid, to, d, f).0
    case Confirm(iid, pid, row, to, f) => ConfirmFill(db, iid, pid, row, to, f).0
    case SetPauseOp(reason, source, iid, now, f) => SetPause(db, reason, source, iid, now, f).0
    case ResolvePauseOp(iid, who, reason, forced, now, f) => ResolvePause(db, iid, who, reason, forced, now, f).0
  }

  predicate AllAllowed(db: Db, ops: seq<Op>)
    decreases |ops|
  {
    ops == [] || (Allowed(db, ops[0]) && AllAllowed(Apply(db, ops[0]), ops[1..]))
  }

  function ApplyAll(db: Db, ops: seq<Op>): Db
    decreases |ops|
  {
    if ops == [] then db else ApplyAll(Apply(db, ops[0]), ops[1..])
  }

  // ---- positions and statuses agree ------------------------------------------------------------

  predicate SameIntent(a: Position, b: Position) { a.intent.Some? && a.intent == b.intent }

  /** An intent is open exactly when it has a position; no intent has two; the two rows agree. */
  predicate Consistent(db: Db) {
    && (forall i :: i in db.intents ==> (db.intents[i].status.Open() <==> HasPosition(db, i)))
    && (forall p, q :: p in db.positions && q in db.positions && SameIntent(db.positions[p], db.positions[q]) ==>
       p == q)
    && (forall p :: p in db.positions && db.positions[p].intent.Some? ==>
          && db.positions[p].intent.value in db.intents
          && var i := db.intents[db.positions[p].intent.value];
             i.matched == Some(db.positions[p].shares) && i.exchangeId == Some(db.positions[p].orderId))
  }

  lemma CreateKeepsConsistent(db: Db, iid: Id, token: string, f: Fault)
    requires Consistent(db)
    ensures Consistent(CreateIntent(db, iid, token, f).0)
  {
    var db' := CreateIntent(db, iid, token, f).0;
    assert forall i :: HasPosition(db', i) <==> HasPosition(db, i);
  }

  lemma TransitionKeepsConsistent(db: Db, iid: Id, to: Status, d: Details, f: Fault)
    requires Consistent(db) && !to.Open()
    ensures Consistent(Transition(db, iid, to, d, f).0)
  {
    var db' := Transition(db, iid, to, d, f).0;
    assert forall i :: HasPosition(db', i) <==> HasPosition(db, i);
    if iid in db.intents && db'.intents != db.intents { assert !HasPosition(db, iid); }
  }

  lemma ConfirmKeepsConsistent(db: Db, iid: Id, pid: Id, row: Position, to: Status, f: Fault)
    requires Consistent(db) && iid in db.intents
    ensures Consistent(ConfirmFill(db, iid, pid, row, to, f).0)
  {
    var db' := ConfirmFill(db, iid, pid, row, to, f).0;
    if db' != db {
      assert db'.positions[pid].intent == Some(iid);
      forall i ensures HasPosition(db', i) <==> HasPosition(db, i) || i == iid {
        if HasPosition(db, i) {
          var p :| p in db.positions && db.positions[p].intent == Some(i);
          assert p in db'.positions && db'.positions[p].intent == Some(i);
        }
      }
    }
  }

  lemma ApplyKeepsConsistent(db: Db, op: Op)
    requires Consistent(db) && Allowed(db, op)
    ensures Consistent(Apply(db, op))
  {
    hide Consistent, CreateIntent, Transition, ConfirmFill;
    match op
    case Create(iid, token, f) => CreateKeepsConsistent(db, iid, token, f);
    case Move(iid, to, d, f) => TransitionKeepsConsistent(db, iid, to, d, f);
    case Confirm(iid, pid, row, to, f) => ConfirmKeepsConsistent(db, iid, pid, row, to, f);
    case SetPauseOp(_, _, _, _, _) => SameTables(db, Apply(db, op));
    case ResolvePauseOp(_, _, _, _, _, _) => SameTables(db, Apply(db, op));
  }

  lemma SameTables(db: Db, db': Db)
    requires Consistent(db) && db'.intents == db.intents && db'.positions == db.positions
    ensures Consistent(db')
  {
    assert forall i :: HasPosition(db', i) <==> HasPosition(db, i);
  }

  /** Whatever is created, moved and confirmed, in any order, with any operation failing or lying about
      its failure, an intent has a position exactly when it is FILLED or PARTIAL_FILLED, and never two. */
  lemma {:induction false} RunsStayConsistent(db: Db, ops: seq<Op>)
    requires Consistent(db) && AllAllowed(db, ops)
    ensures Consistent(ApplyAll(db, ops))
    decreases |ops|
  {
    hide Consistent, Apply, Allowed;
    if ops != [] {
      ApplyKeepsConsistent(db, ops[0]);
      RunsStayConsistent(Apply(db, ops[0]), ops[1..]);
    }
  }

  // ---- terminal for good -----------------------------------------------------------------------

  /** Terminal intents stay terminal; open ones keep their row, and its position, unchanged. */
  predicate Monotonic(db: Db, db': Db) {
    && (forall i :: i in db.intents ==> i in db'.intents && db'.intents[i].token == db.intents[i].token)
    && (forall i :: i in db.intents && db.intents[i].status.Terminal() ==> db'.intents[i].status.Terminal())
    && (forall i :: i in db.intents && db.intents[i].status.Open() ==> db'.intents[i] == db.intents[i])
    && (forall p :: p in db.positions ==> p in db'.positions && db'.positions[p] == db.positions[p])
  }

  lemma ConfirmIsMonotonic(db: Db, iid: Id, pid: Id, row: Position, to: Status, f: Fault)
    requires Consistent(db) && iid in db.intents
    ensures Monotonic(db, ConfirmFill(db, iid, pid, row, to, f).0)
  {
    assert db.intents[iid].status.Open() ==> HasPosition(db, iid);
  }

  lemma WriteIsMonotonic(db: Db, op: Op)
    requires (op.Create? || op.Move?) && Allowed(db, op)
    ensures Monotonic(db, Apply(db, op))
  {
  }

  lemma ApplyIsMonotonic(db: Db, op: Op)
    requires Consistent(db) && Allowed(db, op)
    ensures Monotonic(db, Apply(db, op))
  {
    hide Consistent, ConfirmFill;
    if op.Confirm? { ConfirmIsMonotonic(db, op.iid, op.pid, op.row, op.to, op.f); }
    else if op.Create? || op.Move? { WriteIsMonotonic(db, op); }
    else { assert Apply(db, op).intents == db.intents && Apply(db, op).positions == db.positions; }
  }

  lemma {:induction false} RunsAreMonotonic(db: Db, ops: seq<Op>)
    requires Consistent(db) && AllAllowed(db, ops)
    ensures Monotonic(db, ApplyAll(db, ops))
    decreases |ops|
  {
    hide Consistent, Apply, Allowed;
    if ops != [] {
      ApplyKeepsConsistent(db, ops[0]);
      ApplyIsMonotonic(db, ops[0]);
      RunsAreMonotonic(Apply(db, ops[0]), ops[1..]);
    }
  }

  // ---- the pause and its audit log -------------------------------------------------------------

  /** The TRIP the log ends with, or the one its final RESOLVE answers. */
  function LastTrip(audit: seq<AuditEvent>): int { if |audit| % 2 == 1 then |audit| - 1 else |audit| - 2 }

  predicate Alternates(audit: seq<AuditEvent>) {
    forall k :: 0 <= k < |audit| ==> (audit[k].Trip? <==> k % 2 == 0)
  }

  /** TRIP and RESOLVE alternate, the flag tells which came last, the row shows the latest TRIP, and what
      a verified RESOLVE saw was terminal and still is. */
  predicate AuditOk(db: Db) {
    && Alternates(db.audit)
    && (Paused(db) <==> db.audit != [] && db.audit[|db.audit| - 1].Trip?)
    && (db.audit == [] ==> db.pause.None?)
    && (db.audit != [] ==>
          && db.pause.Some?
          && var t := db.audit[LastTrip(db.audit)];
             t.Trip? && db.pause.value.reason == t.reason && db.pause.value.source == t.source
             && db.pause.value.intent == t.intent && db.pause.value.createdAt == t.ts)
    && (forall k :: 0 <= k < |db.audit| && db.audit[k].Trip? ==> !db.audit[k].oldState)
    && (forall k :: 0 <= k < |db.audit| && db.audit[k].Resolve? && !db.audit[k].forced ==>
          db.audit[k].observed.Terminal() && db.audit[k].intent in db.intents
              && db.intents[db.audit[k].intent].status.Terminal())
  }

  lemma ApplyKeepsAudit(db: Db, op: Op)
    requires Consistent(db) && Allowed(db, op) && AuditOk(db)
    ensures AuditOk(Apply(db, op)) && db.audit <= Apply(db, op).audit
  {
    ApplyIsMonotonic(db, op);
    AuditIsAppended(db, op);
    hide Apply, Consistent, Monotonic;
    var db' := Apply(db, op);
    if db'.audit == db.audit && db'.pause == db.pause {
      KeepsVerified(db, db') by { assert Monotonic(db, db'); }
    }
  }

  lemma KeepsVerified(db: Db, db': Db)
    requires AuditOk(db) && Monotonic(db, db') && db'.audit == db.audit && db'.pause == db.pause
    ensures AuditOk(db')
  {
  }

  lemma AuditIsAppended(db: Db, op: Op)
    requires AuditOk(db)
    ensures var db' := Apply(db, op);
      || (db'.audit == db.audit && db'.pause == db.pause)
      || (db'.intents == db.intents && AuditOk(db') && exists e :: db'.audit == db.audit + [e])
  {
  }

  /** Over every run of the operations, with any faults, the audit log tells the pause's history exactly. */
  lemma {:induction false} RunsKeepAudit(db: Db, ops: seq<Op>)
    requires Consistent(db) && AllAllowed(db, ops) && AuditOk(db)
    ensures AuditOk(ApplyAll(db, ops)) && db.audit <= ApplyAll(db, ops).audit
    decreases |ops|
  {
    hide Consistent, Apply, Allowed, AuditOk;
    if ops != [] {
      ApplyKeepsConsistent(db, ops[0]);
      ApplyKeepsAudit(db, ops[0]);
      RunsKeepAudit(Apply(db, ops[0]), ops[1..]);
    }
  }
}
