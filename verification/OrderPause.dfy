/** The pause and its log tell exactly what was asked of them, over every run of operations. */
module OrderPause {
  import opened Wrappers
  import opened Faults
  import opened OrderStore

  // ---- one operation ---------------------------------------------------------------------------

  /** A set whose commit takes effect, reported or not. */
  predicate Sets(op: Op) { op.SetPauseOp? && !op.f.Lost? }

  /** A resolve that is allowed, by texts, intent and status, and whose commit takes effect. */
  predicate Clears(db: Db, op: Op) {
    && op.ResolvePauseOp? && !op.f.Lost? && !Blank(op.who) && !Blank(op.reason)
    && op.iid in db.intents && (op.forced || db.intents[op.iid].status.Terminal())
  }

  /** The event a step adds to the log: a TRIP that says what the set said, or a RESOLVE that says what the
      resolve said and saw; none where the flag does not change. */
  function Logged(db: Db, op: Op): seq<AuditEvent> {
    if Sets(op) && !Paused(db) then [Trip(op.now, false, op.reason, op.source, op.iid)]
    else if Clears(db, op) && Paused(db) then
      [Resolve(op.now, op.reason, op.forced, op.iid, db.intents[op.iid].status, op.who)]
    else []
  }

  /** A set pauses, an allowed resolve clears, and nothing else moves the flag or the log. */
  lemma StepMovesPause(db: Db, op: Op)
    ensures var db' := Apply(db, op);
      && (Paused(db') <==> Sets(op) || (Paused(db) && !Clears(db, op)))
      && db'.audit == db.audit + Logged(db, op)
      && (Paused(db) && Sets(op) ==> db' == db)
      && (op.SetPauseOp? || op.ResolvePauseOp? ==>
            db'.intents == db.intents && db'.positions == db.positions && db'.past == db.past)
  {
    assert db.audit + [] == db.audit;
  }

  /** A set leaves the database paused, and says whether it worked.  It is the first one's reason, source,
      intent and time that stay. */
  lemma TripTrips(db: Db, reason: string, source: string, iid: Id, now: int, f: Fault)
    requires !f.Lost?
    ensures var (db', ok) := SetPause(db, reason, source, iid, now, f);
      && Paused(db') && (ok <==> f.Fine?)
      && (Paused(db) ==> db' == db)
      && (!Paused(db) ==>
            && db'.pause == Some(PauseRow(true, reason, source, iid, now, now))
            && db' == db.(pause := db'.pause, audit := db.audit + [Trip(now, false, reason, source, iid)]))
  {
    StepMovesPause(db, SetPauseOp(reason, source, iid, now, f));
  }

  /** A resolve is reported as RESOLVED exactly when it works, is allowed and there was a pause; then the
      flag is clear and the log is longer by one RESOLVE. */
  lemma ResolveResolves(db: Db, op: Op)
    requires op.ResolvePauseOp?
    ensures var (db', r) := ResolvePause(db, op.iid, op.who, op.reason, op.forced, op.now, op.f);
      && (r.Resolved? <==> Clears(db, op) && op.f.Fine? && Paused(db))
      && (r.Resolved? ==>
            && r.observed == db.intents[op.iid].status
            && db'.pause == Some(db.pause.value.(paused := false, updatedAt := op.now))
            && db'.audit == db.audit + [Resolve(op.now, op.reason, op.forced, op.iid, r.observed, op.who)])
  {
    StepMovesPause(db, op);
  }

  // ---- runs ------------------------------------------------------------------------------------

  lemma {:induction false} LastApplied(db: Db, ops: seq<Op>, op: Op)
    ensures ApplyAll(db, ops + [op]) == Apply(ApplyAll(db, ops), op)
    decreases |ops|
  {
    if ops == [] {
      assert ops + [op] == [op] && [op][1..] == [];
    } else {
      assert (ops + [op])[0] == ops[0] && (ops + [op])[1..] == ops[1..] + [op];
      LastApplied(Apply(db, ops[0]), ops[1..], op);
    }
  }

  /** No operation from number `k` on clears the pause. */
  predicate NoneClears(db: Db, ops: seq<Op>, k: nat) {
    forall j :: k <= j < |ops| ==> !Clears(ApplyAll(db, ops[..j]), ops[j])
  }

  /** The last word on the pause was a set: some set is not followed by a resolve that clears, or the pause
      there was at first was never cleared. */
  predicate StillSet(db: Db, ops: seq<Op>) {
    || (exists k :: 0 <= k < |ops| && Sets(ops[k]) && NoneClears(db, ops, k + 1))
    || (Paused(db) && NoneClears(db, ops, 0))
  }

  lemma NoneClearsGrows(db: Db, ops: seq<Op>, op: Op, k: nat)
    requires k <= |ops|
    ensures NoneClears(db, ops + [op], k) <==> NoneClears(db, ops, k) && !Clears(ApplyAll(db, ops), op)
  {
    hide Clears;
    var all := ops + [op];
    assert all[..|ops|] == ops;
    forall j | k <= j < |ops|
      ensures Clears(ApplyAll(db, all[..j]), all[j]) == Clears(ApplyAll(db, ops[..j]), ops[j])
    {
      assert all[..j] == ops[..j];
    }
    if NoneClears(db, all, k) {
      assert !Clears(ApplyAll(db, all[..|ops|]), all[|ops|]);
    }
  }

  lemma StillSetGrows(db: Db, ops: seq<Op>, op: Op)
    ensures StillSet(db, ops + [op]) <==> Sets(op) || (StillSet(db, ops) && !Clears(ApplyAll(db, ops), op))
  {
    hide Clears, Sets, NoneClears;
    var all := ops + [op];
    forall k | 0 <= k <= |ops|
      ensures NoneClears(db, all, k) <==> NoneClears(db, ops, k) && !Clears(ApplyAll(db, ops), op)
    {
      NoneClearsGrows(db, ops, op, k);
    }
    NothingAfter(db, all);
    if Sets(op) { assert Sets(all[|ops|]) && NoneClears(db, all, |ops| + 1); }
    if StillSet(db, ops) && !Clears(ApplyAll(db, ops), op) {
      if k :| 0 <= k < |ops| && Sets(ops[k]) && NoneClears(db, ops, k + 1) {
        assert Sets(all[k]) && NoneClears(db, all, k + 1);
      }
    }
    if StillSet(db, all) && !Sets(op) {
      if k :| 0 <= k < |all| && Sets(all[k]) && NoneClears(db, all, k + 1) {
        assert Sets(ops[k]) && NoneClears(db, ops, k + 1);
      }
    }
  }

  lemma NothingAfter(db: Db, ops: seq<Op>)
    ensures NoneClears(db, ops, |ops|)
  {
  }

  /** What the log should say of a run. */
  function Story(db: Db, ops: seq<Op>): seq<AuditEvent>
    decreases |ops|
  {
    if ops == [] then []
    else Story(db, ops[..|ops| - 1]) + Logged(ApplyAll(db, ops[..|ops| - 1]), ops[|ops| - 1])
  }

  /** After any run the pause is set exactly when the last word on it was a set, and the log has grown by
      exactly the events of the sets and resolves that changed it. */
  lemma {:induction false} PauseTellsHistory(db: Db, ops: seq<Op>)
    ensures Paused(ApplyAll(db, ops)) <==> StillSet(db, ops)
    ensures ApplyAll(db, ops).audit == db.audit + Story(db, ops)
    decreases |ops|
  {
    hide Apply, Logged, Clears, Sets, Paused;
    if ops == [] { NothingAfter(db, ops); } else {
      hide StillSet;
      var front, op := ops[..|ops| - 1], ops[|ops| - 1];
      assert ops == front + [op];
      PauseTellsHistory(db, front);
      LastApplied(db, front, op);
      StillSetGrows(db, front, op);
      StepMovesPause(ApplyAll(db, front), op);
    }
  }
}
