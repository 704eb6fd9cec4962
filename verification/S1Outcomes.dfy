/** Who may append, and what an undisturbed call comes to. */
module S1Outcomes {
  import opened Wrappers
  import opened Faults
  import opened S1Log
  import opened S1Theorems
  import opened S1Circuit

  // ---- what a call must bring ------------------------------------------------------------------

  /** Every field is filled in, nothing came from outside, and authority is still required of whatever does. */
  predicate Complete(c: Command) {
    && c.operator != "" && c.path != "" && c.target != "" && c.evidence != "" && c.payload != "" && c.approval != ""
    && c.freshness != "" && c.snapshotRef != "" && c.createdAt != "" && c.decisionDigest != "" && c.initDigest != ""
    && c.writerDigest != "" && c.schemaVersion != "" && c.fingerprint != ""
    && c.trigger == "" && c.authRequired
  }

  /** The command is bound to a reviewable decision, to the container that was made, to its own evidence and to
      the writer's request. */
  predicate Agreed(h: Hashes, c: Command, d: Decision, q: InitRequest, r: InitResult) {
    && d.status == "REVIEWABLE_FOR_S1_APPEND" && c.decisionDigest == d.digest
    && r.status == "CREATED_EMPTY_LOCKED_CONTAINER" && c.initDigest == r.digest
    && c.path == q.path && c.schemaVersion == q.schemaVersion
    && c.freshness == h.freshness(Bound(c.snapshotRef, c.evidence, c.target, c.payload, c.approval))
    && c.writerDigest == h.writer(Fields("REVIEWABLE_FOR_S1_APPEND",
       Bound(c.snapshotRef, c.evidence, c.target, c.payload, c.approval),
                                         c.freshness, c.operator, c.createdAt))
  }

  lemma TextsDiffer()
    ensures REVIEWABLE != "AUTHORIZED"
  {
    assert REVIEWABLE[0] == 'R' && "AUTHORIZED"[0] == 'A';
  }

  /** A call goes on to the lock exactly when it brings all that; otherwise it is over, with a reason. */
  lemma AdmittedExactlyWhen(h: Hashes, cmd: Command, d: Decision, q: InitRequest, r: InitResult)
    ensures Gate(h, cmd, d, q, r) == "" <==> Complete(cmd) && Agreed(h, cmd, d, q, r)
  {
    TextsDiffer();
    ReasonsAreGiven(h, cmd, d, q, r);
  }

  lemma ReasonsAreGiven(h: Hashes, cmd: Command, d: Decision, q: InitRequest, r: InitResult)
    ensures Validate(cmd) == "" <==> Complete(cmd)
    ensures Bind(h, cmd, d, q, r) == "" <==> Agreed(h, cmd, d, q, r)
  {
    TextsDiffer();
    assert |"missing_required_field"| > 0 && |"external_ingress_forbidden"| > 0
        && |"auth_required_not_implemented"| > 0;
  }

  // ---- every row was asked for by such a call --------------------------------------------------

  predicate Asks(h: Hashes, e: Event, i: nat, cmd: Command) {
    e.CallCircuit? && e.i == i && e.cmd == cmd && Complete(cmd) && Agreed(h, cmd, e.d, e.q, e.r)
  }

  predicate Summoned(h: Hashes, es: seq<Event>, i: nat, cmd: Command) { exists e :: e in es && Asks(h, e, i, cmd) }

  ghost predicate WroteSome(x: World, i: nat) { exists p :: Wrote(x, i, p) }

  /** Circuits under way, and those whose row is in a log, were called so. */
  ghost predicate AllSummoned(h: Hashes, es: seq<Event>, x: World) {
    forall i :: i in x.callers && x.callers[i].Circuit? && (!x.callers[i].pc.Done? || WroteSome(x, i)) ==>
      Summoned(h, es, i, x.callers[i].cmd)
  }

  lemma SummonedLater(h: Hashes, es: seq<Event>, e: Event, i: nat, cmd: Command)
    requires Summoned(h, es, i, cmd)
    ensures Summoned(h, es + [e], i, cmd)
  {
    hide Asks;
    var f :| f in es && Asks(h, f, i, cmd);
    assert f in es + [e];
  }

  /** A step of a circuit keeps its command, and adds no author but itself. */
  predicate KeepsCommand(x: World, y: World, i: nat)
    requires i in x.callers
  {
    && i in y.callers && y.callers == x.callers[i := y.callers[i]] && y.callers[i].Circuit?
    && x.callers[i].Circuit? && y.callers[i].cmd == x.callers[i].cmd
    && (x.callers[i].pc.Done? ==> y == x)
  }

  lemma CircuitKeepsCommand(h: Hashes, x: World, i: nat, w: Weather)
    requires i in x.callers && x.callers[i].Circuit?
    ensures KeepsCommand(x, CircuitStep(h, x, i, x.callers[i], w), i)
  {
    hide VerifyContainer, Has, WriterGate, Insert;
    assert x.callers == x.callers[i := x.callers[i]];
  }

  lemma CircuitAddsItself(h: Hashes, x: World, i: nat, w: Weather, j: nat)
    requires i in x.callers && x.callers[i].Circuit? && j != i
    ensures WroteSome(CircuitStep(h, x, i, x.callers[i], w), j) ==> WroteSome(x, j)
  {
    hide VerifyContainer, Has, WriterGate;
    var y := CircuitStep(h, x, i, x.callers[i], w);
    if p :| Wrote(y, j, p) { assert Wrote(x, j, p); }
  }

  lemma CallSummons(h: Hashes, es: seq<Event>, x: World, e: Event)
    requires Inv(h, x) && AllSummoned(h, es, x) && !e.Step? && e.i !in x.callers
    ensures AllSummoned(h, es + [e], Next(h, x, e))
  {
    CallKeepsInv(h, x, e);
    var y := Next(h, x, e);
    QuietWrites(x, y);
    NeverWrote(h, x, e.i);
    if e.CallCircuit? { AdmittedExactlyWhen(h, e.cmd, e.d, e.q, e.r); }
    hide Inv, Gate, QuietFiles, Complete, Agreed;
    forall i | i in y.callers && y.callers[i].Circuit? && (!y.callers[i].pc.Done? || WroteSome(y, i))
      ensures Summoned(h, es + [e], i, y.callers[i].cmd)
    {
      if i == e.i { assert e in es + [e] && Asks(h, e, i, y.callers[i].cmd); }
      else {
        if p :| Wrote(y, i, p) { assert Wrote(x, i, p); }
        SummonedLater(h, es, e, i, y.callers[i].cmd);
      }
    }
  }

  lemma CircuitStaysSummoned(h: Hashes, es: seq<Event>, x: World, e: Event)
    requires AllSummoned(h, es, x) && e.Step? && e.i in x.callers && x.callers[e.i].Circuit?
    ensures AllSummoned(h, es + [e], Next(h, x, e))
  {
    hide CircuitStep, Summoned;
    var y := Next(h, x, e);
    CircuitKeepsCommand(h, x, e.i, e.w);
    forall i | i in y.callers && y.callers[i].Circuit? && (!y.callers[i].pc.Done? || WroteSome(y, i))
      ensures Summoned(h, es + [e], i, y.callers[i].cmd)
    {
      if i != e.i { CircuitAddsItself(h, x, e.i, e.w, i); }
      SummonedLater(h, es, e, i, y.callers[i].cmd);
    }
  }

  lemma InitStaysSummoned(h: Hashes, es: seq<Event>, x: World, e: Event)
    requires Inv(h, x) && AllSummoned(h, es, x) && e.Step? && e.i in x.callers && x.callers[e.i].Initializer?
    ensures AllSummoned(h, es + [e], Next(h, x, e))
  {
    hide InitStep, Summoned;
    var y := Next(h, x, e);
    InitIsQuiet(x, e.i, e.w);
    QuietWrites(x, y);
    hide Inv, QuietFiles;
    forall i | i in y.callers && y.callers[i].Circuit? && (!y.callers[i].pc.Done? || WroteSome(y, i))
      ensures Summoned(h, es + [e], i, y.callers[i].cmd)
    {
      if p :| Wrote(y, i, p) { assert Wrote(x, i, p); }
      SummonedLater(h, es, e, i, y.callers[i].cmd);
    }
  }

  lemma {:induction false} RunIsSummoned(h: Hashes, es: seq<Event>)
    ensures AllSummoned(h, es, Run(h, NOWHERE, es))
    decreases |es|
  {
    hide Inv, Next, AllSummoned;
    if es == [] { NobodyYet(h); } else {
      var front, e := es[..|es| - 1], es[|es| - 1];
      assert es == front + [e];
      var x := Run(h, NOWHERE, front);
      RunIsSummoned(h, front);
      RunKeepsInv(h, front);
      if !e.Step? && e.i !in x.callers { CallSummons(h, front, x, e); }
      else if e.Step? && e.i in x.callers {
        if x.callers[e.i].Circuit? { CircuitStaysSummoned(h, front, x, e); } else { InitStaysSummoned(h, front, x, e); }
      } else {
        IdleStaysSummoned(h, front, x, e);
      }
    }
  }

  lemma NobodyYet(h: Hashes)
    ensures AllSummoned(h, [], NOWHERE)
  {
  }

  lemma IdleStaysSummoned(h: Hashes, es: seq<Event>, x: World, e: Event)
    requires AllSummoned(h, es, x) && (e.Step? <==> e.i !in x.callers)
    ensures AllSummoned(h, es + [e], Next(h, x, e))
  {
    hide Summoned;
    assert Next(h, x, e) == x;
    forall i | i in x.callers && x.callers[i].Circuit? && (!x.callers[i].pc.Done? || WroteSome(x, i))
      ensures Summoned(h, es + [e], i, x.callers[i].cmd)
    {
      SummonedLater(h, es, e, i, x.callers[i].cmd);
    }
  }

  /** In every reachable world each row was asked for: by its author's call, which named this container and
      position, was bound to a reviewable decision and to the initializer's result, and carried the writer's
      digest of its own fields. */
  lemma RowsAreAuthorised(h: Hashes, es: seq<Event>, p: Path, k: nat)
    requires p in Run(h, NOWHERE, es).files && k < |Run(h, NOWHERE, es).files[p].rows|
    ensures var file := Run(h, NOWHERE, es).files[p];
      && k < |file.authors|
      && exists e :: e in es && e.CallCircuit? && e.i == file.authors[k]
           && Complete(e.cmd) && Agreed(h, e.cmd, e.d, e.q, e.r)
           && e.cmd.path == p && e.cmd.expectedRows == k
           && file.rows[k] ==
                Row(file.rows[k].seqNo, Bound(e.cmd.snapshotRef, e.cmd.evidence, e.cmd.target, e.cmd.payload,
                    e.cmd.approval),
                    e.cmd.freshness, e.cmd.operator, e.cmd.createdAt)
  {
    CompareAndAppend(h, es, p);
    LengthsAgree(h, Run(h, NOWHERE, es).files[p]);
    RunIsSummoned(h, es);
    var x := Run(h, NOWHERE, es);
    var i := x.files[p].authors[k];
    assert Authored(x, p, k);
    assert Wrote(x, i, p);
    hide LogOk, Run, Complete, Agreed;
    assert Summoned(h, es, i, x.callers[i].cmd);
    var e :| e in es && Asks(h, e, i, x.callers[i].cmd);
  }

  // ---- an undisturbed call ---------------------------------------------------------------------

  predicate FairWeather(w: Weather) { !w.sidecar && !w.readFails && w.intact && w.fault.Fine? }

  /** The container is the one the initializer made, whatever rows it has by now. */
  predicate Provisioned(c: Container, mode: int) {
    c.mode == mode && !c.legacy && c.table && c.noUpdate && c.noDelete && c.wal
  }

  lemma FairVerification(c: Container, mode: Option<int>, expected: Option<int>, w: Weather)
    requires FairWeather(w)
    ensures VerifyContainer(c, mode, expected, w) == "" <==>
      && (mode.Some? ==> c.mode == mode.value) && Provisioned(c, c.mode)
      && (expected.Some? ==> |c.rows| == expected.value)
  {
    assert |"file_mode_mismatch"| > 0 && |"forbidden_dual_table"| > 0 && |"forbidden_legacy_table"| > 0
      && |"schema_mismatch"| > 0 && |"schema_fingerprint_mismatch"| > 0 && |"journal_fingerprint_mismatch"| > 0
      && |"nonzero_rows"| > 0;
  }

  /** Circuit `i`, called in world `x`, is in the database phase at `pc`. */
  function InPhase(x: World, i: nat, cmd: Command, mode: int, pc: Pc): World {
    World(x.files, Some(i), x.callers[i := Circuit(cmd, mode, pc, Blocked(""))])
  }

  /** It has returned `r` and let the lock go. */
  function Returned(x: World, i: nat, cmd: Command, mode: int, r: Result): World {
    World(x.files, None, x.callers[i := Circuit(cmd, mode, Done, r)])
  }

  function Step1(h: Hashes, x: World, i: nat, cmd: Command, mode: int, pc: Pc, w: Weather): World {
    CircuitStep(h, InPhase(x, i, cmd, mode, pc), i, Circuit(cmd, mode, pc, Blocked("")), w)
  }

  lemma FairStart(h: Hashes, x: World, i: nat, cmd: Command, mode: int, w: Weather)
    requires FairWeather(w)
    ensures Step1(h, x, i, cmd, mode, Suspect, w) ==
      if cmd.path !in x.files then Returned(x, i, cmd, mode, BlockedRecovery) else InPhase(x, i, cmd, mode, Precheck)
    ensures cmd.path in x.files ==>
      Step1(h, x, i, cmd, mode, Precheck, w) ==
        if x.files[cmd.path].table && Has(x.files[cmd.path], cmd.evidence, cmd.target)
        then Returned(x, i, cmd, mode, BlockedDuplicate) else InPhase(x, i, cmd, mode, Verifying)
  {
    hide Has;
  }

  lemma FairChecks(h: Hashes, x: World, i: nat, cmd: Command, mode: int, w: Weather)
    requires FairWeather(w) && cmd.path in x.files
    ensures var c := x.files[cmd.path];
      && (Provisioned(c, mode) && |c.rows| == cmd.expectedRows ==>
            Step1(h, x, i, cmd, mode, Verifying, w) == InPhase(x, i, cmd, mode, Fingerprinting))
      && (!(Provisioned(c, mode) && |c.rows| == cmd.expectedRows) ==>
            exists reason :: Step1(h, x, i, cmd, mode, Verifying, w) ==
                Returned(x, i, cmd, mode, BlockedTamper(reason)))
      && (c.Canonical() ==>
            Step1(h, x, i, cmd, mode, Fingerprinting, w) ==
              if cmd.fingerprint != h.canonical then Returned(x, i, cmd, mode, BlockedTamper("fingerprint_mismatch"))
              else InPhase(x, i, cmd, mode, WriterChecks))
  {
    var c := x.files[cmd.path];
    FairVerification(c, Some(mode), Some(cmd.expectedRows), w);
    hide VerifyContainer;
    var reason := VerifyContainer(c, Some(mode), Some(cmd.expectedRows), w);
    if reason != "" {
      assert Step1(h, x, i, cmd, mode, Verifying, w) == Returned(x, i, cmd, mode, BlockedTamper(reason));
    }
  }

  lemma FairWriting(h: Hashes, x: World, i: nat, cmd: Command, mode: int, w: Weather)
    requires FairWeather(w) && cmd.path in x.files && Provisioned(x.files[cmd.path], mode)
    requires cmd.freshness == h.freshness(cmd.Binding()) && !Has(x.files[cmd.path], cmd.evidence, cmd.target)
    ensures Step1(h, x, i, cmd, mode, WriterChecks, w) == InPhase(x, i, cmd, mode, WriterVerifies)
    ensures Step1(h, x, i, cmd, mode, WriterVerifies, w) == InPhase(x, i, cmd, mode, Inserting)
    ensures var c := x.files[cmd.path];
      var n := c.lastSeq + 1;
      Step1(h, x, i, cmd, mode, Inserting, w) ==
        World(x.files[cmd.path := c.(rows := c.rows + [RowOf(cmd, n)], lastSeq := n, authors := c.authors + [i])],
              None, x.callers[i := Circuit(cmd, mode, Done, Appended(n))])
  {
    FairVerification(x.files[cmd.path], None, None, w);
    hide VerifyContainer, Has;
  }

  /** The container takes the command's row next. */
  predicate TakesNext(h: Hashes, x: World, cmd: Command, mode: int) {
    && cmd.path in x.files
    && var c := x.files[cmd.path];
    && Provisioned(c, mode) && |c.rows| == cmd.expectedRows && !Has(c, cmd.evidence, cmd.target)
    && cmd.fingerprint == h.canonical
  }

  function AppendedTo(x: World, i: nat, cmd: Command): map<Path, Container>
    requires cmd.path in x.files
  {
    var c := x.files[cmd.path];
    x.files[cmd.path := c.(rows := c.rows + [RowOf(cmd, c.lastSeq + 1)], lastSeq := c.lastSeq + 1,
        authors := c.authors + [i])]
  }

  /** How an undisturbed call ends. */
  predicate EndsWell(h: Hashes, x: World, y: World, i: nat, cmd: Command, mode: int) {
    && i in y.callers && y.callers[i].Circuit? && y.callers[i].pc.Done? && y.holder.None?
    && (y.callers[i].result.Appended? <==> TakesNext(h, x, cmd, mode))
    && (TakesNext(h, x, cmd, mode) ==>
          y.callers[i].result == Appended(x.files[cmd.path].lastSeq + 1) && y.files == AppendedTo(x, i, cmd))
    && (!TakesNext(h, x, cmd, mode) ==> y.files == x.files)
    && (y.callers[i].result.BlockedDuplicate? <==>
          cmd.path in x.files && x.files[cmd.path].table && Has(x.files[cmd.path], cmd.evidence, cmd.target))
    && (y.callers[i].result.BlockedRecovery? <==> cmd.path !in x.files)
  }

  lemma GoesOn(h: Hashes, x: World, i: nat, cmd: Command, mode: int, pc: Pc, ws: seq<Weather>, k: nat)
    requires k < |ws|
    ensures Steps(h, InPhase(x, i, cmd, mode, pc), i, ws[k..]) ==
      Steps(h, Step1(h, x, i, cmd, mode, pc, ws[k]), i, ws[k + 1..])
  {
    hide CircuitStep, Steps;
    OneStep(h, InPhase(x, i, cmd, mode, pc), i, ws, k);
  }

  lemma EndsHere(h: Hashes, x: World, i: nat, cmd: Command, mode: int, r: Result, ws: seq<Weather>)
    ensures Steps(h, Returned(x, i, cmd, mode, r), i, ws) == Returned(x, i, cmd, mode, r)
  {
    S1Circuit.DoneStays(h, Returned(x, i, cmd, mode, r), i, ws);
  }

  /** From the database phase on. */
  lemma PhaseEnds(h: Hashes, x: World, i: nat, cmd: Command, mode: int, ws: seq<Weather>)
    requires |ws| == 8 && (forall w :: w in ws ==> FairWeather(w)) && cmd.freshness == h.freshness(cmd.Binding())
    ensures EndsWell(h, x, Steps(h, InPhase(x, i, cmd, mode, Suspect), i, ws[1..]), i, cmd, mode)
  {
    hide Steps, Step1, FairWeather, Has, Provisioned;
    FairStart(h, x, i, cmd, mode, ws[1]);
    GoesOn(h, x, i, cmd, mode, Suspect, ws, 1);
    if cmd.path !in x.files { EndsHere(h, x, i, cmd, mode, BlockedRecovery, ws[2..]); return; }
    var c := x.files[cmd.path];
    FairStart(h, x, i, cmd, mode, ws[2]);
    GoesOn(h, x, i, cmd, mode, Precheck, ws, 2);
    if c.table && Has(c, cmd.evidence, cmd.target) {
      EndsHere(h, x, i, cmd, mode, BlockedDuplicate, ws[3..]);
      return;
    }
    FairChecks(h, x, i, cmd, mode, ws[3]);
    GoesOn(h, x, i, cmd, mode, Verifying, ws, 3);
    if !(Provisioned(c, mode) && |c.rows| == cmd.expectedRows) {
      var reason :| Step1(h, x, i, cmd, mode, Verifying, ws[3]) == Returned(x, i, cmd, mode, BlockedTamper(reason));
      EndsHere(h, x, i, cmd, mode, BlockedTamper(reason), ws[4..]);
      return;
    }
    ProvisionedHasTable(c, mode);
    FairChecks(h, x, i, cmd, mode, ws[4]);
    GoesOn(h, x, i, cmd, mode, Fingerprinting, ws, 4);
    if cmd.fingerprint != h.canonical {
      EndsHere(h, x, i, cmd, mode, BlockedTamper("fingerprint_mismatch"), ws[5..]);
      return;
    }
    WriterEnds(h, x, i, cmd, mode, ws);
  }

  lemma ProvisionedHasTable(c: Container, mode: int)
    ensures Provisioned(c, mode) ==> c.table && c.Canonical()
  {
  }

  lemma WriterEnds(h: Hashes, x: World, i: nat, cmd: Command, mode: int, ws: seq<Weather>)
    requires |ws| == 8 && (forall w :: w in ws ==> FairWeather(w)) && cmd.freshness == h.freshness(cmd.Binding())
    requires TakesNext(h, x, cmd, mode)
    ensures EndsWell(h, x, Steps(h, InPhase(x, i, cmd, mode, WriterChecks), i, ws[5..]), i, cmd, mode)
  {
    hide Steps, Step1, FairWeather, Has;
    FairWriting(h, x, i, cmd, mode, ws[5]);
    GoesOn(h, x, i, cmd, mode, WriterChecks, ws, 5);
    FairWriting(h, x, i, cmd, mode, ws[6]);
    GoesOn(h, x, i, cmd, mode, WriterVerifies, ws, 6);
    FairWriting(h, x, i, cmd, mode, ws[7]);
    GoesOn(h, x, i, cmd, mode, Inserting, ws, 7);
    S1Circuit.DoneStays(h, Step1(h, x, i, cmd, mode, Inserting, ws[7]), i, ws[8..]);
  }

  /** A call that nothing disturbs, with the lock free, appends its row if and only if its command is complete
      and bound, the container is as it was made, holds the expected number of rows and none of its key, and the
      fingerprint is the canonical one; otherwise no row changes.  What it appends is its own row under the next
      number. */
  lemma AppendsExactlyWhen(h: Hashes, x: World, i: nat, cmd: Command, d: Decision, q: InitRequest, r: InitResult,
      ws: seq<Weather>)
    requires i !in x.callers && x.holder.None? && |ws| == 8 && forall w :: w in ws ==> FairWeather(w)
    ensures var y := Steps(h, Next(h, x, CallCircuit(i, cmd, d, q, r)), i, ws);
      var wanted := Complete(cmd) && Agreed(h, cmd, d, q, r) && TakesNext(h, x, cmd, q.mode);
      && i in y.callers && y.callers[i].Circuit? && y.callers[i].pc.Done? && y.holder.None?
      && (y.callers[i].result.Appended? <==> wanted)
      && (wanted ==> y.callers[i].result == Appended(x.files[cmd.path].lastSeq + 1) && y.files == AppendedTo(x, i, cmd))
      && (!wanted ==> y.files == x.files)
      && (Complete(cmd) && Agreed(h, cmd, d, q, r) ==> EndsWell(h, x, y, i, cmd, q.mode))
  {
    AdmittedExactlyWhen(h, cmd, d, q, r);
    hide Steps, Gate, Complete, FairWeather, TakesNext, AppendedTo;
    var x0 := Next(h, x, CallCircuit(i, cmd, d, q, r));
    if Gate(h, cmd, d, q, r) != "" { S1Circuit.DoneStays(h, x0, i, ws); return; }
    OneStep(h, x0, i, ws, 0);
    assert ws[0..] == ws;
    assert CircuitStep(h, x0, i, x0.callers[i], ws[0]) == InPhase(x, i, cmd, q.mode, Suspect);
    PhaseEnds(h, x, i, cmd, q.mode, ws);
    hide EndsWell;
    assert EndsWell(h, x, Steps(h, x0, i, ws), i, cmd, q.mode);
    EndsWellMeans(h, x, Steps(h, x0, i, ws), i, cmd, q.mode);
  }

  lemma EndsWellMeans(h: Hashes, x: World, y: World, i: nat, cmd: Command, mode: int)
    requires EndsWell(h, x, y, i, cmd, mode)
    ensures i in y.callers && y.callers[i].Circuit? && y.callers[i].pc.Done? && y.holder.None?
    ensures y.callers[i].result.Appended? <==> TakesNext(h, x, cmd, mode)
    ensures TakesNext(h, x, cmd, mode) ==>
      y.callers[i].result == Appended(x.files[cmd.path].lastSeq + 1) && y.files == AppendedTo(x, i, cmd)
    ensures !TakesNext(h, x, cmd, mode) ==> y.files == x.files
  {
  }

  // ---- a disturbed call ------------------------------------------------------------------------

  /** A circuit that meets a recovery file returns without a row. */
  lemma SidecarBlocks(h: Hashes, x: World, i: nat, cmd: Command, mode: int, w: Weather)
    requires w.sidecar
    ensures Step1(h, x, i, cmd, mode, Suspect, w) == Returned(x, i, cmd, mode, BlockedRecovery)
    ensures cmd.freshness == h.freshness(cmd.Binding()) ==>
      Step1(h, x, i, cmd, mode, WriterChecks, w) == Returned(x, i, cmd, mode, BlockedRecovery)
  {
    hide VerifyContainer, Has, Insert;
  }

  /** So does one that cannot read its container, or finds its integrity broken, whichever check meets it. */
  lemma BadReadsBlock(h: Hashes, x: World, i: nat, cmd: Command, mode: int, w: Weather)
    requires (w.readFails || !w.intact) && cmd.path in x.files
    ensures exists reason :: Step1(h, x, i, cmd, mode, Verifying, w) == Returned(x, i, cmd, mode, BlockedTamper(reason))
    ensures exists reason :: Step1(h, x, i, cmd, mode, WriterVerifies, w) == Returned(x, i, cmd, mode, Blocked(reason))
    ensures w.readFails ==>
      Step1(h, x, i, cmd, mode, Fingerprinting, w) == Returned(x, i, cmd, mode, BlockedTamper("introspection_failed"))
  {
    hide VerifyContainer, Has, WriterGate, Insert;
    BadReads(x.files[cmd.path], Some(mode), Some(cmd.expectedRows), w);
    BadReads(x.files[cmd.path], None, None, w);
    var r1 := VerifyContainer(x.files[cmd.path], Some(mode), Some(cmd.expectedRows), w);
    var r2 := VerifyContainer(x.files[cmd.path], None, None, w);
    assert Step1(h, x, i, cmd, mode, Verifying, w) == Returned(x, i, cmd, mode, BlockedTamper(r1));
    assert Step1(h, x, i, cmd, mode, WriterVerifies, w) == Returned(x, i, cmd, mode, Blocked(r2));
  }

  lemma BadReads(c: Container, mode: Option<int>, expected: Option<int>, w: Weather)
    requires w.readFails || !w.intact
    ensures VerifyContainer(c, mode, expected, w) != ""
  {
    assert |"file_mode_mismatch"| > 0 && |"forbidden_dual_table"| > 0 && |"forbidden_legacy_table"| > 0
      && |"schema_mismatch"| > 0 && |"introspection_failed"| > 0 && |"integrity_failure"| > 0;
  }

  /** An initializer that meets a recovery file, a lost write, or an object another one has made in the meantime
      gives up and changes nothing more. */
  lemma InitializerGivesUp(h: Hashes, x: World, i: nat, w: Weather)
    requires i in x.callers && x.callers[i].Initializer?
    requires var c, p := x.callers[i], x.callers[i].req.path;
      || (c.pc.Starting? && w.sidecar)
      || (c.pc.MakeFile? && w.fault.Lost?)
      || (c.pc.MakeTable? && (w.fault.Lost? || p !in x.files || x.files[p].table))
      || (c.pc.MakeNoUpdate? && (w.fault.Lost? || p !in x.files || x.files[p].noUpdate))
      || (c.pc.MakeNoDelete? && (w.fault.Lost? || p !in x.files || x.files[p].noDelete))
      || (c.pc.MakeMode? && (w.fault.Lost? || p !in x.files))
    ensures var y := Next(h, x, Step(i, w));
      && y.files == x.files && i in y.callers && y.callers[i].pc.Done?
      && y.callers[i].result == (if x.callers[i].pc.Starting? then BlockedRecovery
         else Blocked("initialization_failed"))
  {
  }

  // ---- an undisturbed initializer --------------------------------------------------------------

  lemma NextStep(h: Hashes, x: World, i: nat, ws: seq<Weather>, k: nat)
    requires k < |ws|
    ensures Steps(h, x, i, ws[k..]) == Steps(h, Next(h, x, Step(i, ws[k])), i, ws[k + 1..])
  {
    assert ws[k..][0] == ws[k] && ws[k..][1..] == ws[k + 1..];
  }

  /** Initializer `i`, called in world `x`, is at `pc`, and the container so far is `file`. */
  function Making(x: World, i: nat, req: InitRequest, pc: Pc, file: Container, r: Result): World {
    World(x.files[req.path := file], x.holder, x.callers[i := Initializer(req, pc, r)])
  }

  /** What it has made after the table and `n` triggers. */
  function Begun(mode: int, table: bool, n: nat): Container {
    Container(mode, true, table, n >= 1, n >= 2, false, [], 0, [])
  }

  lemma FileIsMade(h: Hashes, x: World, i: nat, req: InitRequest, w: Weather)
    requires FairWeather(w) && req.path !in x.files
    ensures var start := World(x.files, x.holder, x.callers[i := Initializer(req, Starting, Blocked(""))]);
      var next := World(x.files, x.holder, x.callers[i := Initializer(req, MakeFile, Blocked(""))]);
      && Next(h, start, Step(i, w)) == next
      && Next(h, next, Step(i, w)) == Making(x, i, req, MakeTable, Begun(w.umask, false, 0), Blocked(""))
  {
  }

  lemma PartsAreMade(h: Hashes, x: World, i: nat, req: InitRequest, mode: int, w: Weather)
    requires FairWeather(w)
    ensures Next(h, Making(x, i, req, MakeTable, Begun(mode, false, 0), Blocked("")), Step(i, w))
      == Making(x, i, req, MakeNoUpdate, Begun(mode, true, 0), Blocked(""))
    ensures Next(h, Making(x, i, req, MakeNoUpdate, Begun(mode, true, 0), Blocked("")), Step(i, w))
      == Making(x, i, req, MakeNoDelete, Begun(mode, true, 1), Blocked(""))
  {
  }

  lemma LastPartsAreMade(h: Hashes, x: World, i: nat, req: InitRequest, mode: int, w: Weather)
    requires FairWeather(w)
    ensures Next(h, Making(x, i, req, MakeNoDelete, Begun(mode, true, 1), Blocked("")), Step(i, w))
      == Making(x, i, req, MakeMode, Begun(mode, true, 2), Blocked(""))
    ensures Next(h, Making(x, i, req, MakeMode, Begun(mode, true, 2), Blocked("")), Step(i, w))
      == Making(x, i, req, Done, Begun(req.mode, true, 2), Ready(true))
  {
  }

  lemma NothingMore(h: Hashes, x: World, i: nat)
    ensures Steps(h, x, i, []) == x
  {
  }

  /** An undisturbed initializer makes an empty, canonical container of the requested mode where there is
      none. */
  lemma InitializerProvisions(h: Hashes, x: World, i: nat, req: InitRequest, ws: seq<Weather>)
    requires i !in x.callers && |ws| == 6 && (forall w :: w in ws ==> FairWeather(w))
    requires req.valid && req.parentOk && req.path !in x.files
    ensures Steps(h, Next(h, x, CallInitializer(i, req)), i, ws) ==
        Making(x, i, req, Done, Begun(req.mode, true, 2), Ready(true))
    ensures Provisioned(Begun(req.mode, true, 2), req.mode)
  {
    assert Provisioned(Begun(req.mode, true, 2), req.mode);
    hide Steps, Making, FairWeather;
    var x0 := Next(h, x, CallInitializer(i, req));
    assert x0 == World(x.files, x.holder, x.callers[i := Initializer(req, Starting, Blocked(""))]);
    assert ws[0..] == ws && ws[6..] == [];
    hide Next, Begun;
    FileIsMade(h, x, i, req, ws[0]);
    FileIsMade(h, x, i, req, ws[1]);
    PartsAreMade(h, x, i, req, ws[1].umask, ws[2]);
    PartsAreMade(h, x, i, req, ws[1].umask, ws[3]);
    LastPartsAreMade(h, x, i, req, ws[1].umask, ws[4]);
    LastPartsAreMade(h, x, i, req, ws[1].umask, ws[5]);
    NothingMore(h, Making(x, i, req, Done, Begun(req.mode, true, 2), Ready(true)), i);
    var x1 := Next(h, x0, Step(i, ws[0]));
    NextStep(h, x0, i, ws, 0);
    NextStep(h, x1, i, ws, 1);
    NextStep(h, Making(x, i, req, MakeTable, Begun(ws[1].umask, false, 0), Blocked("")), i, ws, 2);
    NextStep(h, Making(x, i, req, MakeNoUpdate, Begun(ws[1].umask, true, 0), Blocked("")), i, ws, 3);
    NextStep(h, Making(x, i, req, MakeNoDelete, Begun(ws[1].umask, true, 1), Blocked("")), i, ws, 4);
    NextStep(h, Making(x, i, req, MakeMode, Begun(ws[1].umask, true, 2), Blocked("")), i, ws, 5);
  }

  /** Where there is a container it is accepted exactly when it is as it was made and still empty, and nothing
      changes. */
  lemma InitializerAcceptsExactlyWhen(h: Hashes, x: World, i: nat, req: InitRequest, w: Weather)
    requires i !in x.callers && FairWeather(w) && req.valid && req.parentOk && req.path in x.files
    ensures var y := Next(h, Next(h, x, CallInitializer(i, req)), Step(i, w));
      && y.files == x.files && i in y.callers && y.callers[i].Initializer? && y.callers[i].pc.Done?
      && var c := x.files[req.path];
         if Provisioned(c, req.mode) && c.rows == [] then y.callers[i].result == Ready(false)
         else y.callers[i].result.Blocked?
  {
  }
}
