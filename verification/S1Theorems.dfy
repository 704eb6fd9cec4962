/** The circuit is a compare-and-append log, under any interleaving. */
module S1Theorems {
  import opened Wrappers
  import opened Faults
  import opened S1Log

  // ---- the invariant ---------------------------------------------------------------------------

  predicate Increasing(rows: seq<Row>) { forall j, k :: 0 <= j < k < |rows| ==> rows[j].seqNo < rows[k].seqNo }
  predicate KeysApart(rows: seq<Row>) { forall j, k :: 0 <= j < k < |rows| ==> !SameKey(rows[j], rows[k]) }
  predicate AllFresh(h: Hashes, rows: seq<Row>) {
    forall k :: 0 <= k < |rows| ==> rows[k].freshness == h.freshness(rows[k].bound)
  }
  predicate NoRepeat(authors: seq<nat>) { forall j, k :: 0 <= j < k < |authors| ==> authors[j] != authors[k] }

  /** Rows are numbered upwards, unique by evidence and target, and freshly bound. */
  predicate LogOk(h: Hashes, c: Container) {
    && Increasing(c.rows) && KeysApart(c.rows) && AllFresh(h, c.rows)
    && (forall k :: 0 <= k < |c.rows| ==> c.rows[k].seqNo <= c.lastSeq)
    && (c.rows != [] ==> c.Canonical())
    && |c.authors| == |c.rows| && NoRepeat(c.authors)
  }

  /** Row `k` was written by a finished circuit call whose command expected `k` rows. */
  predicate Authored(x: World, p: Path, k: nat)
    requires p in x.files && k < |x.files[p].authors| && k < |x.files[p].rows|
  {
    var i := x.files[p].authors[k];
    && i in x.callers && x.callers[i].Circuit? && x.callers[i].pc.Done?
    && x.callers[i].cmd.path == p && x.callers[i].cmd.expectedRows == k
    && x.files[p].rows[k] == RowOf(x.callers[i].cmd, x.files[p].rows[k].seqNo)
    && (x.callers[i].result == Appended(x.files[p].rows[k].seqNo) || x.callers[i].result == Blocked("write_failed"))
  }

  predicate Wrote(x: World, i: nat, p: Path) { p in x.files && i in x.files[p].authors }

  predicate CallerOk(h: Hashes, x: World, i: nat)
    requires i in x.callers
  {
    var c := x.callers[i];
    c.Circuit? ==>
      && (InDbPhase(c.pc) <==> x.holder == Some(i))
      && (!c.pc.Done? ==> c.cmd.freshness == h.freshness(c.cmd.Binding()))
      && (InDbPhase(c.pc) && !c.pc.Suspect? ==> c.cmd.path in x.files)
      && (c.pc.Fingerprinting? || c.pc.WriterChecks? || c.pc.WriterVerifies? || c.pc.Inserting? ==>
            c.cmd.path in x.files && |x.files[c.cmd.path].rows| == c.cmd.expectedRows
                && x.files[c.cmd.path].Canonical())
      && (c.pc.Done? && c.result.Appended? ==> Wrote(x, i, c.cmd.path))
      && (forall p :: p in x.files && Wrote(x, i, p) ==> c.pc.Done?)
  }

  predicate Inv(h: Hashes, x: World) {
    && (forall p :: p in x.files ==> LogOk(h, x.files[p]))
    && (forall p, k :: p in x.files && 0 <= k < |x.files[p].authors| && k < |x.files[p].rows| ==> Authored(x, p, k))
    && (forall i :: i in x.callers ==> CallerOk(h, x, i))
    && (x.holder.Some? ==> x.holder.value in x.callers && x.callers[x.holder.value].Circuit?)
  }

  const NOWHERE := World(map[], None, map[])

  lemma InvAtFirst(h: Hashes)
    ensures Inv(h, NOWHERE)
  {
  }

  // ---- steps that write no row -----------------------------------------------------------------

  /** The container keeps its rows and whatever it already had. */
  predicate Grows(c: Container, d: Container) {
    d.rows == c.rows && d.authors == c.authors && d.lastSeq == c.lastSeq && (c.Canonical() ==> d.Canonical())
  }

  predicate QuietFiles(x: World, y: World) {
    && (forall p :: p in x.files ==> p in y.files && Grows(x.files[p], y.files[p]))
    && (forall p :: p in y.files && p !in x.files ==> y.files[p] == FreshFile(y.files[p].mode))
  }

  /** Only caller `i` moves, and if it is a circuit it was not yet done. */
  predicate OnlyMoves(x: World, y: World, i: nat) {
    && (forall j :: j in x.callers ==> j in y.callers && (j != i ==> y.callers[j] == x.callers[j]))
    && (forall j :: j in y.callers && j !in x.callers ==> j == i)
  }

  lemma FreshIsOk(h: Hashes, mode: int)
    ensures LogOk(h, FreshFile(mode))
  {
  }

  lemma QuietKeepsLogs(h: Hashes, x: World, y: World, i: nat)
    requires Inv(h, x) && QuietFiles(x, y) && OnlyMoves(x, y, i)
    requires i in x.callers && x.callers[i].Circuit? && x.callers[i].pc.Done? ==> y.callers[i] == x.callers[i]
    ensures forall p :: p in y.files ==> LogOk(h, y.files[p])
    ensures forall p, k :: p in y.files && 0 <= k < |y.files[p].authors| && k < |y.files[p].rows| ==> Authored(y, p, k)
    ensures forall j, p :: Wrote(y, j, p) ==> Wrote(x, j, p)
    ensures forall j, p :: Wrote(x, j, p) ==> Wrote(y, j, p)
  {
    forall p | p in y.files ensures LogOk(h, y.files[p]) {
      if p in x.files { assert LogOk(h, x.files[p]); } else { FreshIsOk(h, y.files[p].mode); }
    }
    forall p, k | p in y.files && 0 <= k < |y.files[p].authors| && k < |y.files[p].rows|
      ensures Authored(y, p, k)
    {
      assert p in x.files && Authored(x, p, k);
    }
  }

  lemma QuietKeepsCallers(h: Hashes, x: World, y: World, i: nat)
    requires Inv(h, x) && QuietFiles(x, y) && OnlyMoves(x, y, i)
    requires i in x.callers && x.callers[i].Circuit? && x.callers[i].pc.Done? ==> y.callers[i] == x.callers[i]
    requires y.holder == x.holder || (y.holder == Some(i) && x.holder.None?) || (y.holder.None? && x.holder == Some(i))
    ensures forall j :: j in x.callers && j != i ==> CallerOk(h, y, j)
  {
    hide LogOk, Authored;
    QuietKeepsLogs(h, x, y, i);
    forall j | j in x.callers && j != i ensures CallerOk(h, y, j) {
      assert CallerOk(h, x, j);
    }
  }

  lemma QuietKeepsInv(h: Hashes, x: World, y: World, i: nat)
    requires Inv(h, x) && QuietFiles(x, y) && OnlyMoves(x, y, i) && i in y.callers
    requires i in x.callers && x.callers[i].Circuit? && x.callers[i].pc.Done? ==> y.callers[i] == x.callers[i]
    requires y.holder == x.holder || (y.holder == Some(i) && x.holder.None?) || (y.holder.None? && x.holder == Some(i))
    requires CallerOk(h, y, i) && (y.holder.Some? ==> y.holder.value in y.callers && y.callers[y.holder.value].Circuit?)
    ensures Inv(h, y)
  {
    hide LogOk, Authored, CallerOk, QuietFiles;
    QuietKeepsLogs(h, x, y, i);
    QuietKeepsCallers(h, x, y, i);
  }

  // ---- each kind of step -----------------------------------------------------------------------

  lemma CallKeepsInv(h: Hashes, x: World, e: Event)
    requires Inv(h, x) && !e.Step? && e.i !in x.callers
    ensures Inv(h, Next(h, x, e)) && QuietFiles(x, Next(h, x, e))
  {
    var y := Next(h, x, e);
    GateMeansFresh(h, e);
    hide Gate, LogOk, Authored;
    NeverWrote(h, x, e.i);
    SamePaths(x, y);
    QuietKeepsInv(h, x, y, e.i);
  }

  lemma GateMeansFresh(h: Hashes, e: Event)
    ensures e.CallCircuit? && Gate(h, e.cmd, e.d, e.q, e.r) == "" ==> e.cmd.freshness == h.freshness(e.cmd.Binding())
  {
  }

  lemma NeverWrote(h: Hashes, x: World, i: nat)
    requires Inv(h, x) && i !in x.callers
    ensures forall p :: !Wrote(x, i, p)
  {
    forall p, k | p in x.files && 0 <= k < |x.files[p].authors| ensures x.files[p].authors[k] != i {
      assert LogOk(h, x.files[p]);
      assert Authored(x, p, k);
    }
  }

  /** One file at most changes, and it keeps its rows. */
  predicate Provisions(x: World, y: World, p: Path) {
    y.files == x.files || (p in y.files && y.files == x.files[p := y.files[p]]
                           && if p in x.files then Grows(x.files[p], y.files[p])
                              else y.files[p] == FreshFile(y.files[p].mode))
  }

  predicate InitMoves(x: World, y: World, i: nat)
    requires i in x.callers
  {
    i in y.callers && y.callers == x.callers[i := y.callers[i]] && y.callers[i].Initializer? && y.holder == x.holder
  }

  lemma InitProvisions(x: World, i: nat, w: Weather)
    requires i in x.callers && x.callers[i].Initializer?
    ensures var y := InitStep(x, i, x.callers[i], w); InitMoves(x, y, i) && Provisions(x, y, x.callers[i].req.path)
  {
    hide VerifyExisting;
    var c := x.callers[i];
    assert x.callers == x.callers[i := c];
    if c.pc.Starting? || c.pc.MakeFile? || c.pc.MakeMode? { } else { }
  }

  /** The initializer never touches rows, whatever it finds or fails at. */
  lemma InitIsQuiet(x: World, i: nat, w: Weather)
    requires i in x.callers && x.callers[i].Initializer?
    ensures var y := InitStep(x, i, x.callers[i], w);
      QuietFiles(x, y) && OnlyMoves(x, y, i) && i in y.callers && y.callers[i].Initializer? && y.holder == x.holder
  {
    hide InitStep;
    InitProvisions(x, i, w);
  }

  lemma InitKeepsInv(h: Hashes, x: World, i: nat, w: Weather)
    requires Inv(h, x) && i in x.callers && x.callers[i].Initializer?
    ensures Inv(h, InitStep(x, i, x.callers[i], w)) && QuietFiles(x, InitStep(x, i, x.callers[i], w))
  {
    hide LogOk, Authored, InitStep, QuietFiles;
    InitIsQuiet(x, i, w);
    QuietKeepsInv(h, x, InitStep(x, i, x.callers[i], w), i);
  }

  /** Before the insert a circuit only reads: it takes the lock, moves on, or returns and lets go. */
  predicate Moves(h: Hashes, x: World, y: World, i: nat)
    requires i in x.callers && x.callers[i].Circuit?
  {
    var c := x.callers[i];
    y.files == x.files && i in y.callers && y.callers == x.callers[i := y.callers[i]]
    && y.callers[i].Circuit? && y.callers[i].cmd == c.cmd && !y.callers[i].pc.Locking?
    && (y.callers[i].pc.Done? ==> !y.callers[i].result.Appended?)
    && (if InDbPhase(y.callers[i].pc) then y.holder == Some(i) else y.holder == if InDbPhase(c.pc) then None
       else x.holder)
    && (c.pc.Locking? && InDbPhase(y.callers[i].pc) ==> x.holder.None? && y.callers[i].pc.Suspect?)
    && (y.callers[i].pc.Precheck? || y.callers[i].pc.Verifying? ==> c.cmd.path in x.files)
    && (y.callers[i].pc.Fingerprinting? ==>
          c.cmd.path in x.files && |x.files[c.cmd.path].rows| == c.cmd.expectedRows && x.files[c.cmd.path].Canonical())
    && (y.callers[i].pc.WriterChecks? || y.callers[i].pc.WriterVerifies? || y.callers[i].pc.Inserting? ==>
          c.pc.Fingerprinting? || c.pc.WriterChecks? || c.pc.WriterVerifies?)
  }

  predicate Reading(pc: Pc) { pc.Suspect? || pc.Precheck? || pc.Verifying? || pc.Fingerprinting? }

  lemma ReadersMove(h: Hashes, x: World, i: nat, w: Weather)
    requires i in x.callers && x.callers[i].Circuit? && !x.callers[i].pc.Inserting?
    requires InDbPhase(x.callers[i].pc) ==> x.holder == Some(i)
    requires x.callers[i].pc.Verifying? || x.callers[i].pc.Precheck? ==> x.callers[i].cmd.path in x.files
    ensures var y := CircuitStep(h, x, i, x.callers[i], w); y == x || Moves(h, x, y, i)
  {
    hide Moves, CircuitStep;
    if Reading(x.callers[i].pc) { CircuitReads(h, x, i, w); } else { OthersMove(h, x, i, w); }
  }

  lemma CircuitReads(h: Hashes, x: World, i: nat, w: Weather)
    requires i in x.callers && x.callers[i].Circuit? && Reading(x.callers[i].pc) && x.holder == Some(i)
    requires x.callers[i].pc.Verifying? || x.callers[i].pc.Precheck? ==> x.callers[i].cmd.path in x.files
    ensures Moves(h, x, CircuitStep(h, x, i, x.callers[i], w), i)
  {
    hide VerifyContainer, Has, WriterGate;
    var c := x.callers[i];
    if c.pc.Verifying? { VerifiedMeans(x.files[c.cmd.path], c.mode, c.cmd.expectedRows, w); }
  }

  lemma OthersMove(h: Hashes, x: World, i: nat, w: Weather)
    requires i in x.callers && x.callers[i].Circuit? && !x.callers[i].pc.Inserting? && !Reading(x.callers[i].pc)
    requires InDbPhase(x.callers[i].pc) ==> x.holder == Some(i)
    ensures var y := CircuitStep(h, x, i, x.callers[i], w); y == x || Moves(h, x, y, i)
  {
    hide VerifyContainer, Has, WriterGate;
  }

  lemma DoneStays(h: Hashes, x: World, i: nat, w: Weather)
    requires i in x.callers && x.callers[i].Circuit? && x.callers[i].pc.Done?
    ensures CircuitStep(h, x, i, x.callers[i], w) == x
  {
  }

  lemma CircuitMoves(h: Hashes, x: World, i: nat, w: Weather)
    requires Inv(h, x) && i in x.callers && x.callers[i].Circuit? && !x.callers[i].pc.Inserting?
    ensures Inv(h, CircuitStep(h, x, i, x.callers[i], w)) && QuietFiles(x, CircuitStep(h, x, i, x.callers[i], w))
  {
    var y := CircuitStep(h, x, i, x.callers[i], w);
    hide LogOk, Authored, CircuitStep;
    assert CallerOk(h, x, i);
    ReadersMove(h, x, i, w);
    if x.callers[i].pc.Done? { DoneStays(h, x, i, w); }
    SamePaths(x, y);
    if y != x { QuietKeepsInv(h, x, y, i); }
  }

  lemma SamePaths(x: World, y: World)
    requires y.files == x.files
    ensures QuietFiles(x, y) && forall i, p :: Wrote(y, i, p) <==> Wrote(x, i, p)
  {
  }

  lemma VerifiedMeans(c: Container, mode: int, expected: int, w: Weather)
    ensures VerifyContainer(c, Some(mode), Some(expected), w) == "" ==> |c.rows| == expected && c.Canonical()
  {
  }

  /** What one insert does to the log. */
  lemma InsertKeepsLog(h: Hashes, i: nat, c: Container, cmd: Command, f: Fault)
    requires LogOk(h, c) && c.Canonical() && i !in c.authors && cmd.freshness == h.freshness(cmd.Binding())
    ensures LogOk(h, Insert(i, c, cmd, f).0)
    ensures Insert(i, c, cmd, f).0 == c || Insert(i, c, cmd, f).0.rows == c.rows + [RowOf(cmd, c.lastSeq + 1)]
  {
    var d := Insert(i, c, cmd, f).0;
    if d != c {
      forall j, k | 0 <= j < k < |d.rows| ensures !SameKey(d.rows[j], d.rows[k]) {
        if k == |c.rows| { assert d.rows[j] == c.rows[j]; }
      }
    }
  }

  lemma CircuitInserts(h: Hashes, x: World, i: nat, w: Weather)
    requires Inv(h, x) && i in x.callers && x.callers[i].Circuit? && x.callers[i].pc.Inserting?
    ensures Inv(h, CircuitStep(h, x, i, x.callers[i], w))
  {
    var c := x.callers[i];
    var p := c.cmd.path;
    var y := CircuitStep(h, x, i, c, w);
    assert CallerOk(h, x, i) && LogOk(h, x.files[p]);
    assert !Wrote(x, i, p);
    var (file, r) := Insert(i, x.files[p], c.cmd, w.fault);
    InsertKeepsLog(h, i, x.files[p], c.cmd, w.fault);
    assert y.files == x.files[p := file] && y.callers == x.callers[i := c.Finished(r)];
    InsertedFacts(x, i, file, r, w.fault);
    hide LogOk, Insert;
    AuthoredAfter(h, x, y, i, file, r);
    CallersAfter(h, x, y, i, file, r);
  }

  /** The effects of an insert, in one place. */
  predicate Wrote1(x: World, i: nat, file: Container, r: Result)
    requires i in x.callers && x.callers[i].Circuit? && x.callers[i].cmd.path in x.files
  {
    var c := x.files[x.callers[i].cmd.path];
    || (file == c && !r.Appended?)
    || (file.authors == c.authors + [i] && file.rows == c.rows + [RowOf(x.callers[i].cmd, c.lastSeq + 1)]
        && (r == Appended(c.lastSeq + 1) || r == Blocked("write_failed")) && (c.Canonical() ==> file.Canonical()))
  }

  lemma InsertedFacts(x: World, i: nat, file: Container, r: Result, f: Fault)
    requires i in x.callers && x.callers[i].Circuit? && x.callers[i].cmd.path in x.files
    requires (file, r) == Insert(i, x.files[x.callers[i].cmd.path], x.callers[i].cmd, f)
    ensures Wrote1(x, i, file, r)
  {
  }

  lemma AuthoredAfter(h: Hashes, x: World, y: World, i: nat, file: Container, r: Result)
    requires Inv(h, x) && i in x.callers && x.callers[i].Circuit? && x.callers[i].pc.Inserting?
    requires x.callers[i].cmd.path in x.files && |x.files[x.callers[i].cmd.path].rows| == x.callers[i].cmd.expectedRows
    requires |x.files[x.callers[i].cmd.path].authors| == |x.files[x.callers[i].cmd.path].rows|
    requires Wrote1(x, i, file, r) && y.files == x.files[x.callers[i].cmd.path := file]
    requires y.callers == x.callers[i := x.callers[i].Finished(r)]
    ensures forall p, k :: p in y.files && 0 <= k < |y.files[p].authors| && k < |y.files[p].rows| ==> Authored(y, p, k)
  {
    hide LogOk;
    var path := x.callers[i].cmd.path;
    forall p, k | p in y.files && 0 <= k < |y.files[p].authors| && k < |y.files[p].rows|
      ensures Authored(y, p, k)
    {
      if p != path || k < |x.files[path].rows| { assert Authored(x, p, k); }
    }
  }

  lemma CallersAfter(h: Hashes, x: World, y: World, i: nat, file: Container, r: Result)
    requires Inv(h, x) && i in x.callers && x.callers[i].Circuit? && x.callers[i].pc.Inserting?
    requires x.callers[i].cmd.path in x.files && Wrote1(x, i, file, r)
    requires y.files == x.files[x.callers[i].cmd.path := file] && y.holder.None?
    requires y.callers == x.callers[i := x.callers[i].Finished(r)]
    ensures forall j :: j in y.callers ==> CallerOk(h, y, j)
  {
    hide LogOk, Authored;
    var path := x.callers[i].cmd.path;
    assert CallerOk(h, x, i);
    assert forall j, p :: Wrote(x, j, p) ==> Wrote(y, j, p);
    assert forall j, p :: Wrote(y, j, p) && j != i ==> Wrote(x, j, p);
    forall j | j in y.callers ensures CallerOk(h, y, j) {
      assert CallerOk(h, x, j);
      if j == i && r.Appended? { assert file.authors[|file.authors| - 1] == i; }
    }
  }

  lemma NextKeepsInv(h: Hashes, x: World, e: Event)
    requires Inv(h, x)
    ensures Inv(h, Next(h, x, e))
  {
    hide Inv, CircuitStep, InitStep, Gate;
    if !e.Step? {
      if e.i !in x.callers { CallKeepsInv(h, x, e); }
    } else if e.i in x.callers {
      var c := x.callers[e.i];
      if c.Initializer? { InitKeepsInv(h, x, e.i, e.w); }
      else if c.pc.Inserting? { CircuitInserts(h, x, e.i, e.w); }
      else { CircuitMoves(h, x, e.i, e.w); }
    }
  }

  lemma {:induction false} RunKeepsInv(h: Hashes, es: seq<Event>)
    ensures Inv(h, Run(h, NOWHERE, es))
    decreases |es|
  {
    hide Inv, Next;
    if es == [] {
      InvAtFirst(h);
    } else {
      RunKeepsInv(h, es[..|es| - 1]);
      NextKeepsInv(h, Run(h, NOWHERE, es[..|es| - 1]), es[|es| - 1]);
    }
  }

  // ---- what the circuit promises ---------------------------------------------------------------

  /** The rows after one step: the same, or one more, appended by a circuit that expected exactly the rows
      there were and that is told so, unless its commit was wrongly reported as failed. */
  predicate AppendsAtMostOne(x: World, y: World, e: Event, p: Path)
    requires p in x.files && p in y.files
  {
    var was, now := x.files[p].rows, y.files[p].rows;
    now == was ||
    (e.Step? && e.i in x.callers && e.i in y.callers && x.callers[e.i].Circuit? && y.callers[e.i].Circuit?
     && x.callers[e.i].cmd.path == p && x.callers[e.i].cmd.expectedRows == |was|
     && |now| == |was| + 1 && now == was + [RowOf(x.callers[e.i].cmd, now[|was|].seqNo)]
     && y.callers[e.i].pc.Done?
     && (y.callers[e.i].result == Appended(now[|was|].seqNo) || y.callers[e.i].result == Blocked("write_failed")))
  }

  lemma StepAppends(h: Hashes, x: World, e: Event)
    requires Inv(h, x)
    ensures forall p :: p in x.files ==> p in Next(h, x, e).files && AppendsAtMostOne(x, Next(h, x, e), e, p)
  {
    hide Inv, InitStep, Gate;
    if !e.Step? {
      if e.i !in x.callers { CallKeepsInv(h, x, e); }
    } else if e.i in x.callers {
      var c := x.callers[e.i];
      if c.Initializer? { InitKeepsInv(h, x, e.i, e.w); }
      else if c.pc.Inserting? { InsertAppends(h, x, e.i, e.w); }
      else { hide CircuitStep; CircuitMoves(h, x, e.i, e.w); }
    }
  }

  lemma InsertAppends(h: Hashes, x: World, i: nat, w: Weather)
    requires Inv(h, x) && i in x.callers && x.callers[i].Circuit? && x.callers[i].pc.Inserting?
    ensures var y := CircuitStep(h, x, i, x.callers[i], w);
      forall p :: p in x.files ==> p in y.files && AppendsAtMostOne(x, y, Step(i, w), p)
  {
    hide LogOk, Authored;
    assert CallerOk(h, x, i);
  }

  /** At every moment every row was appended by its own circuit call, which expected exactly the rows before
      it; rows are numbered upwards, unique by evidence and target, and freshly bound. */
  lemma CompareAndAppend(h: Hashes, es: seq<Event>, p: Path)
    requires p in Run(h, NOWHERE, es).files
    ensures var x := Run(h, NOWHERE, es);
      LogOk(h, x.files[p]) && forall k :: 0 <= k < |x.files[p].rows| ==> Authored(x, p, k)
  {
    hide LogOk, Authored;
    RunKeepsInv(h, es);
    LengthsAgree(h, Run(h, NOWHERE, es).files[p]);
  }

  lemma LengthsAgree(h: Hashes, c: Container)
    requires LogOk(h, c)
    ensures |c.authors| == |c.rows|
  {
  }

  // ---- what a failed write stands for ----------------------------------------------------------

  /** Event `e` is the insert of circuit `i`, for a key that is free, and its commit takes effect but is
      reported as failed. */
  predicate InsertLied(x: World, e: Event, i: nat) {
    && e.Step? && e.i == i && i in x.callers && x.callers[i].Circuit? && x.callers[i].pc.Inserting? && e.w.fault.Lied?
    && var cmd := x.callers[i].cmd;
       cmd.path in x.files && !Has(x.files[cmd.path], cmd.evidence, cmd.target)
  }

  predicate LiedTo(h: Hashes, es: seq<Event>, i: nat)
    decreases |es|
  {
    es != [] && (LiedTo(h, es[..|es| - 1], i) || InsertLied(Run(h, NOWHERE, es[..|es| - 1]), es[|es| - 1], i))
  }

  /** A circuit that was told that its write failed although its row is in the log. */
  ghost predicate WroteUnknowingly(x: World, i: nat) {
    && i in x.callers && x.callers[i].Circuit? && x.callers[i].pc.Done?
       && x.callers[i].result == Blocked("write_failed")
    && exists p :: Wrote(x, i, p)
  }

  lemma QuietWrites(x: World, y: World)
    requires QuietFiles(x, y)
    ensures forall i, p :: Wrote(y, i, p) <==> Wrote(x, i, p)
  {
  }

  lemma QuietTells(h: Hashes, x: World, y: World, j: nat, i: nat)
    requires Inv(h, x) && QuietFiles(x, y) && j in y.callers && y.callers == x.callers[j := y.callers[j]]
    requires j in x.callers && x.callers[j].pc.Done? ==> y.callers[j] == x.callers[j]
    requires j in x.callers ==> x.callers[j].Circuit? == y.callers[j].Circuit?
    ensures WroteUnknowingly(y, i) <==> WroteUnknowingly(x, i)
  {
    QuietWrites(x, y);
    hide LogOk, Authored, QuietFiles;
    if i == j && i !in x.callers { NeverWrote(h, x, i); }
    if i == j && i in x.callers { assert CallerOk(h, x, i); }
  }

  lemma DoneInitStays(x: World, i: nat, w: Weather)
    requires i in x.callers && x.callers[i].Initializer?
    ensures x.callers[i].pc.Done? ==> InitStep(x, i, x.callers[i], w) == x
  {
  }

  lemma CircuitStepMovesOne(h: Hashes, x: World, i: nat, w: Weather)
    requires i in x.callers && x.callers[i].Circuit? && !x.callers[i].pc.Inserting?
    requires InDbPhase(x.callers[i].pc) ==> x.holder == Some(i)
    requires x.callers[i].pc.Verifying? || x.callers[i].pc.Precheck? ==> x.callers[i].cmd.path in x.files
    ensures var y := CircuitStep(h, x, i, x.callers[i], w);
      i in y.callers && y.callers == x.callers[i := y.callers[i]] && y.callers[i].Circuit?
  {
    hide CircuitStep;
    ReadersMove(h, x, i, w);
    assert x.callers == x.callers[i := x.callers[i]];
  }

  lemma CallTells(h: Hashes, x: World, e: Event, i: nat)
    requires Inv(h, x) && !e.Step? && e.i !in x.callers
    ensures WroteUnknowingly(Next(h, x, e), i) <==> WroteUnknowingly(x, i)
  {
    CallKeepsInv(h, x, e);
    hide Inv, Gate, QuietFiles;
    QuietTells(h, x, Next(h, x, e), e.i, i);
  }

  lemma InsertTells(h: Hashes, x: World, j: nat, w: Weather, i: nat)
    requires Inv(h, x) && j in x.callers && x.callers[j].Circuit? && x.callers[j].pc.Inserting?
    ensures WroteUnknowingly(CircuitStep(h, x, j, x.callers[j], w), i) <==>
        WroteUnknowingly(x, i) || InsertLied(x, Step(j, w), i)
  {
    hide LogOk, Authored;
    assert CallerOk(h, x, j);
    var y := CircuitStep(h, x, j, x.callers[j], w);
    var path := x.callers[j].cmd.path;
    var (file, r) := Insert(j, x.files[path], x.callers[j].cmd, w.fault);
    assert y.files == x.files[path := file] && y.callers == x.callers[j := x.callers[j].Finished(r)];
    InsertedAuthors(j, x.files[path], x.callers[j].cmd, w.fault);
    hide Insert, CircuitStep, Has, Inv;
    if i == j {
      assert forall p :: !Wrote(x, i, p);
      assert forall p :: Wrote(y, i, p) ==> p == path;
      assert Wrote(y, i, path) <==> file != x.files[path];
    } else {
      assert forall p :: Wrote(y, i, p) <==> Wrote(x, i, p);
    }
  }

  /** An insert adds its author or changes nothing; it says that it failed although it did not only if the
      commit lied. */
  lemma InsertedAuthors(i: nat, c: Container, cmd: Command, f: Fault)
    ensures var (file, r) := Insert(i, c, cmd, f);
      && (file == c || file.authors == c.authors + [i])
      && (file != c && r == Blocked("write_failed") <==> f.Lied? && !Has(c, cmd.evidence, cmd.target))
  {
    hide Has;
    assert |c.authors + [i]| != |c.authors|;
  }

  lemma StepTells(h: Hashes, x: World, e: Event, i: nat)
    requires Inv(h, x)
    ensures WroteUnknowingly(Next(h, x, e), i) <==> WroteUnknowingly(x, i) || InsertLied(x, e, i)
  {
    hide Inv, CircuitStep, InitStep, Gate, WroteUnknowingly, QuietFiles;
    if !e.Step? {
      if e.i !in x.callers { CallTells(h, x, e, i); }
    } else if e.i in x.callers {
      var c := x.callers[e.i];
      if c.Initializer? {
        InitKeepsInv(h, x, e.i, e.w);
        InitProvisions(x, e.i, e.w);
        DoneInitStays(x, e.i, e.w);
        QuietTells(h, x, InitStep(x, e.i, c, e.w), e.i, i);
      } else if c.pc.Inserting? {
        InsertTells(h, x, e.i, e.w, i);
      } else {
        CircuitMoves(h, x, e.i, e.w);
        assert CallerOk(h, x, e.i) by { CallersOk(h, x); }
        CircuitStepMovesOne(h, x, e.i, e.w);
        if c.pc.Done? { DoneStays(h, x, e.i, e.w); }
        QuietTells(h, x, CircuitStep(h, x, e.i, c, e.w), e.i, i);
      }
    }
  }

  lemma CallersOk(h: Hashes, x: World)
    requires Inv(h, x)
    ensures forall i :: i in x.callers ==> CallerOk(h, x, i)
  {
  }

  /** A circuit is told that its write failed while its row stands exactly when its own insert met a commit
      that took effect and was reported as failed. */
  lemma {:induction false} ToldWrongExactlyWhen(h: Hashes, es: seq<Event>, i: nat)
    ensures WroteUnknowingly(Run(h, NOWHERE, es), i) <==> LiedTo(h, es, i)
    decreases |es|
  {
    hide Inv, Next, WroteUnknowingly, InsertLied;
    if es == [] {
      assert !WroteUnknowingly(NOWHERE, i) by { NobodyWrote(i); }
    } else {
      var front := es[..|es| - 1];
      ToldWrongExactlyWhen(h, front, i);
      RunKeepsInv(h, front);
      StepTells(h, Run(h, NOWHERE, front), es[|es| - 1], i);
    }
  }

  lemma NobodyWrote(i: nat)
    ensures !WroteUnknowingly(NOWHERE, i)
  {
  }

  /** A success stands for exactly one row, the one numbered as it says, at the position its command
      expected; a failed write stands for one exactly when its own commit took effect and was reported as
      failed; any other result stands for none. */
  lemma ResultTellsTheRow(h: Hashes, es: seq<Event>, i: nat)
    requires i in Run(h, NOWHERE, es).callers && Run(h, NOWHERE, es).callers[i].Circuit?
        && Run(h, NOWHERE, es).callers[i].pc.Done?
    ensures var x := Run(h, NOWHERE, es);
      var c := x.callers[i];
      && (c.result.Appended? ==>
            c.cmd.path in x.files && 0 <= c.cmd.expectedRows < |x.files[c.cmd.path].rows| ==
                |x.files[c.cmd.path].authors|
            && x.files[c.cmd.path].authors[c.cmd.expectedRows] == i
            && x.files[c.cmd.path].rows[c.cmd.expectedRows] == RowOf(c.cmd, c.result.seqNo))
      && ((exists p :: Wrote(x, i, p)) <==> c.result.Appended? || LiedTo(h, es, i))
      && (LiedTo(h, es, i) ==> c.result == Blocked("write_failed"))
      && (forall p, q :: Wrote(x, i, p) && Wrote(x, i, q) ==> p == q)
  {
    RunKeepsInv(h, es);
    ToldWrongExactlyWhen(h, es, i);
    var x := Run(h, NOWHERE, es);
    var c := x.callers[i];
    assert CallerOk(h, x, i);
    hide LiedTo, Run;
    forall p | Wrote(x, i, p)
      ensures p == c.cmd.path && 0 <= c.cmd.expectedRows < |x.files[p].rows| == |x.files[p].authors|
      ensures x.files[p].authors[c.cmd.expectedRows] == i && Authored(x, p, c.cmd.expectedRows)
    {
      assert LogOk(h, x.files[p]);
      var k :| 0 <= k < |x.files[p].authors| && x.files[p].authors[k] == i;
      assert Authored(x, p, k);
    }
  }

  /** Never are two circuits between verification and append. */
  lemma SingleFlight(h: Hashes, es: seq<Event>, i: nat, j: nat)
    requires i in Run(h, NOWHERE, es).callers && j in Run(h, NOWHERE, es).callers
    requires Run(h, NOWHERE, es).callers[i].Circuit? && Run(h, NOWHERE, es).callers[j].Circuit?
    requires InDbPhase(Run(h, NOWHERE, es).callers[i].pc) && InDbPhase(Run(h, NOWHERE, es).callers[j].pc)
    ensures i == j
  {
    RunKeepsInv(h, es);
    assert CallerOk(h, Run(h, NOWHERE, es), i) && CallerOk(h, Run(h, NOWHERE, es), j);
  }

  /** Old rows are never changed or removed. */
  lemma {:induction false} OldRowsStay(h: Hashes, es: seq<Event>, more: seq<Event>, p: Path)
    requires p in Run(h, NOWHERE, es).files
    ensures p in Run(h, NOWHERE, es + more).files
    ensures Run(h, NOWHERE, es).files[p].rows <= Run(h, NOWHERE, es + more).files[p].rows
    decreases |more|
  {
    hide Inv, Next;
    if more == [] {
      assert es + more == es;
    } else {
      var front, e := more[..|more| - 1], more[|more| - 1];
      OldRowsStay(h, es, front, p);
      assert (es + more)[..|es + more| - 1] == es + front && (es + more)[|es + more| - 1] == e;
      RunKeepsInv(h, es + front);
      StepAppends(h, Run(h, NOWHERE, es + front), e);
    }
  }
}
