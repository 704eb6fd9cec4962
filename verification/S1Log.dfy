/** The append-only S1 container: the append circuit with its writer, and the initializer, as steps of
    concurrent callers that share one single-flight lock. */
module S1Log {
  import opened Wrappers
  import opened Faults

  type Path = string

  const REVIEWABLE := "REVIEWABLE_FOR_S1_APPEND"
  const CONTAINER_OK := "CREATED_EMPTY_LOCKED_CONTAINER"

  /** Hashes are uninterpreted: `freshness` binds a snapshot to its digests, `writer` the writer's request. */
  datatype Hashes = Hashes(freshness: Bound -> string, writer: Fields -> string, canonical: string)

  datatype Bound = Bound(snapshotRef: string, evidence: string, target: string, payload: string, approval: string)
  datatype Fields = Fields(decision: string, bound: Bound, freshness: string, operator: string, createdAt: string)

  datatype Command = Command(
    operator: string, path: Path, target: string, evidence: string, payload: string, approval: string,
    freshness: string, snapshotRef: string, createdAt: string, decisionDigest: string, initDigest: string,
    writerDigest: string, schemaVersion: string, fingerprint: string, expectedRows: int,
    trigger: string, authRequired: bool)
  {
    function Binding(): Bound { Bound(snapshotRef, evidence, target, payload, approval) }
  }

  datatype Decision = Decision(status: string, digest: string)
  datatype InitResult = InitResult(status: string, digest: string)
  datatype InitRequest = InitRequest(path: Path, schemaVersion: string, mode: int, valid: bool, parentOk: bool)

  // ---- the container ---------------------------------------------------------------------------

  datatype Row = Row(seqNo: int, bound: Bound, freshness: string, operator: string, createdAt: string)

  /** `lastSeq` is the AUTOINCREMENT counter; `authors` are the callers whose inserts committed, which the code
      does not record. */
  datatype Container = Container(
    mode: int, wal: bool, table: bool, noUpdate: bool, noDelete: bool, legacy: bool,
    rows: seq<Row>, lastSeq: int, authors: seq<nat>)
  {
    predicate Canonical() { table && noUpdate && noDelete }
  }

  function FreshFile(mode: int): Container { Container(mode, true, false, false, false, false, [], 0, []) }

  predicate SameKey(a: Row, b: Row) { a.bound.evidence == b.bound.evidence && a.bound.target == b.bound.target }

  predicate Has(c: Container, evidence: string, target: string) {
    exists k :: 0 <= k < |c.rows| && c.rows[k].bound.evidence == evidence && c.rows[k].bound.target == target
  }

  // ---- results ---------------------------------------------------------------------------------

  datatype Result =
    | Appended(seqNo: int)
    | Blocked(reason: string)
    | BlockedDuplicate
    | BlockedRecovery
    | BlockedTamper(reason: string)
    | Ready(created: bool)

  /** What a step meets outside the container: sidecar files, failing reads, a failing integrity check, a
      commit that fails or lies, the mode a new file gets. */
  datatype Weather = Weather(sidecar: bool, readFails: bool, intact: bool, fault: Fault, umask: int)

  // ---- gates before the database ---------------------------------------------------------------

  function Validate(c: Command): string {
    if c.operator == "" || c.path == "" || c.target == "" || c.evidence == "" || c.payload == "" || c.approval == ""
      || c.freshness == "" || c.snapshotRef == "" || c.createdAt == "" || c.decisionDigest == "" || c.initDigest == ""
      || c.writerDigest == "" || c.schemaVersion == "" || c.fingerprint == "" then "missing_required_field"
    else if c.trigger != "" then "external_ingress_forbidden"
    else if !c.authRequired then "auth_required_not_implemented"
    else ""
  }

  function Bind(h: Hashes, c: Command, d: Decision, q: InitRequest, r: InitResult): string {
    if d.status == "AUTHORIZED" then "decision_treated_as_authorized"
    else if d.status != REVIEWABLE then "decision_not_reviewable"
    else if c.decisionDigest != d.digest then "decision_digest_mismatch"
    else if r.status != CONTAINER_OK then "container_not_created"
    else if c.initDigest != r.digest then "initializer_digest_mismatch"
    else if c.path != q.path then "db_path_mismatch"
    else if c.schemaVersion != q.schemaVersion then "schema_version_mismatch"
    else if c.freshness != h.freshness(c.Binding()) then "freshness_binding_mismatch"
    else if c.writerDigest != h.writer(Fields(REVIEWABLE, c.Binding(), c.freshness, c.operator, c.createdAt))
      then "writer_request_digest_mismatch"
    else ""
  }

  function Gate(h: Hashes, c: Command, d: Decision, q: InitRequest, r: InitResult): string {
    if Validate(c) != "" then Validate(c) else Bind(h, c, d, q, r)
  }

  /** The writer checks its request again before it touches the container. */
  function WriterGate(h: Hashes, c: Command): string {
    if c.freshness != h.freshness(c.Binding()) then "freshness_binding_mismatch" else ""
  }

  // ---- steps of the database phase -------------------------------------------------------------

  /** Why a container is refused, or the empty string; a row count of None is not compared. */
  function VerifyContainer(c: Container, mode: Option<int>, expected: Option<int>, w: Weather): string {
    if mode.Some? && c.mode != mode.value then "file_mode_mismatch"
    else if w.readFails then "introspection_failed"
    else if c.legacy && c.table then "forbidden_dual_table"
    else if c.legacy then "forbidden_legacy_table"
    else if !c.table then "schema_mismatch"
    else if !w.intact then "integrity_failure"
    else if !c.Canonical() then "schema_fingerprint_mismatch"
    else if !c.wal then "journal_fingerprint_mismatch"
    else if expected.Some? && |c.rows| != expected.value then "nonzero_rows"
    else ""
  }

  function RowOf(c: Command, n: int): Row { Row(n, c.Binding(), c.freshness, c.operator, c.createdAt) }

  /** The single transaction of the writer. A committed insert may still be reported as failed. */
  function Insert(i: nat, c: Container, cmd: Command, f: Fault): (Container, Result) {
    if f.Lost? then (c, Blocked("write_failed"))
    else if Has(c, cmd.evidence, cmd.target) then (c, BlockedDuplicate)
    else
      var n := c.lastSeq + 1;
      (c.(rows := c.rows + [RowOf(cmd, n)], lastSeq := n, authors := c.authors + [i]),
       if f.Fine? then Appended(n) else Blocked("write_failed"))
  }

  // ---- callers ---------------------------------------------------------------------------------

  datatype Pc =
    | Locking | Suspect | Precheck | Verifying | Fingerprinting | WriterChecks | WriterVerifies | Inserting
    | Starting | MakeFile | MakeTable | MakeNoUpdate | MakeNoDelete | MakeMode
    | Done

  datatype Caller =
    | Circuit(cmd: Command, mode: int, pc: Pc, result: Result)
    | Initializer(req: InitRequest, pc: Pc, result: Result)
  {
    /** The same call at another point, or done with a result. */
    function To(pc: Pc): Caller { if Circuit? then Circuit(cmd, mode, pc, result) else Initializer(req, pc, result) }
    function Finished(r: Result): Caller { if Circuit? then Circuit(cmd, mode, Done, r) else Initializer(req, Done, r) }
  }

  datatype World = World(files: map<Path, Container>, holder: Option<nat>, callers: map<nat, Caller>)

  datatype Event =
    | CallCircuit(i: nat, cmd: Command, d: Decision, q: InitRequest, r: InitResult)
    | CallInitializer(i: nat, req: InitRequest)
    | Step(i: nat, w: Weather)

  predicate InDbPhase(pc: Pc) {
    pc.Suspect? || pc.Precheck? || pc.Verifying? || pc.Fingerprinting? || pc.WriterChecks? || pc.WriterVerifies?
        || pc.Inserting?
  }

  function At(x: World, i: nat, c: Caller): World { x.(callers := x.callers[i := c]) }

  /** The circuit returns and lets the lock go. */
  function Return(x: World, i: nat, c: Caller, r: Result): World
    requires c.Circuit?
  {
    At(x, i, c.Finished(r)).(holder := None)
  }

  function Go(x: World, i: nat, c: Caller, pc: Pc): World
    requires c.Circuit?
  {
    At(x, i, c.To(pc))
  }

  function CircuitStep(h: Hashes, x: World, i: nat, c: Caller, w: Weather): World
    requires c.Circuit?
  {
    var cmd := c.cmd;
    match c.pc
    case Locking =>
      if x.holder.Some? then At(x, i, c.Finished(Blocked("race_lock_unavailable")))
      else Go(x, i, c, Suspect).(holder := Some(i))
    case Suspect =>
      if cmd.path !in x.files || w.sidecar then Return(x, i, c, BlockedRecovery) else Go(x, i, c, Precheck)
    case Precheck =>
      if !w.readFails && cmd.path in x.files && x.files[cmd.path].table
          && Has(x.files[cmd.path], cmd.evidence, cmd.target)
      then Return(x, i, c, BlockedDuplicate) else Go(x, i, c, Verifying)
    case Verifying =>
      if cmd.path !in x.files then Return(x, i, c, BlockedTamper("introspection_failed"))
      else
        var reason := VerifyContainer(x.files[cmd.path], Some(c.mode), Some(cmd.expectedRows), w);
        if reason != "" then Return(x, i, c, BlockedTamper(reason)) else Go(x, i, c, Fingerprinting)
    case Fingerprinting =>
      if w.readFails || cmd.path !in x.files then Return(x, i, c, BlockedTamper("introspection_failed"))
      else if !x.files[cmd.path].Canonical() || cmd.fingerprint != h.canonical
          then Return(x, i, c, BlockedTamper("fingerprint_mismatch"))
      else Go(x, i, c, WriterChecks)
    case WriterChecks =>
      if WriterGate(h, cmd) != "" then Return(x, i, c, Blocked(WriterGate(h, cmd)))
      else if w.sidecar then Return(x, i, c, BlockedRecovery)
      else Go(x, i, c, WriterVerifies)
    case WriterVerifies =>
      if cmd.path !in x.files then Return(x, i, c, Blocked("introspection_failed"))
      else
        var reason := VerifyContainer(x.files[cmd.path], None, None, w);
        if reason != "" then Return(x, i, c, Blocked(reason)) else Go(x, i, c, Inserting)
    case Inserting =>
      if cmd.path !in x.files then Return(x, i, c, Blocked("write_failed"))
      else
        var (file, r) := Insert(i, x.files[cmd.path], cmd, w.fault);
        Return(x.(files := x.files[cmd.path := file]), i, c, r)
    case _ => x
  }

  function Ends(x: World, i: nat, c: Caller, r: Result): World
    requires c.Initializer?
  {
    At(x, i, c.Finished(r))
  }

  function VerifyExisting(c: Container, mode: int, w: Weather): Result {
    if c.mode != mode then Blocked("file_mode_mismatch")
    else if w.readFails then Blocked("initialization_failed")
    else if c.legacy && c.table then Blocked("forbidden_dual_table")
    else if c.legacy then Blocked("forbidden_legacy_table")
    else if !c.table then Blocked("schema_mismatch")
    else if !c.wal then Blocked("wrong_pragma")
    else if !c.Canonical() then Blocked("missing_triggers")
    else if c.rows != [] then Blocked("nonzero_rows")
    else Ready(false)
  }

  /** One statement of the initializer: every CREATE commits by itself and fails where its object exists. */
  function InitStep(x: World, i: nat, c: Caller, w: Weather): World
    requires c.Initializer?
  {
    var p := c.req.path;
    match c.pc
    case Starting =>
      if w.sidecar then Ends(x, i, c, BlockedRecovery)
      else if p in x.files then Ends(x, i, c, VerifyExisting(x.files[p], c.req.mode, w))
      else At(x, i, c.To(MakeFile))
    case MakeFile =>
      if w.fault.Lost? then Ends(x, i, c, Blocked("initialization_failed"))
      else At(x.(files := if p in x.files then x.files[p := x.files[p].(wal := true)]
          else x.files[p := FreshFile(w.umask)]), i, c.To(MakeTable))
    case MakeTable =>
      if w.fault.Lost? || p !in x.files || x.files[p].table then Ends(x, i, c, Blocked("initialization_failed"))
      else At(x.(files := x.files[p := x.files[p].(table := true)]), i, c.To(MakeNoUpdate))
    case MakeNoUpdate =>
      if w.fault.Lost? || p !in x.files || x.files[p].noUpdate then Ends(x, i, c, Blocked("initialization_failed"))
      else At(x.(files := x.files[p := x.files[p].(noUpdate := true)]), i, c.To(MakeNoDelete))
    case MakeNoDelete =>
      if w.fault.Lost? || p !in x.files || x.files[p].noDelete then Ends(x, i, c, Blocked("initialization_failed"))
      else At(x.(files := x.files[p := x.files[p].(noDelete := true)]), i, c.To(MakeMode))
    case MakeMode =>
      if w.fault.Lost? || p !in x.files then Ends(x, i, c, Blocked("initialization_failed"))
      else Ends(x.(files := x.files[p := x.files[p].(mode := c.req.mode)]), i, c, Ready(true))
    case _ => x
  }

  function Next(h: Hashes, x: World, e: Event): World {
    match e
    case CallCircuit(i, cmd, d, q, r) =>
      if i in x.callers then x
      else if Gate(h, cmd, d, q, r) != "" then At(x, i, Circuit(cmd, q.mode, Done, Blocked(Gate(h, cmd, d, q, r))))
      else At(x, i, Circuit(cmd, q.mode, Locking, Blocked("")))
    case CallInitializer(i, req) =>
      if i in x.callers then x
      else if !req.valid || !req.parentOk then At(x, i, Initializer(req, Done, Blocked("policy")))
      else At(x, i, Initializer(req, Starting, Blocked("")))
    case Step(i, w) =>
      if i !in x.callers then x
      else if x.callers[i].Circuit? then CircuitStep(h, x, i, x.callers[i], w)
      else InitStep(x, i, x.callers[i], w)
  }

  function Run(h: Hashes, x: World, es: seq<Event>): World
    decreases |es|
  {
    if es == [] then x else Next(h, Run(h, x, es[..|es| - 1]), es[|es| - 1])
  }
}
