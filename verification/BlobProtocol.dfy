/** The content-addressed blob publisher as a conversation with the system-call seam.

    `NextCall` says which call the publisher makes in a local state, `Resume` what it does with the
    reply.  Nothing here knows what a call does to a disk: that is `BlobKernel`.  The imperative
    adapter in `BlobAdapter` is proved to hold exactly this conversation. */
module BlobProtocol {
  import opened Wrappers

  type Byte = bv8
  type Bytes = seq<Byte>
  type Digest = string
  type Ino = int
  type Fd = int

  const MAX_BLOB_BYTES := 1_048_576
  const DIR_MODE := 0x1C0   // 0o700, the store root and its shards
  const BLOB_MODE := 0x180  // 0o600
  const PAYLOAD_KIND := "diag-edge-probe-v1"

  datatype Kind = Directory | Regular | Special

  datatype Stat = Stat(kind: Kind, uid: int, mode: int, size: nat, ino: Ino)

  datatype Errno = EEXIST | ELOOP | ENOTDIR | ENOSYS | EOTHER

  /** The names the publisher uses; `Spell` gives their text. */
  datatype Name = Temp(digest: Digest) | Target(digest: Digest) | Shard(prefix: string) | Stray(text: string)

  datatype Call =
    | OpenRoot
    | Mkdir(dir: Fd, name: Name, mode: int)
    | OpenDir(dir: Fd, name: Name)
    | CreateExclusive(dir: Fd, name: Name, mode: int)
    | OpenBlob(dir: Fd, name: Name)
    | Write(fd: Fd, data: Bytes)
    | Pread(fd: Fd, count: nat, offset: nat)
    | Fstat(fd: Fd)
    | Fchmod(fd: Fd, mode: int)
    | Fsync(fd: Fd)
    | RenameNoReplace(dir: Fd, from: Name, to: Name)
    | Unlink(dir: Fd, name: Name)
    | Close(fd: Fd)

  datatype Reply = Fail(errno: Errno) | Done | Got(fd: Fd) | Wrote(n: int) | Chunk(bytes: Bytes) | Info(st: Stat)

  datatype Status =
    | PersistedNew | VerifiedExistingNoop | SnapshotValidationFailed
    | BlobPersistFailed | CriticalCollisionDetected | BlockedRecoveryRequired

  datatype Reason =
    | NoReason | InvalidDigest | SnapshotDigestMismatch | SnapshotRefMismatch | SnapshotByteLengthMismatch
    | SnapshotPayloadKindMismatch | ByteLengthExceedsLimit | RootMissing | RootIdentityChanged
    | OwnerMismatch | ModeMismatch | SymlinkOrNonregular | ShardDurabilityFailed | TempCreateFailed
    | WriteFailed | FileFsyncFailed | TempVerifyFailed | NoClobberUnavailable | PublishFailed
    | DirectoryFsyncFailed | FinalReadbackFailed | ContentHashMismatch | TempCleanupAmbiguous
    | AmbiguousPublicationState

  datatype Result = Result(status: Status, reason: Reason, createdNow: bool, durabilityVerified: bool) {
    predicate Success() { status.PersistedNew? || status.VerifiedExistingNoop? }
  }

  function Failure(s: Status, r: Reason): Result { Result(s, r, false, false) }

  function Blocked(r: Reason): Result { Failure(BlockedRecoveryRequired, r) }

  datatype Snapshot = Snapshot(digest: Digest, ref: string, byteLength: int, data: Bytes, payloadKind: string)

  /** What an adapter carries from its construction: the pinned root's identity and the expected owner. */
  datatype Config = Config(root: Ino, uid: int)

  predicate IsHex(c: char) { '0' <= c <= '9' || 'a' <= c <= 'f' }

  predicate IsLowerHex64(d: Digest) { |d| == 64 && forall i :: 0 <= i < |d| ==> IsHex(d[i]) }

  function Spell(n: Name): string {
    match n
    case Temp(d) => "." + d + ".tmp"
    case Target(d) => d + ".json"
    case Shard(p) => p
    case Stray(t) => t
  }

  lemma TempsAreDotted(d: Digest)
    requires IsLowerHex64(d)
    ensures Spell(Temp(d))[0] == '.' && Spell(Target(d))[0] != '.'
    ensures Spell(Temp(d))[1..65] == d && Spell(Target(d))[..64] == d
  {
    assert IsHex(d[0]);
  }

  /** No two names an adapter can use are spelled alike, so the constructors above lose nothing. */
  lemma SpellIsInjective(a: Name, b: Name)
    requires a.Temp? || a.Target? ==> IsLowerHex64(a.digest)
    requires b.Temp? || b.Target? ==> IsLowerHex64(b.digest)
    requires a.Shard? ==> |a.prefix| == 2
    requires b.Shard? ==> |b.prefix| == 2
    requires !a.Stray? && !b.Stray?
    requires Spell(a) == Spell(b)
    ensures a == b
  {
    if a.Temp? || a.Target? { TempsAreDotted(a.digest); }
    if b.Temp? || b.Target? { TempsAreDotted(b.digest); }
  }

  /** Where in the protocol a call of `persist_snapshot_blob` stands; each point but `Finished` makes
      exactly one system call. `X` points inspect an existing target, `C` points clean the temp up. */
  datatype Pc =
    | POpenRoot | PStatRoot
    | PMkShard | POpenShard | PChmodShard | PStatShard | PSyncShard | PSyncParent
    | PCreateTemp | PStatTemp | PWrite | PChmodTemp | PVerifyTemp | PSyncTemp | PReadTemp
    | PRename
    | PSyncDir | POpenTarget | PStatTarget | PSyncTarget | PReadTarget | PSyncDirAgain
    | XOpen | XStat | XRead | XSyncFile | XSyncDir
    | COpen | CStat | CClose | CUnlink | CSync
    | PClosing | Finished

  /** Descriptors by role. */
  datatype Slots = Slots(root: Fd, l1: Fd, shard: Fd, temp: Fd, target: Fd, clean: Fd)

  datatype Local = Local(
    cfg: Config, snap: Snapshot, pc: Pc,
    deep: bool,              // false while opening the first shard level, true for the second
    created: bool,           // mkdir of the level being opened succeeded
    fd: Slots,
    open: seq<Fd>,           // tracked descriptors, in order of opening
    tempId: Option<Ino>,
    total: int, buf: Bytes,
    same: bool,              // the reopened temp had our inode
    closeFailed: bool,
    outcome: Result)
  {
    function ParentFd(): Fd { if deep then fd.l1 else fd.root }
    function LevelFd(): Fd { if deep then fd.shard else fd.l1 }
    function LevelName(): Name
      requires IsLowerHex64(snap.digest)
    {
      if deep then Shard(snap.digest[2..4]) else Shard(snap.digest[0..2])
    }
    function TempName(): Name { Temp(snap.digest) }
    function TargetName(): Name { Target(snap.digest) }
    function Length(): nat { |snap.data| }
  }

  /** The reason a snapshot is refused before any system call, in the order the checks are made. */
  function Preflight(hash: Bytes -> Digest, s: Snapshot): Option<Reason> {
    if !IsLowerHex64(s.digest) then Some(InvalidDigest)
    else if hash(s.data) != s.digest then Some(SnapshotDigestMismatch)
    else if s.ref != PAYLOAD_KIND + ":sha256:" + s.digest then Some(SnapshotRefMismatch)
    else if s.byteLength != |s.data| then Some(SnapshotByteLengthMismatch)
    else if s.payloadKind != PAYLOAD_KIND then Some(SnapshotPayloadKindMismatch)
    else if s.byteLength > MAX_BLOB_BYTES then Some(ByteLengthExceedsLimit)
    else None
  }

  predicate Admitted(hash: Bytes -> Digest, s: Snapshot) { Preflight(hash, s).None? }

  lemma AdmittedMeans(hash: Bytes -> Digest, s: Snapshot)
    requires Admitted(hash, s)
    ensures IsLowerHex64(s.digest) && hash(s.data) == s.digest && s.byteLength == |s.data| <= MAX_BLOB_BYTES
  {
  }

  function Start(hash: Bytes -> Digest, cfg: Config, s: Snapshot): Local {
    var l := Local(cfg, s, POpenRoot, false, false, Slots(0, 0, 0, 0, 0, 0), [], None, 0, [], false, false,
        Blocked(NoReason));
    match Preflight(hash, s)
    case Some(r) => l.(pc := Finished, outcome := Failure(SnapshotValidationFailed, r))
    case None => l
  }

  function NextCall(l: Local): Call
    requires IsLowerHex64(l.snap.digest) && !l.pc.Finished?
    requires l.pc.PWrite? ==> 0 <= l.total < l.Length()
    requires l.pc.PReadTemp? || l.pc.PReadTarget? || l.pc.XRead? ==> |l.buf| < l.Length()
    requires l.pc.PClosing? ==> l.open != []
  {
    match l.pc
    case POpenRoot => OpenRoot
    case PStatRoot => Fstat(l.fd.root)
    case PMkShard => Mkdir(l.ParentFd(), l.LevelName(), DIR_MODE)
    case POpenShard => OpenDir(l.ParentFd(), l.LevelName())
    case PChmodShard => Fchmod(l.LevelFd(), DIR_MODE)
    case PStatShard => Fstat(l.LevelFd())
    case PSyncShard => Fsync(l.LevelFd())
    case PSyncParent => Fsync(l.ParentFd())
    case PCreateTemp => CreateExclusive(l.fd.shard, l.TempName(), BLOB_MODE)
    case PStatTemp | PVerifyTemp => Fstat(l.fd.temp)
    case PWrite => Write(l.fd.temp, l.snap.data[l.total..])
    case PChmodTemp => Fchmod(l.fd.temp, BLOB_MODE)
    case PSyncTemp => Fsync(l.fd.temp)
    case PReadTemp => Pread(l.fd.temp, l.Length() - |l.buf|, |l.buf|)
    case PRename => RenameNoReplace(l.fd.shard, l.TempName(), l.TargetName())
    case PSyncDir | PSyncDirAgain | XSyncDir | CSync => Fsync(l.fd.shard)
    case POpenTarget | XOpen => OpenBlob(l.fd.shard, l.TargetName())
    case PStatTarget | XStat => Fstat(l.fd.target)
    case PSyncTarget | XSyncFile => Fsync(l.fd.target)
    case PReadTarget | XRead => Pread(l.fd.target, l.Length() - |l.buf|, |l.buf|)
    case COpen => OpenBlob(l.fd.shard, l.TempName())
    case CStat => Fstat(l.fd.clean)
    case CClose => Close(l.fd.clean)
    case CUnlink => Unlink(l.fd.shard, l.TempName())
    case PClosing => Close(l.open[|l.open| - 1])
  }

  // ---- what a reply leads to -------------------------------------------------------------------

  function Go(l: Local, pc: Pc): Local { l.(pc := pc) }

  /** The body has its outcome: close the tracked descriptors. */
  function Stop(l: Local, r: Result): Local { l.(pc := PClosing, outcome := r) }

  /** The outcome `r` stands only if our temp can be removed under inode proof. */
  function Clean(l: Local, r: Result): Local { l.(pc := COpen, outcome := r) }

  function StopBlocked(l: Local, r: Reason): Local { Stop(l, Blocked(r)) }
  function CleanFailed(l: Local, r: Reason): Local { Clean(l, Failure(BlobPersistFailed, r)) }

  function AfterOpenRoot(l: Local, r: Reply): Local {
    if r.Got? then l.(open := l.open + [r.fd], fd := l.fd.(root := r.fd), pc := PStatRoot)
    else StopBlocked(l, if r == Fail(ELOOP) then SymlinkOrNonregular else RootMissing)
  }

  /** Why a directory's metadata is refused, or NoReason. */
  function DirReason(cfg: Config, st: Stat): Reason {
    if !st.kind.Directory? then SymlinkOrNonregular
    else if st.uid != cfg.uid then OwnerMismatch
    else if st.mode != DIR_MODE then ModeMismatch
    else NoReason
  }

  function AfterStatRoot(l: Local, r: Reply): Local {
    if r.Info? && DirReason(l.cfg, r.st).NoReason? && r.st.ino == l.cfg.root
        then l.(deep := false, created := false, pc := PMkShard)
    else StopBlocked(l, if !r.Info? then AmbiguousPublicationState
                        else if DirReason(l.cfg, r.st).NoReason? then RootIdentityChanged
                        else DirReason(l.cfg, r.st))
  }

  function AfterMkShard(l: Local, r: Reply): Local {
    if r.Done? || r == Fail(EEXIST) then l.(created := r.Done?, pc := POpenShard)
        else StopBlocked(l, ShardDurabilityFailed)
  }

  function AfterOpenShard(l: Local, r: Reply): Local {
    if r.Got? then
      l.(open := l.open + [r.fd],
         fd := if l.deep then l.fd.(shard := r.fd) else l.fd.(l1 := r.fd),
         pc := if l.created then PChmodShard else PStatShard)
    else StopBlocked(l, if r == Fail(ELOOP) || r == Fail(ENOTDIR) then SymlinkOrNonregular else ShardDurabilityFailed)
  }

  function AfterChmodShard(l: Local, r: Reply): Local {
    if r.Done? then Go(l, PStatShard) else StopBlocked(l, ShardDurabilityFailed)
  }

  /** A shard level is open, and durable when this call created it. */
  function LevelDone(l: Local): Local {
    l.(pc := if l.deep then PCreateTemp else PMkShard, deep := true, created := false)
  }

  function AfterStatShard(l: Local, r: Reply): Local {
    if r.Info? && DirReason(l.cfg, r.st).NoReason? then (if l.created then Go(l, PSyncShard) else LevelDone(l))
    else StopBlocked(l, if r.Info? then DirReason(l.cfg, r.st) else ShardDurabilityFailed)
  }

  function AfterSyncShard(l: Local, r: Reply): Local {
    if r.Done? then Go(l, PSyncParent) else StopBlocked(l, ShardDurabilityFailed)
  }

  function AfterSyncParent(l: Local, r: Reply): Local {
    if r.Done? then LevelDone(l) else StopBlocked(l, ShardDurabilityFailed)
  }

  function AfterCreateTemp(l: Local, r: Reply): Local {
    if r.Got? then l.(open := l.open + [r.fd], fd := l.fd.(temp := r.fd), pc := PStatTemp)
    else if r == Fail(EEXIST) then StopBlocked(l, AmbiguousPublicationState)
    else Stop(l, Failure(BlobPersistFailed, TempCreateFailed))
  }

  function StartWrite(l: Local): Local { Go(l, if l.total < l.Length() then PWrite else PChmodTemp) }

  /** Without an identity for the temp there is nothing to prove a cleanup with. */
  function AfterStatTemp(l: Local, r: Reply): Local {
    if r.Info? then StartWrite(l.(tempId := Some(r.st.ino), total := 0)) else StopBlocked(l, TempCleanupAmbiguous)
  }

  function AfterWrite(l: Local, r: Reply): Local {
    if r.Wrote? && r.n > 0 then StartWrite(l.(total := l.total + r.n)) else CleanFailed(l, WriteFailed)
  }

  function AfterChmodTemp(l: Local, r: Reply): Local {
    if r.Done? then Go(l, PVerifyTemp) else CleanFailed(l, TempVerifyFailed)
  }

  predicate BlobStatOk(l: Local, st: Stat) {
    st.kind.Regular? && st.uid == l.cfg.uid && st.mode == BLOB_MODE && st.size == l.Length()
  }

  function AfterVerifyTemp(l: Local, r: Reply): Local {
    if r.Info? && BlobStatOk(l, r.st) then Go(l, PSyncTemp) else CleanFailed(l, TempVerifyFailed)
  }

  predicate ReadBackOk(hash: Bytes -> Digest, l: Local) { |l.buf| == l.Length() && hash(l.buf) == l.snap.digest }

  function StartReadTemp(hash: Bytes -> Digest, l: Local): Local {
    if |l.buf| < l.Length() then Go(l, PReadTemp)
    else if ReadBackOk(hash, l) then Go(l, PRename)
    else CleanFailed(l, TempVerifyFailed)
  }

  function AfterSyncTemp(hash: Bytes -> Digest, l: Local, r: Reply): Local {
    if r.Done? then StartReadTemp(hash, l.(buf := [])) else CleanFailed(l, FileFsyncFailed)
  }

  function AfterReadTemp(hash: Bytes -> Digest, l: Local, r: Reply): Local {
    if r.Chunk? && r.bytes != [] then StartReadTemp(hash, l.(buf := l.buf + r.bytes))
        else CleanFailed(l, TempVerifyFailed)
  }

  function AfterRename(l: Local, r: Reply): Local {
    if r.Done? then Go(l, PSyncDir)
    else if r == Fail(EEXIST) then Go(l, XOpen)
    else CleanFailed(l, if r == Fail(ENOSYS) then NoClobberUnavailable else PublishFailed)
  }

  // -- after an acknowledged rename

  function AfterSyncDir(l: Local, r: Reply): Local {
    if r.Done? then Go(l, POpenTarget) else StopBlocked(l, DirectoryFsyncFailed)
  }

  function AfterOpenTarget(l: Local, r: Reply): Local {
    if r.Got? then l.(open := l.open + [r.fd], fd := l.fd.(target := r.fd), pc := PStatTarget)
    else StopBlocked(l, FinalReadbackFailed)
  }

  function AfterStatTarget(l: Local, r: Reply): Local {
    if r.Info? && BlobStatOk(l, r.st) then Go(l, PSyncTarget) else StopBlocked(l, FinalReadbackFailed)
  }

  function StartReadTarget(hash: Bytes -> Digest, l: Local): Local {
    if |l.buf| < l.Length() then Go(l, PReadTarget)
    else if ReadBackOk(hash, l) then Go(l, PSyncDirAgain)
    else Stop(l, Failure(CriticalCollisionDetected, ContentHashMismatch))
  }

  function AfterSyncTarget(hash: Bytes -> Digest, l: Local, r: Reply): Local {
    if r.Done? then StartReadTarget(hash, l.(buf := [])) else StopBlocked(l, FileFsyncFailed)
  }

  function AfterReadTarget(hash: Bytes -> Digest, l: Local, r: Reply): Local {
    if r.Chunk? && r.bytes != [] then StartReadTarget(hash, l.(buf := l.buf + r.bytes))
    else Stop(l, Failure(CriticalCollisionDetected, ContentHashMismatch))
  }

  function AfterSyncDirAgain(l: Local, r: Reply): Local {
    if r.Done? then Stop(l, Result(PersistedNew, NoReason, true, true)) else StopBlocked(l, DirectoryFsyncFailed)
  }

  // -- after a rename refused because the target exists

  function AfterXOpen(l: Local, r: Reply): Local {
    if r.Got? then l.(open := l.open + [r.fd], fd := l.fd.(target := r.fd), pc := XStat)
    else Clean(l, Blocked(if r == Fail(ELOOP) then SymlinkOrNonregular else AmbiguousPublicationState))
  }

  /** Why an existing target's metadata is refused; a wrong size counts as a collision. */
  function ExistingReason(l: Local, st: Stat): Result {
    if !st.kind.Regular? then Blocked(SymlinkOrNonregular)
    else if st.uid != l.cfg.uid then Blocked(OwnerMismatch)
    else if st.mode != BLOB_MODE then Blocked(ModeMismatch)
    else Failure(CriticalCollisionDetected, ContentHashMismatch)
  }

  function StartXRead(hash: Bytes -> Digest, l: Local): Local {
    if |l.buf| < l.Length() then Go(l, XRead)
    else if ReadBackOk(hash, l) then Go(l, XSyncFile)
    else Clean(l, Failure(CriticalCollisionDetected, ContentHashMismatch))
  }

  function AfterXStat(hash: Bytes -> Digest, l: Local, r: Reply): Local {
    if !r.Info? then Clean(l, Blocked(AmbiguousPublicationState))
    else if BlobStatOk(l, r.st) then StartXRead(hash, l.(buf := []))
    else Clean(l, ExistingReason(l, r.st))
  }

  function AfterXRead(hash: Bytes -> Digest, l: Local, r: Reply): Local {
    if r.Chunk? && r.bytes != [] then StartXRead(hash, l.(buf := l.buf + r.bytes))
    else Clean(l, Failure(CriticalCollisionDetected, ContentHashMismatch))
  }

  function AfterXSyncFile(l: Local, r: Reply): Local {
    if r.Done? then Go(l, XSyncDir) else Clean(l, Blocked(FileFsyncFailed))
  }

  function AfterXSyncDir(l: Local, r: Reply): Local {
    Clean(l, if r.Done? then Result(VerifiedExistingNoop, NoReason, false, true) else Blocked(DirectoryFsyncFailed))
  }

  // -- cleanup of our own temp

  function AfterCOpen(l: Local, r: Reply): Local {
    if r.Got? then l.(fd := l.fd.(clean := r.fd), pc := CStat) else StopBlocked(l, TempCleanupAmbiguous)
  }

  function AfterCStat(l: Local, r: Reply): Local {
    l.(same := r.Info? && Some(r.st.ino) == l.tempId, pc := CClose)
  }

  function AfterCClose(l: Local, r: Reply): Local {
    if r.Done? && l.same then Go(l, CUnlink) else StopBlocked(l, TempCleanupAmbiguous)
  }

  function AfterCUnlink(l: Local, r: Reply): Local {
    if r.Done? then Go(l, CSync) else StopBlocked(l, TempCleanupAmbiguous)
  }

  function AfterCSync(l: Local, r: Reply): Local {
    Stop(l, if r.Done? then l.outcome else Blocked(TempCleanupAmbiguous))
  }

  function AfterClosing(l: Local, r: Reply): Local
    requires l.open != []
  {
    l.(open := l.open[..|l.open| - 1], closeFailed := l.closeFailed || !r.Done?)
  }

  /** When every tracked descriptor is closed the call returns; a failed close spoils a success. */
  function Settle(l: Local): Local {
    if l.pc.PClosing? && l.open == [] then
      l.(pc := Finished,
         outcome := if l.closeFailed && l.outcome.Success() then Blocked(AmbiguousPublicationState) else l.outcome)
    else l
  }

  function After(hash: Bytes -> Digest, l: Local, r: Reply): Local
    requires !l.pc.Finished?
    requires l.pc.PClosing? ==> l.open != []
  {
    match l.pc
    case POpenRoot => AfterOpenRoot(l, r)
    case PStatRoot => AfterStatRoot(l, r)
    case PMkShard => AfterMkShard(l, r)
    case POpenShard => AfterOpenShard(l, r)
    case PChmodShard => AfterChmodShard(l, r)
    case PStatShard => AfterStatShard(l, r)
    case PSyncShard => AfterSyncShard(l, r)
    case PSyncParent => AfterSyncParent(l, r)
    case PCreateTemp => AfterCreateTemp(l, r)
    case PStatTemp => AfterStatTemp(l, r)
    case PWrite => AfterWrite(l, r)
    case PChmodTemp => AfterChmodTemp(l, r)
    case PVerifyTemp => AfterVerifyTemp(l, r)
    case PSyncTemp => AfterSyncTemp(hash, l, r)
    case PReadTemp => AfterReadTemp(hash, l, r)
    case PRename => AfterRename(l, r)
    case PSyncDir => AfterSyncDir(l, r)
    case POpenTarget => AfterOpenTarget(l, r)
    case PStatTarget => AfterStatTarget(l, r)
    case PSyncTarget => AfterSyncTarget(hash, l, r)
    case PReadTarget => AfterReadTarget(hash, l, r)
    case PSyncDirAgain => AfterSyncDirAgain(l, r)
    case XOpen => AfterXOpen(l, r)
    case XStat => AfterXStat(hash, l, r)
    case XRead => AfterXRead(hash, l, r)
    case XSyncFile => AfterXSyncFile(l, r)
    case XSyncDir => AfterXSyncDir(l, r)
    case COpen => AfterCOpen(l, r)
    case CStat => AfterCStat(l, r)
    case CClose => AfterCClose(l, r)
    case CUnlink => AfterCUnlink(l, r)
    case CSync => AfterCSync(l, r)
    case PClosing => AfterClosing(l, r)
  }

  function Resume(hash: Bytes -> Digest, l: Local, r: Reply): Local
    requires !l.pc.Finished?
    requires l.pc.PClosing? ==> l.open != []
  {
    Settle(After(hash, l, r))
  }

  /** The loop guards of `write_all`, `read_back` and `_close_all_reverse` hold where their calls are made. */
  predicate WellFormed(l: Local) {
    && (l.pc.Finished? || IsLowerHex64(l.snap.digest))
    && (l.pc.PWrite? ==> 0 <= l.total < l.Length())
    && (l.pc.PReadTemp? || l.pc.PReadTarget? || l.pc.XRead? ==> |l.buf| < l.Length())
  }

  /** A call that is closing descriptors has one left to close. */
  predicate Settled(l: Local) { l.pc.PClosing? ==> l.open != [] }
}
