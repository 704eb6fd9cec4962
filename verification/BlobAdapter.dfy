/** The adapter as it is written, with its loops, early returns and descriptor list, over an injected
    seam.  The seam watches the conversation: a call other than the one `NextCall` prescribes cannot be
    made, and the adapter is proved to reach `Finished` and to return exactly the outcome reached. */
module BlobAdapter {
  import opened Wrappers
  import opened BlobProtocol

  /** The injected system calls; `reply` is whatever the system will answer. */
  class Seam {
    const hash: Bytes -> Digest
    const reply: nat -> Reply
    var calls: nat
    ghost var at: Local

    constructor (hash: Bytes -> Digest, reply: nat -> Reply, at: Local)
      ensures this.hash == hash && this.at == at && calls == 0
    {
      this.hash, this.reply, this.calls, this.at := hash, reply, 0, at;
    }

    method Do(c: Call) returns (r: Reply)
      requires WellFormed(at) && Settled(at) && !at.pc.Finished? && c == NextCall(at)
      modifies this
      ensures at == Resume(hash, old(at), r) && calls == old(calls) + 1
    {
      r := reply(calls);
      calls := calls + 1;
      at := Resume(hash, at, r);
    }
  }

  /** The flags of a result say what its status says. */
  predicate FlagsAgree(r: Result) {
    r.createdNow == r.status.PersistedNew? && r.durabilityVerified == r.Success()
        && (r.Success() ==> r.reason.NoReason?)
  }

  /** The body has returned `r`: only closing is left. */
  predicate Decided(l: Local, openFds: seq<Fd>, r: Result) {
    && l.pc == (if openFds == [] then Finished else PClosing)
    && l.open == openFds && l.outcome == r && !l.closeFailed && FlagsAgree(r) && IsLowerHex64(l.snap.digest)
  }

  predicate ReadPoint(point: Pc) { point.PReadTemp? || point.PReadTarget? || point.XRead? }

  /** Reading at `point`, with what is in the buffer so far. */
  function Reading(hash: Bytes -> Digest, l: Local, point: Pc): Local
    requires ReadPoint(point)
  {
    if point.PReadTemp? then StartReadTemp(hash, l)
    else if point.PReadTarget? then StartReadTarget(hash, l)
    else StartXRead(hash, l)
  }

  function ReadFailed(l: Local, point: Pc): (l': Local)
    requires ReadPoint(point)
    ensures l'.buf == l.buf
  {
    if point.PReadTemp? then CleanFailed(l, TempVerifyFailed)
    else if point.PReadTarget? then Stop(l, Failure(CriticalCollisionDetected, ContentHashMismatch))
    else Clean(l, Failure(CriticalCollisionDetected, ContentHashMismatch))
  }

  /** The calls that open the root and the shards, and where their replies lead. */
  lemma OpeningPoints(hash: Bytes -> Digest, l: Local)
    requires WellFormed(l) && Settled(l) && !l.pc.Finished?
    ensures l.pc.POpenRoot? ==> NextCall(l) == OpenRoot && forall r :: After(hash, l, r) == AfterOpenRoot(l, r)
    ensures l.pc.PStatRoot? ==> NextCall(l) == Fstat(l.fd.root) && forall r :: After(hash, l, r) == AfterStatRoot(l, r)
    ensures l.pc.PMkShard? ==>
        NextCall(l) == Mkdir(l.ParentFd(), l.LevelName(), DIR_MODE)
        && forall r :: After(hash, l, r) == AfterMkShard(l, r)
    ensures l.pc.POpenShard? ==>
        NextCall(l) == OpenDir(l.ParentFd(), l.LevelName()) && forall r :: After(hash, l, r) == AfterOpenShard(l, r)
    ensures l.pc.PChmodShard? ==>
        NextCall(l) == Fchmod(l.LevelFd(), DIR_MODE) && forall r :: After(hash, l, r) == AfterChmodShard(l, r)
    ensures l.pc.PStatShard? ==>
        NextCall(l) == Fstat(l.LevelFd()) && forall r :: After(hash, l, r) == AfterStatShard(l, r)
    ensures l.pc.PSyncShard? ==>
        NextCall(l) == Fsync(l.LevelFd()) && forall r :: After(hash, l, r) == AfterSyncShard(l, r)
    ensures l.pc.PSyncParent? ==>
        NextCall(l) == Fsync(l.ParentFd()) && forall r :: After(hash, l, r) == AfterSyncParent(l, r)
  {
    hide IsLowerHex64;
  }

  /** The calls that make the temp. */
  lemma StagingPoints(hash: Bytes -> Digest, l: Local)
    requires WellFormed(l) && Settled(l) && !l.pc.Finished?
    ensures l.pc.PCreateTemp? ==>
        NextCall(l) == CreateExclusive(l.fd.shard, Temp(l.snap.digest), BLOB_MODE)
        && forall r :: After(hash, l, r) == AfterCreateTemp(l, r)
    ensures l.pc.PStatTemp? ==> NextCall(l) == Fstat(l.fd.temp) && forall r :: After(hash, l, r) == AfterStatTemp(l, r)
    ensures l.pc.PWrite? ==>
        NextCall(l) == Write(l.fd.temp, l.snap.data[l.total..]) && forall r :: After(hash, l, r) == AfterWrite(l, r)
    ensures l.pc.PChmodTemp? ==>
        NextCall(l) == Fchmod(l.fd.temp, BLOB_MODE) && forall r :: After(hash, l, r) == AfterChmodTemp(l, r)
    ensures l.pc.PVerifyTemp? ==>
        NextCall(l) == Fstat(l.fd.temp) && forall r :: After(hash, l, r) == AfterVerifyTemp(l, r)
    ensures l.pc.PSyncTemp? ==>
        NextCall(l) == Fsync(l.fd.temp) && forall r :: After(hash, l, r) == AfterSyncTemp(hash, l, r)
    ensures l.pc.PReadTemp? ==>
        NextCall(l) == Pread(l.fd.temp, l.Length() - |l.buf|, |l.buf|)
        && forall r :: After(hash, l, r) == AfterReadTemp(hash, l, r)
    ensures l.pc.PRename? ==>
        NextCall(l) == RenameNoReplace(l.fd.shard, Temp(l.snap.digest), Target(l.snap.digest))
        && forall r :: After(hash, l, r) == AfterRename(l, r)
  {
    hide IsLowerHex64;
  }

  /** The calls that commit and verify a new target. */
  lemma PublishedPoints(hash: Bytes -> Digest, l: Local)
    requires WellFormed(l) && Settled(l) && !l.pc.Finished?
    ensures l.pc.PSyncDir? ==> NextCall(l) == Fsync(l.fd.shard) && forall r :: After(hash, l, r) == AfterSyncDir(l, r)
    ensures l.pc.POpenTarget? ==>
        NextCall(l) == OpenBlob(l.fd.shard, Target(l.snap.digest))
        && forall r :: After(hash, l, r) == AfterOpenTarget(l, r)
    ensures l.pc.PStatTarget? ==>
        NextCall(l) == Fstat(l.fd.target) && forall r :: After(hash, l, r) == AfterStatTarget(l, r)
    ensures l.pc.PSyncTarget? ==>
        NextCall(l) == Fsync(l.fd.target) && forall r :: After(hash, l, r) == AfterSyncTarget(hash, l, r)
    ensures l.pc.PReadTarget? ==>
        NextCall(l) == Pread(l.fd.target, l.Length() - |l.buf|, |l.buf|)
        && forall r :: After(hash, l, r) == AfterReadTarget(hash, l, r)
    ensures l.pc.PSyncDirAgain? ==>
        NextCall(l) == Fsync(l.fd.shard) && forall r :: After(hash, l, r) == AfterSyncDirAgain(l, r)
  {
    hide IsLowerHex64;
  }

  /** The calls that inspect an existing target. */
  lemma InspectingPoints(hash: Bytes -> Digest, l: Local)
    requires WellFormed(l) && Settled(l) && !l.pc.Finished?
    ensures l.pc.XOpen? ==>
        NextCall(l) == OpenBlob(l.fd.shard, Target(l.snap.digest)) && forall r :: After(hash, l, r) == AfterXOpen(l, r)
    ensures l.pc.XStat? ==> NextCall(l) == Fstat(l.fd.target) && forall r :: After(hash, l, r) == AfterXStat(hash, l, r)
    ensures l.pc.XRead? ==>
        NextCall(l) == Pread(l.fd.target, l.Length() - |l.buf|, |l.buf|)
        && forall r :: After(hash, l, r) == AfterXRead(hash, l, r)
    ensures l.pc.XSyncFile? ==>
        NextCall(l) == Fsync(l.fd.target) && forall r :: After(hash, l, r) == AfterXSyncFile(l, r)
    ensures l.pc.XSyncDir? ==> NextCall(l) == Fsync(l.fd.shard) && forall r :: After(hash, l, r) == AfterXSyncDir(l, r)
  {
    hide IsLowerHex64;
  }

  /** The calls of the cleanup. */
  lemma CleaningPoints(hash: Bytes -> Digest, l: Local)
    requires WellFormed(l) && Settled(l) && !l.pc.Finished?
    ensures l.pc.COpen? ==>
        NextCall(l) == OpenBlob(l.fd.shard, Temp(l.snap.digest)) && forall r :: After(hash, l, r) == AfterCOpen(l, r)
    ensures l.pc.CStat? ==> NextCall(l) == Fstat(l.fd.clean) && forall r :: After(hash, l, r) == AfterCStat(l, r)
    ensures l.pc.CClose? ==>
        NextCall(l) == BlobProtocol.Close(l.fd.clean) && forall r :: After(hash, l, r) == AfterCClose(l, r)
    ensures l.pc.CUnlink? ==>
        NextCall(l) == Unlink(l.fd.shard, Temp(l.snap.digest)) && forall r :: After(hash, l, r) == AfterCUnlink(l, r)
    ensures l.pc.CSync? ==> NextCall(l) == Fsync(l.fd.shard) && forall r :: After(hash, l, r) == AfterCSync(l, r)
  {
    hide IsLowerHex64;
  }

  lemma ReadingTemp(hash: Bytes -> Digest, l: Local, r: Reply)
    requires IsLowerHex64(l.snap.digest) && l.open != [] && |l.buf| < l.Length()
    ensures var at := Reading(hash, l, PReadTemp);
      && WellFormed(at) && Settled(at) && !at.pc.Finished?
      && NextCall(at) == Pread(l.fd.temp, l.Length() - |l.buf|, |l.buf|)
      && Resume(hash, at, r) == if r.Chunk? && r.bytes != [] then Reading(hash, l.(buf := l.buf + r.bytes), PReadTemp)
         else ReadFailed(l, PReadTemp)
  {
    hide IsLowerHex64, NextCall, After;
    StagingPoints(hash, Go(l, PReadTemp));
  }

  lemma ReadingTarget(hash: Bytes -> Digest, l: Local, r: Reply)
    requires IsLowerHex64(l.snap.digest) && l.open != [] && |l.buf| < l.Length()
    ensures var at := Reading(hash, l, PReadTarget);
      && WellFormed(at) && Settled(at) && !at.pc.Finished?
      && NextCall(at) == Pread(l.fd.target, l.Length() - |l.buf|, |l.buf|)
      && Resume(hash, at, r) == if r.Chunk? && r.bytes != []
         then Reading(hash, l.(buf := l.buf + r.bytes), PReadTarget) else ReadFailed(l, PReadTarget)
  {
    hide IsLowerHex64, NextCall, After;
    PublishedPoints(hash, Go(l, PReadTarget));
  }

  lemma ReadingExisting(hash: Bytes -> Digest, l: Local, r: Reply)
    requires IsLowerHex64(l.snap.digest) && l.open != [] && |l.buf| < l.Length()
    ensures var at := Reading(hash, l, XRead);
      && WellFormed(at) && Settled(at) && !at.pc.Finished?
      && NextCall(at) == Pread(l.fd.target, l.Length() - |l.buf|, |l.buf|)
      && Resume(hash, at, r) == if r.Chunk? && r.bytes != [] then Reading(hash, l.(buf := l.buf + r.bytes), XRead)
         else ReadFailed(l, XRead)
  {
    hide IsLowerHex64, NextCall, After;
    InspectingPoints(hash, Go(l, XRead));
  }

  /** One turn of the read loop. */
  lemma ReadingGoesOn(hash: Bytes -> Digest, l: Local, point: Pc, r: Reply)
    requires ReadPoint(point) && IsLowerHex64(l.snap.digest) && l.open != [] && |l.buf| < l.Length()
    ensures var at := Reading(hash, l, point);
      && WellFormed(at) && Settled(at) && !at.pc.Finished?
      && NextCall(at) == Pread(if point.PReadTemp? then l.fd.temp else l.fd.target, l.Length() - |l.buf|, |l.buf|)
      && Resume(hash, at, r) == if r.Chunk? && r.bytes != [] then Reading(hash, l.(buf := l.buf + r.bytes), point)
                                else ReadFailed(l, point)
  {
    hide IsLowerHex64, NextCall, After, Reading, ReadFailed, Resume;
    if point.PReadTemp? { ReadingTemp(hash, l, r); }
    else if point.PReadTarget? { ReadingTarget(hash, l, r); }
    else { ReadingExisting(hash, l, r); }
  }

  class Adapter {
    const seam: Seam
    const cfg: Config
    var isOpen: bool
    var openFds: seq<Fd>

    constructor (seam: Seam, cfg: Config)
      ensures this.seam == seam && this.cfg == cfg && isOpen && openFds == []
    {
      this.seam, this.cfg, this.isOpen, this.openFds := seam, cfg, true, [];
    }

    /** Idempotent; a closed adapter refuses every later call. */
    method Close()
      modifies this`isOpen
      ensures !isOpen
    {
      isOpen := false;
    }

    method Track(fd: Fd)
      modifies this`openFds
      ensures openFds == old(openFds) + [fd]
    {
      openFds := openFds + [fd];
    }

    method WriteAll(fd: Fd, data: Bytes) returns (ok: bool)
      requires seam.at.snap.data == data && seam.at.fd.temp == fd && IsLowerHex64(seam.at.snap.digest)
      requires seam.at == StartWrite(seam.at.(total := 0))
      modifies seam
      ensures ok ==> seam.at == old(seam.at).(pc := PChmodTemp, total := seam.at.total)
      ensures !ok ==> seam.at == CleanFailed(old(seam.at).(total := seam.at.total), WriteFailed)
    {
      hide IsLowerHex64, NextCall, After;
      var total := 0;
      while total < |data|
        invariant 0 <= total && seam.at == StartWrite(old(seam.at).(total := total))
        decreases |data| - total
      {
        StagingPoints(seam.hash, seam.at);
        var r := seam.Do(Write(fd, data[total..]));
        if !r.Wrote? || r.n <= 0 { return false; }
        total := total + r.n;
      }
      return true;
    }

    /** The bytes of `fd`, or None when a read failed or came back empty. */
    method ReadBack(fd: Fd, length: nat, ghost from: Local, ghost point: Pc) returns (buf: Option<Bytes>)
      requires ReadPoint(point) && IsLowerHex64(from.snap.digest) && length == from.Length() && from.open != []
      requires fd == if point.PReadTemp? then from.fd.temp else from.fd.target
      requires seam.at == Reading(seam.hash, from.(buf := []), point)
      modifies seam
      ensures buf.Some? ==> |buf.value| >= length && seam.at == Reading(seam.hash, from.(buf := buf.value), point)
      ensures buf.None? ==> seam.at == ReadFailed(from.(buf := seam.at.buf), point)
    {
      hide Reading, ReadFailed, Resume, NextCall, WellFormed, Settled, IsLowerHex64;
      var out := [];
      while |out| < length
        invariant seam.at == Reading(seam.hash, from.(buf := out), point)
        decreases length - |out|
      {
        ReadingGoesOn(seam.hash, from.(buf := out), point, Done);
        var r := seam.Do(Pread(fd, length - |out|, |out|));
        ReadingGoesOn(seam.hash, from.(buf := out), point, r);
        if !r.Chunk? || r.bytes == [] { return None; }
        out := out + r.bytes;
      }
      return Some(out);
    }

    /** Removes only a temp we created, under reopened inode proof; false means ambiguous. */
    method CleanupTemp(digest: Digest, shardFd: Fd, tempId: Option<Ino>) returns (ok: bool)
      requires seam.at.pc.COpen? && IsLowerHex64(digest) && seam.at.snap.digest == digest
      requires seam.at.fd.shard == shardFd && tempId == seam.at.tempId && tempId.Some? && seam.at.open == openFds != []
      requires !seam.at.closeFailed && FlagsAgree(seam.at.outcome)
      modifies seam
      ensures Decided(seam.at, openFds, if ok then old(seam.at.outcome) else Blocked(TempCleanupAmbiguous))
    {
      hide IsLowerHex64, NextCall, After;
      CleaningPoints(seam.hash, seam.at);
      var r := seam.Do(OpenBlob(shardFd, Temp(digest)));
      if !r.Got? { return false; }
      ok := ProveTemp(r.fd, tempId);
      if ok { ok := RemoveTemp(digest, shardFd); }
    }

    /** The reopened descriptor must show our inode and must close. */
    method ProveTemp(fd: Fd, tempId: Option<Ino>) returns (ok: bool)
      requires seam.at.pc.CStat? && seam.at.fd.clean == fd && tempId == seam.at.tempId && seam.at.open != []
          && IsLowerHex64(seam.at.snap.digest)
      modifies seam
      ensures ok ==> seam.at == old(seam.at).(same := true, pc := CUnlink)
      ensures !ok ==> seam.at == StopBlocked(old(seam.at).(same := seam.at.same), TempCleanupAmbiguous)
    {
      hide IsLowerHex64, NextCall, After;
      CleaningPoints(seam.hash, seam.at);
      var r := seam.Do(Fstat(fd));
      var same := r.Info? && Some(r.st.ino) == tempId;
      CleaningPoints(seam.hash, seam.at);
      r := seam.Do(BlobProtocol.Close(fd));
      return same && r.Done?;
    }

    method RemoveTemp(digest: Digest, shardFd: Fd) returns (ok: bool)
      requires seam.at.pc.CUnlink? && IsLowerHex64(digest) && seam.at.snap.digest == digest
      requires seam.at.fd.shard == shardFd && seam.at.open == openFds != [] && !seam.at.closeFailed
          && FlagsAgree(seam.at.outcome)
      modifies seam
      ensures Decided(seam.at, openFds, if ok then old(seam.at.outcome) else Blocked(TempCleanupAmbiguous))
    {
      hide IsLowerHex64, NextCall, After;
      CleaningPoints(seam.hash, seam.at);
      var r := seam.Do(Unlink(shardFd, Temp(digest)));
      if !r.Done? { return false; }
      CleaningPoints(seam.hash, seam.at);
      r := seam.Do(Fsync(shardFd));
      return r.Done?;
    }

    /** The failure `result` stands if the temp can be cleaned up, else recovery is needed. */
    method FailAfterCleanup(digest: Digest, shardFd: Fd, tempId: Option<Ino>, result: Result) returns (r: Result)
      requires seam.at.pc.COpen? && IsLowerHex64(digest) && seam.at.snap.digest == digest
      requires seam.at.fd.shard == shardFd && tempId == seam.at.tempId && tempId.Some? && seam.at.open == openFds != []
      requires !seam.at.closeFailed && FlagsAgree(result) && seam.at.outcome == result
      modifies seam
      ensures Decided(seam.at, openFds, r) && (r == result || r == Blocked(TempCleanupAmbiguous))
    {
      var ok := CleanupTemp(digest, shardFd, tempId);
      return if ok then result else Blocked(TempCleanupAmbiguous);
    }

    method OpenOrCreateShard(parentFd: Fd, name: Name) returns (fd: Fd, err: Reason)
      requires IsLowerHex64(seam.at.snap.digest) && seam.at.pc.PMkShard? && seam.at.cfg == cfg
      requires parentFd == seam.at.ParentFd() && name == seam.at.LevelName() && seam.at.open == openFds != []
      requires !seam.at.closeFailed
      modifies seam, this`openFds
      ensures err.NoReason? ==>
        && openFds == old(openFds) + [fd]
        && seam.at == LevelDone(old(seam.at).(open := openFds,
             fd := if old(seam.at.deep) then old(seam.at.fd).(shard := fd) else old(seam.at.fd).(l1 := fd)))
      ensures !err.NoReason? ==> Decided(seam.at, openFds, Blocked(err))
    {
      hide IsLowerHex64, NextCall, After;
      OpeningPoints(seam.hash, seam.at);
      var r := seam.Do(Mkdir(parentFd, name, DIR_MODE));
      var created := r.Done?;
      if !created && r != Fail(EEXIST) { return 0, ShardDurabilityFailed; }
      OpeningPoints(seam.hash, seam.at);
      r := seam.Do(OpenDir(parentFd, name));
      if !r.Got? {
        return 0, if r == Fail(ELOOP) || r == Fail(ENOTDIR) then SymlinkOrNonregular else ShardDurabilityFailed;
      }
      fd := r.fd;
      Track(fd);
      err := CheckShard(parentFd, fd, created);
    }

    /** Mode and owner of an opened shard; one made by this call is made durable with its entry. */
    method CheckShard(parentFd: Fd, fd: Fd, created: bool) returns (err: Reason)
      requires IsLowerHex64(seam.at.snap.digest) && seam.at.cfg == cfg && created == seam.at.created
      requires seam.at.pc == (if created then PChmodShard else PStatShard)
      requires parentFd == seam.at.ParentFd() && fd == seam.at.LevelFd() && seam.at.open == openFds != []
      requires !seam.at.closeFailed
      modifies seam
      ensures err.NoReason? ==> seam.at == LevelDone(old(seam.at))
      ensures !err.NoReason? ==> Decided(seam.at, openFds, Blocked(err))
    {
      hide IsLowerHex64, NextCall, After;
      if created {
        OpeningPoints(seam.hash, seam.at);
        var r := seam.Do(Fchmod(fd, DIR_MODE));
        if !r.Done? { return ShardDurabilityFailed; }
      }
      OpeningPoints(seam.hash, seam.at);
      var r := seam.Do(Fstat(fd));
      if !r.Info? { return ShardDurabilityFailed; }
      err := DirReason(cfg, r.st);
      if err.NoReason? && created { err := CommitShard(parentFd, fd); }
    }

    /** A new shard, then its entry in the parent. */
    method CommitShard(parentFd: Fd, fd: Fd) returns (err: Reason)
      requires IsLowerHex64(seam.at.snap.digest) && seam.at.pc.PSyncShard?
      requires parentFd == seam.at.ParentFd() && fd == seam.at.LevelFd() && seam.at.open == openFds != []
          && !seam.at.closeFailed
      modifies seam
      ensures err.NoReason? ==> seam.at == LevelDone(old(seam.at))
      ensures !err.NoReason? ==> Decided(seam.at, openFds, Blocked(err))
    {
      hide IsLowerHex64, NextCall, After;
      OpeningPoints(seam.hash, seam.at);
      var r := seam.Do(Fsync(fd));
      if !r.Done? { return ShardDurabilityFailed; }
      OpeningPoints(seam.hash, seam.at);
      r := seam.Do(Fsync(parentFd));
      return if r.Done? then NoReason else ShardDurabilityFailed;
    }

    /** The rename found a target in place: verify it, then clean the temp up whatever the verdict. */
    method ExistingTarget(snap: Snapshot, shardFd: Fd, tempId: Option<Ino>) returns (r: Result)
      requires seam.at.pc.XOpen? && seam.at.snap == snap && IsLowerHex64(snap.digest) && seam.at.cfg == cfg
      requires seam.at.fd.shard == shardFd && tempId == seam.at.tempId && tempId.Some? && seam.at.open == openFds != []
      requires !seam.at.closeFailed
      modifies seam, this`openFds
      ensures Decided(seam.at, openFds, r)
    {
      var verdict := InspectTarget(snap, shardFd);
      var ok := CleanupTemp(snap.digest, shardFd, tempId);
      return if ok then verdict else Blocked(TempCleanupAmbiguous);
    }

    method InspectTarget(snap: Snapshot, shardFd: Fd) returns (verdict: Result)
      requires seam.at.pc.XOpen? && seam.at.snap == snap && IsLowerHex64(snap.digest) && seam.at.cfg == cfg
      requires seam.at.fd.shard == shardFd && seam.at.open == openFds != []
      modifies seam, this`openFds
      ensures openFds != [] && FlagsAgree(verdict)
      ensures seam.at == Clean(old(seam.at).(open := openFds, fd := old(seam.at.fd).(target := seam.at.fd.target),
          buf := seam.at.buf), verdict)
    {
      hide IsLowerHex64, NextCall, After;
      InspectingPoints(seam.hash, seam.at);
      var r := seam.Do(OpenBlob(shardFd, Target(snap.digest)));
      if !r.Got? { return Blocked(if r == Fail(ELOOP) then SymlinkOrNonregular else AmbiguousPublicationState); }
      var fd := r.fd;
      Track(fd);
      verdict := CheckExisting(snap, fd, shardFd);
    }

    /** Kind, owner, mode and size of the existing target, in this order, before its contents are read. */
    method CheckExisting(snap: Snapshot, fd: Fd, shardFd: Fd) returns (verdict: Result)
      requires seam.at.pc.XStat? && seam.at.snap == snap && IsLowerHex64(snap.digest) && seam.at.cfg == cfg
      requires seam.at.fd.shard == shardFd && seam.at.fd.target == fd && seam.at.open != []
      modifies seam
      ensures FlagsAgree(verdict) && seam.at == Clean(old(seam.at).(buf := seam.at.buf), verdict)
    {
      hide IsLowerHex64, NextCall, After;
      ghost var here := seam.at;
      InspectingPoints(seam.hash, seam.at);
      var r := seam.Do(Fstat(fd));
      if !r.Info? { return Blocked(AmbiguousPublicationState); }
      if !r.st.kind.Regular? { return Blocked(SymlinkOrNonregular); }
      if r.st.uid != cfg.uid { return Blocked(OwnerMismatch); }
      if r.st.mode != BLOB_MODE { return Blocked(ModeMismatch); }
      if r.st.size != |snap.data| { return Failure(CriticalCollisionDetected, ContentHashMismatch); }
      verdict := CompareTarget(snap, fd, shardFd, here);
    }

    /** Attributes and size fit: compare the contents and make the target durable. */
    method CompareTarget(snap: Snapshot, fd: Fd, shardFd: Fd, ghost from: Local) returns (verdict: Result)
      requires from.snap == snap && IsLowerHex64(snap.digest) && from.fd.shard == shardFd && from.fd.target == fd
          && from.open != []
      requires seam.at == Reading(seam.hash, from.(buf := []), XRead)
      modifies seam
      ensures FlagsAgree(verdict) && seam.at == Clean(from.(buf := seam.at.buf), verdict)
    {
      hide IsLowerHex64, NextCall, After;
      var back := ReadBack(fd, |snap.data|, from, XRead);
      if back.None? || |back.value| != |snap.data| || seam.hash(back.value) != snap.digest {
        return Failure(CriticalCollisionDetected, ContentHashMismatch);
      }
      verdict := SyncExisting(fd, shardFd);
    }

    /** The existing target is made durable, then its entry. */
    method SyncExisting(fd: Fd, shardFd: Fd) returns (verdict: Result)
      requires seam.at.pc.XSyncFile? && IsLowerHex64(seam.at.snap.digest) && seam.at.fd.shard == shardFd
          && seam.at.fd.target == fd
      modifies seam
      ensures FlagsAgree(verdict) && seam.at == Clean(old(seam.at), verdict)
    {
      hide IsLowerHex64, NextCall, After;
      InspectingPoints(seam.hash, seam.at);
      var r := seam.Do(Fsync(fd));
      if !r.Done? { return Blocked(FileFsyncFailed); }
      InspectingPoints(seam.hash, seam.at);
      r := seam.Do(Fsync(shardFd));
      if !r.Done? { return Blocked(DirectoryFsyncFailed); }
      return Result(VerifiedExistingNoop, NoReason, false, true);
    }

    /** Phase 3: the temp, created exclusively, written, verified, synced and read back. */
    method StageTemp(snap: Snapshot, shardFd: Fd) returns (tempId: Option<Ino>, early: Option<Result>)
      requires seam.at.pc.PCreateTemp? && seam.at.snap == snap && IsLowerHex64(snap.digest) && seam.at.cfg == cfg
      requires seam.at.fd.shard == shardFd && seam.at.open == openFds != [] && !seam.at.closeFailed
      modifies seam, this`openFds
      ensures early.Some? ==> Decided(seam.at, openFds, early.value)
      ensures early.None? ==>
        && seam.at.pc.PRename? && seam.at.snap == snap && seam.at.fd.shard == shardFd && seam.at.cfg == cfg
        && seam.at.open == openFds != [] && !seam.at.closeFailed && tempId == seam.at.tempId && tempId.Some?
    {
      hide IsLowerHex64, NextCall, After;
      var fd;
      tempId, fd, early := CreateTemp(snap, shardFd);
      if early.Some? { return; }
      var reason := FillTemp(snap, fd);
      if reason.Some? {
        var result := FailAfterCleanup(snap.digest, shardFd, tempId, Failure(BlobPersistFailed, reason.value));
        early := Some(result);
      }
    }

    /** The exclusive create and the identity that later proves the temp ours. */
    method CreateTemp(snap: Snapshot, shardFd: Fd) returns (tempId: Option<Ino>, fd: Fd, early: Option<Result>)
      requires seam.at.pc.PCreateTemp? && seam.at.snap == snap && IsLowerHex64(snap.digest) && seam.at.cfg == cfg
      requires seam.at.fd.shard == shardFd && seam.at.open == openFds != [] && !seam.at.closeFailed
      modifies seam, this`openFds
      ensures early.Some? ==> Decided(seam.at, openFds, early.value)
      ensures early.None? ==>
        && seam.at == StartWrite(seam.at.(total := 0)) && seam.at.snap == snap && seam.at.fd.shard == shardFd
           && seam.at.cfg == cfg
        && seam.at.fd.temp == fd && seam.at.open == openFds != [] && !seam.at.closeFailed && tempId == seam.at.tempId
           && tempId.Some?
    {
      hide IsLowerHex64, NextCall, After;
      StagingPoints(seam.hash, seam.at);
      var r := seam.Do(CreateExclusive(shardFd, Temp(snap.digest), BLOB_MODE));
      if r == Fail(EEXIST) { return None, 0, Some(Blocked(AmbiguousPublicationState)); }
      if !r.Got? { return None, 0, Some(Failure(BlobPersistFailed, TempCreateFailed)); }
      fd := r.fd;
      Track(fd);
      tempId := IdentifyTemp(fd);
      early := if tempId.Some? then None else Some(Blocked(TempCleanupAmbiguous));
    }

    method IdentifyTemp(fd: Fd) returns (tempId: Option<Ino>)
      requires seam.at.pc.PStatTemp? && IsLowerHex64(seam.at.snap.digest) && seam.at.fd.temp == fd && seam.at.open != []
      modifies seam
      ensures tempId.Some? ==> seam.at == StartWrite(old(seam.at).(tempId := tempId, total := 0))
      ensures tempId.None? ==> seam.at == StopBlocked(old(seam.at), TempCleanupAmbiguous)
    {
      hide IsLowerHex64, NextCall, After;
      StagingPoints(seam.hash, seam.at);
      var r := seam.Do(Fstat(fd));
      return if r.Info? then Some(r.st.ino) else None;
    }

    /** Fills and verifies the temp; some reason when that failed and the temp has to be cleaned up. */
    method FillTemp(snap: Snapshot, fd: Fd) returns (reason: Option<Reason>)
      requires seam.at == StartWrite(seam.at.(total := 0)) && seam.at.snap == snap && IsLowerHex64(snap.digest)
      requires seam.at.fd.temp == fd && seam.at.open != [] && seam.at.cfg == cfg
      modifies seam
      ensures reason.Some? ==>
          seam.at == CleanFailed(old(seam.at).(total := seam.at.total, buf := seam.at.buf), reason.value)
      ensures reason.None? ==> seam.at == old(seam.at).(pc := PRename, total := seam.at.total, buf := seam.at.buf)
    {
      hide IsLowerHex64, NextCall, After;
      var ok := WriteAll(fd, snap.data);
      if !ok { return Some(WriteFailed); }
      reason := VerifyTemp(snap, fd);
      if reason.None? { reason := SyncAndReadBack(snap, fd); }
    }

    /** Mode set, and mode, owner, kind and size as they should be. */
    method VerifyTemp(snap: Snapshot, fd: Fd) returns (reason: Option<Reason>)
      requires seam.at.pc.PChmodTemp? && seam.at.snap == snap && IsLowerHex64(snap.digest)
      requires seam.at.fd.temp == fd && seam.at.open != [] && seam.at.cfg == cfg
      modifies seam
      ensures reason.Some? ==> seam.at == CleanFailed(old(seam.at), reason.value)
      ensures reason.None? ==> seam.at == Go(old(seam.at), PSyncTemp)
    {
      hide IsLowerHex64, NextCall, After;
      StagingPoints(seam.hash, seam.at);
      var r := seam.Do(Fchmod(fd, BLOB_MODE));
      if !r.Done? { return Some(TempVerifyFailed); }
      StagingPoints(seam.hash, seam.at);
      r := seam.Do(Fstat(fd));
      if !(r.Info? && r.st.kind.Regular? && r.st.uid == cfg.uid && r.st.mode == BLOB_MODE && r.st.size == |snap.data|) {
        return Some(TempVerifyFailed);
      }
      return None;
    }

    method SyncAndReadBack(snap: Snapshot, fd: Fd) returns (reason: Option<Reason>)
      requires seam.at.pc.PSyncTemp? && seam.at.snap == snap && IsLowerHex64(snap.digest)
      requires seam.at.fd.temp == fd && seam.at.open != []
      modifies seam
      ensures reason.Some? ==> seam.at == CleanFailed(old(seam.at).(buf := seam.at.buf), reason.value)
      ensures reason.None? ==> seam.at == old(seam.at).(pc := PRename, buf := seam.at.buf)
    {
      hide IsLowerHex64, NextCall, After;
      StagingPoints(seam.hash, seam.at);
      ghost var here := seam.at;
      var r := seam.Do(Fsync(fd));
      if !r.Done? { return Some(FileFsyncFailed); }
      var back := ReadBack(fd, |snap.data|, here, PReadTemp);
      if back.None? || |back.value| != |snap.data| || seam.hash(back.value) != snap.digest {
        return Some(TempVerifyFailed);
      }
      return None;
    }

    /** Phase 4: publication, commit and verification. */
    method Publish(snap: Snapshot, shardFd: Fd, tempId: Option<Ino>) returns (r: Result)
      requires seam.at.pc.PRename? && seam.at.snap == snap && IsLowerHex64(snap.digest) && seam.at.cfg == cfg
      requires seam.at.fd.shard == shardFd && seam.at.open == openFds != [] && !seam.at.closeFailed
      requires tempId == seam.at.tempId && tempId.Some?
      modifies seam, this`openFds
      ensures Decided(seam.at, openFds, r)
    {
      hide IsLowerHex64, NextCall, After;
      StagingPoints(seam.hash, seam.at);
      var reply := seam.Do(RenameNoReplace(shardFd, Temp(snap.digest), Target(snap.digest)));
      if reply.Done? {
        r := Commit(snap, shardFd);
      } else if reply == Fail(EEXIST) {
        r := ExistingTarget(snap, shardFd, tempId);
      } else {
        r := FailAfterCleanup(snap.digest, shardFd, tempId,
                              Failure(BlobPersistFailed, if reply == Fail(ENOSYS) then NoClobberUnavailable
                                  else PublishFailed));
      }
    }

    method Commit(snap: Snapshot, shardFd: Fd) returns (r: Result)
      requires seam.at.pc.PSyncDir? && seam.at.snap == snap && IsLowerHex64(snap.digest) && seam.at.cfg == cfg
      requires seam.at.fd.shard == shardFd && seam.at.open == openFds != [] && !seam.at.closeFailed
      modifies seam, this`openFds
      ensures Decided(seam.at, openFds, r)
    {
      hide IsLowerHex64, NextCall, After;
      PublishedPoints(seam.hash, seam.at);
      var reply := seam.Do(Fsync(shardFd));
      if !reply.Done? { return Blocked(DirectoryFsyncFailed); }
      PublishedPoints(seam.hash, seam.at);
      reply := seam.Do(OpenBlob(shardFd, Target(snap.digest)));
      if !reply.Got? { return Blocked(FinalReadbackFailed); }
      var fd := reply.fd;
      Track(fd);
      r := VerifyCommitted(snap, shardFd, fd);
    }

    method VerifyCommitted(snap: Snapshot, shardFd: Fd, fd: Fd) returns (r: Result)
      requires seam.at.pc.PStatTarget? && seam.at.snap == snap && IsLowerHex64(snap.digest) && seam.at.cfg == cfg
      requires seam.at.fd.shard == shardFd && seam.at.fd.target == fd && seam.at.open == openFds != []
          && !seam.at.closeFailed
      modifies seam
      ensures Decided(seam.at, openFds, r)
    {
      hide IsLowerHex64, NextCall, After;
      PublishedPoints(seam.hash, seam.at);
      var reply := seam.Do(Fstat(fd));
      if !(reply.Info? && reply.st.kind.Regular? && reply.st.uid == cfg.uid && reply.st.mode == BLOB_MODE
           && reply.st.size == |snap.data|) {
        return Blocked(FinalReadbackFailed);
      }
      r := VerifyContents(snap, shardFd, fd);
    }

    method VerifyContents(snap: Snapshot, shardFd: Fd, fd: Fd) returns (r: Result)
      requires seam.at.pc.PSyncTarget? && seam.at.snap == snap && IsLowerHex64(snap.digest)
      requires seam.at.fd.shard == shardFd && seam.at.fd.target == fd && seam.at.open == openFds != []
          && !seam.at.closeFailed
      modifies seam
      ensures Decided(seam.at, openFds, r)
    {
      hide IsLowerHex64, NextCall, After;
      PublishedPoints(seam.hash, seam.at);
      ghost var here := seam.at;
      var reply := seam.Do(Fsync(fd));
      if !reply.Done? { return Blocked(FileFsyncFailed); }
      var back := ReadBack(fd, |snap.data|, here, PReadTarget);
      if back.None? || |back.value| != |snap.data| || seam.hash(back.value) != snap.digest {
        return Failure(CriticalCollisionDetected, ContentHashMismatch);
      }
      r := CommitEntry(shardFd);
    }

    /** The directory entry is made durable once more, and the blob counts as persisted. */
    method CommitEntry(shardFd: Fd) returns (r: Result)
      requires seam.at.pc.PSyncDirAgain? && IsLowerHex64(seam.at.snap.digest)
      requires seam.at.fd.shard == shardFd && seam.at.open == openFds != [] && !seam.at.closeFailed
      modifies seam
      ensures Decided(seam.at, openFds, r)
    {
      hide IsLowerHex64, NextCall, After;
      PublishedPoints(seam.hash, seam.at);
      var reply := seam.Do(Fsync(shardFd));
      if !reply.Done? { return Blocked(DirectoryFsyncFailed); }
      return Result(PersistedNew, NoReason, true, true);
    }

    method Body(snap: Snapshot) returns (r: Result)
      requires IsLowerHex64(snap.digest) && seam.at.pc.POpenRoot? && seam.at.snap == snap && seam.at.cfg == cfg
      requires seam.at.open == openFds == [] && !seam.at.closeFailed
      modifies seam, this`openFds
      ensures Decided(seam.at, openFds, r)
    {
      hide IsLowerHex64, NextCall, After;
      OpeningPoints(seam.hash, seam.at);
      var reply := seam.Do(OpenRoot);
      if !reply.Got? { return Blocked(if reply == Fail(ELOOP) then SymlinkOrNonregular else RootMissing); }
      var rootFd := reply.fd;
      Track(rootFd);
      OpeningPoints(seam.hash, seam.at);
      reply := seam.Do(Fstat(rootFd));
      if !reply.Info? { return Blocked(AmbiguousPublicationState); }
      var mismatch := DirReason(cfg, reply.st);
      if !mismatch.NoReason? { return Blocked(mismatch); }
      if reply.st.ino != cfg.root { return Blocked(RootIdentityChanged); }
      r := InShards(snap, rootFd);
    }

    method InShards(snap: Snapshot, rootFd: Fd) returns (r: Result)
      requires IsLowerHex64(snap.digest) && seam.at.pc.PMkShard? && !seam.at.deep && seam.at.snap == snap
          && seam.at.cfg == cfg
      requires seam.at.fd.root == rootFd && seam.at.open == openFds != [] && !seam.at.closeFailed
      modifies seam, this`openFds
      ensures Decided(seam.at, openFds, r)
    {
      var l1, err := OpenOrCreateShard(rootFd, Shard(snap.digest[0..2]));
      if !err.NoReason? { return Blocked(err); }
      var shardFd, err2 := OpenOrCreateShard(l1, Shard(snap.digest[2..4]));
      if !err2.NoReason? { return Blocked(err2); }
      var tempId, early := StageTemp(snap, shardFd);
      if early.Some? { return early.value; }
      r := Publish(snap, shardFd, tempId);
    }

    /** Closes the tracked descriptors, last opened first; true when some close failed. */
    method CloseAllReverse() returns (closeFailed: bool)
      requires openFds == [] || (IsLowerHex64(seam.at.snap.digest) && seam.at.pc.PClosing? && seam.at.open == openFds
          && !seam.at.closeFailed)
      modifies seam
      ensures openFds == [] ==> seam.at == old(seam.at) && !closeFailed
      ensures openFds != [] ==> seam.at == Settle(old(seam.at).(open := [], closeFailed := closeFailed))
    {
      closeFailed := false;
      var i := |openFds|;
      while i > 0
        invariant 0 <= i <= |openFds|
        invariant openFds == [] ==> seam.at == old(seam.at) && !closeFailed
        invariant openFds != [] ==> seam.at == Settle(old(seam.at).(open := openFds[..i], closeFailed := closeFailed))
      {
        i := i - 1;
        assert openFds[..i + 1][..i] == openFds[..i];
        var r := seam.Do(BlobProtocol.Close(openFds[i]));
        if !r.Done? { closeFailed := true; }
      }
    }

    /** The whole call: on an open adapter the seam is left with the conversation finished, and the result
        is the one the conversation reached; a closed adapter, or a refused snapshot, makes no call. */
    method PersistSnapshotBlob(snap: Snapshot) returns (result: Result)
      requires isOpen ==> seam.at == Start(seam.hash, cfg, snap)
      requires openFds == []
      modifies seam, this`openFds
      ensures !isOpen ==> result == Blocked(AmbiguousPublicationState) && seam.calls == old(seam.calls)
      ensures isOpen ==> seam.at.pc.Finished? && result == seam.at.outcome
      ensures isOpen && !Admitted(seam.hash, snap) ==>
        seam.calls == old(seam.calls) && result == Failure(SnapshotValidationFailed, Preflight(seam.hash, snap).value)
      ensures FlagsAgree(result)
    {
      if !isOpen { return Blocked(AmbiguousPublicationState); }
      var refusal := Preflight(seam.hash, snap);
      if refusal.Some? { return Failure(SnapshotValidationFailed, refusal.value); }
      AdmittedMeans(seam.hash, snap);
      hide IsLowerHex64, Preflight;
      result := Body(snap);
      var closeFailed := CloseAllReverse();
      if closeFailed && result.Success() { result := Blocked(AmbiguousPublicationState); }
    }
  }
}
