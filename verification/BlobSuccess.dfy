/** What a call comes to when no system call fails: it is alone, and the outcome follows from the store it
    started on. */
module BlobSuccess {
  import opened Wrappers
  import opened BlobProtocol
  import opened BlobKernel
  import opened BlobInvariant
  import opened BlobSteps
  import opened BlobMoves
  import opened BlobStaging
  import opened BlobPublishing
  import opened BlobCleanup
  import opened BlobSystem
  import opened BlobTheorems
  import opened BlobProgress

  // ---- the store as the call finds it ----------------------------------------------------------

  /** An inode as processes see it. */
  datatype Seen = Seen(kind: Kind, mem: Data)

  predicate OwnDir(s: Store, x: Ino, uid: int) { IsDir(s, x) && s.inodes[x].mem.uid == uid }

  /** A directory of ours with the right mode. */
  predicate RightDir(s: Store, x: Ino, uid: int) { OwnDir(s, x, uid) && s.inodes[x].mem.mode == 0x1C0 }

  function Key1Of(root: Ino, d: Digest): Key requires IsLowerHex64(d) { Key(root, Shard(d[0..2])) }
  function Key2Of(d1: Ino, d: Digest): Key requires IsLowerHex64(d) { Key(d1, Shard(d[2..4])) }

  /** Entries lie in inodes that exist. */
  predicate Rooted(s: Store) { forall k :: k in s.ents ==> k.dir in s.inodes }

  /** A shard on the way is absent or right; while it is being made its mode may be anything. */
  predicate ShardFine(s: Store, k: Key, uid: int, loose: bool) {
    k in s.ents ==> if loose then OwnDir(s, s.ents[k], uid) else RightDir(s, s.ents[k], uid)
  }

  /** The way to the target: the root is right, each shard absent or right, and the temp's name is free. */
  predicate Paved(s: Store, cfg: Config, d: Digest, loose1: bool, loose2: bool)
    requires IsLowerHex64(d)
  {
    var k1 := Key1Of(cfg.root, d);
    && RightDir(s, cfg.root, cfg.uid) && ShardFine(s, k1, cfg.uid, loose1)
    && (k1 in s.ents ==>
          var k2 := Key2Of(s.ents[k1], d);
          ShardFine(s, k2, cfg.uid, loose2) && (k2 in s.ents ==> Key(s.ents[k2], Temp(d)) !in s.ents))
  }

  function SeenAt(s: Store, k: Key): Option<Seen> {
    if k in s.ents && s.ents[k] in s.inodes then Some(Seen(s.inodes[s.ents[k]].kind, s.inodes[s.ents[k]].mem)) else None
  }

  /** What the target's path leads to. */
  function Found(s: Store, root: Ino, d: Digest): Option<Seen>
    requires IsLowerHex64(d)
  {
    var k1 := Key1Of(root, d);
    if k1 !in s.ents then None
    else
      var k2 := Key2Of(s.ents[k1], d);
      if k2 !in s.ents then None else SeenAt(s, Key(s.ents[k2], Target(d)))
  }

  /** What the call answers, by what its target's path led to. */
  function Expected(hash: Bytes -> Digest, cfg: Config, snap: Snapshot, was: Option<Seen>): Result {
    if was.None? then Result(PersistedNew, NoReason, true, true)
    else
      var t := was.value;
      if t.kind.Directory? then Blocked(AmbiguousPublicationState)
      else if t.kind.Special? then Blocked(SymlinkOrNonregular)
      else if t.mem.uid != cfg.uid then Blocked(OwnerMismatch)
      else if t.mem.mode != BLOB_MODE then Blocked(ModeMismatch)
      else if |t.mem.bytes| != |snap.data| || hash(t.mem.bytes) != snap.digest
        then Failure(CriticalCollisionDetected, ContentHashMismatch)
      else Result(VerifiedExistingNoop, NoReason, false, true)
  }

  // ---- fair choices ----------------------------------------------------------------------------

  /** The kernel lets the call work: nothing fails, reads and writes move on, numbers handed out are fresh,
      new inodes are ours, and the store's path leads to the pinned root. */
  predicate Fair(s: Store, p: Proc, ch: Choice) {
    && ch.fail.None? && ch.n > 0 && ch.fd !in p.fds && ch.mem.uid == p.l.cfg.uid
    && (if p.l.pc.POpenRoot? then ch.ino == p.l.cfg.root else ch.ino !in s.inodes)
  }

  // ---- where the call stands -------------------------------------------------------------------

  predicate FdAt(p: Proc, fd: Fd, x: Ino) { fd in p.fds && p.fds[fd].ino == x }

  predicate Unmoded(pc: Pc) { pc.POpenShard? || pc.PChmodShard? }

  predicate OnTheWay(s: Store, p: Proc, was: Option<Seen>)
    requires IsLowerHex64(p.l.snap.digest)
  {
    var l := p.l;
    && Paved(s, l.cfg, l.snap.digest, !l.deep && l.created && Unmoded(l.pc), l.deep && l.created && Unmoded(l.pc))
    && Found(s, l.cfg.root, l.snap.digest) == was
    && (l.pc.PStatRoot? ==> FdAt(p, l.fd.root, l.cfg.root))
    && (l.pc.POpenShard? ==> ShardKey(p) in s.ents)
    && (ShardPc(l.pc) && !l.pc.PMkShard? && l.created ==> was.None?)
  }

  predicate MakingTemp(s: Store, p: Proc, was: Option<Seen>) {
    var l := p.l;
    && SeenAt(s, TargetKey(p)) == was
    && p.aux.temp.Some? && p.aux.temp.value in s.inodes
    && var m := s.inodes[p.aux.temp.value].mem;
    && m.uid == l.cfg.uid && (l.pc.PVerifyTemp? ==> m.mode == BLOB_MODE)
    && (l.pc.PReadTemp? ==> |l.buf| <= |l.snap.data| && l.buf == l.snap.data[..|l.buf|])
  }

  predicate TempThere(s: Store, p: Proc) { p.aux.temp.Some? && Maps(s.ents, TempKey(p), p.aux.temp.value) }

  predicate Judging(s: Store, p: Proc, was: Option<Seen>) {
    was.Some? && SeenAt(s, TargetKey(p)) == was && TempThere(s, p)
  }

  /** The temp is on its way out and the verdict will be `out`; a temp that could not be identified spoils it. */
  predicate TidyingUp(s: Store, p: Proc, out: Result) {
    var l := p.l;
    && p.aux.temp.Some?
    && if l.pc.CClose? && !l.same then out == Blocked(TempCleanupAmbiguous)
       else
         && l.outcome == out
         && (!l.pc.CSync? ==> TempThere(s, p))
         && (l.pc.CStat? ==> FdAt(p, l.fd.clean, p.aux.temp.value))
  }

  /** What a call will answer once its descriptors are closed. */
  function Final(l: Local): Result {
    if !l.pc.Finished? && l.closeFailed && l.outcome.Success() then Blocked(AmbiguousPublicationState) else l.outcome
  }

  /** The verdict is `out`, and only cleaning up and closing are left. */
  predicate Ending(s: Store, p: Proc, out: Result) {
    && (Cleaning(p.l.pc) || Over(p.l.pc))
    && (Cleaning(p.l.pc) ==> !p.l.closeFailed && TidyingUp(s, p, out))
    && (Over(p.l.pc) ==> Final(p.l) == out)
  }

  /** What holds at every point of a call to which nothing bad has happened. */
  predicate Happy(hash: Bytes -> Digest, s: Store, p: Proc, was: Option<Seen>)
    requires IsLowerHex64(p.l.snap.digest)
  {
    var l := p.l;
    && !l.closeFailed
    && (Opening(l.pc) ==> OnTheWay(s, p, was))
    && (Staging(l.pc) ==> MakingTemp(s, p, was))
    && (Published(l.pc) ==> was.None?)
    && (Inspecting(l.pc) ==> Judging(s, p, was))
    && (Cleaning(l.pc) ==> was.Some? && TidyingUp(s, p, Expected(hash, l.cfg, l.snap, was)))
    && (Over(l.pc) ==> l.outcome == Expected(hash, l.cfg, l.snap, was))
  }

  /** Entries and what processes see of inodes are the same. */
  ghost predicate SameView(s: Store, s': Store) {
    && s'.ents == s.ents
    && (forall x :: x in s'.inodes <==> x in s.inodes)
    && (forall x :: x in s.inodes ==> s'.inodes[x].kind == s.inodes[x].kind && s'.inodes[x].mem == s.inodes[x].mem)
  }

  lemma SameSeen(s: Store, s': Store, k: Key)
    requires SameView(s, s')
    ensures SeenAt(s', k) == SeenAt(s, k)
  {
    if k in s.ents {
      var x := s.ents[k];
      assert x in s'.inodes <==> x in s.inodes;
    }
  }

  lemma SameInode(s: Store, s': Store, x: Ino)
    requires SameView(s, s') && x in s.inodes
    ensures x in s'.inodes && s'.inodes[x].kind == s.inodes[x].kind && s'.inodes[x].mem == s.inodes[x].mem
  {
  }

  lemma PrefixGrows(all: Bytes, buf: Bytes, chunk: Bytes)
    requires |buf| <= |all| && buf == all[..|buf|] && |chunk| <= |all| - |buf| && chunk == all[|buf|..][..|chunk|]
    ensures buf + chunk == all[..|buf| + |chunk|]
  {
  }

  lemma ViewDecides(s: Store, s': Store, cfg: Config, d: Digest)
    requires SameView(s, s') && IsLowerHex64(d)
    ensures forall a, b :: Paved(s', cfg, d, a, b) <==> Paved(s, cfg, d, a, b)
    ensures Found(s', cfg.root, d) == Found(s, cfg.root, d)
  {
    hide IsLowerHex64;
    var k1 := Key1Of(cfg.root, d);
    assert s'.ents == s.ents;
    if k1 in s.ents {
      var k2 := Key2Of(s.ents[k1], d);
      if k2 in s.ents { SameSeen(s, s', Key(s.ents[k2], Target(d))); }
    }
  }

  /** The next call has outcome `o`, after which the locals are `l'`: the call is still happy. */
  predicate StaysHappy(hash: Bytes -> Digest, s: Store, p: Proc, o: Outcome, l': Local, was: Option<Seen>)
    requires WellFormed(p.l) && Settled(p.l)
  {
    var p' := Moved(s, p, o, l');
    p'.l.snap == p.l.snap && p'.l.cfg == p.l.cfg && IsLowerHex64(p'.l.snap.digest) && Happy(hash, o.store, p', was)
  }

  /** Before a step: the invariant of the adapter, and all is well. */
  predicate Well(hash: Bytes -> Digest, s: Store, p: Proc, was: Option<Seen>, ch: Choice) {
    && Ready(hash, s, p) && Rooted(s) && IsLowerHex64(p.l.snap.digest) && Happy(hash, s, p, was) && Fair(s, p, ch)
  }

  // ---- opening the root and the shards ---------------------------------------------------------

  lemma FairOpenRoot(hash: Bytes -> Digest, s: Store, p: Proc, o: Outcome, ch: Choice, was: Option<Seen>)
    requires Well(hash, s, p, was, ch) && p.l.pc.POpenRoot? && o == ExecOpenRoot(s, p.fds, ch)
    ensures StaysHappy(hash, s, p, o, AfterOpenRoot(p.l, o.reply), was)
  {
    hide Standing, IsLowerHex64, Found;
  }

  lemma FairStatRoot(hash: Bytes -> Digest, s: Store, p: Proc, o: Outcome, ch: Choice, was: Option<Seen>)
    requires Well(hash, s, p, was, ch) && p.l.pc.PStatRoot? && o == ExecFstat(s, p.fds, p.l.fd.root, ch)
    ensures StaysHappy(hash, s, p, o, AfterStatRoot(p.l, o.reply), was)
  {
    hide Standing, IsLowerHex64, Found;
  }

  /** In a level being opened the parent is open, and the shard's entry lies in it. */
  lemma ParentIsOpen(hash: Bytes -> Digest, s: Store, p: Proc)
    requires Standing(hash, s, p) && ShardPc(p.l.pc)
    ensures IsLowerHex64(p.l.snap.digest) && FdAt(p, p.l.ParentFd(), ShardKey(p).dir) && IsDir(s, ShardKey(p).dir)
    ensures ShardKey(p).name == p.l.LevelName()
    ensures p.l.deep ==> Maps(s.ents, Key1(p), p.aux.d1)
    ensures ShardOpen(p.l.pc) ==>
      FdAt(p, p.l.LevelFd(), if p.l.deep then p.aux.d2 else p.aux.d1)
      && Maps(s.ents, ShardKey(p), if p.l.deep then p.aux.d2 else p.aux.d1)
    ensures ShardOpen(p.l.pc) && !p.l.pc.PStatShard? ==> p.l.created
  {
  }

  lemma MadeShard(s: Store, s': Store, cfg: Config, d: Digest, deep: bool, x: Ino, i: Inode)
    requires Rooted(s) && IsLowerHex64(d) && Paved(s, cfg, d, false, false) && x !in s.inodes
    requires i.kind.Directory? && i.mem.uid == cfg.uid
    requires deep ==> Key1Of(cfg.root, d) in s.ents
    requires var k := if deep then Key2Of(s.ents[Key1Of(cfg.root, d)], d) else Key1Of(cfg.root, d);
      k !in s.ents && s' == Added(s, k, x, i)
    requires deep ==> s.ents[Key1Of(cfg.root, d)] in s.inodes
    ensures Paved(s', cfg, d, !deep, deep) && Found(s', cfg.root, d) == Found(s, cfg.root, d)
    ensures Rooted(s')
  {
    hide IsLowerHex64;
  }

  lemma HappyOpening(hash: Bytes -> Digest, s: Store, p: Proc, was: Option<Seen>)
    requires IsLowerHex64(p.l.snap.digest) && Opening(p.l.pc)
    ensures Happy(hash, s, p, was) <==> !p.l.closeFailed && OnTheWay(s, p, was)
  {
    hide OnTheWay, IsLowerHex64;
  }

  /** A call that opens and closes nothing only changes the locals and offsets. */
  lemma Onward(hash: Bytes -> Digest, s: Store, p: Proc, o: Outcome, l': Local, was: Option<Seen>)
    requires WellFormed(p.l) && Settled(p.l) && !o.reply.Got? && !p.l.pc.CClose? && !p.l.pc.PClosing? && Settled(l')
    requires l'.snap == p.l.snap && l'.cfg == p.l.cfg && IsLowerHex64(p.l.snap.digest)
    requires Happy(hash, o.store, p.(l := l', fds := o.fds), was)
    ensures StaysHappy(hash, s, p, o, l', was)
  {
    hide Happy, WellFormed, IsLowerHex64;
    assert Moved(s, p, o, l') == p.(l := l', fds := o.fds);
  }

  lemma FairMkShard(hash: Bytes -> Digest, s: Store, p: Proc, o: Outcome, ch: Choice, was: Option<Seen>)
    requires Well(hash, s, p, was, ch) && p.l.pc.PMkShard?
    requires o == ExecMkdir(s, p.fds, p.l.ParentFd(), p.l.LevelName(), ch)
    ensures StaysHappy(hash, s, p, o, AfterMkShard(p.l, o.reply), was)
  {
    hide Standing, IsLowerHex64, Happy, StaysHappy;
    HappyOpening(hash, s, p, was);
    ParentIsOpen(hash, s, p);
    if o.reply.Done? {
      MadeShard(s, o.store, p.l.cfg, p.l.snap.digest, p.l.deep, ch.ino, Inode(Directory, ch.mem, ch.disk));
      NoShardNothingFound(s, p);
    }
    hide Found, Paved, Rooted;
    var q := p.(l := AfterMkShard(p.l, o.reply));
    HappyOpening(hash, o.store, q, was);
    Onward(hash, s, p, o, q.l, was);
  }

  lemma NoShardNothingFound(s: Store, p: Proc)
    requires IsLowerHex64(p.l.snap.digest) && ShardKey(p) !in s.ents
    requires p.l.deep ==> Maps(s.ents, Key1(p), p.aux.d1)
    ensures Found(s, p.l.cfg.root, p.l.snap.digest).None?
  {
    hide IsLowerHex64;
  }

  lemma FairOpenShard(hash: Bytes -> Digest, s: Store, p: Proc, o: Outcome, ch: Choice, was: Option<Seen>)
    requires Well(hash, s, p, was, ch) && p.l.pc.POpenShard?
    requires o == ExecOpen(s, p.fds, p.l.ParentFd(), p.l.LevelName(), true, ch)
    ensures StaysHappy(hash, s, p, o, AfterOpenShard(p.l, o.reply), was)
  {
    hide Standing, IsLowerHex64, Happy, Found;
    HappyOpening(hash, s, p, was);
    ParentIsOpen(hash, s, p);
    PavedShardIsDir(s, p);
    hide Paved;
    HappyOpening(hash, s, Moved(s, p, o, AfterOpenShard(p.l, o.reply)), was);
  }

  lemma PavedShardIsDir(s: Store, p: Proc)
    requires IsLowerHex64(p.l.snap.digest) && ShardKey(p) in s.ents
    requires p.l.deep ==> Maps(s.ents, Key1(p), p.aux.d1)
    requires exists a, b :: Paved(s, p.l.cfg, p.l.snap.digest, a, b)
    ensures IsDir(s, s.ents[ShardKey(p)])
  {
    hide IsLowerHex64;
  }

  lemma ModedShard(s: Store, x: Ino, cfg: Config, d: Digest, deep: bool)
    requires IsLowerHex64(d) && Paved(s, cfg, d, !deep, deep) && x in s.inodes && s.inodes[x].kind.Directory?
    requires var k1 := Key1Of(cfg.root, d);
      k1 in s.ents && if deep then Maps(s.ents, Key2Of(s.ents[k1], d), x) else s.ents[k1] == x
    ensures var s' := Edited(s, x, s.inodes[x].mem.(mode := DIR_MODE));
      Paved(s', cfg, d, false, false) && (Found(s, cfg.root, d).None? ==> Found(s', cfg.root, d).None?)
  {
    hide IsLowerHex64;
  }

  lemma FairChmodShard(hash: Bytes -> Digest, s: Store, p: Proc, o: Outcome, ch: Choice, was: Option<Seen>)
    requires Well(hash, s, p, was, ch) && p.l.pc.PChmodShard? && o == ExecFchmod(s, p.fds, p.l.LevelFd(), DIR_MODE, ch)
    ensures StaysHappy(hash, s, p, o, AfterChmodShard(p.l, o.reply), was)
  {
    hide Standing, IsLowerHex64, Happy, StaysHappy;
    HappyOpening(hash, s, p, was);
    ParentIsOpen(hash, s, p);
    ShardIsDir(hash, s, p);
    ModedShard(s, p.fds[p.l.LevelFd()].ino, p.l.cfg, p.l.snap.digest, p.l.deep);
    hide Found, Paved;
    var q := p.(l := AfterChmodShard(p.l, o.reply));
    HappyOpening(hash, o.store, q, was);
    Onward(hash, s, p, o, q.l, was);
  }

  lemma ShardIsDir(hash: Bytes -> Digest, s: Store, p: Proc)
    requires Standing(hash, s, p) && ShardPc(p.l.pc) && ShardOpen(p.l.pc)
    ensures p.l.LevelFd() in p.fds && IsDir(s, p.fds[p.l.LevelFd()].ino)
    ensures p.l.ParentFd() in p.fds && IsDir(s, p.fds[p.l.ParentFd()].ino)
  {
    LevelIsDir(hash, s, p);
  }

  /** The open shard has the right owner and mode. */
  lemma ShardIsRight(s: Store, p: Proc, was: Option<Seen>)
    requires IsLowerHex64(p.l.snap.digest) && OnTheWay(s, p, was) && p.l.pc.PStatShard?
    requires p.l.deep ==> Maps(s.ents, Key1(p), p.aux.d1)
    requires Maps(s.ents, ShardKey(p), if p.l.deep then p.aux.d2 else p.aux.d1)
    ensures RightDir(s, if p.l.deep then p.aux.d2 else p.aux.d1, p.l.cfg.uid)
  {
    hide IsLowerHex64, Found;
  }

  lemma FairStatShard(hash: Bytes -> Digest, s: Store, p: Proc, o: Outcome, ch: Choice, was: Option<Seen>)
    requires Well(hash, s, p, was, ch) && p.l.pc.PStatShard? && o == ExecFstat(s, p.fds, p.l.LevelFd(), ch)
    ensures StaysHappy(hash, s, p, o, AfterStatShard(p.l, o.reply), was)
  {
    hide Standing, IsLowerHex64, Happy, StaysHappy, Found;
    HappyOpening(hash, s, p, was);
    ParentIsOpen(hash, s, p);
    ShardIsRight(s, p, was);
    hide Paved;
    var q := p.(l := AfterStatShard(p.l, o.reply));
    HappyOpening(hash, o.store, q, was);
    Onward(hash, s, p, o, q.l, was);
  }

  lemma SyncKeepsView(s: Store, x: Ino)
    requires x in s.inodes
    ensures SameView(s, Synced(s, x))
  {
  }

  lemma FairSyncShard(hash: Bytes -> Digest, s: Store, p: Proc, o: Outcome, ch: Choice, was: Option<Seen>)
    requires Well(hash, s, p, was, ch)
    requires (p.l.pc.PSyncShard? && o == ExecFsync(s, p.fds, p.l.LevelFd(), ch))
      || (p.l.pc.PSyncParent? && o == ExecFsync(s, p.fds, p.l.ParentFd(), ch))
    ensures StaysHappy(hash, s, p, o,
      if p.l.pc.PSyncShard? then AfterSyncShard(p.l, o.reply) else AfterSyncParent(p.l, o.reply), was)
  {
    hide Standing, IsLowerHex64, Happy, StaysHappy, Found, Paved, Synced;
    HappyOpening(hash, s, p, was);
    ParentIsOpen(hash, s, p);
    ShardIsDir(hash, s, p);
    SyncKeepsView(s, if p.l.pc.PSyncShard? then p.fds[p.l.LevelFd()].ino else p.fds[p.l.ParentFd()].ino);
    ViewDecides(s, o.store, p.l.cfg, p.l.snap.digest);
    hide SameView;
    var q := p.(l := if p.l.pc.PSyncShard? then AfterSyncShard(p.l, o.reply) else AfterSyncParent(p.l, o.reply));
    HappyOpening(hash, o.store, q, was);
    Onward(hash, s, p, o, q.l, was);
  }

  // ---- making the temp -------------------------------------------------------------------------

  lemma HappyStaging(hash: Bytes -> Digest, s: Store, p: Proc, was: Option<Seen>)
    requires IsLowerHex64(p.l.snap.digest) && Staging(p.l.pc)
    ensures Happy(hash, s, p, was) <==> !p.l.closeFailed && MakingTemp(s, p, was)
  {
    hide MakingTemp, IsLowerHex64;
  }

  /** With both shards open the path is known. */
  lemma ShardsAreOpen(hash: Bytes -> Digest, s: Store, p: Proc)
    requires Standing(hash, s, p) && HasShards(p.l.pc)
    ensures IsLowerHex64(p.l.snap.digest) && FdAt(p, p.l.fd.shard, p.aux.d2) && IsDir(s, p.aux.d2)
    ensures Maps(s.ents, Key1(p), p.aux.d1) && Maps(s.ents, Key2(p), p.aux.d2)
  {
    hide IsLowerHex64;
  }

  lemma PathIsKnown(s: Store, p: Proc)
    requires IsLowerHex64(p.l.snap.digest) && Maps(s.ents, Key1(p), p.aux.d1) && Maps(s.ents, Key2(p), p.aux.d2)
    ensures Found(s, p.l.cfg.root, p.l.snap.digest) == SeenAt(s, TargetKey(p))
    ensures forall a, b :: Paved(s, p.l.cfg, p.l.snap.digest, a, b) ==> TempKey(p) !in s.ents
  {
    hide IsLowerHex64;
  }

  lemma FairCreateTemp(hash: Bytes -> Digest, s: Store, p: Proc, o: Outcome, ch: Choice, was: Option<Seen>)
    requires Well(hash, s, p, was, ch) && p.l.pc.PCreateTemp?
    requires o == ExecCreate(s, p.fds, p.l.fd.shard, p.l.TempName(), ch)
    ensures StaysHappy(hash, s, p, o, AfterCreateTemp(p.l, o.reply), was)
  {
    hide Standing, IsLowerHex64, Happy, Found, Paved;
    HappyOpening(hash, s, p, was);
    ShardsAreOpen(hash, s, p);
    PathIsKnown(s, p);
    HappyStaging(hash, o.store, Moved(s, p, o, AfterCreateTemp(p.l, o.reply)), was);
  }

  /** What the invariant says of a temp in the making. */
  lemma TempIsHeld(hash: Bytes -> Digest, s: Store, p: Proc)
    requires Standing(hash, s, p) && Staging(p.l.pc)
    ensures Sound(hash, p.l.snap) && StagingOk(s, p) && WellFormed(p.l)
  {
    hide IsLowerHex64;
  }

  lemma FairStatTemp(hash: Bytes -> Digest, s: Store, p: Proc, o: Outcome, ch: Choice, was: Option<Seen>)
    requires Well(hash, s, p, was, ch) && p.l.pc.PStatTemp? && o == ExecFstat(s, p.fds, p.l.fd.temp, ch)
    ensures StaysHappy(hash, s, p, o, AfterStatTemp(p.l, o.reply), was)
  {
    hide Standing, IsLowerHex64, Happy, StaysHappy;
    HappyStaging(hash, s, p, was);
    TempIsHeld(hash, s, p);
    var q := p.(l := AfterStatTemp(p.l, o.reply));
    HappyStaging(hash, o.store, q, was);
    Onward(hash, s, p, o, q.l, was);
  }

  /** Editing the temp does not touch what its target's path leads to. */
  lemma TempIsApart(s: Store, p: Proc, m: Data)
    requires Staging(p.l.pc) && StagingOk(s, p)
    ensures SeenAt(Edited(s, p.aux.temp.value, m), TargetKey(p)) == SeenAt(s, TargetKey(p))
  {
  }

  lemma FairWrite(hash: Bytes -> Digest, s: Store, p: Proc, o: Outcome, ch: Choice, was: Option<Seen>)
    requires Well(hash, s, p, was, ch) && p.l.pc.PWrite?
    requires o == ExecWrite(s, p.fds, p.l.fd.temp, p.l.snap.data[p.l.total..], ch)
    ensures StaysHappy(hash, s, p, o, AfterWrite(p.l, o.reply), was)
  {
    hide Standing, IsLowerHex64, Happy, StaysHappy, Spliced;
    HappyStaging(hash, s, p, was);
    TempIsHeld(hash, s, p);
    TempIsApart(s, p, o.store.inodes[p.aux.temp.value].mem);
    var q := p.(l := AfterWrite(p.l, o.reply), fds := o.fds);
    HappyStaging(hash, o.store, q, was);
    Onward(hash, s, p, o, q.l, was);
  }

  lemma FairChmodTemp(hash: Bytes -> Digest, s: Store, p: Proc, o: Outcome, ch: Choice, was: Option<Seen>)
    requires Well(hash, s, p, was, ch) && p.l.pc.PChmodTemp? && o == ExecFchmod(s, p.fds, p.l.fd.temp, BLOB_MODE, ch)
    ensures StaysHappy(hash, s, p, o, AfterChmodTemp(p.l, o.reply), was)
  {
    hide Standing, IsLowerHex64, Happy, StaysHappy;
    HappyStaging(hash, s, p, was);
    TempIsHeld(hash, s, p);
    TempIsApart(s, p, o.store.inodes[p.aux.temp.value].mem);
    var q := p.(l := AfterChmodTemp(p.l, o.reply));
    HappyStaging(hash, o.store, q, was);
    Onward(hash, s, p, o, q.l, was);
  }

  lemma FairVerifyTemp(hash: Bytes -> Digest, s: Store, p: Proc, o: Outcome, ch: Choice, was: Option<Seen>)
    requires Well(hash, s, p, was, ch) && p.l.pc.PVerifyTemp? && o == ExecFstat(s, p.fds, p.l.fd.temp, ch)
    ensures StaysHappy(hash, s, p, o, AfterVerifyTemp(p.l, o.reply), was)
  {
    hide Standing, IsLowerHex64, Happy, StaysHappy;
    HappyStaging(hash, s, p, was);
    TempIsHeld(hash, s, p);
    var q := p.(l := AfterVerifyTemp(p.l, o.reply));
    HappyStaging(hash, o.store, q, was);
    Onward(hash, s, p, o, q.l, was);
  }

  /** Bytes read back so far lead on to the next read, or to the rename. */
  lemma ReadsOn(hash: Bytes -> Digest, s: Store, p: Proc, l: Local, was: Option<Seen>)
    requires Sound(hash, p.l.snap) && Staging(p.l.pc) && MakingTemp(s, p, was) && !p.l.closeFailed
    requires |l.buf| <= |l.snap.data| && l.buf == l.snap.data[..|l.buf|] && l == p.l.(buf := l.buf)
    ensures Happy(hash, s, p.(l := StartReadTemp(hash, l)), was) && Settled(StartReadTemp(hash, l))
  {
    hide IsLowerHex64, Happy;
    if |l.buf| == |l.snap.data| { assert l.buf == l.snap.data; }
    HappyStaging(hash, s, p.(l := StartReadTemp(hash, l)), was);
  }

  lemma FairSyncTemp(hash: Bytes -> Digest, s: Store, p: Proc, o: Outcome, ch: Choice, was: Option<Seen>)
    requires Well(hash, s, p, was, ch) && p.l.pc.PSyncTemp? && o == ExecFsync(s, p.fds, p.l.fd.temp, ch)
    ensures StaysHappy(hash, s, p, o, AfterSyncTemp(hash, p.l, o.reply), was)
  {
    hide Standing, IsLowerHex64, Happy, StaysHappy, StartReadTemp, Synced;
    HappyStaging(hash, s, p, was);
    TempIsHeld(hash, s, p);
    SyncKeepsView(s, p.aux.temp.value);
    SameMaking(s, o.store, p, was);
    ReadsOn(hash, o.store, p, p.l.(buf := []), was);
    ReadingKeepsNames(hash, p.l.(buf := []));
    Onward(hash, s, p, o, AfterSyncTemp(hash, p.l, o.reply), was);
  }

  lemma ReadingKeepsNames(hash: Bytes -> Digest, l: Local)
    ensures StartReadTemp(hash, l).snap == l.snap && StartReadTemp(hash, l).cfg == l.cfg
  {
  }

  lemma SameMaking(s: Store, s': Store, p: Proc, was: Option<Seen>)
    requires SameView(s, s') && MakingTemp(s, p, was)
    ensures MakingTemp(s', p, was)
  {
    SameSeen(s, s', TargetKey(p));
    SameInode(s, s', p.aux.temp.value);
  }

  lemma FairReadTemp(hash: Bytes -> Digest, s: Store, p: Proc, o: Outcome, ch: Choice, was: Option<Seen>)
    requires Well(hash, s, p, was, ch) && p.l.pc.PReadTemp?
    requires o == ExecPread(s, p.fds, p.l.fd.temp, p.l.Length() - |p.l.buf|, |p.l.buf|, ch)
    ensures StaysHappy(hash, s, p, o, AfterReadTemp(hash, p.l, o.reply), was)
  {
    hide Standing, IsLowerHex64, Happy, StaysHappy, StartReadTemp;
    HappyStaging(hash, s, p, was);
    TempIsHeld(hash, s, p);
    var all, buf := p.l.snap.data, p.l.buf;
    assert o.reply.Chunk? && o.reply.bytes == all[|buf|..][..|o.reply.bytes|] && o.reply.bytes != [];
    PrefixGrows(all, buf, o.reply.bytes);
    var l := p.l.(buf := buf + o.reply.bytes);
    ReadsOn(hash, s, p, l, was);
    ReadingKeepsNames(hash, l);
    Onward(hash, s, p, o, StartReadTemp(hash, l), was);
  }

  // ---- the rename ------------------------------------------------------------------------------

  lemma HappyPublished(hash: Bytes -> Digest, s: Store, p: Proc, was: Option<Seen>)
    requires IsLowerHex64(p.l.snap.digest) && Published(p.l.pc)
    ensures Happy(hash, s, p, was) <==> !p.l.closeFailed && was.None?
  {
    hide IsLowerHex64;
  }

  lemma HappyInspecting(hash: Bytes -> Digest, s: Store, p: Proc, was: Option<Seen>)
    requires IsLowerHex64(p.l.snap.digest) && Inspecting(p.l.pc)
    ensures Happy(hash, s, p, was) <==> !p.l.closeFailed && Judging(s, p, was)
  {
    hide IsLowerHex64, Judging;
  }

  lemma HappyCleaning(hash: Bytes -> Digest, s: Store, p: Proc, was: Option<Seen>)
    requires IsLowerHex64(p.l.snap.digest) && Cleaning(p.l.pc)
    ensures Happy(hash, s, p, was) <==>
      !p.l.closeFailed && was.Some? && TidyingUp(s, p, Expected(hash, p.l.cfg, p.l.snap, was))
  {
    hide IsLowerHex64, TidyingUp, Expected;
  }

  lemma HappyOver(hash: Bytes -> Digest, s: Store, p: Proc, was: Option<Seen>)
    requires IsLowerHex64(p.l.snap.digest) && Over(p.l.pc)
    ensures Happy(hash, s, p, was) <==> !p.l.closeFailed && p.l.outcome == Expected(hash, p.l.cfg, p.l.snap, was)
  {
    hide IsLowerHex64, Expected;
  }

  /** The rename works where the path led nowhere, and is refused because the target exists where it led
      somewhere. */
  lemma FairRename(hash: Bytes -> Digest, s: Store, p: Proc, o: Outcome, ch: Choice, was: Option<Seen>)
    requires Well(hash, s, p, was, ch) && p.l.pc.PRename?
    requires o == ExecRename(s, p.fds, p.l.fd.shard, p.l.TempName(), p.l.TargetName(), ch)
    ensures StaysHappy(hash, s, p, o, AfterRename(p.l, o.reply), was)
  {
    hide Standing, IsLowerHex64, Happy, StaysHappy;
    HappyStaging(hash, s, p, was);
    TempIsHeld(hash, s, p);
    ShardsAreOpen(hash, s, p);
    assert o.reply == (if was.None? then Done else Fail(EEXIST));
    var q := p.(l := AfterRename(p.l, o.reply));
    if was.None? { HappyPublished(hash, o.store, q, was); } else { HappyInspecting(hash, o.store, q, was); }
    Onward(hash, s, p, o, q.l, was);
  }

  // ---- after an acknowledged rename ------------------------------------------------------------

  lemma BlobIsHeld(hash: Bytes -> Digest, s: Store, p: Proc)
    requires Standing(hash, s, p) && Published(p.l.pc)
    ensures Sound(hash, p.l.snap) && PublishedOk(s, p) && WellFormed(p.l) && FdAt(p, p.l.fd.shard, p.aux.d2)
  {
    hide IsLowerHex64;
  }

  lemma FairSyncDir(hash: Bytes -> Digest, s: Store, p: Proc, o: Outcome, ch: Choice, was: Option<Seen>)
    requires Well(hash, s, p, was, ch) && p.l.pc.PSyncDir? && o == ExecFsync(s, p.fds, p.l.fd.shard, ch)
    ensures StaysHappy(hash, s, p, o, AfterSyncDir(p.l, o.reply), was)
  {
    hide Standing, IsLowerHex64, Happy, StaysHappy, Synced;
    HappyPublished(hash, s, p, was);
    ShardsAreOpen(hash, s, p);
    var q := p.(l := AfterSyncDir(p.l, o.reply));
    HappyPublished(hash, o.store, q, was);
    Onward(hash, s, p, o, q.l, was);
  }

  lemma FairOpenTarget(hash: Bytes -> Digest, s: Store, p: Proc, o: Outcome, ch: Choice, was: Option<Seen>)
    requires Well(hash, s, p, was, ch) && p.l.pc.POpenTarget?
    requires o == ExecOpen(s, p.fds, p.l.fd.shard, p.l.TargetName(), false, ch)
    ensures StaysHappy(hash, s, p, o, AfterOpenTarget(p.l, o.reply), was)
  {
    hide Standing, IsLowerHex64, Happy;
    HappyPublished(hash, s, p, was);
    BlobIsHeld(hash, s, p);
    HappyPublished(hash, o.store, Moved(s, p, o, AfterOpenTarget(p.l, o.reply)), was);
  }

  lemma FairStatTarget(hash: Bytes -> Digest, s: Store, p: Proc, o: Outcome, ch: Choice, was: Option<Seen>)
    requires Well(hash, s, p, was, ch) && p.l.pc.PStatTarget? && o == ExecFstat(s, p.fds, p.l.fd.target, ch)
    ensures StaysHappy(hash, s, p, o, AfterStatTarget(p.l, o.reply), was)
  {
    hide Standing, IsLowerHex64, Happy, StaysHappy;
    HappyPublished(hash, s, p, was);
    BlobIsHeld(hash, s, p);
    var q := p.(l := AfterStatTarget(p.l, o.reply));
    HappyPublished(hash, o.store, q, was);
    Onward(hash, s, p, o, q.l, was);
  }

  lemma TargetReadsOn(hash: Bytes -> Digest, s: Store, p: Proc, l: Local, was: Option<Seen>)
    requires Sound(hash, p.l.snap) && Published(p.l.pc) && was.None? && !p.l.closeFailed
    requires |l.buf| <= |l.snap.data| && l.buf == l.snap.data[..|l.buf|] && l == p.l.(buf := l.buf)
    ensures var l' := StartReadTarget(hash, l);
      Happy(hash, s, p.(l := l'), was) && Settled(l') && l'.snap == l.snap && l'.cfg == l.cfg
  {
    hide IsLowerHex64, Happy;
    if |l.buf| == |l.snap.data| { assert l.buf == l.snap.data; }
    HappyPublished(hash, s, p.(l := StartReadTarget(hash, l)), was);
  }

  lemma FairSyncTarget(hash: Bytes -> Digest, s: Store, p: Proc, o: Outcome, ch: Choice, was: Option<Seen>)
    requires Well(hash, s, p, was, ch) && p.l.pc.PSyncTarget? && o == ExecFsync(s, p.fds, p.l.fd.target, ch)
    ensures StaysHappy(hash, s, p, o, AfterSyncTarget(hash, p.l, o.reply), was)
  {
    hide Standing, IsLowerHex64, Happy, StaysHappy, StartReadTarget, Synced;
    HappyPublished(hash, s, p, was);
    BlobIsHeld(hash, s, p);
    TargetReadsOn(hash, o.store, p, p.l.(buf := []), was);
    Onward(hash, s, p, o, AfterSyncTarget(hash, p.l, o.reply), was);
  }

  lemma FairReadTarget(hash: Bytes -> Digest, s: Store, p: Proc, o: Outcome, ch: Choice, was: Option<Seen>)
    requires Well(hash, s, p, was, ch) && p.l.pc.PReadTarget?
    requires o == ExecPread(s, p.fds, p.l.fd.target, p.l.Length() - |p.l.buf|, |p.l.buf|, ch)
    ensures StaysHappy(hash, s, p, o, AfterReadTarget(hash, p.l, o.reply), was)
  {
    hide Standing, IsLowerHex64, Happy, StaysHappy, StartReadTarget;
    HappyPublished(hash, s, p, was);
    BlobIsHeld(hash, s, p);
    var all, buf := p.l.snap.data, p.l.buf;
    assert o.reply.Chunk? && o.reply.bytes == all[|buf|..][..|o.reply.bytes|] && o.reply.bytes != [];
    PrefixGrows(all, buf, o.reply.bytes);
    var l := p.l.(buf := buf + o.reply.bytes);
    TargetReadsOn(hash, s, p, l, was);
    Onward(hash, s, p, o, StartReadTarget(hash, l), was);
  }

  lemma FairSyncDirAgain(hash: Bytes -> Digest, s: Store, p: Proc, o: Outcome, ch: Choice, was: Option<Seen>)
    requires Well(hash, s, p, was, ch) && p.l.pc.PSyncDirAgain? && o == ExecFsync(s, p.fds, p.l.fd.shard, ch)
    ensures StaysHappy(hash, s, p, o, AfterSyncDirAgain(p.l, o.reply), was)
  {
    hide Standing, IsLowerHex64, Happy, StaysHappy, Synced;
    HappyPublished(hash, s, p, was);
    ShardsAreOpen(hash, s, p);
    RootIsTracked(hash, s, p);
    var q := p.(l := AfterSyncDirAgain(p.l, o.reply));
    HappyOver(hash, o.store, q, was);
    Onward(hash, s, p, o, q.l, was);
  }

  // ---- after a refused rename ------------------------------------------------------------------

  lemma TargetIsHeld(hash: Bytes -> Digest, s: Store, p: Proc)
    requires Standing(hash, s, p) && Inspecting(p.l.pc)
    ensures Sound(hash, p.l.snap) && InspectingOk(hash, s, p) && WellFormed(p.l) && FdAt(p, p.l.fd.shard, p.aux.d2)
    ensures p.l.open != []
  {
    hide IsLowerHex64;
  }

  /** A verdict that is the expected one is followed by the cleanup. */
  lemma Judged(hash: Bytes -> Digest, s: Store, p: Proc, l: Local, was: Option<Seen>)
    requires IsLowerHex64(p.l.snap.digest) && Judging(s, p, was) && !l.closeFailed && l.pc.COpen?
    requires l.snap == p.l.snap && l.cfg == p.l.cfg && l.outcome == Expected(hash, l.cfg, l.snap, was)
    ensures Happy(hash, s, p.(l := l), was)
  {
    hide IsLowerHex64, Happy, Expected;
    HappyCleaning(hash, s, p.(l := l), was);
  }

  lemma FairXOpen(hash: Bytes -> Digest, s: Store, p: Proc, o: Outcome, ch: Choice, was: Option<Seen>)
    requires Well(hash, s, p, was, ch) && p.l.pc.XOpen?
    requires o == ExecOpen(s, p.fds, p.l.fd.shard, p.l.TargetName(), false, ch)
    ensures StaysHappy(hash, s, p, o, AfterXOpen(p.l, o.reply), was)
  {
    hide Standing, IsLowerHex64, Happy;
    HappyInspecting(hash, s, p, was);
    TargetIsHeld(hash, s, p);
    var l' := AfterXOpen(p.l, o.reply);
    if o.reply.Got? {
      HappyInspecting(hash, o.store, Moved(s, p, o, l'), was);
    } else {
      assert was.value.kind.Directory?;
      Judged(hash, s, p, l', was);
      Onward(hash, s, p, o, l', was);
    }
  }

  lemma FairXStat(hash: Bytes -> Digest, s: Store, p: Proc, o: Outcome, ch: Choice, was: Option<Seen>)
    requires Well(hash, s, p, was, ch) && p.l.pc.XStat? && o == ExecFstat(s, p.fds, p.l.fd.target, ch)
    ensures StaysHappy(hash, s, p, o, AfterXStat(hash, p.l, o.reply), was)
  {
    hide Standing, IsLowerHex64, Happy, StaysHappy, StartXRead;
    HappyInspecting(hash, s, p, was);
    TargetIsHeld(hash, s, p);
    var l' := AfterXStat(hash, p.l, o.reply);
    if BlobStatOk(p.l, o.reply.st) { TargetJudgedOn(hash, s, p, p.l.(buf := []), was); }
    else { Judged(hash, s, p, l', was); }
    Onward(hash, s, p, o, l', was);
  }

  lemma TargetJudgedOn(hash: Bytes -> Digest, s: Store, p: Proc, l: Local, was: Option<Seen>)
    requires IsLowerHex64(p.l.snap.digest) && Inspecting(p.l.pc) && Judging(s, p, was) && !p.l.closeFailed
    requires Maps(s.ents, TargetKey(p), p.aux.x) && StatFits(s, p, p.aux.x)
    requires l == p.l.(buf := l.buf) && |l.buf| <= |l.snap.data| && l.buf == s.inodes[p.aux.x].mem.bytes[..|l.buf|]
    ensures var l' := StartXRead(hash, l);
      Happy(hash, s, p.(l := l'), was) && Settled(l') && l'.snap == l.snap && l'.cfg == l.cfg
  {
    hide IsLowerHex64, Happy;
    var l' := StartXRead(hash, l);
    if |l.buf| == |l.snap.data| { assert l.buf == s.inodes[p.aux.x].mem.bytes; }
    if l'.pc.COpen? { Judged(hash, s, p, l', was); } else { HappyInspecting(hash, s, p.(l := l'), was); }
  }

  lemma FairXRead(hash: Bytes -> Digest, s: Store, p: Proc, o: Outcome, ch: Choice, was: Option<Seen>)
    requires Well(hash, s, p, was, ch) && p.l.pc.XRead?
    requires o == ExecPread(s, p.fds, p.l.fd.target, p.l.Length() - |p.l.buf|, |p.l.buf|, ch)
    ensures StaysHappy(hash, s, p, o, AfterXRead(hash, p.l, o.reply), was)
  {
    hide Standing, IsLowerHex64, Happy, StaysHappy, StartXRead;
    HappyInspecting(hash, s, p, was);
    TargetIsHeld(hash, s, p);
    var all, buf := s.inodes[p.aux.x].mem.bytes, p.l.buf;
    assert o.reply.Chunk? && o.reply.bytes == all[|buf|..][..|o.reply.bytes|] && o.reply.bytes != [];
    PrefixGrows(all, buf, o.reply.bytes);
    var l := p.l.(buf := buf + o.reply.bytes);
    TargetJudgedOn(hash, s, p, l, was);
    Onward(hash, s, p, o, StartXRead(hash, l), was);
  }

  lemma SameJudging(s: Store, s': Store, p: Proc, was: Option<Seen>)
    requires SameView(s, s') && Judging(s, p, was)
    ensures Judging(s', p, was)
  {
    SameSeen(s, s', TargetKey(p));
  }

  lemma FairXSync(hash: Bytes -> Digest, s: Store, p: Proc, o: Outcome, ch: Choice, was: Option<Seen>)
    requires Well(hash, s, p, was, ch)
    requires (p.l.pc.XSyncFile? && o == ExecFsync(s, p.fds, p.l.fd.target, ch))
      || (p.l.pc.XSyncDir? && o == ExecFsync(s, p.fds, p.l.fd.shard, ch))
    ensures StaysHappy(hash, s, p, o,
      if p.l.pc.XSyncFile? then AfterXSyncFile(p.l, o.reply) else AfterXSyncDir(p.l, o.reply), was)
  {
    hide Standing, IsLowerHex64, Happy, StaysHappy, Synced;
    HappyInspecting(hash, s, p, was);
    TargetIsHeld(hash, s, p);
    ShardsAreOpen(hash, s, p);
    var x := p.fds[if p.l.pc.XSyncFile? then p.l.fd.target else p.l.fd.shard].ino;
    SyncKeepsView(s, x);
    SameJudging(s, o.store, p, was);
    hide SameView;
    var l' := if p.l.pc.XSyncFile? then AfterXSyncFile(p.l, o.reply) else AfterXSyncDir(p.l, o.reply);
    if p.l.pc.XSyncFile? {
      HappyInspecting(hash, o.store, p.(l := l'), was);
    } else {
      Judged(hash, o.store, p, l', was);
    }
    Onward(hash, s, p, o, l', was);
  }

  // ---- cleaning up and closing -----------------------------------------------------------------

  lemma CleanerHolds(hash: Bytes -> Digest, s: Store, p: Proc)
    requires Standing(hash, s, p) && Cleaning(p.l.pc)
    ensures TempSomewhere(s, p) && FdAt(p, p.l.fd.shard, p.aux.d2) && IsDir(s, p.aux.d2) && p.l.open != []
    ensures p.l.pc.CStat? || p.l.pc.CClose? ==> p.l.fd.clean in p.fds
  {
    hide IsLowerHex64;
  }

  /** Before a step of a call that is ending. */
  predicate EndsWith(hash: Bytes -> Digest, s: Store, p: Proc, out: Result, ch: Choice) {
    Ready(hash, s, p) && Ending(s, p, out) && Fair(s, p, ch)
  }

  predicate StaysEnding(s: Store, p: Proc, o: Outcome, l': Local, out: Result)
    requires WellFormed(p.l) && Settled(p.l)
  {
    var p' := Moved(s, p, o, l');
    Ending(o.store, p', out) && p'.l.snap == p.l.snap && p'.l.cfg == p.l.cfg && p'.l.closeFailed == p.l.closeFailed
      && (Cleaning(p'.l.pc) ==> Cleaning(p.l.pc))
  }

  lemma EndCOpen(hash: Bytes -> Digest, s: Store, p: Proc, o: Outcome, ch: Choice, out: Result)
    requires EndsWith(hash, s, p, out, ch) && p.l.pc.COpen?
        && o == ExecOpen(s, p.fds, p.l.fd.shard, p.l.TempName(), false, ch)
    ensures StaysEnding(s, p, o, AfterCOpen(p.l, o.reply), out)
  {
    hide Standing, IsLowerHex64;
    CleanerHolds(hash, s, p);
  }

  lemma EndCStat(hash: Bytes -> Digest, s: Store, p: Proc, o: Outcome, ch: Choice, out: Result)
    requires EndsWith(hash, s, p, out, ch) && p.l.pc.CStat? && o == ExecFstat(s, p.fds, p.l.fd.clean, ch)
    ensures StaysEnding(s, p, o, AfterCStat(p.l, o.reply), out)
  {
    hide Standing, IsLowerHex64;
    CleanerHolds(hash, s, p);
  }

  lemma EndCClose(hash: Bytes -> Digest, s: Store, p: Proc, o: Outcome, ch: Choice, out: Result)
    requires EndsWith(hash, s, p, out, ch) && p.l.pc.CClose? && o == Outcome(s, p.fds - {p.l.fd.clean}, Acked(ch), 0)
    ensures StaysEnding(s, p, o, AfterCClose(p.l, o.reply), out)
  {
    hide Standing, IsLowerHex64;
    CleanerHolds(hash, s, p);
  }

  lemma EndCUnlink(hash: Bytes -> Digest, s: Store, p: Proc, o: Outcome, ch: Choice, out: Result)
    requires EndsWith(hash, s, p, out, ch) && p.l.pc.CUnlink?
        && o == ExecUnlink(s, p.fds, p.l.fd.shard, p.l.TempName(), ch)
    ensures StaysEnding(s, p, o, AfterCUnlink(p.l, o.reply), out)
  {
    hide Standing, IsLowerHex64;
    CleanerHolds(hash, s, p);
  }

  lemma EndCSync(hash: Bytes -> Digest, s: Store, p: Proc, o: Outcome, ch: Choice, out: Result)
    requires EndsWith(hash, s, p, out, ch) && p.l.pc.CSync? && o == ExecFsync(s, p.fds, p.l.fd.shard, ch)
    ensures StaysEnding(s, p, o, AfterCSync(p.l, o.reply), out)
  {
    hide Standing, IsLowerHex64, Synced;
    CleanerHolds(hash, s, p);
  }

  lemma EndClosing(hash: Bytes -> Digest, s: Store, p: Proc, o: Outcome, ch: Choice, out: Result)
    requires EndsWith(hash, s, p, out, ch) && p.l.pc.PClosing?
    requires o == Outcome(s, p.fds - {p.l.open[|p.l.open| - 1]}, Acked(ch), 0)
    ensures StaysEnding(s, p, o, AfterClosing(p.l, o.reply), out)
  {
    hide Standing, IsLowerHex64;
  }

  lemma CleanerIsFair(hash: Bytes -> Digest, s: Store, p: Proc, ch: Choice, o: Outcome, out: Result)
    requires EndsWith(hash, s, p, out, ch) && Calls(s, p, ch, o) && (p.l.pc.COpen? || p.l.pc.CStat? || p.l.pc.CClose?)
    ensures StaysEnding(s, p, o, After(hash, p.l, o.reply), out)
  {
    hide EndsWith, StaysEnding, IsLowerHex64, Ending;
    match p.l.pc
    case COpen => EndCOpen(hash, s, p, o, ch, out);
    case CStat => EndCStat(hash, s, p, o, ch, out);
    case CClose => EndCClose(hash, s, p, o, ch, out);
  }

  lemma RemoverIsFair(hash: Bytes -> Digest, s: Store, p: Proc, ch: Choice, o: Outcome, out: Result)
    requires EndsWith(hash, s, p, out, ch) && Calls(s, p, ch, o)
        && (p.l.pc.CUnlink? || p.l.pc.CSync? || p.l.pc.PClosing?)
    ensures StaysEnding(s, p, o, After(hash, p.l, o.reply), out)
  {
    hide EndsWith, StaysEnding, IsLowerHex64, Ending;
    match p.l.pc
    case CUnlink => EndCUnlink(hash, s, p, o, ch, out);
    case CSync => EndCSync(hash, s, p, o, ch, out);
    case PClosing => EndClosing(hash, s, p, o, ch, out);
  }

  lemma EndingIsFair(hash: Bytes -> Digest, s: Store, p: Proc, ch: Choice, o: Outcome, out: Result)
    requires EndsWith(hash, s, p, out, ch) && Calls(s, p, ch, o) && !p.l.pc.Finished?
    ensures StaysEnding(s, p, o, After(hash, p.l, o.reply), out)
  {
    assert Cleaning(p.l.pc) || p.l.pc.PClosing?;
    hide EndsWith, StaysEnding, IsLowerHex64, Ending, After, Calls;
    if p.l.pc.COpen? || p.l.pc.CStat? || p.l.pc.CClose? { CleanerIsFair(hash, s, p, ch, o, out); }
    else { RemoverIsFair(hash, s, p, ch, o, out); }
  }

  // ---- one call, whichever it is ---------------------------------------------------------------

  lemma OpeningIsFair(hash: Bytes -> Digest, s: Store, p: Proc, ch: Choice, o: Outcome, was: Option<Seen>)
    requires Well(hash, s, p, was, ch) && Calls(s, p, ch, o) && Opening(p.l.pc)
    ensures StaysHappy(hash, s, p, o, After(hash, p.l, o.reply), was)
  {
    hide Well, StaysHappy, IsLowerHex64;
    match p.l.pc
    case POpenRoot => FairOpenRoot(hash, s, p, o, ch, was);
    case PStatRoot => FairStatRoot(hash, s, p, o, ch, was);
    case PMkShard => FairMkShard(hash, s, p, o, ch, was);
    case POpenShard => FairOpenShard(hash, s, p, o, ch, was);
    case PChmodShard => FairChmodShard(hash, s, p, o, ch, was);
    case PStatShard => FairStatShard(hash, s, p, o, ch, was);
    case PSyncShard => FairSyncShard(hash, s, p, o, ch, was);
    case PSyncParent => FairSyncShard(hash, s, p, o, ch, was);
    case PCreateTemp => FairCreateTemp(hash, s, p, o, ch, was);
  }

  lemma StagingIsFair(hash: Bytes -> Digest, s: Store, p: Proc, ch: Choice, o: Outcome, was: Option<Seen>)
    requires Well(hash, s, p, was, ch) && Calls(s, p, ch, o) && Staging(p.l.pc)
    ensures StaysHappy(hash, s, p, o, After(hash, p.l, o.reply), was)
  {
    hide Well, StaysHappy, IsLowerHex64;
    match p.l.pc
    case PStatTemp => FairStatTemp(hash, s, p, o, ch, was);
    case PWrite => FairWrite(hash, s, p, o, ch, was);
    case PChmodTemp => FairChmodTemp(hash, s, p, o, ch, was);
    case PVerifyTemp => FairVerifyTemp(hash, s, p, o, ch, was);
    case PSyncTemp => FairSyncTemp(hash, s, p, o, ch, was);
    case PReadTemp => FairReadTemp(hash, s, p, o, ch, was);
    case PRename => FairRename(hash, s, p, o, ch, was);
  }

  lemma PublishedIsFair(hash: Bytes -> Digest, s: Store, p: Proc, ch: Choice, o: Outcome, was: Option<Seen>)
    requires Well(hash, s, p, was, ch) && Calls(s, p, ch, o) && Published(p.l.pc)
    ensures StaysHappy(hash, s, p, o, After(hash, p.l, o.reply), was)
  {
    hide Well, StaysHappy, IsLowerHex64;
    match p.l.pc
    case PSyncDir => FairSyncDir(hash, s, p, o, ch, was);
    case POpenTarget => FairOpenTarget(hash, s, p, o, ch, was);
    case PStatTarget => FairStatTarget(hash, s, p, o, ch, was);
    case PSyncTarget => FairSyncTarget(hash, s, p, o, ch, was);
    case PReadTarget => FairReadTarget(hash, s, p, o, ch, was);
    case PSyncDirAgain => FairSyncDirAgain(hash, s, p, o, ch, was);
  }

  lemma InspectingIsFair(hash: Bytes -> Digest, s: Store, p: Proc, ch: Choice, o: Outcome, was: Option<Seen>)
    requires Well(hash, s, p, was, ch) && Calls(s, p, ch, o) && Inspecting(p.l.pc)
    ensures StaysHappy(hash, s, p, o, After(hash, p.l, o.reply), was)
  {
    hide Well, StaysHappy, IsLowerHex64;
    match p.l.pc
    case XOpen => FairXOpen(hash, s, p, o, ch, was);
    case XStat => FairXStat(hash, s, p, o, ch, was);
    case XRead => FairXRead(hash, s, p, o, ch, was);
    case XSyncFile => FairXSync(hash, s, p, o, ch, was);
    case XSyncDir => FairXSync(hash, s, p, o, ch, was);
  }

  lemma CleaningIsFair(hash: Bytes -> Digest, s: Store, p: Proc, ch: Choice, o: Outcome, was: Option<Seen>)
    requires Well(hash, s, p, was, ch) && Calls(s, p, ch, o) && (Cleaning(p.l.pc) || p.l.pc.PClosing?)
    ensures StaysHappy(hash, s, p, o, After(hash, p.l, o.reply), was)
  {
    hide IsLowerHex64, Standing, After, Calls, Expected;
    HappyIsEnding(hash, s, p, was);
    EndingIsFair(hash, s, p, ch, o, Expected(hash, p.l.cfg, p.l.snap, was));
    hide TidyingUp, Happy;
    var p' := Moved(s, p, o, After(hash, p.l, o.reply));
    if Cleaning(p'.l.pc) { HappyCleaning(hash, o.store, p', was); } else { HappyOver(hash, o.store, p', was); }
  }

  lemma HappyIsEnding(hash: Bytes -> Digest, s: Store, p: Proc, was: Option<Seen>)
    requires IsLowerHex64(p.l.snap.digest) && Happy(hash, s, p, was) && (Cleaning(p.l.pc) || Over(p.l.pc))
    ensures Ending(s, p, Expected(hash, p.l.cfg, p.l.snap, was)) && !p.l.closeFailed && (Cleaning(p.l.pc) ==> was.Some?)
  {
    hide IsLowerHex64, Expected;
  }

  lemma FairCallIsHappy(hash: Bytes -> Digest, s: Store, p: Proc, ch: Choice, was: Option<Seen>)
    requires Well(hash, s, p, was, ch) && WellFormed(p.l) && Settled(p.l) && !p.l.pc.Finished?
    ensures var (s', p') := Act(hash, s, p, ch);
      && p'.l.snap == p.l.snap && p'.l.cfg == p.l.cfg && IsLowerHex64(p'.l.snap.digest) && Happy(hash, s', p', was)
  {
    hide Well, IsLowerHex64, After, Exec, Moved, Happy;
    var o := Exec(s, p.fds, NextCall(p.l), ch);
    if Opening(p.l.pc) { OpeningIsFair(hash, s, p, ch, o, was); }
    else if Staging(p.l.pc) { StagingIsFair(hash, s, p, ch, o, was); }
    else if Published(p.l.pc) { PublishedIsFair(hash, s, p, ch, o, was); }
    else if Inspecting(p.l.pc) { InspectingIsFair(hash, s, p, ch, o, was); }
    else { CleaningIsFair(hash, s, p, ch, o, was); }
  }

  // ---- entries stay in directories that exist --------------------------------------------------

  /** New entries are made by three calls, in the directory they name. */
  lemma NewEntriesLie(s: Store, fds: Descs, c: Call, ch: Choice, k: Key)
    ensures var o := Exec(s, fds, c, ch);
      k in o.store.ents && k !in s.ents ==>
        (c.Mkdir? || c.CreateExclusive? || c.RenameNoReplace?) && c.dir in fds && k.dir == fds[c.dir].ino
  {
  }

  lemma MakersHoldDirs(hash: Bytes -> Digest, s: Store, p: Proc)
    requires Ready(hash, s, p) && WellFormed(p.l) && Settled(p.l)
    ensures var c := NextCall(p.l);
      (c.Mkdir? || c.CreateExclusive? || c.RenameNoReplace?) && c.dir in p.fds ==> p.fds[c.dir].ino in s.inodes
  {
    hide Standing, IsLowerHex64;
    if p.l.pc.PMkShard? { ParentIsOpen(hash, s, p); }
    if p.l.pc.PCreateTemp? || p.l.pc.PRename? { ShardsAreOpen(hash, s, p); }
  }

  lemma ActKeepsRooted(hash: Bytes -> Digest, s: Store, p: Proc, ch: Choice)
    requires Ready(hash, s, p) && WellFormed(p.l) && Settled(p.l) && Rooted(s)
    ensures Rooted(Act(hash, s, p, ch).0)
  {
    hide Standing, IsLowerHex64, StoreOk, Exec, After;
    MakersHoldDirs(hash, s, p);
    EveryCall(hash, s, p, ch);
    var s' := Act(hash, s, p, ch).0;
    GuaranteeOf(hash, s, s', p.aux.temp);
    forall k | k in s'.ents ensures k.dir in s'.inodes {
      NewEntriesLie(s, p.fds, NextCall(p.l), ch, k);
    }
  }

  // ---- a fair call alone -----------------------------------------------------------------------

  /** A turn of adapter `i` in which nothing fails, or the disk catching up. */
  predicate FairEvent(w: World, i: nat, e: Event) {
    || e.SyncEntry? || e.FlushInode?
    || (e.Acts? && e.i == i && i in w.procs && Fair(w.store, w.procs[i], e.ch))
  }

  predicate FairRun(hash: Bytes -> Digest, w: World, i: nat, es: seq<Event>)
    decreases |es|
  {
    es == [] || (FairRun(hash, w, i, es[..|es| - 1]) && FairEvent(Run(hash, w, es[..|es| - 1]), i, es[|es| - 1]))
  }

  predicate Thriving(hash: Bytes -> Digest, w: World, i: nat, cfg: Config, snap: Snapshot, was: Option<Seen>) {
    && i in w.procs && w.procs[i].l.cfg == cfg && w.procs[i].l.snap == snap && IsLowerHex64(snap.digest)
    && Rooted(w.store) && Happy(hash, w.store, w.procs[i], was)
  }

  lemma FairTurnThrives(hash: Bytes -> Digest, w: World, base: set<Ino>, i: nat, e: Event, cfg: Config, snap: Snapshot,
      was: Option<Seen>)
    requires Inv(hash, w, base) && Thriving(hash, w, i, cfg, snap, was) && CanAct(w, i)
    requires e.Acts? && e.i == i && Fair(w.store, w.procs[i], e.ch)
    ensures Thriving(hash, Next(hash, w, e), i, cfg, snap, was)
  {
    hide Act, IsLowerHex64, Standing, Happy, Fair, Rooted;
    FairCallIsHappy(hash, w.store, w.procs[i], e.ch, was);
    ActKeepsRooted(hash, w.store, w.procs[i], e.ch);
  }

  lemma SameHappy(hash: Bytes -> Digest, s: Store, s': Store, p: Proc, was: Option<Seen>)
    requires SameView(s, s') && IsLowerHex64(p.l.snap.digest) && Happy(hash, s, p, was) && Rooted(s)
    ensures Happy(hash, s', p, was) && Rooted(s')
  {
    hide IsLowerHex64, Paved, Found;
    ViewDecides(s, s', p.l.cfg, p.l.snap.digest);
    SameSeen(s, s', TargetKey(p));
    if Staging(p.l.pc) { SameMaking(s, s', p, was); }
    if Inspecting(p.l.pc) { SameJudging(s, s', p, was); }
    assert forall k :: k in s.ents ==> (k.dir in s'.inodes <==> k.dir in s.inodes);
  }

  lemma DiskThrives(hash: Bytes -> Digest, w: World, i: nat, e: Event, cfg: Config, snap: Snapshot, was: Option<Seen>)
    requires Thriving(hash, w, i, cfg, snap, was) && (e.SyncEntry? || e.FlushInode?)
    ensures Thriving(hash, Next(hash, w, e), i, cfg, snap, was)
  {
    var s' := Next(hash, w, e).store;
    assert SameView(w.store, s');
    hide Happy, Rooted, SameView, IsLowerHex64;
    SameHappy(hash, w.store, s', w.procs[i], was);
  }

  lemma {:induction false} FairRunThrives(hash: Bytes -> Digest, w: World, base: set<Ino>, i: nat,
                                          cfg: Config, snap: Snapshot, es: seq<Event>)
    requires Inv(hash, w, base) && i !in w.procs && Admitted(hash, snap) && Rooted(w.store)
    requires IsLowerHex64(snap.digest) && Paved(w.store, cfg, snap.digest, false, false)
    requires FairRun(hash, Next(hash, w, Begin(i, cfg, snap)), i, es)
    ensures var w' := Run(hash, Next(hash, w, Begin(i, cfg, snap)), es);
      Thriving(hash, w', i, cfg, snap, Found(w.store, cfg.root, snap.digest))
    decreases |es|
  {
    var w1 := Next(hash, w, Begin(i, cfg, snap));
    if es == [] {
      hide Inv, IsLowerHex64, Found, Paved;
    } else {
      hide Inv, Next, Thriving, IsLowerHex64, Found, Paved, Rooted, Admitted, Fair;
      var front, e := es[..|es| - 1], es[|es| - 1];
      FairRunThrives(hash, w, base, i, cfg, snap, front);
      NextKeepsInv(hash, w, base, Begin(i, cfg, snap));
      RunKeepsInv(hash, w1, base, front);
      var was := Run(hash, w1, front);
      if e.Acts? {
        ProcIsFit(hash, was, base, i);
        if CanAct(was, i) { FairTurnThrives(hash, was, base, i, e, cfg, snap, Found(w.store, cfg.root, snap.digest)); }
        else { IdleTurn(hash, was, e); }
      } else {
        DiskThrives(hash, was, i, e, cfg, snap, Found(w.store, cfg.root, snap.digest));
      }
    }
  }

  lemma IdleTurn(hash: Bytes -> Digest, w: World, e: Event)
    requires e.Acts? && !CanAct(w, e.i)
    ensures Next(hash, w, e) == w
  {
  }

  lemma {:induction false} FreshNumber(xs: set<int>) returns (x: int)
    ensures forall y :: y in xs ==> y < x
    decreases xs
  {
    if y :| y in xs {
      var z := FreshNumber(xs - {y});
      x := if z > y then z else y + 1;
      forall n | n in xs ensures n < x { assert n == y || n in xs - {y}; }
    } else {
      x := 0;
    }
  }

  /** There is always a fair choice. */
  lemma FairChoiceExists(s: Store, p: Proc) returns (ch: Choice)
    ensures Fair(s, p, ch)
  {
    var fd := FreshNumber(p.fds.Keys);
    var ino := FreshNumber(s.inodes.Keys);
    var mem := Data(p.l.cfg.uid, 0, []);
    ch := Choice(None, false, fd, if p.l.pc.POpenRoot? then p.l.cfg.root else ino, mem, mem, 1);
  }

  /** So there are fair runs of any length. */
  lemma {:induction false} FairCallsExist(hash: Bytes -> Digest, w: World, base: set<Ino>, i: nat, n: nat)
      returns (es: seq<Event>)
    requires Inv(hash, w, base) && i in w.procs
    ensures FairRun(hash, w, i, es) && Turns(i, es) == n && i in Run(hash, w, es).procs
    decreases n
  {
    hide Inv, Next, Fair;
    if n == 0 { es := []; } else {
      var front := FairCallsExist(hash, w, base, i, n - 1);
      var was := Run(hash, w, front);
      var ch := FairChoiceExists(was.store, was.procs[i]);
      es := front + [Acts(i, ch)];
      assert es[..|es| - 1] == front;
      StillThere(hash, was, Acts(i, ch), i);
    }
  }

  lemma StillThere(hash: Bytes -> Digest, w: World, e: Event, i: nat)
    requires i in w.procs && !e.PowerLoss?
    ensures i in Next(hash, w, e).procs
  {
    hide Act;
  }

  /** The target as the call finds it is the very blob: a regular file of ours with mode 0o600, the right size
      and the digest's bytes. */
  predicate SameBlob(hash: Bytes -> Digest, cfg: Config, snap: Snapshot, t: Seen) {
    && t.kind.Regular? && t.mem.uid == cfg.uid && t.mem.mode == 0x180
    && |t.mem.bytes| == |snap.data| && hash(t.mem.bytes) == snap.digest
  }

  /** A snapshot that fails a check is refused at once, before any system call, with the reason of the first
      check it fails. */
  lemma RefusedAtOnce(hash: Bytes -> Digest, w: World, i: nat, cfg: Config, snap: Snapshot)
    requires i !in w.procs
    ensures var w' := Next(hash, w, Begin(i, cfg, snap));
      var p := w'.procs[i];
      var reason :=
        if !IsLowerHex64(snap.digest) then Some(InvalidDigest)
        else if hash(snap.data) != snap.digest then Some(SnapshotDigestMismatch)
        else if snap.ref != "diag-edge-probe-v1" + ":sha256:" + snap.digest then Some(SnapshotRefMismatch)
        else if snap.byteLength != |snap.data| then Some(SnapshotByteLengthMismatch)
        else if snap.payloadKind != "diag-edge-probe-v1" then Some(SnapshotPayloadKindMismatch)
        else if snap.byteLength > 1_048_576 then Some(ByteLengthExceedsLimit)
        else None;
      && w'.store == w.store && p.got == p.shut == multiset{}
      && (p.l.pc.Finished? <==> reason.Some?)
      && (reason.Some? ==> p.l.outcome == Failure(SnapshotValidationFailed, reason.value))
  {
    hide IsLowerHex64;
  }

  /** For one adapter alone, when no system call fails and no power is lost, over a root and shards that are
      right or absent: once the call has had its turns it has finished, with PERSISTED_NEW if and only if there
      was no target, with VERIFIED_EXISTING_NOOP if and only if the very blob was there, and otherwise with
      the verdict and reason that fit what was there. */
  lemma OutcomeFollowsStore(hash: Bytes -> Digest, s: Store, es: seq<Event>, i: nat, cfg: Config, snap: Snapshot,
      call: seq<Event>)
    requires WellFormedStore(s) && i !in Reached(hash, s, es).procs
    requires IsLowerHex64(snap.digest) && hash(snap.data) == snap.digest
        && snap.ref == PAYLOAD_KIND + ":sha256:" + snap.digest
    requires snap.byteLength == |snap.data| <= MAX_BLOB_BYTES && snap.payloadKind == PAYLOAD_KIND
    requires Rooted(Reached(hash, s, es).store) && Paved(Reached(hash, s, es).store, cfg, snap.digest, false, false)
    requires FairRun(hash, Next(hash, Reached(hash, s, es), Begin(i, cfg, snap)), i, call)
    requires Turns(i, call) >= MostCalls(|snap.data|)
    ensures var w0 := Reached(hash, s, es);
      var w' := Run(hash, Next(hash, w0, Begin(i, cfg, snap)), call);
      var was := Found(w0.store, cfg.root, snap.digest);
      && i in w'.procs && w'.procs[i].l.pc.Finished?
      && var r := w'.procs[i].l.outcome;
      && (r.status.PersistedNew? <==> was.None?)
      && (r.status.VerifiedExistingNoop? <==> was.Some? && SameBlob(hash, cfg, snap, was.value))
      && r == Expected(hash, cfg, snap, was)
  {
    hide Inv, Next, Paved, Found, Reached, IsLowerHex64, Rooted, FairRun;
    var w0 := Reached(hash, s, es);
    Reachable(hash, s, es);
    assert Admitted(hash, snap);
    FairRunThrives(hash, w0, s.inodes.Keys, i, cfg, snap, call);
    NoPowerIsLost(hash, Next(hash, w0, Begin(i, cfg, snap)), i, call);
    CallsEnd(hash, w0, s.inodes.Keys, i, cfg, snap, call);
    HappyOver(hash, Run(hash, Next(hash, w0, Begin(i, cfg, snap)), call).store,
              Run(hash, Next(hash, w0, Begin(i, cfg, snap)), call).procs[i], Found(w0.store, cfg.root, snap.digest));
    hide Happy, Run;
  }

  lemma {:induction false} NoPowerIsLost(hash: Bytes -> Digest, w: World, i: nat, es: seq<Event>)
    requires FairRun(hash, w, i, es)
    ensures forall e :: e in es ==> !e.PowerLoss?
    decreases |es|
  {
    hide Run, Fair;
    if es != [] {
      var front := es[..|es| - 1];
      NoPowerIsLost(hash, w, i, front);
      forall e | e in es ensures !e.PowerLoss? { assert e in front || e == es[|es| - 1]; }
    }
  }
}
