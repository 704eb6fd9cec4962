/** Every system call of the protocol keeps the adapter's invariant and the guarantee to the others. */
module BlobMoves {
  import opened Wrappers
  import opened BlobProtocol
  import opened BlobKernel
  import opened BlobInvariant
  import opened BlobSteps

  predicate Ready(hash: Bytes -> Digest, s: Store, p: Proc) {
    ProcOk(hash, s, p) && WellFormedStore(s) && !p.l.pc.Finished?
  }

  /** Outcome `o` of the next call leads `p`, its locals becoming `l'`, to where it should. */
  ghost predicate StepTo(hash: Bytes -> Digest, s: Store, p: Proc, o: Outcome, l': Local)
    requires Ready(hash, s, p)
  {
    var p' := Moved(s, p, o, l');
    && StoreOk(hash, s, o.store, p.aux.temp) && ProcOk(hash, o.store, p')
    && (p'.aux.temp == p.aux.temp || (p.aux.temp.None? && p'.aux.temp.Some? && p'.aux.temp.value !in s.inodes))
  }

  // ---- ways out of the body --------------------------------------------------------------------

  predicate Lost(r: Result) { r.status.BlockedRecoveryRequired? || r.status.CriticalCollisionDetected? }

  lemma Stops(hash: Bytes -> Digest, s: Store, p: Proc, p': Proc, r: Result)
    requires DescriptorsOk(p) && !HasCleanFd(p.l.pc) && Sound(hash, p.l.snap)
    requires p.aux.temp.Some? ==> IsRegular(s, p.aux.temp.value)
    requires Lost(r) || (r.status.BlobPersistFailed? && TempGone(s, p))
    requires p' == p.(l := Stop(p.l, r))
    ensures Standing(hash, s, p')
  {
    DescriptorsKept(p, p');
  }

  /** Giving up without touching anything is always in order. */
  lemma Refuses(hash: Bytes -> Digest, s: Store, p: Proc, r: Result)
    requires Standing(hash, s, p) && !Over(p.l.pc) && !HasCleanFd(p.l.pc) && Lost(r)
    ensures Standing(hash, s, p.(l := Stop(p.l, r)))
  {
    Stops(hash, s, p, p.(l := Stop(p.l, r)), r);
  }

  lemma Cleans(hash: Bytes -> Digest, s: Store, p: Proc, p': Proc, r: Result)
    requires DescriptorsOk(p) && !HasCleanFd(p.l.pc) && Sound(hash, p.l.snap)
    requires HasShards(p.l.pc) && ShardsOk(s, p) && TempSomewhere(s, p)
    requires Lost(r) || r.status.BlobPersistFailed? || (r.status.VerifiedExistingNoop? && Landed(hash, s, p))
    requires p' == p.(l := Clean(p.l, r))
    ensures Standing(hash, s, p')
  {
    DescriptorsKept(p, p');
  }

  lemma QuietForSelf(hash: Bytes -> Digest, s: Store, s': Store, p: Proc)
    requires Standing(hash, s, p) && StoreOk(hash, s, s', None)
    ensures Standing(hash, s', p) && StoreOk(hash, s, s', p.aux.temp)
  {
    OthersDoNotDisturb(hash, s, s', p, None);
  }

  /** A call that opens and closes nothing only changes the locals. */
  lemma Lands(hash: Bytes -> Digest, s: Store, p: Proc, o: Outcome, l': Local)
    requires Ready(hash, s, p) && StoreOk(hash, s, o.store, p.aux.temp)
    requires !o.reply.Got? && !p.l.pc.CClose? && !p.l.pc.PClosing?
    requires Standing(hash, o.store, p.(l := l', fds := o.fds)) && Settled(l')
    ensures StepTo(hash, s, p, o, l')
  {
    hide DescriptorsOk, ShardsOk, StagingOk, PublishedOk, InspectingOk, CleaningOk, OutcomeOk, StoreOk;
    assert Moved(s, p, o, l') == p.(l := l', fds := o.fds);
  }

  /** The root stays tracked through the whole body. */
  lemma RootIsTracked(hash: Bytes -> Digest, s: Store, p: Proc)
    requires Standing(hash, s, p) && !Over(p.l.pc) && !p.l.pc.POpenRoot?
    ensures p.l.open != [] && Sound(hash, p.l.snap)
  {
  }

  // ---- opening the root and the shards ---------------------------------------------------------

  predicate Opening(pc: Pc) { pc.POpenRoot? || pc.PStatRoot? || ShardPc(pc) || pc.PCreateTemp? }

  /** Before the temp exists only descriptors and shards matter. */
  lemma OpeningStands(hash: Bytes -> Digest, s: Store, p: Proc)
    requires Opening(p.l.pc) && Sound(hash, p.l.snap)
    ensures Standing(hash, s, p) <==> DescriptorsOk(p) && ShardsOk(s, p) && p.aux.temp.None? && p.l.tempId.None?
  {
    hide DescriptorsOk, ShardsOk, IsLowerHex64;
  }

  lemma StepOpenRoot(hash: Bytes -> Digest, s: Store, p: Proc, o: Outcome, ch: Choice)
    requires Ready(hash, s, p) && p.l.pc.POpenRoot? && o == ExecOpenRoot(s, p.fds, ch)
    ensures StepTo(hash, s, p, o, AfterOpenRoot(p.l, o.reply))
  {
    hide Standing, StoreOk, DescriptorsOk, IsLowerHex64;
    StaysPut(hash, s, p.aux.temp);
    NoRootYet(hash, s, p);
    if o.reply.Got? { RootIsFound(hash, s, p, o, ch); }
    else {
      NothingOpened(hash, s, p, Moved(s, p, o, AfterOpenRoot(p.l, o.reply)), AfterOpenRoot(p.l, o.reply).outcome);
    }
  }

  lemma RootIsFound(hash: Bytes -> Digest, s: Store, p: Proc, o: Outcome, ch: Choice)
    requires Ready(hash, s, p) && p.l.pc.POpenRoot? && o == ExecOpenRoot(s, p.fds, ch) && o.reply.Got?
    requires StoreOk(hash, s, o.store, p.aux.temp) && DescriptorsOk(p) && WellFormed(p.l)
    ensures StepTo(hash, s, p, o, AfterOpenRoot(p.l, o.reply))
  {
    hide Standing, StoreOk, DescriptorsOk, IsLowerHex64;
    var p' := Moved(s, p, o, AfterOpenRoot(p.l, o.reply));
    DescriptorTracked(p, p', o.reply.fd, o.ino);
    RootIsOpen(hash, s, p, p', o.reply.fd);
  }

  lemma NoRootYet(hash: Bytes -> Digest, s: Store, p: Proc)
    requires Standing(hash, s, p) && p.l.pc.POpenRoot?
    ensures DescriptorsOk(p) && p.l.open == [] && WellFormed(p.l)
  {
  }

  lemma RootIsOpen(hash: Bytes -> Digest, s: Store, p: Proc, p': Proc, f: Fd)
    requires Standing(hash, s, p) && p.l.pc.POpenRoot? && DescriptorsOk(p') && p'.aux == p.aux
    requires p'.l == p.l.(open := p.l.open + [f], fd := p.l.fd.(root := f), pc := PStatRoot)
    ensures Standing(hash, s, p')
  {
    hide DescriptorsOk, IsLowerHex64;
  }

  lemma NothingOpened(hash: Bytes -> Digest, s: Store, p: Proc, p': Proc, r: Result)
    requires Standing(hash, s, p) && p.l.pc.POpenRoot? && p.l.open == [] && r.status.BlockedRecoveryRequired?
    requires p' == p.(l := Settle(Stop(p.l, r)))
    ensures ProcOk(hash, s, p')
  {
    hide IsLowerHex64;
  }

  lemma OnStatRoot(hash: Bytes -> Digest, s: Store, p: Proc, o: Outcome, ch: Choice)
    requires Ready(hash, s, p) && p.l.pc.PStatRoot? && o == ExecFstat(s, p.fds, p.l.fd.root, ch)
    ensures Standing(hash, s, p.(l := AfterStatRoot(p.l, o.reply)))
  {
    hide Standing;
    var l' := AfterStatRoot(p.l, o.reply);
    if l'.pc.PClosing? { Refuses(hash, s, p, l'.outcome); } else { RootIsPinned(hash, s, p, o, ch); }
  }

  lemma RootIsPinned(hash: Bytes -> Digest, s: Store, p: Proc, o: Outcome, ch: Choice)
    requires Standing(hash, s, p) && p.l.pc.PStatRoot? && o == ExecFstat(s, p.fds, p.l.fd.root, ch)
    requires o.reply.Info? && o.reply.st.ino == p.l.cfg.root && o.reply.st.kind.Directory?
    ensures Standing(hash, s, p.(l := p.l.(deep := false, created := false, pc := PMkShard)))
  {
    DescriptorsKept(p, p.(l := p.l.(deep := false, created := false, pc := PMkShard)));
    hide DescriptorsOk, IsLowerHex64;
  }

  lemma StepStatRoot(hash: Bytes -> Digest, s: Store, p: Proc, o: Outcome, ch: Choice)
    requires Ready(hash, s, p) && p.l.pc.PStatRoot? && o == ExecFstat(s, p.fds, p.l.fd.root, ch)
    ensures StepTo(hash, s, p, o, AfterStatRoot(p.l, o.reply))
  {
    hide Standing, StoreOk;
    StaysPut(hash, s, p.aux.temp);
    RootIsTracked(hash, s, p);
    OnStatRoot(hash, s, p, o, ch);
    Lands(hash, s, p, o, AfterStatRoot(p.l, o.reply));
  }

  lemma OnMkShard(hash: Bytes -> Digest, s: Store, p: Proc, r: Reply)
    requires Standing(hash, s, p) && p.l.pc.PMkShard?
    ensures Standing(hash, s, p.(l := AfterMkShard(p.l, r)))
  {
    hide Standing;
    var l' := AfterMkShard(p.l, r);
    if l'.pc.PClosing? { Refuses(hash, s, p, l'.outcome); } else { ShardIsThere(hash, s, p, l'.created); }
  }

  lemma ShardIsThere(hash: Bytes -> Digest, s: Store, p: Proc, created: bool)
    requires Standing(hash, s, p) && p.l.pc.PMkShard?
    ensures Standing(hash, s, p.(l := p.l.(created := created, pc := POpenShard)))
  {
    DescriptorsKept(p, p.(l := p.l.(created := created, pc := POpenShard)));
    hide DescriptorsOk, IsLowerHex64;
  }

  lemma StepMkShard(hash: Bytes -> Digest, s: Store, p: Proc, o: Outcome, ch: Choice)
    requires Ready(hash, s, p) && p.l.pc.PMkShard? && o == ExecMkdir(s, p.fds, p.l.ParentFd(), p.l.LevelName(), ch)
    ensures StepTo(hash, s, p, o, AfterMkShard(p.l, o.reply))
  {
    hide Standing, StoreOk;
    RootIsTracked(hash, s, p);
    if o.store == s { StaysPut(hash, s, p.aux.temp); } else {
      var k := Key(p.fds[p.l.ParentFd()].ino, p.l.LevelName());
      AddIsQuiet(hash, s, k, ch.ino, Inode(Directory, ch.mem, ch.disk), None);
      QuietForSelf(hash, s, o.store, p);
    }
    OnMkShard(hash, o.store, p, o.reply);
    Lands(hash, s, p, o, AfterMkShard(p.l, o.reply));
  }

  lemma StepOpenShard(hash: Bytes -> Digest, s: Store, p: Proc, o: Outcome, ch: Choice)
    requires Ready(hash, s, p) && p.l.pc.POpenShard?
        && o == ExecOpen(s, p.fds, p.l.ParentFd(), p.l.LevelName(), true, ch)
    ensures StepTo(hash, s, p, o, AfterOpenShard(p.l, o.reply))
  {
    hide Standing, StoreOk, DescriptorsOk, IsLowerHex64;
    StaysPut(hash, s, p.aux.temp);
    RootIsTracked(hash, s, p);
    var l' := AfterOpenShard(p.l, o.reply);
    if o.reply.Got? {
      ShardIsOpened(hash, s, p, o, ch);
    } else {
      Refuses(hash, s, p, l'.outcome);
      Lands(hash, s, p, o, l');
    }
  }

  lemma ShardIsOpened(hash: Bytes -> Digest, s: Store, p: Proc, o: Outcome, ch: Choice)
    requires Ready(hash, s, p) && p.l.pc.POpenShard?
        && o == ExecOpen(s, p.fds, p.l.ParentFd(), p.l.LevelName(), true, ch)
    requires o.reply.Got? && StoreOk(hash, s, o.store, p.aux.temp)
    ensures StepTo(hash, s, p, o, AfterOpenShard(p.l, o.reply))
  {
    hide Standing, StoreOk, DescriptorsOk, IsLowerHex64;
    HasDescriptors(hash, s, p);
    ShardIsTracked(hash, s, p, o, ch);
    OnOpenShard(hash, s, p, o, ch, Moved(s, p, o, AfterOpenShard(p.l, o.reply)));
  }

  lemma ShardIsTracked(hash: Bytes -> Digest, s: Store, p: Proc, o: Outcome, ch: Choice)
    requires Ready(hash, s, p) && p.l.pc.POpenShard?
        && o == ExecOpen(s, p.fds, p.l.ParentFd(), p.l.LevelName(), true, ch)
    requires o.reply.Got?
    ensures DescriptorsOk(Moved(s, p, o, AfterOpenShard(p.l, o.reply)))
  {
    HasDescriptors(hash, s, p);
    hide Standing, DescriptorsOk, IsLowerHex64;
    DescriptorTracked(p, Moved(s, p, o, AfterOpenShard(p.l, o.reply)), o.reply.fd, o.ino);
  }

  lemma HasDescriptors(hash: Bytes -> Digest, s: Store, p: Proc)
    requires Standing(hash, s, p)
    ensures DescriptorsOk(p) && WellFormed(p.l)
  {
  }

  lemma OnOpenShard(hash: Bytes -> Digest, s: Store, p: Proc, o: Outcome, ch: Choice, p': Proc)
    requires Ready(hash, s, p) && p.l.pc.POpenShard?
        && o == ExecOpen(s, p.fds, p.l.ParentFd(), p.l.LevelName(), true, ch)
    requires o.reply.Got? && p' == Moved(s, p, o, AfterOpenShard(p.l, o.reply)) && DescriptorsOk(p')
    ensures ProcOk(hash, s, p')
  {
    hide Standing, DescriptorsOk, IsLowerHex64, ShardsOk;
    RootIsTracked(hash, s, p);
    OpeningStands(hash, s, p);
    OpeningStands(hash, s, p');
    assert p'.l.open == p.l.open + [o.reply.fd];
    if p.l.deep { SecondIsOpen(s, p, p', o, ch); } else { FirstIsOpen(s, p, p', o, ch); }
  }

  lemma FirstIsOpen(s: Store, p: Proc, p': Proc, o: Outcome, ch: Choice)
    requires IsLowerHex64(p.l.snap.digest) && ShardsOk(s, p) && WellFormed(p.l) && Settled(p.l) && p.l.pc.POpenShard?
        && !p.l.deep
    requires o == ExecOpen(s, p.fds, p.l.ParentFd(), p.l.LevelName(), true, ch) && o.reply.Got?
    requires p' == Moved(s, p, o, AfterOpenShard(p.l, o.reply)) && p'.l.open == p.l.open + [o.reply.fd]
    ensures ShardsOk(s, p')
  {
    hide IsLowerHex64;
  }

  lemma SecondIsOpen(s: Store, p: Proc, p': Proc, o: Outcome, ch: Choice)
    requires IsLowerHex64(p.l.snap.digest) && ShardsOk(s, p) && WellFormed(p.l) && Settled(p.l) && p.l.pc.POpenShard?
        && p.l.deep
    requires o == ExecOpen(s, p.fds, p.l.ParentFd(), p.l.LevelName(), true, ch) && o.reply.Got?
    requires p' == Moved(s, p, o, AfterOpenShard(p.l, o.reply)) && p'.l.open == p.l.open + [o.reply.fd]
    ensures ShardsOk(s, p')
  {
    hide IsLowerHex64;
  }

  lemma OnChmodShard(hash: Bytes -> Digest, s: Store, p: Proc, r: Reply)
    requires Standing(hash, s, p) && p.l.pc.PChmodShard? && p.l.created
    ensures Standing(hash, s, p.(l := AfterChmodShard(p.l, r)))
  {
    hide Standing;
    var l' := AfterChmodShard(p.l, r);
    if l'.pc.PClosing? { Refuses(hash, s, p, l'.outcome); } else { ShardGoesOn(hash, s, p, PStatShard); }
  }

  lemma LevelIsDir(hash: Bytes -> Digest, s: Store, p: Proc)
    requires Standing(hash, s, p) && ShardPc(p.l.pc) && ShardOpen(p.l.pc)
    ensures p.l.LevelFd() in p.fds && p.l.ParentFd() in p.fds
    ensures IsDir(s, p.fds[p.l.LevelFd()].ino) && IsDir(s, p.fds[p.l.ParentFd()].ino)
    ensures p.fds[p.l.ParentFd()].ino == ShardKey(p).dir
    ensures !p.l.pc.PStatShard? ==> p.l.created
  {
  }

  lemma StepChmodShard(hash: Bytes -> Digest, s: Store, p: Proc, o: Outcome, ch: Choice)
    requires Ready(hash, s, p) && p.l.pc.PChmodShard? && o == ExecFchmod(s, p.fds, p.l.LevelFd(), DIR_MODE, ch)
    ensures StepTo(hash, s, p, o, AfterChmodShard(p.l, o.reply))
  {
    hide Standing, StoreOk;
    RootIsTracked(hash, s, p);
    LevelIsDir(hash, s, p);
    if o.store == s { StaysPut(hash, s, p.aux.temp); } else {
      var x := p.fds[p.l.LevelFd()].ino;
      EditIsQuiet(hash, s, x, s.inodes[x].mem.(mode := DIR_MODE), None);
      QuietForSelf(hash, s, o.store, p);
    }
    OnChmodShard(hash, o.store, p, o.reply);
    Lands(hash, s, p, o, AfterChmodShard(p.l, o.reply));
  }

  lemma OnStatShard(hash: Bytes -> Digest, s: Store, p: Proc, r: Reply)
    requires Standing(hash, s, p) && p.l.pc.PStatShard?
    ensures Standing(hash, s, p.(l := AfterStatShard(p.l, r)))
  {
    hide Standing;
    var l' := AfterStatShard(p.l, r);
    if l'.pc.PClosing? { Refuses(hash, s, p, l'.outcome); }
    else if p.l.created { ShardGoesOn(hash, s, p, PSyncShard); }
    else { LevelIsDone(hash, s, p); }
  }

  lemma ShardGoesOn(hash: Bytes -> Digest, s: Store, p: Proc, pc: Pc)
    requires Standing(hash, s, p) && p.l.created && ShardPc(p.l.pc) && ShardOpen(p.l.pc) && ShardPc(pc) && ShardOpen(pc)
    ensures Standing(hash, s, p.(l := Go(p.l, pc)))
  {
    hide Standing, IsLowerHex64;
    RootIsTracked(hash, s, p);
    OpeningStands(hash, s, p);
    OpeningStands(hash, s, p.(l := Go(p.l, pc)));
    DescriptorsKept(p, p.(l := Go(p.l, pc)));
  }

  lemma LevelIsDone(hash: Bytes -> Digest, s: Store, p: Proc)
    requires Standing(hash, s, p) && (p.l.pc.PStatShard? || p.l.pc.PSyncParent?)
    requires p.l.created ==> forall k: Key :: k == ShardKey(p) ==> SameAt(s.disk, s.ents, k)
    ensures Standing(hash, s, p.(l := LevelDone(p.l)))
  {
    hide Standing, IsLowerHex64;
    RootIsTracked(hash, s, p);
    OpeningStands(hash, s, p);
    OpeningStands(hash, s, p.(l := LevelDone(p.l)));
    DescriptorsKept(p, p.(l := LevelDone(p.l)));
    assert p.l.created ==> SameAt(s.disk, s.ents, ShardKey(p));
  }

  lemma StepStatShard(hash: Bytes -> Digest, s: Store, p: Proc, o: Outcome, ch: Choice)
    requires Ready(hash, s, p) && p.l.pc.PStatShard? && o == ExecFstat(s, p.fds, p.l.LevelFd(), ch)
    ensures StepTo(hash, s, p, o, AfterStatShard(p.l, o.reply))
  {
    hide Standing, StoreOk;
    StaysPut(hash, s, p.aux.temp);
    RootIsTracked(hash, s, p);
    OnStatShard(hash, s, p, o.reply);
    Lands(hash, s, p, o, AfterStatShard(p.l, o.reply));
  }

  lemma OnSyncShard(hash: Bytes -> Digest, s: Store, p: Proc, r: Reply)
    requires Standing(hash, s, p) && p.l.pc.PSyncShard? && p.l.created
    ensures Standing(hash, s, p.(l := AfterSyncShard(p.l, r)))
  {
    hide Standing;
    var l' := AfterSyncShard(p.l, r);
    if l'.pc.PClosing? { Refuses(hash, s, p, l'.outcome); } else { ShardGoesOn(hash, s, p, PSyncParent); }
  }

  lemma StepSyncShard(hash: Bytes -> Digest, s: Store, p: Proc, o: Outcome, ch: Choice)
    requires Ready(hash, s, p) && p.l.pc.PSyncShard? && o == ExecFsync(s, p.fds, p.l.LevelFd(), ch)
    ensures StepTo(hash, s, p, o, AfterSyncShard(p.l, o.reply))
  {
    hide Standing, StoreOk;
    RootIsTracked(hash, s, p);
    LevelIsDir(hash, s, p);
    if o.store == s { StaysPut(hash, s, p.aux.temp); } else {
      SyncIsQuiet(hash, s, p.fds[p.l.LevelFd()].ino, None);
      QuietForSelf(hash, s, o.store, p);
    }
    OnSyncShard(hash, o.store, p, o.reply);
    Lands(hash, s, p, o, AfterSyncShard(p.l, o.reply));
  }

  lemma StepSyncParent(hash: Bytes -> Digest, s: Store, p: Proc, o: Outcome, ch: Choice)
    requires Ready(hash, s, p) && p.l.pc.PSyncParent? && o == ExecFsync(s, p.fds, p.l.ParentFd(), ch)
    ensures StepTo(hash, s, p, o, AfterSyncParent(p.l, o.reply))
  {
    hide Standing, StoreOk;
    RootIsTracked(hash, s, p);
    LevelIsDir(hash, s, p);
    if o.reply.Done? {
      SyncIsQuiet(hash, s, p.fds[p.l.ParentFd()].ino, None);
      QuietForSelf(hash, s, o.store, p);
      LevelIsDone(hash, o.store, p);
    } else {
      StaysPut(hash, s, p.aux.temp);
      Refuses(hash, s, p, AfterSyncParent(p.l, o.reply).outcome);
    }
    Lands(hash, s, p, o, AfterSyncParent(p.l, o.reply));
  }
}
