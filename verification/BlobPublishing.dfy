/** Steps after the rename: commit and verification of a published target, inspection of an existing
    one, cleanup of the temp, and the closing of the descriptors. */
module BlobPublishing {
  import opened Wrappers
  import opened BlobProtocol
  import opened BlobKernel
  import opened BlobInvariant
  import opened BlobSteps
  import opened BlobMoves

  /** The call opened or closed a descriptor. */
  lemma Reaches(hash: Bytes -> Digest, s: Store, p: Proc, o: Outcome, l': Local)
    requires Ready(hash, s, p) && StoreOk(hash, s, o.store, p.aux.temp) && !p.l.pc.PCreateTemp?
    requires Settled(l') && Standing(hash, o.store, Moved(s, p, o, l'))
    ensures StepTo(hash, s, p, o, l')
  {
    hide DescriptorsOk, ShardsOk, StagingOk, PublishedOk, InspectingOk, CleaningOk, OutcomeOk, StoreOk;
  }

  lemma ShardIsHeld(s: Store, p: Proc)
    requires IsLowerHex64(p.l.snap.digest) && ShardsOk(s, p) && HasShards(p.l.pc)
    ensures Holds(p, p.l.fd.shard, p.aux.d2) && IsDir(s, p.aux.d2)
  {
  }

  /** The shards stay open while more descriptors are opened or the cleanup's is closed. */
  lemma ShardsCarry(s: Store, p: Proc, p': Proc)
    requires IsLowerHex64(p.l.snap.digest) && ShardsOk(s, p) && HasShards(p.l.pc) && HasShards(p'.l.pc)
    requires p'.l.cfg == p.l.cfg && p'.l.snap == p.l.snap
    requires p'.l.fd.root == p.l.fd.root && p'.l.fd.l1 == p.l.fd.l1 && p'.l.fd.shard == p.l.fd.shard
    requires p'.aux.d1 == p.aux.d1 && p'.aux.d2 == p.aux.d2 && p'.aux.safe1 == p.aux.safe1
        && p'.aux.safe2 == p.aux.safe2
    requires forall f :: f in p.l.open ==> f in p'.l.open
    requires forall f :: f in p.l.open && f in p.fds ==> f in p'.fds && p'.fds[f] == p.fds[f]
    ensures ShardsOk(s, p')
  {
    hide IsLowerHex64;
  }

  // ---- committing and verifying the new target -------------------------------------------------

  predicate Committed(hash: Bytes -> Digest, s: Store, p: Proc) {
    Published(p.l.pc) && WellFormed(p.l) && Sound(hash, p.l.snap) && DescriptorsOk(p) && ShardsOk(s, p)
        && PublishedOk(s, p)
  }

  lemma PublishedStands(hash: Bytes -> Digest, s: Store, p: Proc)
    requires Published(p.l.pc)
    ensures Standing(hash, s, p) <==> Committed(hash, s, p)
  {
    hide DescriptorsOk, ShardsOk, IsLowerHex64;
  }

  lemma PublishedGoesOn(hash: Bytes -> Digest, s: Store, p: Proc, l': Local)
    requires Committed(hash, s, p) && Published(l'.pc) && WellFormed(l')
    requires l' == p.l.(pc := l'.pc, buf := l'.buf) && PublishedOk(s, p.(l := l'))
    ensures Standing(hash, s, p.(l := l'))
  {
    hide Standing, IsLowerHex64, PublishedOk;
    DescriptorsKept(p, p.(l := l'));
    ShardsCarry(s, p, p.(l := l'));
    PublishedStands(hash, s, p.(l := l'));
  }

  /** Anything that goes wrong after the rename stops the call and keeps the target. */
  lemma PublishedStops(hash: Bytes -> Digest, s: Store, p: Proc, l': Local)
    requires Committed(hash, s, p) && Lost(l'.outcome)
    requires l' == Stop(p.l.(buf := l'.buf), l'.outcome)
    ensures Standing(hash, s, p.(l := l'))
  {
    hide Standing, ShardsOk, DescriptorsOk, IsLowerHex64;
    Stops(hash, s, p.(l := p.l.(buf := l'.buf)), p.(l := l'), l'.outcome) by {
      DescriptorsKept(p, p.(l := p.l.(buf := l'.buf)));
    }
  }

  lemma StepSyncDir(hash: Bytes -> Digest, s: Store, p: Proc, o: Outcome, ch: Choice)
    requires Ready(hash, s, p) && p.l.pc.PSyncDir? && o == ExecFsync(s, p.fds, p.l.fd.shard, ch)
    ensures StepTo(hash, s, p, o, AfterSyncDir(p.l, o.reply))
  {
    hide Standing, StoreOk, DescriptorsOk, ShardsOk, IsLowerHex64, PublishedOk;
    PublishedStands(hash, s, p);
    RootIsTracked(hash, s, p);
    ShardIsHeld(s, p);
    var l' := AfterSyncDir(p.l, o.reply);
    if o.reply.Done? {
      SyncIsQuiet(hash, s, p.aux.d2, None);
      QuietForSelf(hash, s, o.store, p);
      PublishedStands(hash, o.store, p);
      EntryIsOnDisk(o.store, p);
      PublishedGoesOn(hash, o.store, p, l');
    } else {
      StaysPut(hash, s, p.aux.temp);
      PublishedStops(hash, s, p, l');
    }
    Lands(hash, s, p, o, l');
  }

  /** Once the shard directory is synced the disk knows the target and has forgotten the temp's name. */
  lemma EntryIsOnDisk(s: Store, p: Proc)
    requires p.l.pc.PSyncDir? && PublishedOk(s, p)
    requires forall k: Key :: k.dir == p.aux.d2 ==> SameAt(s.disk, s.ents, k)
    ensures PublishedOk(s, p.(l := Go(p.l, POpenTarget)))
  {
    assert SameAt(s.disk, s.ents, TargetKey(p));
    assert SameAt(s.disk, s.ents, TempKey(p));
  }

  lemma StepOpenTarget(hash: Bytes -> Digest, s: Store, p: Proc, o: Outcome, ch: Choice)
    requires Ready(hash, s, p) && p.l.pc.POpenTarget?
        && o == ExecOpen(s, p.fds, p.l.fd.shard, p.l.TargetName(), false, ch)
    ensures StepTo(hash, s, p, o, AfterOpenTarget(p.l, o.reply))
  {
    hide Standing, StoreOk, DescriptorsOk, ShardsOk, IsLowerHex64;
    PublishedStands(hash, s, p);
    RootIsTracked(hash, s, p);
    StaysPut(hash, s, p.aux.temp);
    var l' := AfterOpenTarget(p.l, o.reply);
    if o.reply.Got? {
      TargetIsOpened(hash, s, p, o, ch);
      Reaches(hash, s, p, o, l');
    } else {
      PublishedStops(hash, s, p, l');
      Lands(hash, s, p, o, l');
    }
  }

  lemma TargetIsOpened(hash: Bytes -> Digest, s: Store, p: Proc, o: Outcome, ch: Choice)
    requires Committed(hash, s, p) && p.l.pc.POpenTarget?
        && o == ExecOpen(s, p.fds, p.l.fd.shard, p.l.TargetName(), false, ch)
    requires o.reply.Got? && Settled(p.l)
    ensures Standing(hash, s, Moved(s, p, o, AfterOpenTarget(p.l, o.reply)))
  {
    hide Standing, StoreOk, DescriptorsOk, ShardsOk, IsLowerHex64;
    ShardIsHeld(s, p);
    var p' := Moved(s, p, o, AfterOpenTarget(p.l, o.reply));
    DescriptorTracked(p, p', o.reply.fd, o.ino);
    TrackedStay(p, o.reply.fd, o.ino);
    ShardsCarry(s, p, p');
    PublishedStands(hash, s, p');
  }

  lemma TrackedStay(p: Proc, f: Fd, x: Ino)
    requires DescriptorsOk(p) && f !in p.fds
    ensures f in p.l.open + [f] && f !in p.l.open
    ensures forall g :: g in p.l.open ==>
        g in p.l.open + [f] && g in p.fds && g in p.fds[f := Desc(x, 0)] && p.fds[f := Desc(x, 0)][g] == p.fds[g]
  {
  }

  lemma StepStatTarget(hash: Bytes -> Digest, s: Store, p: Proc, o: Outcome, ch: Choice)
    requires Ready(hash, s, p) && p.l.pc.PStatTarget? && o == ExecFstat(s, p.fds, p.l.fd.target, ch)
    ensures StepTo(hash, s, p, o, AfterStatTarget(p.l, o.reply))
  {
    hide Standing, StoreOk, DescriptorsOk, ShardsOk, IsLowerHex64;
    PublishedStands(hash, s, p);
    RootIsTracked(hash, s, p);
    StaysPut(hash, s, p.aux.temp);
    var l' := AfterStatTarget(p.l, o.reply);
    if l'.pc.PClosing? { PublishedStops(hash, s, p, l'); } else { PublishedGoesOn(hash, s, p, l'); }
    Lands(hash, s, p, o, l');
  }

  lemma StepSyncTarget(hash: Bytes -> Digest, s: Store, p: Proc, o: Outcome, ch: Choice)
    requires Ready(hash, s, p) && p.l.pc.PSyncTarget? && o == ExecFsync(s, p.fds, p.l.fd.target, ch)
    ensures StepTo(hash, s, p, o, AfterSyncTarget(hash, p.l, o.reply))
  {
    hide Standing, StoreOk, DescriptorsOk, ShardsOk, IsLowerHex64;
    PublishedStands(hash, s, p);
    RootIsTracked(hash, s, p);
    var l' := AfterSyncTarget(hash, p.l, o.reply);
    if o.reply.Done? {
      SyncIsQuiet(hash, s, p.aux.x, None);
      QuietForSelf(hash, s, o.store, p);
      PublishedStands(hash, o.store, p);
      VerifiesOrStops(hash, o.store, p, []);
    } else {
      StaysPut(hash, s, p.aux.temp);
      PublishedStops(hash, s, p, l');
    }
    Lands(hash, s, p, o, l');
  }

  lemma VerifiesOrStops(hash: Bytes -> Digest, s: Store, p: Proc, buf: Bytes)
    requires Committed(hash, s, p) && (p.l.pc.PSyncTarget? || p.l.pc.PReadTarget?)
    requires |buf| <= |p.l.snap.data| && buf == p.l.snap.data[..|buf|]
    ensures Standing(hash, s, p.(l := StartReadTarget(hash, p.l.(buf := buf))))
    ensures p.l.open != [] ==> Settled(StartReadTarget(hash, p.l.(buf := buf)))
  {
    hide Standing, DescriptorsOk, ShardsOk, IsLowerHex64, OnlyAt;
    var l' := StartReadTarget(hash, p.l.(buf := buf));
    if l'.pc.PClosing? { PublishedStops(hash, s, p, l'); } else { PublishedGoesOn(hash, s, p, l'); }
  }

  lemma StepReadTarget(hash: Bytes -> Digest, s: Store, p: Proc, o: Outcome, ch: Choice)
    requires Ready(hash, s, p) && p.l.pc.PReadTarget?
    requires o == ExecPread(s, p.fds, p.l.fd.target, p.l.Length() - |p.l.buf|, |p.l.buf|, ch)
    ensures StepTo(hash, s, p, o, AfterReadTarget(hash, p.l, o.reply))
  {
    hide Standing, StoreOk, DescriptorsOk, ShardsOk, IsLowerHex64, StartReadTarget;
    PublishedStands(hash, s, p);
    RootIsTracked(hash, s, p);
    StaysPut(hash, s, p.aux.temp);
    var l' := AfterReadTarget(hash, p.l, o.reply);
    if o.reply.Chunk? && o.reply.bytes != [] {
      VerifiesOrStops(hash, s, p, p.l.buf + o.reply.bytes);
    } else {
      PublishedStops(hash, s, p, l');
    }
    Lands(hash, s, p, o, l');
  }

  lemma StepSyncDirAgain(hash: Bytes -> Digest, s: Store, p: Proc, o: Outcome, ch: Choice)
    requires Ready(hash, s, p) && p.l.pc.PSyncDirAgain? && o == ExecFsync(s, p.fds, p.l.fd.shard, ch)
    ensures StepTo(hash, s, p, o, AfterSyncDirAgain(p.l, o.reply))
  {
    hide Standing, StoreOk, DescriptorsOk, ShardsOk, IsLowerHex64;
    PublishedStands(hash, s, p);
    RootIsTracked(hash, s, p);
    ShardIsHeld(s, p);
    var l' := AfterSyncDirAgain(p.l, o.reply);
    if o.reply.Done? {
      SyncIsQuiet(hash, s, p.aux.d2, None);
      QuietForSelf(hash, s, o.store, p);
      PublishedStands(hash, o.store, p);
      IsPersisted(hash, o.store, p);
    } else {
      StaysPut(hash, s, p.aux.temp);
      PublishedStops(hash, s, p, l');
    }
    Lands(hash, s, p, o, l');
  }

  lemma IsPersisted(hash: Bytes -> Digest, s: Store, p: Proc)
    requires Committed(hash, s, p) && p.l.pc.PSyncDirAgain?
    ensures Standing(hash, s, p.(l := Stop(p.l, Result(PersistedNew, NoReason, true, true))))
  {
    DescriptorsKept(p, p.(l := Stop(p.l, Result(PersistedNew, NoReason, true, true))));
    hide DescriptorsOk, IsLowerHex64;
  }

  // ---- inspecting an existing target -----------------------------------------------------------

  predicate Inspected(hash: Bytes -> Digest, s: Store, p: Proc) {
    && Inspecting(p.l.pc) && WellFormed(p.l) && Sound(hash, p.l.snap) && DescriptorsOk(p) && ShardsOk(s, p)
    && InspectingOk(hash, s, p) && TempSomewhere(s, p)
  }

  lemma InspectingStands(hash: Bytes -> Digest, s: Store, p: Proc)
    requires Inspecting(p.l.pc)
    ensures Standing(hash, s, p) <==> Inspected(hash, s, p)
  {
    hide DescriptorsOk, ShardsOk, IsLowerHex64;
  }

  lemma InspectingGoesOn(hash: Bytes -> Digest, s: Store, p: Proc, l': Local)
    requires Inspected(hash, s, p) && Inspecting(l'.pc) && WellFormed(l')
    requires l' == p.l.(pc := l'.pc, buf := l'.buf) && InspectingOk(hash, s, p.(l := l'))
    ensures Standing(hash, s, p.(l := l'))
  {
    hide Standing, IsLowerHex64, InspectingOk;
    DescriptorsKept(p, p.(l := l'));
    ShardsCarry(s, p, p.(l := l'));
    InspectingStands(hash, s, p.(l := l'));
  }

  /** However the inspection ends, the temp is cleaned up before the verdict is returned. */
  lemma InspectingEnds(hash: Bytes -> Digest, s: Store, p: Proc, l': Local)
    requires Inspected(hash, s, p)
    requires Lost(l'.outcome) || (l'.outcome.status.VerifiedExistingNoop? && Landed(hash, s, p))
    requires l' == Clean(p.l.(buf := l'.buf), l'.outcome)
    ensures Standing(hash, s, p.(l := l'))
  {
    hide Standing, DescriptorsOk, IsLowerHex64, Landed, InspectingOk;
    var q := p.(l := p.l.(buf := l'.buf));
    DescriptorsKept(p, q);
    ShardsCarry(s, p, q);
    LandedIgnoresBuffer(hash, s, p, l'.buf);
    Cleans(hash, s, q, p.(l := l'), l'.outcome);
  }

  lemma LandedIgnoresBuffer(hash: Bytes -> Digest, s: Store, p: Proc, buf: Bytes)
    requires IsLowerHex64(p.l.snap.digest)
    ensures Landed(hash, s, p.(l := p.l.(buf := buf))) == Landed(hash, s, p)
  {
    hide IsLowerHex64;
  }

  lemma StepXOpen(hash: Bytes -> Digest, s: Store, p: Proc, o: Outcome, ch: Choice)
    requires Ready(hash, s, p) && p.l.pc.XOpen? && o == ExecOpen(s, p.fds, p.l.fd.shard, p.l.TargetName(), false, ch)
    ensures StepTo(hash, s, p, o, AfterXOpen(p.l, o.reply))
  {
    hide Standing, StoreOk, DescriptorsOk, ShardsOk, IsLowerHex64;
    InspectingStands(hash, s, p);
    RootIsTracked(hash, s, p);
    StaysPut(hash, s, p.aux.temp);
    var l' := AfterXOpen(p.l, o.reply);
    if o.reply.Got? {
      ExistingIsOpened(hash, s, p, o, ch);
      Reaches(hash, s, p, o, l');
    } else {
      InspectingEnds(hash, s, p, l');
      Lands(hash, s, p, o, l');
    }
  }

  lemma ExistingIsOpened(hash: Bytes -> Digest, s: Store, p: Proc, o: Outcome, ch: Choice)
    requires Inspected(hash, s, p) && p.l.pc.XOpen?
        && o == ExecOpen(s, p.fds, p.l.fd.shard, p.l.TargetName(), false, ch)
    requires o.reply.Got? && Settled(p.l)
    ensures Standing(hash, s, Moved(s, p, o, AfterXOpen(p.l, o.reply)))
  {
    hide Standing, StoreOk, DescriptorsOk, ShardsOk, IsLowerHex64;
    ShardIsHeld(s, p);
    var p' := Moved(s, p, o, AfterXOpen(p.l, o.reply));
    DescriptorTracked(p, p', o.reply.fd, o.ino);
    TrackedStay(p, o.reply.fd, o.ino);
    ShardsCarry(s, p, p');
    InspectingStands(hash, s, p');
  }

  lemma StillInspecting(hash: Bytes -> Digest, s: Store, p: Proc, buf: Bytes)
    requires Inspected(hash, s, p) && (p.l.pc.XStat? || p.l.pc.XRead?) && StatFits(s, p, p.aux.x)
    requires |buf| <= |p.l.snap.data| && buf == s.inodes[p.aux.x].mem.bytes[..|buf|]
    requires !StartXRead(hash, p.l.(buf := buf)).pc.COpen?
    ensures var l' := StartXRead(hash, p.l.(buf := buf));
      && Inspecting(l'.pc) && WellFormed(l') && l' == p.l.(pc := l'.pc, buf := l'.buf)
      && InspectingOk(hash, s, p.(l := l'))
  {
    hide DescriptorsOk, ShardsOk, IsLowerHex64, TempSomewhere, Landed;
    if |buf| == |p.l.snap.data| { assert buf == s.inodes[p.aux.x].mem.bytes; }
  }

  /** The bytes read so far, and what follows when they are all there. */
  lemma InspectsOrEnds(hash: Bytes -> Digest, s: Store, p: Proc, buf: Bytes)
    requires Inspected(hash, s, p) && (p.l.pc.XStat? || p.l.pc.XRead?) && StatFits(s, p, p.aux.x)
    requires |buf| <= |p.l.snap.data| && buf == s.inodes[p.aux.x].mem.bytes[..|buf|]
    ensures Standing(hash, s, p.(l := StartXRead(hash, p.l.(buf := buf))))
  {
    hide Standing, Inspected, InspectingOk, WellFormed, IsLowerHex64, Landed;
    var l' := StartXRead(hash, p.l.(buf := buf));
    if l'.pc.COpen? { InspectingEnds(hash, s, p, l'); } else {
      StillInspecting(hash, s, p, buf);
      InspectingGoesOn(hash, s, p, l');
    }
  }

  lemma StepXStat(hash: Bytes -> Digest, s: Store, p: Proc, o: Outcome, ch: Choice)
    requires Ready(hash, s, p) && p.l.pc.XStat? && o == ExecFstat(s, p.fds, p.l.fd.target, ch)
    ensures StepTo(hash, s, p, o, AfterXStat(hash, p.l, o.reply))
  {
    hide Standing, StoreOk, DescriptorsOk, ShardsOk, IsLowerHex64, StartXRead;
    InspectingStands(hash, s, p);
    RootIsTracked(hash, s, p);
    StaysPut(hash, s, p.aux.temp);
    var l' := AfterXStat(hash, p.l, o.reply);
    if o.reply.Info? && BlobStatOk(p.l, o.reply.st) {
      InspectsOrEnds(hash, s, p, []);
      InspectingNeverStops(hash, p.l.(buf := []));
    } else {
      InspectingEnds(hash, s, p, l');
    }
    Lands(hash, s, p, o, l');
  }

  lemma InspectingNeverStops(hash: Bytes -> Digest, l: Local)
    ensures Settled(StartXRead(hash, l))
  {
  }

  lemma StepXRead(hash: Bytes -> Digest, s: Store, p: Proc, o: Outcome, ch: Choice)
    requires Ready(hash, s, p) && p.l.pc.XRead?
    requires o == ExecPread(s, p.fds, p.l.fd.target, p.l.Length() - |p.l.buf|, |p.l.buf|, ch)
    ensures StepTo(hash, s, p, o, AfterXRead(hash, p.l, o.reply))
  {
    hide Standing, StoreOk, DescriptorsOk, ShardsOk, IsLowerHex64, StartXRead;
    InspectingStands(hash, s, p);
    RootIsTracked(hash, s, p);
    StaysPut(hash, s, p.aux.temp);
    var l' := AfterXRead(hash, p.l, o.reply);
    if o.reply.Chunk? && o.reply.bytes != [] {
      InspectsOrEnds(hash, s, p, p.l.buf + o.reply.bytes);
      InspectingNeverStops(hash, p.l.(buf := p.l.buf + o.reply.bytes));
    } else {
      InspectingEnds(hash, s, p, l');
    }
    Lands(hash, s, p, o, l');
  }

  lemma TargetIsSynced(hash: Bytes -> Digest, s: Store, p: Proc)
    requires Ready(hash, s, p) && p.l.pc.XSyncFile? && p.aux.x in s.inodes
    ensures StoreOk(hash, s, Synced(s, p.aux.x), p.aux.temp)
    ensures Standing(hash, Synced(s, p.aux.x), p.(l := Go(p.l, XSyncDir)))
  {
    hide Standing, StoreOk, DescriptorsOk, ShardsOk, IsLowerHex64;
    SyncIsQuiet(hash, s, p.aux.x, None);
    QuietForSelf(hash, s, Synced(s, p.aux.x), p);
    InspectingStands(hash, Synced(s, p.aux.x), p);
    InspectingGoesOn(hash, Synced(s, p.aux.x), p, Go(p.l, XSyncDir));
  }

  lemma StepXSyncFile(hash: Bytes -> Digest, s: Store, p: Proc, o: Outcome, ch: Choice)
    requires Ready(hash, s, p) && p.l.pc.XSyncFile? && o == ExecFsync(s, p.fds, p.l.fd.target, ch)
    ensures StepTo(hash, s, p, o, AfterXSyncFile(p.l, o.reply))
  {
    hide Standing, StoreOk, DescriptorsOk, ShardsOk, IsLowerHex64, Synced;
    InspectingStands(hash, s, p);
    RootIsTracked(hash, s, p);
    var l' := AfterXSyncFile(p.l, o.reply);
    if o.reply.Done? {
      TargetIsSynced(hash, s, p);
    } else {
      StaysPut(hash, s, p.aux.temp);
      InspectingEnds(hash, s, p, l');
    }
    Lands(hash, s, p, o, l');
  }

  lemma StepXSyncDir(hash: Bytes -> Digest, s: Store, p: Proc, o: Outcome, ch: Choice)
    requires Ready(hash, s, p) && p.l.pc.XSyncDir? && o == ExecFsync(s, p.fds, p.l.fd.shard, ch)
    ensures StepTo(hash, s, p, o, AfterXSyncDir(p.l, o.reply))
  {
    hide Standing, StoreOk, DescriptorsOk, ShardsOk, IsLowerHex64;
    InspectingStands(hash, s, p);
    RootIsTracked(hash, s, p);
    ShardIsHeld(s, p);
    var l' := AfterXSyncDir(p.l, o.reply);
    if o.reply.Done? {
      SyncIsQuiet(hash, s, p.aux.d2, None);
      QuietForSelf(hash, s, o.store, p);
      InspectingStands(hash, o.store, p);
      ExistingHasLanded(hash, o.store, p);
      InspectingEnds(hash, o.store, p, l');
    } else {
      StaysPut(hash, s, p.aux.temp);
      InspectingEnds(hash, s, p, l');
    }
    Lands(hash, s, p, o, l');
  }

  lemma ExistingHasLanded(hash: Bytes -> Digest, s: Store, p: Proc)
    requires Inspected(hash, s, p) && p.l.pc.XSyncDir?
    requires forall k: Key :: k.dir == p.aux.d2 ==> SameAt(s.disk, s.ents, k)
    ensures Landed(hash, s, p)
  {
    hide IsLowerHex64, DescriptorsOk;
    assert SameAt(s.disk, s.ents, TargetKey(p));
  }
}
