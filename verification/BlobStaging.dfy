/** Steps from the exclusive create of the temp to the no-clobber rename. */
module BlobStaging {
  import opened Wrappers
  import opened BlobProtocol
  import opened BlobKernel
  import opened BlobInvariant
  import opened BlobSteps
  import opened BlobMoves

  /** While the temp is being made, these are the parts of the invariant that matter. */
  predicate Staged(hash: Bytes -> Digest, s: Store, p: Proc) {
    Staging(p.l.pc) && WellFormed(p.l) && Sound(hash, p.l.snap) && DescriptorsOk(p) && ShardsOk(s, p) && StagingOk(s, p)
  }

  lemma StagingStands(hash: Bytes -> Digest, s: Store, p: Proc)
    requires Staging(p.l.pc)
    ensures Standing(hash, s, p) <==> Staged(hash, s, p)
  {
    hide DescriptorsOk, ShardsOk, IsLowerHex64;
  }

  /** A temp that can still be cleaned up. */
  lemma TempIsSomewhere(s: Store, p: Proc)
    requires Staging(p.l.pc) && !p.l.pc.PStatTemp? && StagingOk(s, p)
    ensures TempSomewhere(s, p)
  {
  }

  /** The step failed: the temp is cleaned up before the failure is reported. */
  lemma FailsClean(hash: Bytes -> Digest, s: Store, p: Proc, r: Reason)
    requires Staged(hash, s, p) && !p.l.pc.PStatTemp?
    ensures Standing(hash, s, p.(l := CleanFailed(p.l, r)))
  {
    hide Standing, DescriptorsOk, ShardsOk, IsLowerHex64;
    TempIsSomewhere(s, p);
    Cleans(hash, s, p, p.(l := CleanFailed(p.l, r)), Failure(BlobPersistFailed, r));
  }

  /** Moving on within the staging phase with the same descriptors. */
  lemma StagingGoesOn(hash: Bytes -> Digest, s: Store, p: Proc, l': Local)
    requires Staged(hash, s, p) && Staging(l'.pc) && WellFormed(l')
    requires l' == p.l.(pc := l'.pc, total := l'.total, buf := l'.buf, tempId := l'.tempId)
    requires StagingOk(s, p.(l := l'))
    ensures Standing(hash, s, p.(l := l'))
  {
    hide Standing, IsLowerHex64, StagingOk;
    DescriptorsKept(p, p.(l := l'));
    StagingStands(hash, s, p.(l := l'));
  }

  // ---- create ----------------------------------------------------------------------------------

  lemma StepCreateTemp(hash: Bytes -> Digest, s: Store, p: Proc, o: Outcome, ch: Choice)
    requires Ready(hash, s, p) && p.l.pc.PCreateTemp? && o == ExecCreate(s, p.fds, p.l.fd.shard, p.l.TempName(), ch)
    ensures StepTo(hash, s, p, o, AfterCreateTemp(p.l, o.reply))
  {
    hide Standing, StoreOk, DescriptorsOk, ShardsOk, IsLowerHex64;
    RootIsTracked(hash, s, p);
    OpeningStands(hash, s, p);
    var l' := AfterCreateTemp(p.l, o.reply);
    if o.reply.Got? {
      TempIsMade(hash, s, p, o, ch);
    } else {
      if o.store == s { StaysPut(hash, s, p.aux.temp); } else { FileIsLeft(hash, s, p, o, ch); }
      Stops(hash, o.store, p, p.(l := l'), l'.outcome);
      Lands(hash, s, p, o, l');
    }
  }

  /** A file the create made although it failed belongs to no adapter: to this one it is as foreign as
      any other. */
  lemma FileIsLeft(hash: Bytes -> Digest, s: Store, p: Proc, o: Outcome, ch: Choice)
    requires Ready(hash, s, p) && p.l.pc.PCreateTemp? && o == ExecCreate(s, p.fds, p.l.fd.shard, p.l.TempName(), ch)
    requires !o.reply.Got? && o.store != s
    ensures StoreOk(hash, s, o.store, p.aux.temp)
  {
    hide Standing, StoreOk, IsLowerHex64;
    AddIsQuiet(hash, s, Key(p.fds[p.l.fd.shard].ino, p.l.TempName()), ch.ino,
        Inode(Regular, ch.mem.(bytes := []), ch.disk), p.aux.temp);
  }

  /** What the create does to the store: a new file under the temp's name alone, and nothing else. */
  lemma CreatedFile(hash: Bytes -> Digest, s: Store, p: Proc, o: Outcome, ch: Choice)
    requires Ready(hash, s, p) && p.l.pc.PCreateTemp? && o == ExecCreate(s, p.fds, p.l.fd.shard, p.l.TempName(), ch)
    requires o.reply.Got? && p.l.fd.shard in p.fds && p.fds[p.l.fd.shard].ino == p.aux.d2
    ensures StoreOk(hash, s, o.store, p.aux.temp) && Standing(hash, o.store, p) && o.ino !in s.inodes
    ensures IsRegular(o.store, o.ino) && o.store.inodes[o.ino].mem.bytes == [] && Maps(o.store.ents, TempKey(p), o.ino)
    ensures OnlyAt(o.store.ents, o.ino, TempKey(p), TempKey(p)) && OnlyAt(o.store.disk, o.ino, TempKey(p), TempKey(p))
  {
    hide Standing, StoreOk, IsLowerHex64;
    var i := Inode(Regular, ch.mem.(bytes := []), ch.disk);
    AddIsQuiet(hash, s, TempKey(p), ch.ino, i, None);
    FreshIsOnlyThere(s, TempKey(p), ch.ino, i);
    QuietForSelf(hash, s, o.store, p);
  }

  lemma TempIsMade(hash: Bytes -> Digest, s: Store, p: Proc, o: Outcome, ch: Choice)
    requires Ready(hash, s, p) && p.l.pc.PCreateTemp? && o == ExecCreate(s, p.fds, p.l.fd.shard, p.l.TempName(), ch)
    requires o.reply.Got?
    ensures StepTo(hash, s, p, o, AfterCreateTemp(p.l, o.reply))
  {
    hide Standing, StoreOk, IsLowerHex64, OnlyAt;
    RootIsTracked(hash, s, p);
    OpeningStands(hash, s, p);
    CreatedFile(hash, s, p, o, ch);
    OpeningStands(hash, o.store, p);
    hide ShardsOk;
    var p' := Moved(s, p, o, AfterCreateTemp(p.l, o.reply));
    DescriptorTracked(p, p', o.reply.fd, o.ino);
    NewTempStands(hash, o.store, p, p', ch.ino);
  }

  lemma FreshIsOnlyThere(s: Store, k: Key, x: Ino, i: Inode)
    requires WellFormedStore(s) && x !in s.inodes
    ensures OnlyAt(Added(s, k, x, i).ents, x, k, k) && OnlyAt(Added(s, k, x, i).disk, x, k, k)
  {
  }

  lemma NewTempStands(hash: Bytes -> Digest, s: Store, p: Proc, p': Proc, t: Ino)
    requires p.l.pc.PCreateTemp? && Sound(hash, p.l.snap) && ShardsOk(s, p) && DescriptorsOk(p')
    requires p'.l == p.l.(open := p'.l.open, fd := p.l.fd.(temp := p'.l.fd.temp), pc := PStatTemp)
    requires forall f :: f in p.l.open ==> f in p'.l.open && f in p'.fds && (f in p.fds ==> p'.fds[f] == p.fds[f])
    requires p'.aux == p.aux.(temp := Some(t))
    requires Holds(p', p'.l.fd.temp, t) && p'.fds[p'.l.fd.temp].offset == 0
    requires IsRegular(s, t) && s.inodes[t].mem.bytes == [] && Maps(s.ents, TempKey(p), t)
    requires OnlyAt(s.ents, t, TempKey(p), TempKey(p)) && OnlyAt(s.disk, t, TempKey(p), TempKey(p))
    ensures Standing(hash, s, p')
  {
    hide Standing, DescriptorsOk, IsLowerHex64;
    StagingStands(hash, s, p');
  }

  // ---- the temp's identity ---------------------------------------------------------------------

  lemma TempIsIdentified(hash: Bytes -> Digest, s: Store, p: Proc, r: Reply)
    requires Staged(hash, s, p) && p.l.pc.PStatTemp? && r.Info? && p.aux.temp == Some(r.st.ino)
    ensures var l' := AfterStatTemp(p.l, r);
      && Staging(l'.pc) && WellFormed(l') && StagingOk(s, p.(l := l'))
      && l' == p.l.(pc := l'.pc, total := l'.total, tempId := l'.tempId)
  {
    hide DescriptorsOk, ShardsOk, IsLowerHex64;
  }

  lemma StepStatTemp(hash: Bytes -> Digest, s: Store, p: Proc, o: Outcome, ch: Choice)
    requires Ready(hash, s, p) && p.l.pc.PStatTemp? && o == ExecFstat(s, p.fds, p.l.fd.temp, ch)
    ensures StepTo(hash, s, p, o, AfterStatTemp(p.l, o.reply))
  {
    hide Standing, StoreOk, DescriptorsOk, ShardsOk, IsLowerHex64;
    StaysPut(hash, s, p.aux.temp);
    StagingStands(hash, s, p);
    RootIsTracked(hash, s, p);
    var l' := AfterStatTemp(p.l, o.reply);
    if o.reply.Info? {
      TempIsIdentified(hash, s, p, o.reply);
      hide StagingOk, StartWrite, WellFormed;
      StagingGoesOn(hash, s, p, l');
      assert Settled(l');
    } else {
      Refuses(hash, s, p, l'.outcome);
    }
    Lands(hash, s, p, o, l');
  }

  // ---- writing ---------------------------------------------------------------------------------

  /** Editing the temp disturbs nothing but its contents. */
  lemma TempIsEdited(hash: Bytes -> Digest, s: Store, p: Proc, m: Data)
    requires Ready(hash, s, p) && Staging(p.l.pc)
    ensures p.aux.temp.Some? && p.aux.temp.value in s.inodes
    ensures StoreOk(hash, s, Edited(s, p.aux.temp.value, m), p.aux.temp)
    ensures ShardsOk(Edited(s, p.aux.temp.value, m), p)
  {
    hide Standing, DescriptorsOk, IsLowerHex64, ShardsOk;
    StagingStands(hash, s, p);
    EditIsQuiet(hash, s, p.aux.temp.value, m, p.aux.temp);
    ShardsStay(s, Edited(s, p.aux.temp.value, m), p, p.aux.temp);
  }

  lemma StepWrite(hash: Bytes -> Digest, s: Store, p: Proc, o: Outcome, ch: Choice)
    requires Ready(hash, s, p) && p.l.pc.PWrite?
        && o == ExecWrite(s, p.fds, p.l.fd.temp, p.l.snap.data[p.l.total..], ch)
    ensures StepTo(hash, s, p, o, AfterWrite(p.l, o.reply))
  {
    hide Standing, StoreOk, DescriptorsOk, ShardsOk, IsLowerHex64;
    StagingStands(hash, s, p);
    RootIsTracked(hash, s, p);
    var l' := AfterWrite(p.l, o.reply);
    if ch.fail.Some? && !ch.effect {
      StaysPut(hash, s, p.aux.temp);
      assert Written(s, p, 0);
      FailsOrWrites(hash, s, p, p, o, l');
    } else {
      var t := p.aux.temp.value;
      var n := Min(ch.n, |p.l.snap.data[p.l.total..]|);
      TempIsEdited(hash, s, p, s.inodes[t].mem.(bytes := Spliced(s.inodes[t].mem.bytes, p.l.total,
          p.l.snap.data[p.l.total..][..n])));
      SplicedAtEnd(p.l.snap.data, p.l.total, n);
      var q := p.(fds := o.fds);
      OffsetOnly(p, q);
      WrittenSoFar(hash, s, o.store, p, q, n);
      FailsOrWrites(hash, o.store, p, q, o, l');
    }
    Lands(hash, s, p, o, l');
  }

  lemma SplicedAtEnd(data: Bytes, total: int, n: nat)
    requires 0 <= total <= |data| && n <= |data| - total
    ensures Spliced(data[..total], total, data[total..][..n]) == data[..total + n]
  {
  }

  lemma OffsetOnly(p: Proc, q: Proc)
    requires DescriptorsOk(p) && q == p.(fds := q.fds) && q.fds.Keys == p.fds.Keys && !p.l.pc.Finished?
    ensures DescriptorsOk(q)
  {
  }

  /** What the temp holds after a write of `n` bytes, whatever was reported. */
  predicate Written(s: Store, q: Proc, n: nat) {
    && Staging(q.l.pc) && !q.l.pc.PStatTemp? && q.aux.temp.Some?
    && var t := q.aux.temp.value;
    && IsRegular(s, t) && Holds(q, q.l.fd.temp, t) && q.l.tempId == Some(t)
    && Maps(s.ents, TempKey(q), t)
    && OnlyAt(s.ents, t, TempKey(q), TempKey(q)) && OnlyAt(s.disk, t, TempKey(q), TempKey(q))
    && 0 <= q.l.total <= q.l.total + n <= |q.l.snap.data|
    && s.inodes[t].mem.bytes == q.l.snap.data[..q.l.total + n]
    && q.fds[q.l.fd.temp].offset == q.l.total + n
  }

  lemma WrittenSoFar(hash: Bytes -> Digest, s: Store, s': Store, p: Proc, q: Proc, n: nat)
    requires Staged(hash, s, p) && p.l.pc.PWrite? && n <= |p.l.snap.data| - p.l.total
    requires s' == Edited(s, p.aux.temp.value, s.inodes[p.aux.temp.value].mem.(bytes := p.l.snap.data[..p.l.total + n]))
    requires q == p.(fds := p.fds[p.l.fd.temp := Desc(p.aux.temp.value, p.l.total + n)])
    ensures Written(s', q, n)
  {
    hide DescriptorsOk, ShardsOk, IsLowerHex64;
  }

  /** The write moved on: the next one, or the mode. */
  lemma WritesOn(hash: Bytes -> Digest, s: Store, q: Proc, n: nat)
    requires q.l.pc.PWrite? && Sound(hash, q.l.snap) && DescriptorsOk(q) && ShardsOk(s, q) && Written(s, q, n)
    ensures Standing(hash, s, q.(l := StartWrite(q.l.(total := q.l.total + n))))
  {
    hide Standing, IsLowerHex64;
    var l' := StartWrite(q.l.(total := q.l.total + n));
    DescriptorsKept(q, q.(l := l'));
    ShardsOnStaging(s, q, l');
    hide DescriptorsOk, ShardsOk;
    StagingStands(hash, s, q.(l := l'));
  }

  lemma ShardsOnStaging(s: Store, q: Proc, l': Local)
    requires IsLowerHex64(q.l.snap.digest) && ShardsOk(s, q) && Staging(q.l.pc) && Staging(l'.pc)
    requires l' == q.l.(pc := l'.pc, total := l'.total)
    ensures ShardsOk(s, q.(l := l'))
  {
    hide IsLowerHex64;
  }

  /** The write failed or wrote nothing: the temp is cleaned up. */
  lemma WriteEnds(hash: Bytes -> Digest, s: Store, q: Proc, n: nat)
    requires q.l.pc.PWrite? && Sound(hash, q.l.snap) && DescriptorsOk(q) && ShardsOk(s, q) && Written(s, q, n)
    ensures Standing(hash, s, q.(l := CleanFailed(q.l, WriteFailed)))
  {
    hide Standing, DescriptorsOk, ShardsOk, IsLowerHex64;
    Cleans(hash, s, q, q.(l := CleanFailed(q.l, WriteFailed)), Failure(BlobPersistFailed, WriteFailed));
  }

  lemma ShardsIgnoreOffsets(s: Store, p: Proc, q: Proc)
    requires IsLowerHex64(p.l.snap.digest) && ShardsOk(s, p) && q == p.(fds := q.fds)
    requires forall f :: f in p.fds ==> f in q.fds && q.fds[f].ino == p.fds[f].ino
    ensures ShardsOk(s, q)
  {
    hide IsLowerHex64;
  }

  lemma FailsOrWrites(hash: Bytes -> Digest, s: Store, p: Proc, q: Proc, o: Outcome, l': Local)
    requires WellFormed(p.l) && p.l.pc.PWrite? && Sound(hash, p.l.snap) && q == p.(fds := o.fds)
    requires DescriptorsOk(q) && ShardsOk(s, p)
        && (forall f :: f in p.fds ==> f in o.fds && o.fds[f].ino == p.fds[f].ino)
    requires exists n: nat :: Written(s, q, n) && (o.reply.Wrote? ==> o.reply.n == n)
    requires l' == AfterWrite(p.l, o.reply)
    ensures Standing(hash, s, q.(l := l')) && Settled(l')
  {
    hide Standing, IsLowerHex64, DescriptorsOk, ShardsOk, Written;
    var n: nat :| Written(s, q, n) && (o.reply.Wrote? ==> o.reply.n == n);
    ShardsIgnoreOffsets(s, p, q);
    if o.reply.Wrote? && o.reply.n > 0 { WritesOn(hash, s, q, n); } else { WriteEnds(hash, s, q, n); }
  }

  // ---- mode, verification, sync, read-back -----------------------------------------------------

  lemma StepChmodTemp(hash: Bytes -> Digest, s: Store, p: Proc, o: Outcome, ch: Choice)
    requires Ready(hash, s, p) && p.l.pc.PChmodTemp? && o == ExecFchmod(s, p.fds, p.l.fd.temp, BLOB_MODE, ch)
    ensures StepTo(hash, s, p, o, AfterChmodTemp(p.l, o.reply))
  {
    hide Standing, StoreOk, DescriptorsOk, ShardsOk, IsLowerHex64;
    StagingStands(hash, s, p);
    RootIsTracked(hash, s, p);
    var l' := AfterChmodTemp(p.l, o.reply);
    if ch.fail.Some? && !ch.effect {
      StaysPut(hash, s, p.aux.temp);
    } else {
      var t := p.aux.temp.value;
      TempIsEdited(hash, s, p, s.inodes[t].mem.(mode := BLOB_MODE));
    }
    assert Staged(hash, o.store, p);
    if o.reply.Done? { StagingGoesOn(hash, o.store, p, l'); } else { FailsClean(hash, o.store, p, TempVerifyFailed); }
    Lands(hash, s, p, o, l');
  }

  lemma StepVerifyTemp(hash: Bytes -> Digest, s: Store, p: Proc, o: Outcome, ch: Choice)
    requires Ready(hash, s, p) && p.l.pc.PVerifyTemp? && o == ExecFstat(s, p.fds, p.l.fd.temp, ch)
    ensures StepTo(hash, s, p, o, AfterVerifyTemp(p.l, o.reply))
  {
    hide Standing, StoreOk, DescriptorsOk, ShardsOk, IsLowerHex64;
    StaysPut(hash, s, p.aux.temp);
    StagingStands(hash, s, p);
    RootIsTracked(hash, s, p);
    var l' := AfterVerifyTemp(p.l, o.reply);
    if l'.pc.COpen? { FailsClean(hash, s, p, TempVerifyFailed); } else { StagingGoesOn(hash, s, p, l'); }
    Lands(hash, s, p, o, l');
  }

  /** A read-back that does not match ends in a clean failure. */
  lemma CleansWith(hash: Bytes -> Digest, s: Store, p: Proc, l': Local)
    requires Staged(hash, s, p) && !p.l.pc.PStatTemp?
    requires l' == CleanFailed(p.l.(buf := l'.buf), TempVerifyFailed)
    ensures Standing(hash, s, p.(l := l'))
  {
    hide Standing, DescriptorsOk, ShardsOk, IsLowerHex64;
    FailsClean(hash, s, p, TempVerifyFailed);
    BufferIsFree(hash, s, p.(l := CleanFailed(p.l, TempVerifyFailed)), l'.buf);
  }

  lemma BufferIsFree(hash: Bytes -> Digest, s: Store, p: Proc, buf: Bytes)
    requires Standing(hash, s, p) && p.l.pc.COpen?
    ensures Standing(hash, s, p.(l := p.l.(buf := buf)))
  {
    DescriptorsKept(p, p.(l := p.l.(buf := buf)));
    hide DescriptorsOk, IsLowerHex64;
  }

  lemma StillReading(hash: Bytes -> Digest, s: Store, p: Proc, buf: Bytes)
    requires Staged(hash, s, p) && (p.l.pc.PSyncTemp? || p.l.pc.PReadTemp?)
    requires s.inodes[p.aux.temp.value].Durable() && !StartReadTemp(hash, p.l.(buf := buf)).pc.COpen?
    ensures var l' := StartReadTemp(hash, p.l.(buf := buf));
      && Staging(l'.pc) && WellFormed(l') && StagingOk(s, p.(l := l'))
      && l' == p.l.(pc := l'.pc, buf := l'.buf)
  {
    hide DescriptorsOk, ShardsOk, IsLowerHex64;
  }

  /** The bytes read back so far, and what follows when they are all there. */
  lemma ReadsOrCleans(hash: Bytes -> Digest, s: Store, p: Proc, buf: Bytes)
    requires Staged(hash, s, p) && (p.l.pc.PSyncTemp? || p.l.pc.PReadTemp?)
    requires s.inodes[p.aux.temp.value].Durable()
    ensures Standing(hash, s, p.(l := StartReadTemp(hash, p.l.(buf := buf))))
        && Settled(StartReadTemp(hash, p.l.(buf := buf)))
  {
    var l' := StartReadTemp(hash, p.l.(buf := buf));
    hide Standing, StagingOk, DescriptorsOk, ShardsOk, IsLowerHex64, WellFormed;
    if l'.pc.COpen? { CleansWith(hash, s, p, l'); } else {
      StillReading(hash, s, p, buf);
      StagingGoesOn(hash, s, p, l');
    }
  }

  lemma StepSyncTemp(hash: Bytes -> Digest, s: Store, p: Proc, o: Outcome, ch: Choice)
    requires Ready(hash, s, p) && p.l.pc.PSyncTemp? && o == ExecFsync(s, p.fds, p.l.fd.temp, ch)
    ensures StepTo(hash, s, p, o, AfterSyncTemp(hash, p.l, o.reply))
  {
    hide Standing, StoreOk, DescriptorsOk, ShardsOk, IsLowerHex64, StartReadTemp;
    StagingStands(hash, s, p);
    RootIsTracked(hash, s, p);
    if o.reply.Done? {
      SyncIsQuiet(hash, s, p.aux.temp.value, None);
      QuietForSelf(hash, s, o.store, p);
      StagingStands(hash, o.store, p);
      ReadsOrCleans(hash, o.store, p, []);
    } else {
      StaysPut(hash, s, p.aux.temp);
      FailsClean(hash, s, p, FileFsyncFailed);
    }
    Lands(hash, s, p, o, AfterSyncTemp(hash, p.l, o.reply));
  }

  lemma StepReadTemp(hash: Bytes -> Digest, s: Store, p: Proc, o: Outcome, ch: Choice)
    requires Ready(hash, s, p) && p.l.pc.PReadTemp?
    requires o == ExecPread(s, p.fds, p.l.fd.temp, p.l.Length() - |p.l.buf|, |p.l.buf|, ch)
    ensures StepTo(hash, s, p, o, AfterReadTemp(hash, p.l, o.reply))
  {
    hide Standing, StoreOk, DescriptorsOk, ShardsOk, IsLowerHex64, StartReadTemp;
    StaysPut(hash, s, p.aux.temp);
    StagingStands(hash, s, p);
    RootIsTracked(hash, s, p);
    if o.reply.Chunk? && o.reply.bytes != [] {
      ReadsOrCleans(hash, s, p, p.l.buf + o.reply.bytes);
    } else {
      FailsClean(hash, s, p, TempVerifyFailed);
    }
    Lands(hash, s, p, o, AfterReadTemp(hash, p.l, o.reply));
  }

  // ---- rename ----------------------------------------------------------------------------------

  lemma StepRename(hash: Bytes -> Digest, s: Store, p: Proc, o: Outcome, ch: Choice)
    requires Ready(hash, s, p) && p.l.pc.PRename?
    requires o == ExecRename(s, p.fds, p.l.fd.shard, p.l.TempName(), p.l.TargetName(), ch)
    ensures StepTo(hash, s, p, o, AfterRename(p.l, o.reply))
  {
    hide Standing, StoreOk, DescriptorsOk, IsLowerHex64;
    StagingStands(hash, s, p);
    RootIsTracked(hash, s, p);
    var l' := AfterRename(p.l, o.reply);
    if TargetKey(p) in s.ents || (ch.fail.Some? && !ch.effect) {
      StaysPut(hash, s, p.aux.temp);
      TempIsSomewhere(s, p);
      NotPublished(hash, s, p, l');
    } else {
      TempIsRenamed(hash, s, p);
      if o.reply.Done? { IsPublished(hash, o.store, p); } else { NotPublished(hash, o.store, p, l'); }
    }
    Lands(hash, s, p, o, l');
  }

  lemma TempIsRenamed(hash: Bytes -> Digest, s: Store, p: Proc)
    requires Ready(hash, s, p) && p.l.pc.PRename? && TargetKey(p) !in s.ents
    ensures p.aux.temp.Some? && Maps(s.ents, TempKey(p), p.aux.temp.value)
    ensures var s' := Renamed(s, TempKey(p), TargetKey(p));
      && StoreOk(hash, s, s', p.aux.temp) && ShardsOk(s', p) && TempSomewhere(s', p)
      && Maps(s'.ents, TargetKey(p), p.aux.temp.value) && Maps(s'.ents, TargetKey(p), p.aux.temp.value)
      && OnlyAt(s'.ents, p.aux.temp.value, TargetKey(p), TargetKey(p))
      && s'.inodes[p.aux.temp.value].mem == Wanted(p) && s'.inodes[p.aux.temp.value].Durable()
  {
    hide Standing, DescriptorsOk, IsLowerHex64, ShardsOk;
    StagingStands(hash, s, p);
    RenameIsQuiet(hash, s, TempKey(p), TargetKey(p), p.aux.temp.value);
    ShardsStay(s, Renamed(s, TempKey(p), TargetKey(p)), p, p.aux.temp);
  }

  lemma IsPublished(hash: Bytes -> Digest, s: Store, p: Proc)
    requires p.l.pc.PRename? && Sound(hash, p.l.snap) && DescriptorsOk(p) && ShardsOk(s, p) && TempSomewhere(s, p)
    requires Maps(s.ents, TargetKey(p), p.aux.temp.value)
    requires OnlyAt(s.ents, p.aux.temp.value, TargetKey(p), TargetKey(p))
    requires s.inodes[p.aux.temp.value].mem == Wanted(p) && s.inodes[p.aux.temp.value].Durable()
    ensures Standing(hash, s, p.(l := Go(p.l, PSyncDir)))
  {
    DescriptorsKept(p, p.(l := Go(p.l, PSyncDir)));
    hide DescriptorsOk, IsLowerHex64;
  }

  /** A rename reported as failed, whether or not it took effect. */
  lemma NotPublished(hash: Bytes -> Digest, s: Store, p: Proc, l': Local)
    requires p.l.pc.PRename? && Sound(hash, p.l.snap) && DescriptorsOk(p) && ShardsOk(s, p) && TempSomewhere(s, p)
    requires l' == Go(p.l, XOpen) || exists r :: l' == CleanFailed(p.l, r)
    ensures Standing(hash, s, p.(l := l'))
  {
    if l' == Go(p.l, XOpen) {
      DescriptorsKept(p, p.(l := l'));
    } else {
      Cleans(hash, s, p, p.(l := l'), l'.outcome);
    }
    hide DescriptorsOk, IsLowerHex64;
  }
}
