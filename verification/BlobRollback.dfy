/** What a failed call leaves behind, when the adapter is alone with the disk and the kernel's faults. */
module BlobRollback {
  import opened Wrappers
  import opened BlobProtocol
  import opened BlobKernel
  import opened BlobInvariant
  import opened BlobSteps
  import opened BlobMoves
  import opened BlobSystem
  import opened BlobTheorems

  /** A file that an exclusive create made although it was reported as failed, and the entry it got. */
  datatype Leftover = Leftover(key: Key, ino: Ino)

  /** What event `e` leaves: the kernel fails the create of adapter `i`, and makes the file all the same. */
  function Leaves(w: World, i: nat, e: Event): Option<Leftover> {
    if e.Acts? && e.i == i && CanAct(w, i) && w.procs[i].l.pc.PCreateTemp? && e.ch.fail.Some? then
      var p := w.procs[i];
      if e.ch.effect && e.ch.ino !in w.store.inodes && p.l.fd.shard in p.fds
         && Key(p.fds[p.l.fd.shard].ino, p.l.TempName()) !in w.store.ents
      then Some(Leftover(Key(p.fds[p.l.fd.shard].ino, p.l.TempName()), e.ch.ino))
      else None
    else None
  }

  /** What the first such create of the run leaves. */
  function LeftBy(hash: Bytes -> Digest, w: World, i: nat, es: seq<Event>): Option<Leftover>
    decreases |es|
  {
    if es == [] then None
    else
      var front := es[..|es| - 1];
      var before := LeftBy(hash, w, i, front);
      if before.Some? then before else Leaves(Run(hash, w, front), i, es[|es| - 1])
  }

  predicate FilesKept(s0: Store, s: Store) {
    && (forall x :: x in s0.inodes ==> x in s.inodes && s.inodes[x].kind == s0.inodes[x].kind)
    && (forall x :: x in s0.inodes && IsFile(s0, x) ==> x in s.inodes && Untouched(s0, s, x))
  }

  /** Besides temp `t` and leftover `z`, every file entry and every file of `s0` is as it was, and there
      is no other. */
  predicate OnlyAdds(s0: Store, s: Store, t: Option<Ino>, z: Option<Leftover>) {
    && FilesKept(s0, s)
    && (forall k :: k in s0.ents && IsFile(s0, s0.ents[k]) ==> SameAt(s.ents, s0.ents, k))
    && (forall k :: k in s.ents && IsFile(s, s.ents[k]) ==>
          SameAt(s.ents, s0.ents, k) || Some(s.ents[k]) == t || z == Some(Leftover(k, s.ents[k])))
    && (t.Some? ==> t.value !in s0.inodes)
    && (z.Some? ==> z.value.ino !in s0.inodes && Maps(s.ents, z.value.key, z.value.ino) && IsFile(s, z.value.ino))
  }

  /** The file entries, and the files they name, are exactly as before. */
  predicate SameFiles(s0: Store, s: Store) {
    && (forall k :: k in s0.ents && IsFile(s0, s0.ents[k]) ==> SameAt(s.ents, s0.ents, k))
    && (forall k :: k in s.ents && IsFile(s, s.ents[k]) ==> SameAt(s.ents, s0.ents, k))
    && (forall x :: x in s0.inodes && IsFile(s0, x) ==> x in s.inodes && Untouched(s0, s, x))
  }

  /** The file entries and files are as before, but for one new file under one new entry. */
  predicate SameFilesBut(s0: Store, s: Store, z: Leftover) {
    && (forall k :: k in s0.ents && IsFile(s0, s0.ents[k]) ==> SameAt(s.ents, s0.ents, k))
    && (forall k :: k in s.ents && IsFile(s, s.ents[k]) ==> SameAt(s.ents, s0.ents, k) || z == Leftover(k, s.ents[k]))
    && (forall x :: x in s0.inodes && IsFile(s0, x) ==> x in s.inodes && Untouched(s0, s, x))
    && z.ino !in s0.inodes && Maps(s.ents, z.key, z.ino) && IsFile(s, z.ino)
  }

  /** Where the adapter can be once its create left a file: on the way out, with one of two reasons. */
  predicate GivesUp(p: Proc, z: Leftover) {
    && p.aux.temp.None? && Over(p.l.pc) && z.key.name == p.l.TempName()
    && (p.l.outcome == Failure(BlobPersistFailed, TempCreateFailed)
       || p.l.outcome == Blocked(AmbiguousPublicationState))
  }

  /** Only the exclusive create makes a file. */
  lemma NewFilesAreCreated(s: Store, fds: Descs, c: Call, ch: Choice, k: Key)
    requires WellFormedStore(s)
    ensures var o := Exec(s, fds, c, ch);
      k in o.store.ents && o.store.ents[k] !in s.inodes && IsFile(o.store, o.store.ents[k]) ==>
        c.CreateExclusive? && o.ino == o.store.ents[k]
        && (o.reply.Got? || (ch.fail.Some? && ch.effect && c.dir in fds && k == Key(fds[c.dir].ino, c.name)
           && k !in s.ents))
  {
  }

  /** Whatever file a step makes is the adapter's temp or its leftover. */
  lemma NewFilesAreKnown(hash: Bytes -> Digest, w: World, i: nat, ch: Choice, k: Key)
    requires WellFormedStore(w.store) && CanAct(w, i)
    ensures var (s', p') := Act(hash, w.store, w.procs[i], ch);
      k in s'.ents && s'.ents[k] !in w.store.inodes && IsFile(s', s'.ents[k]) ==>
        p'.aux.temp == Some(s'.ents[k]) || Leaves(w, i, Acts(i, ch)) == Some(Leftover(k, s'.ents[k]))
  {
    hide Exec, After, IsLowerHex64;
    var p := w.procs[i];
    NewFilesAreCreated(w.store, p.fds, NextCall(p.l), ch, k);
    if NextCall(p.l).CreateExclusive? && ch.fail.Some? && ch.effect && p.l.fd.shard in p.fds {
      LeftoverIsMade(w, i, ch, Key(p.fds[p.l.fd.shard].ino, p.l.TempName()));
    }
  }

  lemma LeftoverIsMade(w: World, i: nat, ch: Choice, k: Key)
    requires CanAct(w, i) && NextCall(w.procs[i].l).CreateExclusive? && ch.fail.Some? && ch.effect
    requires var p := w.procs[i]; p.l.fd.shard in p.fds && k == Key(p.fds[p.l.fd.shard].ino, p.l.TempName())
    ensures k in Exec(w.store, w.procs[i].fds, NextCall(w.procs[i].l), ch).store.ents && k !in w.store.ents ==>
      Leaves(w, i, Acts(i, ch)) == Some(Leftover(k,
          Exec(w.store, w.procs[i].fds, NextCall(w.procs[i].l), ch).store.ents[k]))
  {
    hide IsLowerHex64;
  }

  /** A leftover is a new file of its own, the call gives up, and no temp is its own. */
  lemma LeftoverMeans(hash: Bytes -> Digest, w: World, i: nat, e: Event)
    requires Leaves(w, i, e).Some? && Ready(hash, w.store, w.procs[i])
    ensures var (s', p') := Act(hash, w.store, w.procs[i], e.ch);
      var z := Leaves(w, i, e).value;
      GivesUp(p', z) && z.ino !in w.store.inodes && Maps(s'.ents, z.key, z.ino) && IsFile(s', z.ino)
  {
    hide IsLowerHex64, Standing, Exec, After;
    CreatingHasNoTemp(hash, w.store, w.procs[i]);
    LeftoverOutcome(hash, w, i, e);
  }

  lemma CreatingHasNoTemp(hash: Bytes -> Digest, s: Store, p: Proc)
    requires Standing(hash, s, p) && p.l.pc.PCreateTemp?
    ensures p.aux.temp.None? && p.l.open != []
  {
    RootIsTracked(hash, s, p);
    hide DescriptorsOk, ShardsOk, IsLowerHex64;
  }

  lemma LeftoverOutcome(hash: Bytes -> Digest, w: World, i: nat, e: Event)
    requires Leaves(w, i, e).Some?
    ensures var l, z := w.procs[i].l, Leaves(w, i, e).value;
      var o := Exec(w.store, w.procs[i].fds, NextCall(l), e.ch);
      && o.reply == Fail(e.ch.fail.value) && z.ino !in w.store.inodes && z.key.name == l.TempName()
      && Maps(o.store.ents, z.key, z.ino) && IsFile(o.store, z.ino)
         && After(hash, l, o.reply) == AfterCreateTemp(l, o.reply)
  {
    hide IsLowerHex64;
  }

  lemma GivingUpGoesOn(hash: Bytes -> Digest, s: Store, p: Proc, ch: Choice, z: Leftover)
    requires GivesUp(p, z) && WellFormed(p.l) && Settled(p.l) && !p.l.pc.Finished?
    ensures GivesUp(Act(hash, s, p, ch).1, z)
  {
    hide IsLowerHex64, Exec;
  }

  // ---- one step --------------------------------------------------------------------------------

  lemma StepKeepsFiles(s0: Store, s: Store, s': Store, t: Option<Ino>)
    requires FilesKept(s0, s) && Guarantee(s, s', t) && (t.Some? ==> t.value !in s0.inodes)
    ensures FilesKept(s0, s')
  {
    forall x | x in s0.inodes && IsFile(s0, x)
      ensures x in s'.inodes && Untouched(s0, s', x)
    {
      assert x in s.inodes && Some(x) != t && Untouched(s, s', x);
    }
  }

  lemma StepKeepsOldEntries(s0: Store, s: Store, s': Store, t: Option<Ino>, k: Key)
    requires WellFormedStore(s0) && Guarantee(s, s', t) && (t.Some? ==> t.value !in s0.inodes)
    requires k in s0.ents && SameAt(s.ents, s0.ents, k)
    ensures SameAt(s'.ents, s0.ents, k)
  {
    assert k in s.ents && s.ents[k] in s0.inodes && Some(s.ents[k]) != t;
  }

  predicate TempGrown(s: Store, t: Option<Ino>, t': Option<Ino>) {
    t' == t || (t.None? && t'.Some? && t'.value !in s.inodes)
  }

  predicate LeftGrown(s: Store, s': Store, z: Option<Leftover>, z': Option<Leftover>) {
    z' == z || (z.None? && z'.Some? && z'.value.ino !in s.inodes && Maps(s'.ents, z'.value.key, z'.value.ino)
        && IsFile(s', z'.value.ino))
  }

  predicate NewKnown(s: Store, s': Store, t': Option<Ino>, z': Option<Leftover>) {
    forall k :: k in s'.ents && s'.ents[k] !in s.inodes && IsFile(s', s'.ents[k]) ==>
      Some(s'.ents[k]) == t' || z' == Some(Leftover(k, s'.ents[k]))
  }

  lemma StepAddsNoOther(s0: Store, s: Store, s': Store, t: Option<Ino>, z: Option<Leftover>, t': Option<Ino>,
      z': Option<Leftover>, k: Key)
    requires WellFormedStore(s) && OnlyAdds(s0, s, t, z) && Guarantee(s, s', t)
    requires TempGrown(s, t, t') && LeftGrown(s, s', z, z') && NewKnown(s, s', t', z')
    requires k in s'.ents && IsFile(s', s'.ents[k])
    ensures SameAt(s'.ents, s0.ents, k) || Some(s'.ents[k]) == t' || z' == Some(Leftover(k, s'.ents[k]))
  {
    if SameAt(s'.ents, s.ents, k) { assert k in s.ents && IsFile(s, s.ents[k]); }
  }

  lemma LeftoverStays(s0: Store, s: Store, s': Store, t: Option<Ino>, z: Leftover)
    requires OnlyAdds(s0, s, t, Some(z)) && Guarantee(s, s', t) && t.None?
    ensures Maps(s'.ents, z.key, z.ino) && IsFile(s', z.ino)
  {
    assert z.key in s.ents && Some(s.ents[z.key]) != t;
  }

  lemma NewToFirst(s0: Store, s: Store, x: Ino)
    requires FilesKept(s0, s)
    ensures x !in s.inodes ==> x !in s0.inodes
  {
  }

  lemma StepOnlyAdds(s0: Store, s: Store, s': Store, t: Option<Ino>, z: Option<Leftover>, t': Option<Ino>,
      z': Option<Leftover>)
    requires WellFormedStore(s0) && WellFormedStore(s) && OnlyAdds(s0, s, t, z) && Guarantee(s, s', t)
    requires TempGrown(s, t, t') && LeftGrown(s, s', z, z') && NewKnown(s, s', t', z') && (z.Some? ==> t.None?)
    ensures OnlyAdds(s0, s', t', z')
  {
    StepKeepsFiles(s0, s, s', t);
    forall k | k in s'.ents && IsFile(s', s'.ents[k])
      ensures SameAt(s'.ents, s0.ents, k) || Some(s'.ents[k]) == t' || z' == Some(Leftover(k, s'.ents[k]))
    {
      StepAddsNoOther(s0, s, s', t, z, t', z', k);
    }
    forall k | k in s0.ents && IsFile(s0, s0.ents[k])
      ensures SameAt(s'.ents, s0.ents, k)
    {
      StepKeepsOldEntries(s0, s, s', t, k);
    }
    if z.Some? { LeftoverStays(s0, s, s', t, z.value); }
    if t'.Some? { NewToFirst(s0, s, t'.value); }
    if z'.Some? { NewToFirst(s0, s, z'.value.ino); }
    hide Guarantee, WellFormedStore, FilesKept, NewKnown;
  }

  // ---- one call alone --------------------------------------------------------------------------

  /** A step of adapter `i` alone, or of the disk by itself. */
  predicate Alone(i: nat, e: Event) { (e.Acts? && e.i == i) || e.SyncEntry? || e.FlushInode? }

  /** What holds of adapter `i`, alone since the store was `s0`, when its create has left `z`. */
  predicate Solo(s0: Store, w: World, i: nat, z: Option<Leftover>) {
    && i in w.procs && OnlyAdds(s0, w.store, w.procs[i].aux.temp, z)
    && (z.Some? ==> GivesUp(w.procs[i], z.value))
  }

  function LeftAfter(w: World, i: nat, e: Event, z: Option<Leftover>): Option<Leftover> {
    if z.Some? then z else Leaves(w, i, e)
  }

  lemma ReadyToAct(hash: Bytes -> Digest, w: World, base: set<Ino>, i: nat)
    requires Inv(hash, w, base) && CanAct(w, i)
    ensures Ready(hash, w.store, w.procs[i])
  {
  }

  lemma ActKeepsSolo(hash: Bytes -> Digest, s0: Store, w: World, i: nat, e: Event, z: Option<Leftover>)
    requires WellFormedStore(s0) && Solo(s0, w, i, z) && e.Acts? && e.i == i && CanAct(w, i)
        && Ready(hash, w.store, w.procs[i])
    ensures Solo(s0, Next(hash, w, e), i, LeftAfter(w, i, e, z))
  {
    hide Standing, StoreOk, Act, Leaves, OnlyAdds;
    var p := w.procs[i];
    EveryCall(hash, w.store, p, e.ch);
    var (s', p') := Act(hash, w.store, p, e.ch);
    var z' := LeftAfter(w, i, e, z);
    GuaranteeOf(hash, w.store, s', p.aux.temp);
    if z.Some? { GivingUpGoesOn(hash, w.store, p, e.ch, z.value); NothingLeftTwice(w, i, e); }
    else if z'.Some? { LeftoverMeans(hash, w, i, e); }
    forall k | k in s'.ents && s'.ents[k] !in w.store.inodes && IsFile(s', s'.ents[k])
      ensures Some(s'.ents[k]) == p'.aux.temp || z' == Some(Leftover(k, s'.ents[k]))
    {
      NewFilesAreKnown(hash, w, i, e.ch, k);
    }
    hide Guarantee;
    StepOnlyAdds(s0, w.store, s', p.aux.temp, z, p'.aux.temp, z');
  }

  lemma NothingLeftTwice(w: World, i: nat, e: Event)
    requires i in w.procs && Over(w.procs[i].l.pc)
    ensures Leaves(w, i, e).None?
  {
  }

  lemma NextKeepsSolo(hash: Bytes -> Digest, s0: Store, w: World, base: set<Ino>, i: nat, e: Event, z: Option<Leftover>)
    requires WellFormedStore(s0) && Inv(hash, w, base) && Alone(i, e) && Solo(s0, w, i, z)
    ensures Solo(s0, Next(hash, w, e), i, LeftAfter(w, i, e, z))
  {
    if e.Acts? && CanAct(w, i) {
      hide Inv, Solo, Next, LeftAfter;
      ReadyToAct(hash, w, base, i);
      ShapeOf(hash, w, base);
      ActKeepsSolo(hash, s0, w, i, e, z);
    } else {
      hide Inv, GivesUp;
    }
  }

  lemma {:induction false} AloneKeepsSolo(hash: Bytes -> Digest, w: World, base: set<Ino>, i: nat,
                                          cfg: Config, snap: Snapshot, es: seq<Event>)
    requires Inv(hash, w, base) && i !in w.procs && forall e :: e in es ==> Alone(i, e)
    ensures var w1 := Next(hash, w, Begin(i, cfg, snap));
      Solo(w.store, Run(hash, w1, es), i, LeftBy(hash, w1, i, es))
    decreases |es|
  {
    hide Inv, Next, Leaves;
    if es == [] {
      LaunchIsSolo(hash, w, base, i, cfg, snap);
    } else {
      hide Solo;
      var front, e := es[..|es| - 1], es[|es| - 1];
      AloneKeepsSolo(hash, w, base, i, cfg, snap, front);
      NextKeepsInv(hash, w, base, Begin(i, cfg, snap));
      RunKeepsInv(hash, Next(hash, w, Begin(i, cfg, snap)), base, front);
      assert e in es;
      ShapeOf(hash, w, base);
      var w1 := Next(hash, w, Begin(i, cfg, snap));
      NextKeepsSolo(hash, w.store, Run(hash, w1, front), base, i, e, LeftBy(hash, w1, i, front));
    }
  }

  lemma ShapeOf(hash: Bytes -> Digest, w: World, base: set<Ino>)
    requires Inv(hash, w, base)
    ensures WellFormedStore(w.store)
  {
  }

  lemma LaunchIsSolo(hash: Bytes -> Digest, w: World, base: set<Ino>, i: nat, cfg: Config, snap: Snapshot)
    requires Inv(hash, w, base) && i !in w.procs
    ensures Solo(w.store, Next(hash, w, Begin(i, cfg, snap)), i, None)
  {
  }

  // ---- rollback --------------------------------------------------------------------------------

  lemma FailedIsGone(hash: Bytes -> Digest, w: World, base: set<Ino>, i: nat)
    requires Inv(hash, w, base) && i in w.procs
    ensures w.procs[i].l.pc.Finished? && w.procs[i].l.outcome.status.BlobPersistFailed? ==>
        TempGone(w.store, w.procs[i])
  {
    hide Standing;
    if w.procs[i].l.pc.Finished? { FinishedProcMeans(hash, w.store, w.procs[i]); }
  }

  lemma FailureMeans(s0: Store, w: World, i: nat, z: Option<Leftover>)
    requires WellFormedStore(s0) && Solo(s0, w, i, z) && TempGone(w.store, w.procs[i])
    ensures SameFiles(s0, w.store) <==> z.None?
    ensures z.Some? ==> SameFilesBut(s0, w.store, z.value)
  {
  }

  /** A call that ends in BLOB_PERSIST_FAILED, whatever failed and however often, leaves every file and
      every file entry as it was when the call began, if and only if no exclusive create was reported as
      failed after it had made its file.  Where one was, the reason is TEMP_CREATE_FAILED and that one
      file stays, under the temp's name; so every other reason restores everything. */
  lemma FailureRollsBack(hash: Bytes -> Digest, s: Store, es: seq<Event>, i: nat, cfg: Config, snap: Snapshot,
      call: seq<Event>)
    requires WellFormedStore(s) && i !in Reached(hash, s, es).procs && forall e :: e in call ==> Alone(i, e)
    ensures var w0 := Reached(hash, s, es);
      var w1 := Next(hash, w0, Begin(i, cfg, snap));
      var w', z := Run(hash, w1, call), LeftBy(hash, w1, i, call);
      && i in w'.procs
      && (w'.procs[i].l.pc.Finished? && w'.procs[i].l.outcome.status.BlobPersistFailed? ==>
            && (SameFiles(w0.store, w'.store) <==> z.None?)
            && (z.Some? ==> SameFilesBut(w0.store, w'.store, z.value) && z.value.key.name == w'.procs[i].l.TempName())
            && (z.Some? ==> w'.procs[i].l.outcome.reason.TempCreateFailed?))
  {
    hide Inv, Next, LeftBy, OnlyAdds, SameFiles, SameFilesBut, TempGone;
    var w := Reached(hash, s, es);
    Reachable(hash, s, es);
    AloneKeepsSolo(hash, w, s.inodes.Keys, i, cfg, snap, call);
    NextKeepsInv(hash, w, s.inodes.Keys, Begin(i, cfg, snap));
    var w1 := Next(hash, w, Begin(i, cfg, snap));
    RunKeepsInv(hash, w1, s.inodes.Keys, call);
    FailedIsGone(hash, Run(hash, w1, call), s.inodes.Keys, i);
    ShapeOf(hash, w, s.inodes.Keys);
    if TempGone(Run(hash, w1, call).store, Run(hash, w1, call).procs[i]) {
      FailureMeans(w.store, Run(hash, w1, call), i, LeftBy(hash, w1, i, call));
    }
  }

  // ---- a call that leaves a file ---------------------------------------------------------------

  const NOTHING := Data(0, 0, [])

  function Works(fd: Fd, x: Ino): Event { Acts(0, Choice(None, false, fd, x, NOTHING, NOTHING, 0)) }
  function Fails(e: Errno, effect: bool, x: Ino): Event { Acts(0, Choice(Some(e), effect, 0, x, NOTHING, NOTHING, 0)) }

  /** Root 0 holds shard 1, which holds shard 2, for digest `d`; there is nothing else. */
  function Shards(d: Digest, uid: int): Store
    requires IsLowerHex64(d)
  {
    var dir := Inode(Directory, Data(uid, DIR_MODE, []), Data(uid, DIR_MODE, []));
    var ents := map[Key(0, Shard(d[0..2])) := 1, Key(1, Shard(d[2..4])) := 2];
    Store(map[0 := dir, 1 := dir, 2 := dir], ents, ents)
  }

  /** Where the adapter stands with `n` of the three directories open. */
  predicate StandsAt(w: World, s: Store, cfg: Config, snap: Snapshot, pc: Pc, deep: bool, n: nat)
    requires n <= 3
  {
    && w.store == s && 0 in w.procs
    && var p := w.procs[0];
    && p.l.cfg == cfg && p.l.snap == snap && p.l.pc == pc && p.l.deep == deep && !p.l.created
    && p.l.open == [10, 11, 12][..n]
    && (n >= 1 ==> p.l.fd.root == 10 && Refers(p.fds, 10, 0))
    && (n >= 2 ==> p.l.fd.l1 == 11 && Refers(p.fds, 11, 1))
    && (n >= 3 ==> p.l.fd.shard == 12 && Refers(p.fds, 12, 2))
    && (forall f :: f in p.fds ==> f in p.l.open)
  }

  predicate Refers(fds: Descs, f: Fd, x: Ino) { f in fds && fds[f].ino == x }

  /** The adapter's next call has outcome `o`, after which its locals are `l'`. */
  lemma Goes(hash: Bytes -> Digest, w: World, e: Event, o: Outcome, l': Local)
    requires e.Acts? && e.i == 0 && CanAct(w, 0)
    requires o == Exec(w.store, w.procs[0].fds, NextCall(w.procs[0].l), e.ch)
        && l' == After(hash, w.procs[0].l, o.reply)
    ensures var w' := Next(hash, w, e);
      w'.store == o.store && 0 in w'.procs && w'.procs[0].l == Settle(l') && w'.procs[0].fds == o.fds
  {
    hide Exec, After, NextCall, NextAux, IsLowerHex64;
  }

  lemma RootOpens(hash: Bytes -> Digest, w: World, cfg: Config, snap: Snapshot)
    requires Admitted(hash, snap) && StandsAt(w, Shards(snap.digest, cfg.uid), cfg, snap, POpenRoot, false, 0)
    ensures StandsAt(Next(hash, w, Works(10, 0)), Shards(snap.digest, cfg.uid), cfg, snap, PStatRoot, false, 1)
  {
    hide IsLowerHex64;
  }

  lemma RootIsRight(hash: Bytes -> Digest, w: World, cfg: Config, snap: Snapshot)
    requires Admitted(hash, snap) && cfg.root == 0
        && StandsAt(w, Shards(snap.digest, cfg.uid), cfg, snap, PStatRoot, false, 1)
    ensures StandsAt(Next(hash, w, Works(0, 0)), Shards(snap.digest, cfg.uid), cfg, snap, PMkShard, false, 1)
  {
    hide Next, IsLowerHex64;
    var p, ch := w.procs[0], Works(0, 0).ch;
    var o := ExecFstat(w.store, p.fds, p.l.fd.root, ch);
    Goes(hash, w, Works(0, 0), o, AfterStatRoot(p.l, o.reply));
  }

  lemma ShardExists(hash: Bytes -> Digest, w: World, cfg: Config, snap: Snapshot, deep: bool)
    requires Admitted(hash, snap)
    requires StandsAt(w, Shards(snap.digest, cfg.uid), cfg, snap, PMkShard, deep, if deep then 2 else 1)
    ensures StandsAt(Next(hash, w, Fails(EEXIST, false, 3)), Shards(snap.digest, cfg.uid), cfg, snap, POpenShard, deep,
        if deep then 2 else 1)
    ensures Leaves(w, 0, Fails(EEXIST, false, 3)).None?
  {
    hide IsLowerHex64;
  }

  lemma FirstShardOpens(hash: Bytes -> Digest, w: World, cfg: Config, snap: Snapshot)
    requires Admitted(hash, snap) && cfg.root == 0
        && StandsAt(w, Shards(snap.digest, cfg.uid), cfg, snap, POpenShard, false, 1)
    ensures StandsAt(Next(hash, w, Works(11, 1)), Shards(snap.digest, cfg.uid), cfg, snap, PStatShard, false, 2)
  {
    hide Next, IsLowerHex64;
    var p, e := w.procs[0], Works(11, 1);
    var o := ExecOpen(w.store, p.fds, p.l.ParentFd(), p.l.LevelName(), true, e.ch);
    Goes(hash, w, e, o, AfterOpenShard(p.l, o.reply));
    assert p.l.open + [11] == [10] + [11];
  }

  lemma SecondShardOpens(hash: Bytes -> Digest, w: World, cfg: Config, snap: Snapshot)
    requires Admitted(hash, snap) && StandsAt(w, Shards(snap.digest, cfg.uid), cfg, snap, POpenShard, true, 2)
    ensures StandsAt(Next(hash, w, Works(12, 2)), Shards(snap.digest, cfg.uid), cfg, snap, PStatShard, true, 3)
  {
    hide Next, IsLowerHex64;
    var p, e := w.procs[0], Works(12, 2);
    var o := ExecOpen(w.store, p.fds, p.l.ParentFd(), p.l.LevelName(), true, e.ch);
    Goes(hash, w, e, o, AfterOpenShard(p.l, o.reply));
    assert p.l.open + [12] == [10, 11] + [12];
  }

  lemma ShardIsRight(hash: Bytes -> Digest, w: World, cfg: Config, snap: Snapshot, deep: bool)
    requires Admitted(hash, snap)
    requires StandsAt(w, Shards(snap.digest, cfg.uid), cfg, snap, PStatShard, deep, if deep then 3 else 2)
    ensures StandsAt(Next(hash, w, Works(0, 0)), Shards(snap.digest, cfg.uid), cfg, snap,
        if deep then PCreateTemp else PMkShard, true, if deep then 3 else 2)
  {
    hide Next, IsLowerHex64;
    var p, e := w.procs[0], Works(0, 0);
    var o := ExecFstat(w.store, p.fds, p.l.LevelFd(), e.ch);
    Goes(hash, w, e, o, AfterStatShard(p.l, o.reply));
  }

  lemma CreateLeavesFile(hash: Bytes -> Digest, w: World, cfg: Config, snap: Snapshot)
    requires Admitted(hash, snap) && StandsAt(w, Shards(snap.digest, cfg.uid), cfg, snap, PCreateTemp, true, 3)
    ensures var k := Key(2, Temp(snap.digest));
      && Leaves(w, 0, Fails(EOTHER, true, 3)) == Some(Leftover(k, 3))
      && var w' := Next(hash, w, Fails(EOTHER, true, 3));
      && GivingUp(w', Added(Shards(snap.digest, cfg.uid), k, 3, Inode(Regular, NOTHING, NOTHING)), 3)
  {
    hide IsLowerHex64;
  }

  /** The adapter gives up with `n` descriptors still to close. */
  predicate GivingUp(w: World, s: Store, n: nat) {
    && w.store == s && 0 in w.procs && |w.procs[0].l.open| == n && WellFormed(w.procs[0].l)
    && w.procs[0].l.pc == (if n == 0 then Finished else PClosing)
    && w.procs[0].l.outcome == Failure(BlobPersistFailed, TempCreateFailed)
  }

  lemma Closes(hash: Bytes -> Digest, w: World, s: Store, n: nat)
    requires n > 0 && GivingUp(w, s, n)
    ensures GivingUp(Next(hash, w, Works(0, 0)), s, n - 1)
  {
    hide Next, IsLowerHex64;
    var p, e := w.procs[0], Works(0, 0);
    Goes(hash, w, e, Outcome(w.store, p.fds - {p.l.open[n - 1]}, Done, 0), AfterClosing(p.l, Done));
  }

  lemma RunOn(hash: Bytes -> Digest, w: World, es: seq<Event>, e: Event)
    ensures Run(hash, w, es + [e]) == Next(hash, Run(hash, w, es), e)
    ensures LeftBy(hash, w, 0, es + [e]) == (if LeftBy(hash, w, 0, es).Some? then LeftBy(hash, w, 0, es)
        else Leaves(Run(hash, w, es), 0, e))
  {
    assert (es + [e])[..|es|] == es;
  }

  /** The calls up to the exclusive create, which fails but makes its file, and the closes after it. */
  function FailingCall(): seq<Event> {
    ToCreate() + [Fails(EOTHER, true, 3)] + [Works(0, 0)] + [Works(0, 0)] + [Works(0, 0)]
  }

  function ToCreate(): seq<Event> {
    [] + [Works(10, 0)] + [Works(0, 0)] + [Fails(EEXIST, false, 3)] + [Works(11, 1)] + [Works(0, 0)]
    + [Fails(EEXIST, false, 3)] + [Works(12, 2)] + [Works(0, 0)]
  }

  lemma Starts(hash: Bytes -> Digest, cfg: Config, snap: Snapshot)
    requires Admitted(hash, snap)
    ensures var s := Shards(snap.digest, cfg.uid);
      StandsAt(Next(hash, World(s, map[]), Begin(0, cfg, snap)), s, cfg, snap, POpenRoot, false, 0)
  {
    hide IsLowerHex64;
  }

  lemma ReachesCreate(hash: Bytes -> Digest, cfg: Config, snap: Snapshot)
    requires Admitted(hash, snap) && cfg.root == 0
    ensures var s := Shards(snap.digest, cfg.uid);
      var w1 := Next(hash, World(s, map[]), Begin(0, cfg, snap));
      StandsAt(Run(hash, w1, ToCreate()), s, cfg, snap, PCreateTemp, true, 3) && LeftBy(hash, w1, 0, ToCreate()).None?
  {
    hide Next, StandsAt, IsLowerHex64;
    var w1 := Next(hash, World(Shards(snap.digest, cfg.uid), map[]), Begin(0, cfg, snap));
    Starts(hash, cfg, snap);
    var e1 := [] + [Works(10, 0)];
    RunOn(hash, w1, [], Works(10, 0));
    RootOpens(hash, w1, cfg, snap);
    var e2 := e1 + [Works(0, 0)];
    RunOn(hash, w1, e1, Works(0, 0));
    RootIsRight(hash, Run(hash, w1, e1), cfg, snap);
    var e3 := e2 + [Fails(EEXIST, false, 3)];
    RunOn(hash, w1, e2, Fails(EEXIST, false, 3));
    ShardExists(hash, Run(hash, w1, e2), cfg, snap, false);
    var e4 := e3 + [Works(11, 1)];
    RunOn(hash, w1, e3, Works(11, 1));
    FirstShardOpens(hash, Run(hash, w1, e3), cfg, snap);
    var e5 := e4 + [Works(0, 0)];
    RunOn(hash, w1, e4, Works(0, 0));
    ShardIsRight(hash, Run(hash, w1, e4), cfg, snap, false);
    var e6 := e5 + [Fails(EEXIST, false, 3)];
    RunOn(hash, w1, e5, Fails(EEXIST, false, 3));
    ShardExists(hash, Run(hash, w1, e5), cfg, snap, true);
    var e7 := e6 + [Works(12, 2)];
    RunOn(hash, w1, e6, Works(12, 2));
    SecondShardOpens(hash, Run(hash, w1, e6), cfg, snap);
    RunOn(hash, w1, e7, Works(0, 0));
    ShardIsRight(hash, Run(hash, w1, e7), cfg, snap, true);
  }

  /** The failing case, for every admitted snapshot: on a store that holds the two shards and nothing
      else, a create that fails after it made its file ends the call in BLOB_PERSIST_FAILED with the file
      still there. */
  lemma FailedCreateLeavesFile(hash: Bytes -> Digest, uid: int, snap: Snapshot)
    requires Admitted(hash, snap)
    ensures var s := Shards(snap.digest, uid);
      var w1 := Next(hash, World(s, map[]), Begin(0, Config(0, uid), snap));
      var w' := Run(hash, w1, FailingCall());
      && WellFormedStore(s) && 0 in w'.procs && (forall e :: e in FailingCall() ==> Alone(0, e))
      && w'.procs[0].l.pc.Finished? && w'.procs[0].l.outcome == Failure(BlobPersistFailed, TempCreateFailed)
      && LeftBy(hash, w1, 0, FailingCall()) == Some(Leftover(Key(2, Temp(snap.digest)), 3))
      && Maps(w'.store.ents, Key(2, Temp(snap.digest)), 3) && !SameFiles(s, w'.store)
  {
    hide Next, StandsAt, IsLowerHex64, Leaves, ToCreate, GivingUp;
    var cfg := Config(0, uid);
    var s := Shards(snap.digest, uid);
    var w1 := Next(hash, World(s, map[]), Begin(0, cfg, snap));
    ReachesCreate(hash, cfg, snap);
    CreateLeavesFile(hash, Run(hash, w1, ToCreate()), cfg, snap);
    var fin := Works(0, 0);
    var e1 := ToCreate() + [Fails(EOTHER, true, 3)];
    RunOn(hash, w1, ToCreate(), Fails(EOTHER, true, 3));
    RunOn(hash, w1, e1, fin);
    RunOn(hash, w1, e1 + [fin], fin);
    RunOn(hash, w1, e1 + [fin] + [fin], fin);
    var k := Key(2, Temp(snap.digest));
    var s' := Added(s, k, 3, Inode(Regular, NOTHING, NOTHING));
    Closes(hash, Run(hash, w1, e1), s', 3);
    Closes(hash, Run(hash, w1, e1 + [fin]), s', 2);
    Closes(hash, Run(hash, w1, e1 + [fin] + [fin]), s', 1);
    GivenUp(Run(hash, w1, FailingCall()), s, s', k);
    assert forall e :: e in FailingCall() ==> Alone(0, e) by { FailingCallIsAlone(); }
  }

  lemma FailingCallIsAlone()
    ensures forall e :: e in FailingCall() ==> Alone(0, e)
  {
  }

  lemma GivenUp(w: World, s: Store, s': Store, k: Key)
    requires GivingUp(w, s', 0) && s' == Added(s, k, 3, Inode(Regular, NOTHING, NOTHING)) && k !in s.ents
    ensures 0 in w.procs && w.procs[0].l.pc.Finished?
        && w.procs[0].l.outcome == Failure(BlobPersistFailed, TempCreateFailed)
    ensures Maps(w.store.ents, k, 3) && !SameFiles(s, w.store)
  {
    assert IsFile(s', s'.ents[k]);
  }
}
