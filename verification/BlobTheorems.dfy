/** What the publisher promises, over every run of any number of adapters with any faults. */
module BlobTheorems {
  import opened Wrappers
  import opened BlobProtocol
  import opened BlobKernel
  import opened BlobInvariant
  import opened BlobSteps
  import opened BlobMoves
  import opened BlobSystem

  /** The world after `es`, started on store `s` with no adapter running. */
  function Reached(hash: Bytes -> Digest, s: Store, es: seq<Event>): World { Run(hash, World(s, map[]), es) }

  lemma Reachable(hash: Bytes -> Digest, s: Store, es: seq<Event>)
    requires WellFormedStore(s)
    ensures Inv(hash, Reached(hash, s, es), s.inodes.Keys)
  {
    hide Inv;
    InvAtFirst(hash, s);
    RunKeepsInv(hash, World(s, map[]), s.inodes.Keys, es);
  }

  // ---- safety ----------------------------------------------------------------------------------

  /** At every moment, and on disk at every moment, a `<digest>.json` entry that was not there from the
      start names a complete, durable blob of mode 0o600 whose bytes hash to the digest: no crash and no
      concurrent adapter ever exposes a torn or foreign target. */
  lemma TargetsAreAlwaysSealed(hash: Bytes -> Digest, s: Store, es: seq<Event>, k: Key)
    requires WellFormedStore(s) && k.name.Target?
    ensures var now := Reached(hash, s, es).store;
      && (k in now.ents && now.ents[k] !in s.inodes ==> Sealed(hash, now, now.ents[k], k.name.digest))
      && (k in now.disk && now.disk[k] !in s.inodes ==> Sealed(hash, now, now.disk[k], k.name.digest))
  {
    Reachable(hash, s, es);
  }

  lemma CallGuarantees(hash: Bytes -> Digest, w: World, base: set<Ino>, i: nat, ch: Choice)
    requires Inv(hash, w, base) && CanAct(w, i)
    ensures Guarantee(w.store, Next(hash, w, Acts(i, ch)).store, w.procs[i].aux.temp)
    ensures var t, t' := w.procs[i].aux.temp, Next(hash, w, Acts(i, ch)).procs[i].aux.temp;
      t' == t || (t.None? && t'.Some? && t'.value !in w.store.inodes)
  {
    hide Standing, StoreOk, AllSealed, Act;
    EveryCall(hash, w.store, w.procs[i], ch);
    GuaranteeOf(hash, w.store, Act(hash, w.store, w.procs[i], ch).0, w.procs[i].aux.temp);
  }

  lemma GuaranteeKeepsTargets(s: Store, s': Store, t: Option<Ino>)
    requires Guarantee(s, s', t)
    ensures KeepsTargets(s, s')
  {
  }

  /** Short of power loss no step ever overwrites, alters or removes an existing target file. */
  lemma TargetsAreNeverTouched(hash: Bytes -> Digest, s: Store, es: seq<Event>, e: Event)
    requires WellFormedStore(s) && !e.PowerLoss?
    ensures KeepsTargets(Reached(hash, s, es).store, Next(hash, Reached(hash, s, es), e).store)
  {
    hide Inv, Guarantee, Act, Reached;
    Reachable(hash, s, es);
    var w := Reached(hash, s, es);
    if e.Acts? && CanAct(w, e.i) {
      CallGuarantees(hash, w, s.inodes.Keys, e.i, e.ch);
      GuaranteeKeepsTargets(w.store, Next(hash, w, e).store, w.procs[e.i].aux.temp);
    }
  }

  /** An adapter renames and unlinks only names of the temp its own exclusive create made, and edits no
      file but that temp. */
  lemma OnlyOwnTempIsMoved(hash: Bytes -> Digest, s: Store, es: seq<Event>, i: nat, ch: Choice)
    requires WellFormedStore(s) && CanAct(Reached(hash, s, es), i)
    ensures var w, w' := Reached(hash, s, es), Next(hash, Reached(hash, s, es), Acts(i, ch));
      var t, t' := w.procs[i].aux.temp, w'.procs[i].aux.temp;
      && (forall k :: k in w.store.ents && !SameAt(w'.store.ents, w.store.ents, k) ==>
         Some(w.store.ents[k]) == t && !k.name.Target?)
      && (forall x :: x in w.store.inodes && IsFile(w.store, x) && Some(x) != t ==>
         x in w'.store.inodes && Untouched(w.store, w'.store, x))
      && (t' == t || (t.None? && t'.Some? && t'.value !in w.store.inodes))
      && (t.Some? ==> t.value !in s.inodes && forall j :: j in w.procs && j != i ==> w.procs[j].aux.temp != t)
  {
    Reachable(hash, s, es);
    var w := Reached(hash, s, es);
    TempIsRegular(hash, w.store, w.procs[i]);
    hide Standing, Next;
    CallGuarantees(hash, w, s.inodes.Keys, i, ch);
  }

  // ---- outcomes --------------------------------------------------------------------------------

  /** What a finished call has done. */
  lemma FinishedMeans(hash: Bytes -> Digest, s: Store, es: seq<Event>, i: nat)
    requires WellFormedStore(s) && i in Reached(hash, s, es).procs && Reached(hash, s, es).procs[i].l.pc.Finished?
    ensures var w := Reached(hash, s, es);
      var p := w.procs[i];
      var status := p.l.outcome.status;
      && p.got == p.shut && p.fds == map[]
      && (status.SnapshotValidationFailed? ==> p == Launch(hash, p.l.cfg, p.l.snap) && !Admitted(hash, p.l.snap))
      && (status.BlobPersistFailed? || status.VerifiedExistingNoop? ==> TempGone(w.store, p))
      && (status.PersistedNew? || status.VerifiedExistingNoop? ==>
         IsLowerHex64(p.l.snap.digest) && Landed(hash, w.store, p))
      && (status.PersistedNew? ==>
            && p.aux.temp == Some(p.aux.x) && w.store.inodes[p.aux.x].mem == Wanted(p)
            && OnlyAt(w.store.ents, p.aux.x, TargetKey(p), TargetKey(p))
               && OnlyAt(w.store.disk, p.aux.x, TargetKey(p), TargetKey(p)))
  {
    Reachable(hash, s, es);
    var w := Reached(hash, s, es);
    FinishedProcMeans(hash, w.store, w.procs[i]);
  }

  lemma NothingOpen(p: Proc)
    requires DescriptorsOk(p) && p.l.pc.Finished?
    ensures p.fds == map[] && p.got == p.shut
  {
    hide WellFormed;
    forall fd: Fd ensures fd !in p.fds {
      assert fd in p.fds ==> fd in p.l.open;
    }
    assert |p.l.open| == 0 && multiset(p.l.open) == multiset{};
  }

  lemma FinishedProcMeans(hash: Bytes -> Digest, s: Store, p: Proc)
    requires Standing(hash, s, p) && p.l.pc.Finished?
    ensures p.got == p.shut && p.fds == map[]
    ensures p.l.outcome.status.SnapshotValidationFailed? ==>
        p == Launch(hash, p.l.cfg, p.l.snap) && !Admitted(hash, p.l.snap)
    ensures p.l.outcome.status.BlobPersistFailed? || p.l.outcome.status.VerifiedExistingNoop? ==> TempGone(s, p)
    ensures p.l.outcome.Success() ==> IsLowerHex64(p.l.snap.digest) && Landed(hash, s, p)
    ensures p.l.outcome.status.PersistedNew? ==>
      && p.aux.temp == Some(p.aux.x) && s.inodes[p.aux.x].mem == Wanted(p)
      && OnlyAt(s.ents, p.aux.x, TargetKey(p), TargetKey(p)) && OnlyAt(s.disk, p.aux.x, TargetKey(p), TargetKey(p))
  {
    hide IsLowerHex64;
    NothingOpen(p);
  }

  // ---- durability ------------------------------------------------------------------------------

  /** Inode `x` with contents and attributes `m` is reachable and durable, from the root down: both as
      processes see it and on disk. */
  predicate Anchored(s: Store, root: Ino, d: Digest, d1: Ino, d2: Ino, x: Ino, m: Data)
    requires IsLowerHex64(d)
  {
    var k1, k2, k := Key(root, Shard(d[0..2])), Key(d1, Shard(d[2..4])), Key(d2, Target(d));
    && Maps(s.ents, k1, d1) && Maps(s.disk, k1, d1) && IsDir(s, d1)
    && Maps(s.ents, k2, d2) && Maps(s.disk, k2, d2) && IsDir(s, d2)
    && Maps(s.ents, k, x) && Maps(s.disk, k, x)
    && IsRegular(s, x) && s.inodes[x].mem == m && s.inodes[x].Durable()
  }

  /** After a success whose shards were durable when opened, or made by the call, the target is anchored:
      after PERSISTED_NEW with exactly the snapshot's bytes, owner and mode. */
  lemma SuccessIsAnchored(hash: Bytes -> Digest, s: Store, es: seq<Event>, i: nat)
    requires WellFormedStore(s) && i in Reached(hash, s, es).procs
    requires Reached(hash, s, es).procs[i].l.pc.Finished? && Reached(hash, s, es).procs[i].l.outcome.Success()
    requires Reached(hash, s, es).procs[i].aux.safe1 && Reached(hash, s, es).procs[i].aux.safe2
    ensures var w := Reached(hash, s, es);
      var p := w.procs[i];
      && IsLowerHex64(p.l.snap.digest) && p.aux.x in w.store.inodes
      && var m := w.store.inodes[p.aux.x].mem;
      && Anchored(w.store, p.l.cfg.root, p.l.snap.digest, p.aux.d1, p.aux.d2, p.aux.x, m)
      && m.uid == p.l.cfg.uid && m.mode == 0x180 && |m.bytes| == |p.l.snap.data| && hash(m.bytes) == p.l.snap.digest
      && (p.l.outcome.status.PersistedNew? ==> m.bytes == p.l.snap.data)
  {
    FinishedMeans(hash, s, es, i);
  }

  lemma AnchoredThroughStep(s: Store, s': Store, t: Option<Ino>, root: Ino, d: Digest, d1: Ino, d2: Ino, x: Ino,
      m: Data)
    requires Guarantee(s, s', t) && (t.Some? ==> IsFile(s, t.value)) && IsLowerHex64(d)
    requires Anchored(s, root, d, d1, d2, x, m)
    ensures Anchored(s', root, d, d1, d2, x, m)
  {
    hide IsLowerHex64;
    EntriesStay(s, s', t);
    TargetStays(s, s', t, Key(d2, Target(d)), x);
  }

  /** An anchored target survives everything: other adapters, disk activity and any number of crashes. */
  lemma {:induction false} AnchoredForever(hash: Bytes -> Digest, s: Store, es: seq<Event>, more: seq<Event>,
                          root: Ino, d: Digest, d1: Ino, d2: Ino, x: Ino, m: Data)
    requires WellFormedStore(s) && IsLowerHex64(d) && Anchored(Reached(hash, s, es).store, root, d, d1, d2, x, m)
    ensures Anchored(Reached(hash, s, es + more).store, root, d, d1, d2, x, m)
    decreases |more|
  {
    hide Inv, Next, Anchored, IsLowerHex64;
    if more == [] {
      assert es + more == es;
    } else {
      var front, e := more[..|more| - 1], more[|more| - 1];
      AnchoredForever(hash, s, es, front, root, d, d1, d2, x, m);
      assert (es + more)[..|es + more| - 1] == es + front;
      Reachable(hash, s, es + front);
      NextKeepsAnchor(hash, Reached(hash, s, es + front), s.inodes.Keys, e, root, d, d1, d2, x, m);
    }
  }

  lemma NextKeepsAnchor(hash: Bytes -> Digest, w: World, base: set<Ino>, e: Event,
                        root: Ino, d: Digest, d1: Ino, d2: Ino, x: Ino, m: Data)
    requires Inv(hash, w, base) && IsLowerHex64(d) && Anchored(w.store, root, d, d1, d2, x, m)
    ensures Anchored(Next(hash, w, e).store, root, d, d1, d2, x, m)
  {
    hide Standing, StoreOk, AllSealed, Act, IsLowerHex64;
    if e.Acts? && CanAct(w, e.i) {
      hide Anchored, Next;
      CallGuarantees(hash, w, base, e.i, e.ch);
      TempIsRegular(hash, w.store, w.procs[e.i]);
      AnchoredThroughStep(w.store, Next(hash, w, e).store, w.procs[e.i].aux.temp, root, d, d1, d2, x, m);
    }
  }
}
