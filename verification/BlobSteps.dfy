/** One step of an adapter keeps its own invariant and what it guarantees to the others. */
module BlobSteps {
  import opened Wrappers
  import opened BlobProtocol
  import opened BlobKernel
  import opened BlobInvariant

  /** A published blob: durable, regular, mode 0o600, with bytes hashing to the digest in its name. */
  predicate Sealed(hash: Bytes -> Digest, s: Store, x: Ino, d: Digest) {
    && IsRegular(s, x) && s.inodes[x].Durable()
    && s.inodes[x].mem.mode == BLOB_MODE && hash(s.inodes[x].mem.bytes) == d
  }

  predicate NewTargetsSealed(hash: Bytes -> Digest, s: Store, s': Store) {
    forall k :: k in s'.ents && k.name.Target? ==>
      SameAt(s'.ents, s.ents, k) || Sealed(hash, s', s'.ents[k], k.name.digest)
  }

  /** The step keeps the store's shape, the guarantee, and publishes nothing unsealed. */
  ghost predicate StoreOk(hash: Bytes -> Digest, s: Store, s': Store, t: Option<Ino>) {
    WellFormedStore(s') && Guarantee(s, s', t) && NewTargetsSealed(hash, s, s')
  }

  // ---- what each call does to the store --------------------------------------------------------

  lemma StaysPut(hash: Bytes -> Digest, s: Store, t: Option<Ino>)
    requires WellFormedStore(s)
    ensures StoreOk(hash, s, s, t)
  {
  }

  lemma SyncIsQuiet(hash: Bytes -> Digest, s: Store, x: Ino, t: Option<Ino>)
    requires WellFormedStore(s) && x in s.inodes
    ensures StoreOk(hash, s, Synced(s, x), t)
    ensures Synced(s, x).inodes[x].Durable()
    ensures IsDir(s, x) ==> forall k: Key :: k.dir == x ==> SameAt(Synced(s, x).disk, s.ents, k)
  {
    var s' := Synced(s, x);
    forall k: Key
      ensures SameAt(s'.disk, s.disk, k) || SameAt(s'.disk, s'.ents, k)
    {
      if k.dir == x { } else { }
    }
  }

  /** Editing a directory, or a file that is nowhere a target. */
  lemma EditIsQuiet(hash: Bytes -> Digest, s: Store, x: Ino, m: Data, t: Option<Ino>)
    requires WellFormedStore(s) && x in s.inodes
    requires IsFile(s, x) ==> t == Some(x)
    requires IsFile(s, x) ==> forall k: Key :: Maps(s.ents, k, x) || Maps(s.disk, k, x) ==> !k.name.Target?
    ensures StoreOk(hash, s, Edited(s, x, m), t)
  {
    var s' := Edited(s, x, m);
    assert forall k :: k in s.ents && s.ents[k] == x ==> Maps(s.ents, k, x);
    assert forall k :: k in s.disk && s.disk[k] == x ==> Maps(s.disk, k, x);
  }

  lemma AddIsQuiet(hash: Bytes -> Digest, s: Store, k: Key, x: Ino, i: Inode, t: Option<Ino>)
    requires WellFormedStore(s) && x !in s.inodes && k !in s.ents && !k.name.Target?
    ensures StoreOk(hash, s, Added(s, k, x, i), t)
  {
  }

  lemma RenameIsQuiet(hash: Bytes -> Digest, s: Store, a: Key, b: Key, t: Ino)
    requires WellFormedStore(s) && Maps(s.ents, a, t) && b !in s.ents && a.name.Temp? && b.name.Target?
    requires Sealed(hash, s, t, b.name.digest)
    ensures StoreOk(hash, s, Renamed(s, a, b), Some(t))
  {
  }

  lemma UnlinkIsQuiet(hash: Bytes -> Digest, s: Store, a: Key, t: Ino)
    requires WellFormedStore(s) && Maps(s.ents, a, t) && a.name.Temp?
    ensures StoreOk(hash, s, Unlinked(s, a), Some(t))
  {
  }

  // ---- descriptors -----------------------------------------------------------------------------

  lemma DescriptorsKept(p: Proc, p': Proc)
    requires DescriptorsOk(p) && p'.l.open == p.l.open && p'.fds.Keys == p.fds.Keys && p'.got == p.got
        && p'.shut == p.shut
    requires HasCleanFd(p.l.pc) == HasCleanFd(p'.l.pc) && p'.l.fd.clean == p.l.fd.clean && !p'.l.pc.Finished?
    ensures DescriptorsOk(p')
  {
  }

  lemma DescriptorTracked(p: Proc, p': Proc, f: Fd, x: Ino)
    requires DescriptorsOk(p) && f !in p.fds && !HasCleanFd(p.l.pc) && !HasCleanFd(p'.l.pc) && !p'.l.pc.Finished?
    requires p'.l.open == p.l.open + [f] && p'.fds == p.fds[f := Desc(x, 0)]
    requires p'.got == p.got + multiset{f} && p'.shut == p.shut
    ensures DescriptorsOk(p')
  {
  }

  lemma CleanDescriptorOpened(p: Proc, p': Proc, f: Fd, x: Ino)
    requires DescriptorsOk(p) && f !in p.fds && !HasCleanFd(p.l.pc) && HasCleanFd(p'.l.pc) && p'.l.fd.clean == f
    requires p'.l.open == p.l.open && p'.fds == p.fds[f := Desc(x, 0)]
    requires p'.got == p.got + multiset{f} && p'.shut == p.shut
    ensures DescriptorsOk(p')
  {
  }

  lemma CleanDescriptorClosed(p: Proc, p': Proc)
    requires DescriptorsOk(p) && HasCleanFd(p.l.pc) && !HasCleanFd(p'.l.pc) && !p'.l.pc.Finished?
    requires p'.l.open == p.l.open && p'.fds == p.fds - {p.l.fd.clean}
    requires p'.got == p.got && p'.shut == p.shut + multiset{p.l.fd.clean}
    ensures DescriptorsOk(p')
  {
  }

  lemma LastDescriptorClosed(p: Proc, p': Proc)
    requires DescriptorsOk(p) && p.l.open != [] && !HasCleanFd(p.l.pc) && !HasCleanFd(p'.l.pc)
    requires p'.l.pc.Finished? ==> p'.l.open == []
    requires p'.l.open == p.l.open[..|p.l.open| - 1] && p'.fds == p.fds - {p.l.open[|p.l.open| - 1]}
    requires p'.got == p.got && p'.shut == p.shut + multiset{p.l.open[|p.l.open| - 1]}
    ensures DescriptorsOk(p')
  {
    var n := |p.l.open| - 1;
    assert p.l.open == p.l.open[..n] + [p.l.open[n]];
  }
}
