/** What holds of one adapter at every point of the protocol, whatever the others do. */
module BlobInvariant {
  import opened Wrappers
  import opened BlobProtocol
  import opened BlobKernel

  /** Bookkeeping the code does not have: the inode its exclusive create made, the inodes of its shard
      directories and of the target it opened, and whether each shard was made by this call or was
      already durable when opened. */
  datatype Aux = Aux(temp: Option<Ino>, d1: Ino, d2: Ino, x: Ino, safe1: bool, safe2: bool)

  /** An adapter call in progress, with its descriptors and all descriptors ever opened and closed. */
  datatype Proc = Proc(l: Local, fds: Descs, aux: Aux, got: multiset<Fd>, shut: multiset<Fd>)

  function Launch(hash: Bytes -> Digest, cfg: Config, snap: Snapshot): Proc {
    Proc(Start(hash, cfg, snap), map[], Aux(None, 0, 0, 0, false, false), multiset{}, multiset{})
  }

  function NextAux(s: Store, p: Proc, o: Outcome): Aux
    requires WellFormed(p.l)
  {
    if !o.reply.Got? then p.aux
    else match p.l.pc
      case POpenShard =>
        var safe := p.l.created || Maps(s.disk, ShardKey(p), o.ino);
        if p.l.deep then p.aux.(d2 := o.ino, safe2 := safe) else p.aux.(d1 := o.ino, safe1 := safe)
      case PCreateTemp => p.aux.(temp := Some(o.ino))
      case POpenTarget | XOpen => p.aux.(x := o.ino)
      case _ => p.aux
  }

  /** `p` after its call had outcome `o`, with its locals now `l'`. */
  function Moved(s: Store, p: Proc, o: Outcome, l': Local): Proc
    requires WellFormed(p.l) && Settled(p.l)
  {
    Proc(Settle(l'), o.fds, NextAux(s, p, o),
         p.got + (if o.reply.Got? then multiset{o.reply.fd} else multiset{}),
         p.shut + (if p.l.pc.CClose? then multiset{p.l.fd.clean}
                   else if p.l.pc.PClosing? then multiset{p.l.open[|p.l.open| - 1]} else multiset{}))
  }

  /** One system call of `p`, with the kernel's choices `ch`. */
  function Act(hash: Bytes -> Digest, s: Store, p: Proc, ch: Choice): (Store, Proc)
    requires WellFormed(p.l) && Settled(p.l) && !p.l.pc.Finished?
  {
    var o := Exec(s, p.fds, NextCall(p.l), ch);
    (o.store, Moved(s, p, o, After(hash, p.l, o.reply)))
  }

  // ---- names -----------------------------------------------------------------------------------

  function Prefix1(p: Proc): Name requires IsLowerHex64(p.l.snap.digest) { Shard(p.l.snap.digest[0..2]) }
  function Prefix2(p: Proc): Name requires IsLowerHex64(p.l.snap.digest) { Shard(p.l.snap.digest[2..4]) }
  function Key1(p: Proc): Key requires IsLowerHex64(p.l.snap.digest) { Key(p.l.cfg.root, Prefix1(p)) }
  function Key2(p: Proc): Key requires IsLowerHex64(p.l.snap.digest) { Key(p.aux.d1, Prefix2(p)) }
  function ShardKey(p: Proc): Key requires IsLowerHex64(p.l.snap.digest) { if p.l.deep then Key2(p) else Key1(p) }
  function TempKey(p: Proc): Key { Key(p.aux.d2, Temp(p.l.snap.digest)) }
  function TargetKey(p: Proc): Key { Key(p.aux.d2, Target(p.l.snap.digest)) }

  predicate Maps(m: Entries, k: Key, x: Ino) { k in m && m[k] == x }

  /** Inode `t` is named by no entry but `a` and `b`. */
  predicate OnlyAt(m: Entries, t: Ino, a: Key, b: Key) {
    forall k :: k in m && m[k] == t ==> k == a || k == b
  }

  predicate Nowhere(m: Entries, t: Ino) { forall k :: k in m ==> m[k] != t }

  // ---- where an adapter stands -----------------------------------------------------------------

  predicate ShardPc(pc: Pc) {
    pc.PMkShard? || pc.POpenShard? || pc.PChmodShard? || pc.PStatShard? || pc.PSyncShard? || pc.PSyncParent?
  }
  predicate ShardOpen(pc: Pc) { pc.PChmodShard? || pc.PStatShard? || pc.PSyncShard? || pc.PSyncParent? }
  predicate Staging(pc: Pc) {
    pc.PStatTemp? || pc.PWrite? || pc.PChmodTemp? || pc.PVerifyTemp? || pc.PSyncTemp? || pc.PReadTemp? || pc.PRename?
  }
  predicate Published(pc: Pc) {
    pc.PSyncDir? || pc.POpenTarget? || pc.PStatTarget? || pc.PSyncTarget? || pc.PReadTarget? || pc.PSyncDirAgain?
  }
  predicate Inspecting(pc: Pc) { pc.XOpen? || pc.XStat? || pc.XRead? || pc.XSyncFile? || pc.XSyncDir? }
  predicate Cleaning(pc: Pc) { pc.COpen? || pc.CStat? || pc.CClose? || pc.CUnlink? || pc.CSync? }
  predicate Over(pc: Pc) { pc.PClosing? || pc.Finished? }
  predicate InTempPhase(pc: Pc) { Staging(pc) || Published(pc) || Inspecting(pc) || Cleaning(pc) }
  predicate HasShards(pc: Pc) { pc.PCreateTemp? || InTempPhase(pc) }

  predicate HasFirst(l: Local) { HasShards(l.pc) || (ShardPc(l.pc) && (l.deep || ShardOpen(l.pc))) }
  predicate HasSecond(l: Local) { HasShards(l.pc) || (ShardPc(l.pc) && l.deep && ShardOpen(l.pc)) }

  // ---- the parts of the invariant --------------------------------------------------------------

  predicate Distinct(q: seq<Fd>) { forall i, j :: 0 <= i < j < |q| ==> q[i] != q[j] }

  predicate HasCleanFd(pc: Pc) { pc.CStat? || pc.CClose? }

  /** Every descriptor ever opened is either tracked, or the cleanup's, or was closed exactly once. */
  predicate DescriptorsOk(p: Proc) {
    var l := p.l;
    && Distinct(l.open)
    && (forall fd :: fd in l.open ==> fd in p.fds)
    && (forall fd :: fd in p.fds ==> fd in l.open || (HasCleanFd(l.pc) && fd == l.fd.clean))
    && (HasCleanFd(l.pc) ==> l.fd.clean in p.fds && l.fd.clean !in l.open)
    && p.got == p.shut + multiset(l.open) + (if HasCleanFd(l.pc) then multiset{l.fd.clean} else multiset{})
    && (l.pc.Finished? ==> l.open == [])
  }

  /** `fd` is tracked, hence stays open to the end, and refers to `x`. */
  predicate Holds(p: Proc, fd: Fd, x: Ino) { fd in p.l.open && fd in p.fds && p.fds[fd].ino == x }

  predicate IsDir(s: Store, x: Ino) { x in s.inodes && s.inodes[x].kind.Directory? }
  predicate IsFile(s: Store, x: Ino) { x in s.inodes && !s.inodes[x].kind.Directory? }
  predicate IsRegular(s: Store, x: Ino) { x in s.inodes && s.inodes[x].kind.Regular? }

  predicate ShardsOk(s: Store, p: Proc)
    requires IsLowerHex64(p.l.snap.digest)
  {
    var l, a := p.l, p.aux;
    && (HasFirst(l) ==>
          Maps(s.ents, Key1(p), a.d1) && IsDir(s, a.d1) && Holds(p, l.fd.l1, a.d1)
          && (a.safe1 && (l.deep || HasShards(l.pc) || !l.created) ==> Maps(s.disk, Key1(p), a.d1)))
    && (HasSecond(l) ==>
          Maps(s.ents, Key2(p), a.d2) && IsDir(s, a.d2) && Holds(p, l.fd.shard, a.d2)
          && (a.safe2 && (HasShards(l.pc) || !l.created) ==> Maps(s.disk, Key2(p), a.d2)))
    && (l.pc.POpenRoot? ==> l.open == [])
    && (l.pc.PStatRoot? ==> l.fd.root in l.open)
    && (l.pc.PChmodShard? || l.pc.PSyncShard? || l.pc.PSyncParent? ==> l.created)
    && (HasShards(l.pc) || ShardPc(l.pc) ==> Holds(p, l.fd.root, l.cfg.root) && IsDir(s, l.cfg.root))
    && (ShardPc(l.pc) && ShardOpen(l.pc) ==> l.LevelFd() in l.open)
  }

  function Wanted(p: Proc): Data { Data(p.l.cfg.uid, BLOB_MODE, p.l.snap.data) }

  /** The temp exists under its own name only, and holds what has been written so far. */
  predicate StagingOk(s: Store, p: Proc) {
    var l := p.l;
    Staging(l.pc) ==>
      && p.aux.temp.Some?
      && var t := p.aux.temp.value;
      && IsRegular(s, t) && Holds(p, l.fd.temp, t)
      && Maps(s.ents, TempKey(p), t)
      && OnlyAt(s.ents, t, TempKey(p), TempKey(p)) && OnlyAt(s.disk, t, TempKey(p), TempKey(p))
      && (!l.pc.PStatTemp? ==> l.tempId == Some(t))
      && var m := s.inodes[t].mem;
      && (l.pc.PStatTemp? ==> m.bytes == [] && p.fds[l.fd.temp].offset == 0)
      && (l.pc.PWrite? ==>
         0 <= l.total <= |l.snap.data| && m.bytes == l.snap.data[..l.total] && p.fds[l.fd.temp].offset == l.total)
      && (l.pc.PChmodTemp? || l.pc.PVerifyTemp? ==> m.bytes == l.snap.data)
      && (l.pc.PSyncTemp? || l.pc.PReadTemp? || l.pc.PRename? ==> m == Wanted(p))
      && (l.pc.PReadTemp? || l.pc.PRename? ==> s.inodes[t].Durable())
  }

  /** The rename was acknowledged: the durable temp is the target, and nothing else names it. */
  predicate PublishedOk(s: Store, p: Proc) {
    var l := p.l;
    Published(l.pc) ==>
      && p.aux.temp.Some?
      && var t := p.aux.temp.value;
      && IsRegular(s, t) && s.inodes[t].mem == Wanted(p) && s.inodes[t].Durable()
      && Maps(s.ents, TargetKey(p), t)
      && OnlyAt(s.ents, t, TargetKey(p), TargetKey(p)) && OnlyAt(s.disk, t, TempKey(p), TargetKey(p))
      && (!l.pc.PSyncDir? ==> Maps(s.disk, TargetKey(p), t) && OnlyAt(s.disk, t, TargetKey(p), TargetKey(p)))
      && (!l.pc.PSyncDir? && !l.pc.POpenTarget? ==> p.aux.x == t && Holds(p, l.fd.target, t))
      && (l.pc.PReadTarget? ==> |l.buf| < |l.snap.data| && l.buf == l.snap.data[..|l.buf|])
  }

  /** Attributes and size are right, and the contents hash to the digest. */
  predicate Proper(hash: Bytes -> Digest, s: Store, p: Proc, x: Ino) {
    && StatFits(s, p, x)
    && hash(s.inodes[x].mem.bytes) == p.l.snap.digest
  }

  predicate StatFits(s: Store, p: Proc, x: Ino) {
    && IsRegular(s, x)
    && s.inodes[x].mem.uid == p.l.cfg.uid && s.inodes[x].mem.mode == BLOB_MODE
    && |s.inodes[x].mem.bytes| == |p.l.snap.data|
  }

  predicate InspectingOk(hash: Bytes -> Digest, s: Store, p: Proc) {
    var l, x := p.l, p.aux.x;
    Inspecting(l.pc) && !l.pc.XOpen? ==>
      && Maps(s.ents, TargetKey(p), x) && IsFile(s, x) && Holds(p, l.fd.target, x)
      && (l.pc.XRead? ==> StatFits(s, p, x) && |l.buf| < |l.snap.data| && l.buf == s.inodes[x].mem.bytes[..|l.buf|])
      && (l.pc.XSyncFile? || l.pc.XSyncDir? ==> Proper(hash, s, p, x))
      && (l.pc.XSyncDir? ==> s.inodes[x].Durable())
  }

  /** After a rename that may secretly have worked the temp has one of its two names, we do not know which. */
  predicate TempSomewhere(s: Store, p: Proc) {
    && p.aux.temp.Some?
    && var t := p.aux.temp.value;
    && IsRegular(s, t) && p.l.tempId == Some(t)
    && OnlyAt(s.ents, t, TempKey(p), TargetKey(p)) && OnlyAt(s.disk, t, TempKey(p), TargetKey(p))
    && !(Maps(s.ents, TempKey(p), t) && Maps(s.ents, TargetKey(p), t))
  }

  predicate CleaningOk(s: Store, p: Proc) {
    var l := p.l;
    Inspecting(l.pc) || Cleaning(l.pc) ==>
      && TempSomewhere(s, p)
      && var t := p.aux.temp.value;
      && (l.pc.CStat? && l.fd.clean in p.fds && p.fds[l.fd.clean].ino == t ==> Maps(s.ents, TempKey(p), t))
      && (l.pc.CClose? && l.same ==> Maps(s.ents, TempKey(p), t))
      && (l.pc.CUnlink? ==> Maps(s.ents, TempKey(p), t))
      && (l.pc.CSync? ==> Nowhere(s.ents, t))
  }

  /** The target is reachable, proper and durable; the shards leading to it too, if they were safe. */
  predicate Landed(hash: Bytes -> Digest, s: Store, p: Proc)
    requires IsLowerHex64(p.l.snap.digest)
  {
    var a := p.aux;
    && Maps(s.ents, Key1(p), a.d1) && IsDir(s, a.d1) && Maps(s.ents, Key2(p), a.d2) && IsDir(s, a.d2)
    && (a.safe1 ==> Maps(s.disk, Key1(p), a.d1)) && (a.safe2 ==> Maps(s.disk, Key2(p), a.d2))
    && Maps(s.ents, TargetKey(p), a.x) && Maps(s.disk, TargetKey(p), a.x)
    && Proper(hash, s, p, a.x) && s.inodes[a.x].Durable()
  }

  predicate TempGone(s: Store, p: Proc) {
    p.aux.temp.Some? ==> Nowhere(s.ents, p.aux.temp.value) && Nowhere(s.disk, p.aux.temp.value)
  }

  /** What the outcome promises, once it is decided. */
  predicate OutcomeOk(hash: Bytes -> Digest, s: Store, p: Proc)
    requires IsLowerHex64(p.l.snap.digest)
  {
    var l, o := p.l, p.l.outcome;
    && (Over(l.pc) && o.status.BlobPersistFailed? ==> TempGone(s, p))
    && (Over(l.pc) && o.status.PersistedNew? ==>
          Landed(hash, s, p) && p.aux.temp == Some(p.aux.x) && s.inodes[p.aux.x].mem == Wanted(p)
          && OnlyAt(s.ents, p.aux.x, TargetKey(p), TargetKey(p)) && OnlyAt(s.disk, p.aux.x, TargetKey(p), TargetKey(p)))
    && (Over(l.pc) && o.status.VerifiedExistingNoop? ==> Landed(hash, s, p) && TempGone(s, p))
    && (Cleaning(l.pc) ==> !o.status.PersistedNew? && !o.status.SnapshotValidationFailed?)
    && (Cleaning(l.pc) && o.status.VerifiedExistingNoop? ==> Landed(hash, s, p))
    && (Over(l.pc) ==> !o.status.SnapshotValidationFailed?)
  }

  /** The snapshot passed the checks an adapter makes before touching the store. */
  predicate Sound(hash: Bytes -> Digest, snap: Snapshot) { IsLowerHex64(snap.digest) && hash(snap.data) == snap.digest }

  predicate Refusal(l: Local) { l.pc.Finished? && l.outcome.status.SnapshotValidationFailed? }

  predicate Standing(hash: Bytes -> Digest, s: Store, p: Proc) {
    && WellFormed(p.l)
    && (p.aux.temp.Some? ==> IsRegular(s, p.aux.temp.value))
    && DescriptorsOk(p)
    && if Refusal(p.l) then p == Launch(hash, p.l.cfg, p.l.snap)
       else
         && Sound(hash, p.l.snap)
         && ShardsOk(s, p) && StagingOk(s, p) && PublishedOk(s, p) && InspectingOk(hash, s, p) && CleaningOk(s, p)
         && (!InTempPhase(p.l.pc) && !Over(p.l.pc) ==> p.aux.temp.None? && p.l.tempId.None?)
         && OutcomeOk(hash, s, p)
  }

  predicate ProcOk(hash: Bytes -> Digest, s: Store, p: Proc) { Standing(hash, s, p) && Settled(p.l) }

  lemma LaunchIsOk(hash: Bytes -> Digest, s: Store, cfg: Config, snap: Snapshot)
    ensures ProcOk(hash, s, Launch(hash, cfg, snap))
  {
  }

  // ---- what the others do ----------------------------------------------------------------------

  lemma EntriesStay(s: Store, s': Store, t: Option<Ino>)
    requires Guarantee(s, s', t)
    ensures forall k, x: Ino :: Maps(s.ents, k, x) && Some(x) != t ==> Maps(s'.ents, k, x)
    ensures forall k, x: Ino :: Maps(s.ents, k, x) && Maps(s.disk, k, x) && Some(x) != t ==> Maps(s'.disk, k, x)
  {
    forall k, x: Ino | Maps(s.ents, k, x) && Some(x) != t
      ensures Maps(s'.ents, k, x) && (Maps(s.disk, k, x) ==> Maps(s'.disk, k, x))
    {
      assert SameAt(s'.disk, s.disk, k) || SameAt(s'.disk, s'.ents, k);
    }
  }

  /** No step of another adapter makes a new entry for `x`. */
  lemma NoNewNames(s: Store, s': Store, t: Option<Ino>, x: Ino)
    requires Guarantee(s, s', t) && x in s.inodes && Some(x) != t
    ensures forall k :: Maps(s'.ents, k, x) ==> Maps(s.ents, k, x)
    ensures forall k :: Maps(s'.disk, k, x) ==> Maps(s.disk, k, x) || Maps(s.ents, k, x)
  {
    forall k | Maps(s'.disk, k, x)
      ensures Maps(s.disk, k, x) || Maps(s.ents, k, x)
    {
      assert SameAt(s'.disk, s.disk, k) || SameAt(s'.disk, s'.ents, k);
    }
  }

  lemma NamesStayOnly(s: Store, s': Store, t: Option<Ino>, x: Ino, a: Key, b: Key)
    requires Guarantee(s, s', t) && x in s.inodes && Some(x) != t
    ensures OnlyAt(s.ents, x, a, b) ==> OnlyAt(s'.ents, x, a, b)
    ensures OnlyAt(s.ents, x, a, b) && OnlyAt(s.disk, x, a, b) ==> OnlyAt(s'.disk, x, a, b)
    ensures Nowhere(s.ents, x) ==> Nowhere(s'.ents, x)
    ensures Nowhere(s.ents, x) && Nowhere(s.disk, x) ==> Nowhere(s'.disk, x)
  {
    NoNewNames(s, s', t, x);
    assert forall k :: k in s'.ents && s'.ents[k] == x ==> Maps(s'.ents, k, x);
    assert forall k :: k in s'.disk && s'.disk[k] == x ==> Maps(s'.disk, k, x);
  }

  lemma StagingStays(s: Store, s': Store, q: Proc, t: Option<Ino>)
    requires Guarantee(s, s', t) && StagingOk(s, q)
    requires t.Some? ==> t != q.aux.temp
    ensures StagingOk(s', q)
  {
    if Staging(q.l.pc) {
      EntriesStay(s, s', t);
      NamesStayOnly(s, s', t, q.aux.temp.value, TempKey(q), TempKey(q));
    }
  }

  lemma PublishedStays(s: Store, s': Store, q: Proc, t: Option<Ino>)
    requires Guarantee(s, s', t) && PublishedOk(s, q)
    requires t.Some? ==> t != q.aux.temp
    ensures PublishedOk(s', q)
  {
    if Published(q.l.pc) {
      EntriesStay(s, s', t);
      NamesStayOnly(s, s', t, q.aux.temp.value, TargetKey(q), TargetKey(q));
      NamesStayOnly(s, s', t, q.aux.temp.value, TempKey(q), TargetKey(q));
    }
  }

  lemma CleaningStays(s: Store, s': Store, q: Proc, t: Option<Ino>)
    requires Guarantee(s, s', t) && CleaningOk(s, q)
    requires t.Some? ==> t != q.aux.temp
    ensures CleaningOk(s', q)
  {
    if Inspecting(q.l.pc) || Cleaning(q.l.pc) {
      EntriesStay(s, s', t);
      NoNewNames(s, s', t, q.aux.temp.value);
      NamesStayOnly(s, s', t, q.aux.temp.value, TempKey(q), TargetKey(q));
    }
  }

  /** A file that is a target keeps its entry, its contents and its durability. */
  lemma TargetStays(s: Store, s': Store, t: Option<Ino>, k: Key, x: Ino)
    requires Guarantee(s, s', t) && k.name.Target? && Maps(s.ents, k, x) && IsFile(s, x)
    ensures Maps(s'.ents, k, x) && IsFile(s', x) && Untouched(s, s', x) && s'.inodes[x].kind == s.inodes[x].kind
    ensures Maps(s.disk, k, x) ==> Maps(s'.disk, k, x)
  {
    assert SameAt(s'.disk, s.disk, k) || SameAt(s'.disk, s'.ents, k);
  }

  lemma InspectingStays(hash: Bytes -> Digest, s: Store, s': Store, q: Proc, t: Option<Ino>)
    requires Guarantee(s, s', t) && InspectingOk(hash, s, q)
    ensures InspectingOk(hash, s', q)
  {
    if Inspecting(q.l.pc) && !q.l.pc.XOpen? {
      TargetStays(s, s', t, TargetKey(q), q.aux.x);
    }
  }

  lemma ShardsStay(s: Store, s': Store, q: Proc, t: Option<Ino>)
    requires Guarantee(s, s', t) && IsLowerHex64(q.l.snap.digest) && ShardsOk(s, q)
    requires t.Some? ==> IsFile(s, t.value)
    ensures ShardsOk(s', q)
  {
    EntriesStay(s, s', t);
  }

  lemma LandedStays(hash: Bytes -> Digest, s: Store, s': Store, q: Proc, t: Option<Ino>)
    requires Guarantee(s, s', t) && IsLowerHex64(q.l.snap.digest) && Landed(hash, s, q)
    requires t.Some? ==> IsFile(s, t.value)
    ensures Landed(hash, s', q)
  {
    EntriesStay(s, s', t);
    TargetStays(s, s', t, TargetKey(q), q.aux.x);
  }

  lemma OutcomeStays(hash: Bytes -> Digest, s: Store, s': Store, q: Proc, t: Option<Ino>)
    requires Guarantee(s, s', t) && IsLowerHex64(q.l.snap.digest) && OutcomeOk(hash, s, q)
    requires t.Some? ==> IsFile(s, t.value) && t != q.aux.temp
    requires q.aux.temp.Some? ==> IsRegular(s, q.aux.temp.value)
    ensures OutcomeOk(hash, s', q)
  {
    if Landed(hash, s, q) {
      LandedStays(hash, s, s', q, t);
      TargetStays(s, s', t, TargetKey(q), q.aux.x);
    }
    if q.aux.temp.Some? {
      NamesStayOnly(s, s', t, q.aux.temp.value, TargetKey(q), TargetKey(q));
    }
  }

  /** Nothing another adapter does in one step disturbs `q`. */
  lemma OthersDoNotDisturb(hash: Bytes -> Digest, s: Store, s': Store, q: Proc, t: Option<Ino>)
    requires Standing(hash, s, q) && Guarantee(s, s', t)
    requires t.Some? ==> t != q.aux.temp && IsFile(s, t.value)
    ensures Standing(hash, s', q)
  {
    if !Refusal(q.l) {
      ShardsStay(s, s', q, t);
      StagingStays(s, s', q, t);
      PublishedStays(s, s', q, t);
      InspectingStays(hash, s, s', q, t);
      CleaningStays(s, s', q, t);
      OutcomeStays(hash, s, s', q, t);
    }
  }
}
