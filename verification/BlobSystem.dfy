/** Any number of adapters on one store, interleaved call by call, with crashes. */
module BlobSystem {
  import opened Wrappers
  import opened BlobProtocol
  import opened BlobKernel
  import opened BlobInvariant
  import opened BlobSteps
  import opened BlobMoves
  import opened BlobStaging
  import opened BlobPublishing
  import opened BlobCleanup

  // ---- one call, whichever it is ---------------------------------------------------------------

  /** The conversation's next call has outcome `o`. */
  predicate Calls(s: Store, p: Proc, ch: Choice, o: Outcome)
    requires WellFormed(p.l) && Settled(p.l) && !p.l.pc.Finished?
  {
    o == Exec(s, p.fds, NextCall(p.l), ch)
  }

  lemma ReadyCanCall(hash: Bytes -> Digest, s: Store, p: Proc)
    requires Ready(hash, s, p)
    ensures WellFormed(p.l) && Settled(p.l) && !p.l.pc.Finished? && IsLowerHex64(p.l.snap.digest)
    ensures p.l.pc.PWrite? ==> 0 <= p.l.total < p.l.Length()
    ensures p.l.pc.PReadTemp? || p.l.pc.PReadTarget? || p.l.pc.XRead? ==> |p.l.buf| < p.l.Length()
  {
  }

  lemma OpeningCall(hash: Bytes -> Digest, s: Store, p: Proc, ch: Choice, o: Outcome)
    requires Ready(hash, s, p) && Calls(s, p, ch, o) && Opening(p.l.pc)
    ensures StepTo(hash, s, p, o, After(hash, p.l, o.reply))
  {
    hide Standing, StoreOk, StepTo, IsLowerHex64;
    match p.l.pc
    case POpenRoot => StepOpenRoot(hash, s, p, o, ch);
    case PStatRoot => StepStatRoot(hash, s, p, o, ch);
    case PMkShard => StepMkShard(hash, s, p, o, ch);
    case POpenShard => StepOpenShard(hash, s, p, o, ch);
    case PChmodShard => StepChmodShard(hash, s, p, o, ch);
    case PStatShard => StepStatShard(hash, s, p, o, ch);
    case PSyncShard => StepSyncShard(hash, s, p, o, ch);
    case PSyncParent => StepSyncParent(hash, s, p, o, ch);
    case PCreateTemp => StepCreateTemp(hash, s, p, o, ch);
  }

  lemma StagingCall(hash: Bytes -> Digest, s: Store, p: Proc, ch: Choice, o: Outcome)
    requires Ready(hash, s, p) && Calls(s, p, ch, o) && Staging(p.l.pc)
    ensures StepTo(hash, s, p, o, After(hash, p.l, o.reply))
  {
    hide Standing, StoreOk, StepTo, IsLowerHex64;
    match p.l.pc
    case PStatTemp => StepStatTemp(hash, s, p, o, ch);
    case PWrite => StepWrite(hash, s, p, o, ch);
    case PChmodTemp => StepChmodTemp(hash, s, p, o, ch);
    case PVerifyTemp => StepVerifyTemp(hash, s, p, o, ch);
    case PSyncTemp => StepSyncTemp(hash, s, p, o, ch);
    case PReadTemp => StepReadTemp(hash, s, p, o, ch);
    case PRename => StepRename(hash, s, p, o, ch);
  }

  lemma PublishedCall(hash: Bytes -> Digest, s: Store, p: Proc, ch: Choice, o: Outcome)
    requires Ready(hash, s, p) && Calls(s, p, ch, o) && Published(p.l.pc)
    ensures StepTo(hash, s, p, o, After(hash, p.l, o.reply))
  {
    hide Standing, StoreOk, StepTo, IsLowerHex64;
    match p.l.pc
    case PSyncDir => StepSyncDir(hash, s, p, o, ch);
    case POpenTarget => StepOpenTarget(hash, s, p, o, ch);
    case PStatTarget => StepStatTarget(hash, s, p, o, ch);
    case PSyncTarget => StepSyncTarget(hash, s, p, o, ch);
    case PReadTarget => StepReadTarget(hash, s, p, o, ch);
    case PSyncDirAgain => StepSyncDirAgain(hash, s, p, o, ch);
  }

  lemma InspectingCall(hash: Bytes -> Digest, s: Store, p: Proc, ch: Choice, o: Outcome)
    requires Ready(hash, s, p) && Calls(s, p, ch, o) && Inspecting(p.l.pc)
    ensures StepTo(hash, s, p, o, After(hash, p.l, o.reply))
  {
    hide Standing, StoreOk, StepTo, IsLowerHex64;
    match p.l.pc
    case XOpen => StepXOpen(hash, s, p, o, ch);
    case XStat => StepXStat(hash, s, p, o, ch);
    case XRead => StepXRead(hash, s, p, o, ch);
    case XSyncFile => StepXSyncFile(hash, s, p, o, ch);
    case XSyncDir => StepXSyncDir(hash, s, p, o, ch);
  }

  lemma CleaningCall(hash: Bytes -> Digest, s: Store, p: Proc, ch: Choice, o: Outcome)
    requires Ready(hash, s, p) && Calls(s, p, ch, o) && (Cleaning(p.l.pc) || p.l.pc.PClosing?)
    ensures StepTo(hash, s, p, o, After(hash, p.l, o.reply))
  {
    hide Standing, StoreOk, StepTo, IsLowerHex64;
    match p.l.pc
    case COpen => StepCOpen(hash, s, p, o, ch);
    case CStat => StepCStat(hash, s, p, o, ch);
    case CClose => StepCClose(hash, s, p, o, ch);
    case CUnlink => StepCUnlink(hash, s, p, o, ch);
    case CSync => StepCSync(hash, s, p, o, ch);
    case PClosing => StepClosing(hash, s, p, o, ch);
  }

  /** Every call of every adapter, whatever the kernel does, keeps the adapter's invariant and the
      guarantee, and publishes nothing unsealed. */
  lemma EveryCall(hash: Bytes -> Digest, s: Store, p: Proc, ch: Choice)
    requires Ready(hash, s, p)
    ensures var (s', p') := Act(hash, s, p, ch);
      && StoreOk(hash, s, s', p.aux.temp) && ProcOk(hash, s', p')
      && (p'.aux.temp == p.aux.temp || (p.aux.temp.None? && p'.aux.temp.Some? && p'.aux.temp.value !in s.inodes))
  {
    hide Standing, StoreOk, IsLowerHex64, After, Exec, Moved;
    ReadyCanCall(hash, s, p);
    var o := Exec(s, p.fds, NextCall(p.l), ch);
    if Opening(p.l.pc) { OpeningCall(hash, s, p, ch, o); }
    else if Staging(p.l.pc) { StagingCall(hash, s, p, ch, o); }
    else if Published(p.l.pc) { PublishedCall(hash, s, p, ch, o); }
    else if Inspecting(p.l.pc) { InspectingCall(hash, s, p, ch, o); }
    else { CleaningCall(hash, s, p, ch, o); }
  }

  // ---- the system ------------------------------------------------------------------------------

  datatype World = World(store: Store, procs: map<nat, Proc>)

  /** An adapter starts a call, or makes its next system call; the disk catches up; power is lost. An
      adapter that stops for good is one that is never scheduled again. */
  datatype Event =
    | Begin(i: nat, cfg: Config, snap: Snapshot)
    | Acts(i: nat, ch: Choice)
    | SyncEntry(k: Key)
    | FlushInode(x: Ino, garbage: Data)
    | PowerLoss

  predicate CanAct(w: World, i: nat) {
    i in w.procs && WellFormed(w.procs[i].l) && Settled(w.procs[i].l) && !w.procs[i].l.pc.Finished?
  }

  function Next(hash: Bytes -> Digest, w: World, e: Event): World {
    match e
    case Begin(i, cfg, snap) => if i in w.procs then w else w.(procs := w.procs[i := Launch(hash, cfg, snap)])
    case Acts(i, ch) =>
      if !CanAct(w, i) then w
      else var (s', p') := Act(hash, w.store, w.procs[i], ch); World(s', w.procs[i := p'])
    case SyncEntry(k) => w.(store := WritebackEntry(w.store, k))
    case FlushInode(x, d) => w.(store := WritebackInode(w.store, x, d))
    case PowerLoss => World(Crash(w.store), map[])
  }

  function Run(hash: Bytes -> Digest, w: World, es: seq<Event>): World
    decreases |es|
  {
    if es == [] then w else Next(hash, Run(hash, w, es[..|es| - 1]), es[|es| - 1])
  }

  /** Target entries naming an inode that was not there from the start lead to sealed blobs. */
  predicate AllSealed(hash: Bytes -> Digest, s: Store, m: Entries, base: set<Ino>) {
    forall k :: k in m && k.name.Target? && m[k] !in base ==> Sealed(hash, s, m[k], k.name.digest)
  }

  predicate TempsApart(w: World, base: set<Ino>) {
    && (forall i :: i in w.procs && w.procs[i].aux.temp.Some? ==> w.procs[i].aux.temp.value !in base)
    && (forall i, j :: i in w.procs && j in w.procs && i != j && w.procs[i].aux.temp.Some? ==>
          w.procs[i].aux.temp != w.procs[j].aux.temp)
  }

  /** `base` are the inodes that were there before any adapter started. */
  predicate Inv(hash: Bytes -> Digest, w: World, base: set<Ino>) {
    && WellFormedStore(w.store) && base <= w.store.inodes.Keys
    && (forall i :: i in w.procs ==> ProcOk(hash, w.store, w.procs[i]))
    && TempsApart(w, base)
    && AllSealed(hash, w.store, w.store.ents, base) && AllSealed(hash, w.store, w.store.disk, base)
  }

  lemma InvAtFirst(hash: Bytes -> Digest, s: Store)
    requires WellFormedStore(s)
    ensures Inv(hash, World(s, map[]), s.inodes.Keys)
  {
  }

  lemma SealedStaySealed(hash: Bytes -> Digest, s: Store, s': Store, t: Option<Ino>, base: set<Ino>)
    requires WellFormedStore(s) && StoreOk(hash, s, s', t)
    requires AllSealed(hash, s, s.ents, base) && AllSealed(hash, s, s.disk, base)
    ensures AllSealed(hash, s', s'.ents, base) && AllSealed(hash, s', s'.disk, base)
  {
    forall k | k in s'.ents && k.name.Target? && s'.ents[k] !in base
      ensures Sealed(hash, s', s'.ents[k], k.name.digest)
    {
      if SameAt(s'.ents, s.ents, k) { assert Sealed(hash, s, s.ents[k], k.name.digest); }
    }
    forall k | k in s'.disk && k.name.Target? && s'.disk[k] !in base
      ensures Sealed(hash, s', s'.disk[k], k.name.digest)
    {
      if SameAt(s'.disk, s.disk, k) { assert Sealed(hash, s, s.disk[k], k.name.digest); }
      else { assert SameAt(s'.disk, s'.ents, k); }
    }
  }

  lemma OthersStand(hash: Bytes -> Digest, w: World, base: set<Ino>, i: nat, s': Store)
    requires Inv(hash, w, base) && i in w.procs && StoreOk(hash, w.store, s', w.procs[i].aux.temp)
    ensures forall j :: j in w.procs && j != i ==> ProcOk(hash, s', w.procs[j])
  {
    hide Standing, StoreOk, AllSealed;
    TempIsRegular(hash, w.store, w.procs[i]);
    forall j | j in w.procs && j != i
      ensures ProcOk(hash, s', w.procs[j])
    {
      OthersDoNotDisturb(hash, w.store, s', w.procs[j], w.procs[i].aux.temp) by {
        GuaranteeOf(hash, w.store, s', w.procs[i].aux.temp);
      }
    }
  }

  lemma TempIsRegular(hash: Bytes -> Digest, s: Store, p: Proc)
    requires Standing(hash, s, p)
    ensures p.aux.temp.Some? ==> IsRegular(s, p.aux.temp.value)
  {
  }

  lemma GuaranteeOf(hash: Bytes -> Digest, s: Store, s': Store, t: Option<Ino>)
    requires StoreOk(hash, s, s', t)
    ensures WellFormedStore(s') && Guarantee(s, s', t)
    ensures forall x :: x in s.inodes ==> x in s'.inodes
    ensures s.inodes.Keys <= s'.inodes.Keys
  {
    forall x | x in s.inodes.Keys ensures x in s'.inodes.Keys {
      assert x in s.inodes;
      assert x in s'.inodes;
    }
  }

  lemma TempsKnown(hash: Bytes -> Digest, w: World)
    requires forall i :: i in w.procs ==> ProcOk(hash, w.store, w.procs[i])
    ensures forall j :: j in w.procs && w.procs[j].aux.temp.Some? ==> w.procs[j].aux.temp.value in w.store.inodes
  {
    hide Standing;
    forall j | j in w.procs ensures w.procs[j].aux.temp.Some? ==> w.procs[j].aux.temp.value in w.store.inodes {
      TempIsRegular(hash, w.store, w.procs[j]);
    }
  }

  /** A new temp is a new inode, so temps stay apart. */
  lemma TempsStayApart(w: World, w': World, base: set<Ino>, i: nat)
    requires TempsApart(w, base) && i in w.procs && i in w'.procs && base <= w.store.inodes.Keys
    requires forall j :: j in w.procs && w.procs[j].aux.temp.Some? ==> w.procs[j].aux.temp.value in w.store.inodes
    requires forall j :: j in w'.procs && j != i ==> j in w.procs && w'.procs[j] == w.procs[j]
    requires var t, t' := w.procs[i].aux.temp, w'.procs[i].aux.temp;
      t' == t || (t.None? && t'.Some? && t'.value !in w.store.inodes)
    ensures TempsApart(w', base)
  {
  }

  lemma CallKeepsInv(hash: Bytes -> Digest, w: World, base: set<Ino>, i: nat, ch: Choice)
    requires Inv(hash, w, base) && CanAct(w, i)
    ensures Inv(hash, Next(hash, w, Acts(i, ch)), base)
  {
    hide Standing, StoreOk, AllSealed, Act, TempsApart, WellFormedStore;
    var p := w.procs[i];
    EveryCall(hash, w.store, p, ch);
    var (s', p') := Act(hash, w.store, p, ch);
    var w' := World(s', w.procs[i := p']);
    assert Next(hash, w, Acts(i, ch)) == w';
    GuaranteeOf(hash, w.store, s', p.aux.temp);
    SealedStaySealed(hash, w.store, s', p.aux.temp, base);
    OthersStand(hash, w, base, i, s');
    TempsKnown(hash, w);
    TempsStayApart(w, w', base, i);
    hide Guarantee;
    forall j | j in w'.procs ensures ProcOk(hash, s', w'.procs[j]) {
      if j != i { assert w'.procs[j] == w.procs[j]; }
    }
  }

  /** What the disk does by itself is a step in which no adapter takes part. */
  lemma SyncingIsQuiet(hash: Bytes -> Digest, s: Store, k: Key)
    requires WellFormedStore(s)
    ensures StoreOk(hash, s, WritebackEntry(s, k), None)
  {
    var s' := WritebackEntry(s, k);
    forall k': Key ensures SameAt(s'.disk, s.disk, k') || SameAt(s'.disk, s'.ents, k') { if k' == k {} else {} }
  }

  lemma FlushingIsQuiet(hash: Bytes -> Digest, s: Store, x: Ino, d: Data)
    requires WellFormedStore(s)
    ensures StoreOk(hash, s, WritebackInode(s, x, d), None)
  {
  }

  lemma DiskKeepsInv(hash: Bytes -> Digest, w: World, base: set<Ino>, e: Event)
    requires Inv(hash, w, base) && (e.SyncEntry? || e.FlushInode?)
    ensures Inv(hash, Next(hash, w, e), base)
  {
    hide Standing, StoreOk, AllSealed, WritebackInode, WritebackEntry, WellFormedStore, TempsApart;
    if e.SyncEntry? { SyncingIsQuiet(hash, w.store, e.k); } else { FlushingIsQuiet(hash, w.store, e.x, e.garbage); }
    var w' := Next(hash, w, e);
    assert w'.procs == w.procs;
    QuietKeepsInv(hash, w, w'.store, base);
    assert w' == World(w'.store, w.procs);
  }

  lemma QuietKeepsInv(hash: Bytes -> Digest, w: World, s': Store, base: set<Ino>)
    requires Inv(hash, w, base) && StoreOk(hash, w.store, s', None)
    ensures Inv(hash, World(s', w.procs), base)
  {
    hide Standing, StoreOk, AllSealed, WellFormedStore;
    GuaranteeOf(hash, w.store, s', None);
    SealedStaySealed(hash, w.store, s', None, base);
    forall j | j in w.procs
      ensures ProcOk(hash, s', w.procs[j])
    {
      OthersDoNotDisturb(hash, w.store, s', w.procs[j], None);
    }
    hide Guarantee;
    assert TempsApart(World(s', w.procs), base);
  }

  lemma CrashKeepsInv(hash: Bytes -> Digest, w: World, base: set<Ino>)
    requires Inv(hash, w, base)
    ensures Inv(hash, Next(hash, w, PowerLoss), base)
  {
  }

  lemma BeginKeepsInv(hash: Bytes -> Digest, w: World, base: set<Ino>, i: nat, cfg: Config, snap: Snapshot)
    requires Inv(hash, w, base)
    ensures Inv(hash, Next(hash, w, Begin(i, cfg, snap)), base)
  {
    hide Standing, AllSealed;
    LaunchIsOk(hash, w.store, cfg, snap);
  }

  lemma NextKeepsInv(hash: Bytes -> Digest, w: World, base: set<Ino>, e: Event)
    requires Inv(hash, w, base)
    ensures Inv(hash, Next(hash, w, e), base)
  {
    hide Inv;
    match e
    case Begin(i, cfg, snap) => BeginKeepsInv(hash, w, base, i, cfg, snap);
    case Acts(i, ch) => if CanAct(w, i) { CallKeepsInv(hash, w, base, i, ch); }
    case SyncEntry(_) => DiskKeepsInv(hash, w, base, e);
    case FlushInode(_, _) => DiskKeepsInv(hash, w, base, e);
    case PowerLoss => CrashKeepsInv(hash, w, base);
  }

  lemma {:induction false} RunKeepsInv(hash: Bytes -> Digest, w: World, base: set<Ino>, es: seq<Event>)
    requires Inv(hash, w, base)
    ensures Inv(hash, Run(hash, w, es), base)
    decreases |es|
  {
    hide Inv, Next;
    if es != [] {
      RunKeepsInv(hash, w, base, es[..|es| - 1]);
      NextKeepsInv(hash, Run(hash, w, es[..|es| - 1]), base, es[|es| - 1]);
    }
  }
}
