/** Every call ends: no adapter makes more than a bounded number of system calls, whatever the kernel does. */
module BlobProgress {
  import opened Wrappers
  import opened BlobProtocol
  import opened BlobKernel
  import opened BlobInvariant
  import opened BlobSteps
  import opened BlobMoves
  import opened BlobSystem

  /** How far a point of the protocol is from its end. */
  function Phase(pc: Pc, deep: bool): nat {
    match pc
    case POpenRoot => 40
    case PStatRoot => 39
    case PMkShard => if deep then 32 else 38
    case POpenShard => if deep then 31 else 37
    case PChmodShard => if deep then 30 else 36
    case PStatShard => if deep then 29 else 35
    case PSyncShard => if deep then 28 else 34
    case PSyncParent => if deep then 27 else 33
    case PCreateTemp => 26
    case PStatTemp => 25
    case PWrite => 24
    case PChmodTemp => 23
    case PVerifyTemp => 22
    case PSyncTemp => 21
    case PReadTemp => 20
    case PRename => 19
    case PSyncDir | XOpen => 18
    case POpenTarget | XStat => 17
    case PStatTarget | XRead => 16
    case PSyncTarget | XSyncFile => 15
    case PReadTarget | XSyncDir => 14
    case PSyncDirAgain => 13
    case COpen => 12
    case CStat => 11
    case CClose => 10
    case CUnlink => 9
    case CSync => 8
    case PClosing => 1
    case Finished => 0
  }

  /** What is left to do at one point: bytes to write or read, descriptors to close. */
  function Rest(l: Local): int {
    match l.pc
    case PWrite => l.Length() - l.total
    case PReadTemp | PReadTarget | XRead => l.Length() - |l.buf|
    case PClosing => |l.open|
    case _ => 0
  }

  /** How many descriptors can be open at a point. */
  function Cap(pc: Pc, deep: bool): nat {
    match pc
    case POpenRoot => 0
    case PStatRoot => 1
    case PMkShard | POpenShard => if deep then 2 else 1
    case PChmodShard | PStatShard | PSyncShard | PSyncParent => if deep then 3 else 2
    case PCreateTemp => 3
    case PStatTemp | PWrite | PChmodTemp | PVerifyTemp | PSyncTemp | PReadTemp | PRename => 4
    case PSyncDir | POpenTarget | XOpen => 4
    case _ => 5
  }

  predicate Few(l: Local) { |l.open| <= Cap(l.pc, l.deep) }

  /** The rest is small, so that phases decide. */
  predicate Small(l: Local) { 0 <= Rest(l) < l.Length() + 10 }

  function Rank(l: Local): int { Phase(l.pc, l.deep) * (l.Length() + 10) + Rest(l) }

  lemma SmallWhere(l: Local)
    requires WellFormed(l) && Few(l)
    ensures Small(l)
  {
    hide IsLowerHex64;
  }

  predicate Later(l: Local, l': Local) {
    || Phase(l'.pc, l'.deep) < Phase(l.pc, l.deep)
    || (Phase(l'.pc, l'.deep) == Phase(l.pc, l.deep) && Rest(l') < Rest(l))
  }

  predicate LeadsOn(l: Local, l': Local) { Few(l') && l'.snap == l.snap && Later(l, l') }

  lemma RootLeadsOn(l: Local, r: Reply)
    requires Few(l)
    ensures l.pc.POpenRoot? ==> LeadsOn(l, AfterOpenRoot(l, r))
    ensures l.pc.PStatRoot? ==> LeadsOn(l, AfterStatRoot(l, r))
  {
  }

  lemma ShardMadeLeadsOn(l: Local, r: Reply)
    requires Few(l)
    ensures l.pc.PMkShard? ==> LeadsOn(l, AfterMkShard(l, r))
    ensures l.pc.POpenShard? ==> LeadsOn(l, AfterOpenShard(l, r))
  {
  }

  lemma ShardModedLeadsOn(l: Local, r: Reply)
    requires Few(l)
    ensures l.pc.PChmodShard? ==> LeadsOn(l, AfterChmodShard(l, r))
    ensures l.pc.PStatShard? ==> LeadsOn(l, AfterStatShard(l, r))
  {
  }

  lemma ShardSyncedLeadsOn(l: Local, r: Reply)
    requires Few(l)
    ensures l.pc.PSyncShard? ==> LeadsOn(l, AfterSyncShard(l, r))
    ensures l.pc.PSyncParent? ==> LeadsOn(l, AfterSyncParent(l, r))
  {
  }

  lemma TempMadeLeadsOn(l: Local, r: Reply)
    requires Few(l)
    ensures l.pc.PCreateTemp? ==> LeadsOn(l, AfterCreateTemp(l, r))
    ensures l.pc.PStatTemp? ==> LeadsOn(l, AfterStatTemp(l, r))
  {
  }

  lemma TempWrittenLeadsOn(l: Local, r: Reply)
    requires Few(l)
    ensures l.pc.PWrite? ==> LeadsOn(l, AfterWrite(l, r))
  {
  }

  lemma TempModedLeadsOn(l: Local, r: Reply)
    requires Few(l)
    ensures l.pc.PChmodTemp? ==> LeadsOn(l, AfterChmodTemp(l, r))
    ensures l.pc.PVerifyTemp? ==> LeadsOn(l, AfterVerifyTemp(l, r))
  {
    hide BlobStatOk;
  }

  lemma TempSyncedLeadsOn(hash: Bytes -> Digest, l: Local, r: Reply)
    requires Few(l)
    ensures l.pc.PSyncTemp? ==> LeadsOn(l, AfterSyncTemp(hash, l, r))
  {
    hide ReadBackOk;
  }

  lemma TempReadLeadsOn(hash: Bytes -> Digest, l: Local, r: Reply)
    requires Few(l)
    ensures l.pc.PReadTemp? ==> LeadsOn(l, AfterReadTemp(hash, l, r))
  {
    hide ReadBackOk;
  }

  lemma RenamedLeadsOn(l: Local, r: Reply)
    requires Few(l)
    ensures l.pc.PRename? ==> LeadsOn(l, AfterRename(l, r))
  {
  }

  lemma DirSyncedLeadsOn(l: Local, r: Reply)
    requires Few(l)
    ensures l.pc.PSyncDir? ==> LeadsOn(l, AfterSyncDir(l, r))
  {
  }

  lemma TargetOpenedLeadsOn(l: Local, r: Reply)
    requires Few(l)
    ensures l.pc.POpenTarget? ==> LeadsOn(l, AfterOpenTarget(l, r))
    ensures l.pc.PStatTarget? ==> LeadsOn(l, AfterStatTarget(l, r))
  {
    hide BlobStatOk;
  }

  lemma TargetSyncedLeadsOn(hash: Bytes -> Digest, l: Local, r: Reply)
    requires Few(l)
    ensures l.pc.PSyncTarget? ==> LeadsOn(l, AfterSyncTarget(hash, l, r))
  {
    hide ReadBackOk;
  }

  lemma TargetReadLeadsOn(hash: Bytes -> Digest, l: Local, r: Reply)
    requires Few(l)
    ensures l.pc.PReadTarget? ==> LeadsOn(l, AfterReadTarget(hash, l, r))
  {
    hide ReadBackOk;
  }

  lemma CommittedLeadsOn(l: Local, r: Reply)
    requires Few(l)
    ensures l.pc.PSyncDirAgain? ==> LeadsOn(l, AfterSyncDirAgain(l, r))
    ensures l.pc.XOpen? ==> LeadsOn(l, AfterXOpen(l, r))
  {
  }

  lemma ExistingSeenLeadsOn(hash: Bytes -> Digest, l: Local, r: Reply)
    requires Few(l)
    ensures l.pc.XStat? ==> LeadsOn(l, AfterXStat(hash, l, r))
  {
    hide ReadBackOk, BlobStatOk, ExistingReason;
  }

  lemma ExistingReadLeadsOn(hash: Bytes -> Digest, l: Local, r: Reply)
    requires Few(l)
    ensures l.pc.XRead? ==> LeadsOn(l, AfterXRead(hash, l, r))
  {
    hide ReadBackOk;
  }

  lemma ExistingSyncedLeadsOn(l: Local, r: Reply)
    requires Few(l)
    ensures l.pc.XSyncFile? ==> LeadsOn(l, AfterXSyncFile(l, r))
    ensures l.pc.XSyncDir? ==> LeadsOn(l, AfterXSyncDir(l, r))
  {
  }

  lemma CleanerOpenedLeadsOn(l: Local, r: Reply)
    requires Few(l)
    ensures l.pc.COpen? ==> LeadsOn(l, AfterCOpen(l, r))
    ensures l.pc.CStat? ==> LeadsOn(l, AfterCStat(l, r))
  {
  }

  lemma CleanerDoneLeadsOn(l: Local, r: Reply)
    requires Few(l)
    ensures l.pc.CClose? ==> LeadsOn(l, AfterCClose(l, r))
  {
  }

  lemma UnlinkedLeadsOn(l: Local, r: Reply)
    requires Few(l)
    ensures l.pc.CUnlink? ==> LeadsOn(l, AfterCUnlink(l, r))
    ensures l.pc.CSync? ==> LeadsOn(l, AfterCSync(l, r))
  {
  }

  lemma ClosingLeadsOn(l: Local, r: Reply)
    requires Few(l) && l.pc.PClosing? && l.open != []
    ensures LeadsOn(l, AfterClosing(l, r))
  {
  }

  lemma SettlingLeadsOn(l: Local, l': Local)
    requires LeadsOn(l, l') && !l.pc.Finished?
    ensures LeadsOn(l, Settle(l'))
  {
  }

  /** Each reply leads to a later phase, or leaves less to do in the same one. */
  lemma RepliesLeadOn(hash: Bytes -> Digest, l: Local, r: Reply)
    requires Few(l) && !l.pc.Finished? && Settled(l)
    ensures LeadsOn(l, Resume(hash, l, r))
  {
    hide LeadsOn, Few;
    if l.pc.PClosing? { ClosingLeadsOn(l, r); }
    RootLeadsOn(l, r);
    ShardMadeLeadsOn(l, r);
    ShardModedLeadsOn(l, r);
    ShardSyncedLeadsOn(l, r);
    TempMadeLeadsOn(l, r);
    TempWrittenLeadsOn(l, r);
    TempModedLeadsOn(l, r);
    TempSyncedLeadsOn(hash, l, r);
    TempReadLeadsOn(hash, l, r);
    RenamedLeadsOn(l, r);
    DirSyncedLeadsOn(l, r);
    TargetOpenedLeadsOn(l, r);
    TargetSyncedLeadsOn(hash, l, r);
    TargetReadLeadsOn(hash, l, r);
    CommittedLeadsOn(l, r);
    ExistingSeenLeadsOn(hash, l, r);
    ExistingReadLeadsOn(hash, l, r);
    ExistingSyncedLeadsOn(l, r);
    CleanerOpenedLeadsOn(l, r);
    CleanerDoneLeadsOn(l, r);
    UnlinkedLeadsOn(l, r);
    SettlingLeadsOn(l, After(hash, l, r));
  }

  lemma LaterIsLower(l: Local, l': Local)
    requires Later(l, l') && Small(l) && Small(l') && l'.snap == l.snap
    ensures 0 <= Rank(l') < Rank(l)
  {
    var n, a, b := l.Length() + 10, Phase(l.pc, l.deep), Phase(l'.pc, l'.deep);
    if b < a { Products(a, b, n); }
    assert b * n >= 0;
  }

  lemma Products(a: nat, b: nat, n: nat)
    requires b < a
    ensures a * n >= b * n + n
  {
    assert (a - b - 1) * n >= 0;
  }

  // ---- runs ------------------------------------------------------------------------------------

  /** How many of the events are turns of adapter `i`. */
  function Turns(i: nat, es: seq<Event>): nat
    decreases |es|
  {
    if es == [] then 0
    else Turns(i, es[..|es| - 1]) + (if es[|es| - 1].Acts? && es[|es| - 1].i == i then 1 else 0)
  }

  /** The most system calls a call can make for a snapshot of `n` bytes. */
  function MostCalls(n: nat): nat { 41 * (n + 10) }

  lemma ProcIsFit(hash: Bytes -> Digest, w: World, base: set<Ino>, i: nat)
    requires Inv(hash, w, base) && i in w.procs
    ensures WellFormed(w.procs[i].l) && (CanAct(w, i) <==> !w.procs[i].l.pc.Finished?)
  {
  }

  lemma ActMovesLocals(hash: Bytes -> Digest, w: World, i: nat, ch: Choice)
    requires CanAct(w, i) && Few(w.procs[i].l)
    ensures var w' := Next(hash, w, Acts(i, ch)); i in w'.procs && LeadsOn(w.procs[i].l, w'.procs[i].l)
  {
    hide LeadsOn, After, Exec, NextAux, IsLowerHex64;
    var p := w.procs[i];
    RepliesLeadOn(hash, p.l, Exec(w.store, p.fds, NextCall(p.l), ch).reply);
  }

  /** Its own turn leads a call on; nothing else moves it. */
  lemma EventLeadsOn(hash: Bytes -> Digest, w: World, base: set<Ino>, i: nat, e: Event)
    requires Inv(hash, w, base) && i in w.procs && Few(w.procs[i].l) && !e.PowerLoss?
    ensures var w' := Next(hash, w, e);
      && i in w'.procs
      && if e.Acts? && e.i == i && !w.procs[i].l.pc.Finished? then LeadsOn(w.procs[i].l, w'.procs[i].l)
         else w'.procs[i] == w.procs[i]
  {
    ProcIsFit(hash, w, base, i);
    hide Inv, LeadsOn, Act;
    if e.Acts? && e.i == i && CanAct(w, i) { ActMovesLocals(hash, w, i, e.ch); }
  }

  predicate Spent(l: Local, first: Local, turns: nat) {
    Few(l) && l.snap == first.snap && (l.pc.Finished? || Rank(l) + turns <= Rank(first))
  }

  lemma TurnIsSpent(l: Local, l': Local, first: Local, turns: nat)
    requires Spent(l, first, turns) && WellFormed(l) && WellFormed(l') && LeadsOn(l, l') && !l.pc.Finished?
    ensures Spent(l', first, turns + 1)
  {
    SmallWhere(l);
    SmallWhere(l');
    LaterIsLower(l, l');
  }

  lemma {:induction false} TurnsAreSpent(hash: Bytes -> Digest, w: World, base: set<Ino>, i: nat,
                                         cfg: Config, snap: Snapshot, es: seq<Event>)
    requires Inv(hash, w, base) && i !in w.procs && forall e :: e in es ==> !e.PowerLoss?
    ensures var w' := Run(hash, Next(hash, w, Begin(i, cfg, snap)), es);
      i in w'.procs && Spent(w'.procs[i].l, Start(hash, cfg, snap), Turns(i, es))
    decreases |es|
  {
    if es == [] {
      hide Inv, Rank;
    } else {
      hide Inv, Next, Spent, Few, LeadsOn;
      var front, e := es[..|es| - 1], es[|es| - 1];
      var w1 := Next(hash, w, Begin(i, cfg, snap));
      TurnsAreSpent(hash, w, base, i, cfg, snap, front);
      NextKeepsInv(hash, w, base, Begin(i, cfg, snap));
      RunKeepsInv(hash, w1, base, front);
      assert e in es;
      var was := Run(hash, w1, front);
      assert Few(was.procs[i].l) by { SpentIsFew(was.procs[i].l, Start(hash, cfg, snap), Turns(i, front)); }
      EventLeadsOn(hash, was, base, i, e);
      NextKeepsInv(hash, was, base, e);
      ProcIsFit(hash, was, base, i);
      ProcIsFit(hash, Next(hash, was, e), base, i);
      if e.Acts? && e.i == i {
        if was.procs[i].l.pc.Finished? {
          FinishedIsSpent(was.procs[i].l, Start(hash, cfg, snap), Turns(i, front), Turns(i, es));
        }
        else { TurnIsSpent(was.procs[i].l, Next(hash, was, e).procs[i].l, Start(hash, cfg, snap), Turns(i, front)); }
      }
    }
  }

  lemma SpentIsFew(l: Local, first: Local, turns: nat)
    requires Spent(l, first, turns)
    ensures Few(l)
  {
  }

  lemma FinishedIsSpent(l: Local, first: Local, turns: nat, more: nat)
    requires Spent(l, first, turns) && l.pc.Finished?
    ensures Spent(l, first, more)
  {
  }

  /** However the kernel, the disk and the other adapters behave, short of power loss a call has finished once
      it has had that many turns. */
  lemma CallsEnd(hash: Bytes -> Digest, w: World, base: set<Ino>, i: nat, cfg: Config, snap: Snapshot, es: seq<Event>)
    requires Inv(hash, w, base) && i !in w.procs && forall e :: e in es ==> !e.PowerLoss?
    requires Turns(i, es) >= MostCalls(|snap.data|)
    ensures var w' := Run(hash, Next(hash, w, Begin(i, cfg, snap)), es);
      i in w'.procs && w'.procs[i].l.pc.Finished?
  {
    TurnsAreSpent(hash, w, base, i, cfg, snap, es);
    var w' := Run(hash, Next(hash, w, Begin(i, cfg, snap)), es);
    NextKeepsInv(hash, w, base, Begin(i, cfg, snap));
    RunKeepsInv(hash, Next(hash, w, Begin(i, cfg, snap)), base, es);
    ProcIsFit(hash, w', base, i);
    hide Inv, Run, Next;
    RankAtMost(hash, cfg, snap);
    SmallWhere(w'.procs[i].l);
    RankIsPositive(w'.procs[i].l);
  }

  lemma RankAtMost(hash: Bytes -> Digest, cfg: Config, snap: Snapshot)
    ensures Rank(Start(hash, cfg, snap)) < MostCalls(|snap.data|)
  {
    var l := Start(hash, cfg, snap);
    assert Rest(l) == 0 && Phase(l.pc, l.deep) <= 40;
  }

  lemma RankIsPositive(l: Local)
    requires Small(l)
    ensures Rank(l) >= 0
  {
    assert Phase(l.pc, l.deep) * (l.Length() + 10) >= 0;
  }
}
