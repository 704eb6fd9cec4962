/** What a call answers when exactly one of its system calls fails. */
module BlobFaults {
  import opened Wrappers
  import opened BlobProtocol
  import opened BlobKernel
  import opened BlobInvariant
  import opened BlobSteps
  import opened BlobMoves
  import opened BlobSystem
  import opened BlobTheorems
  import opened BlobProgress
  import opened BlobSuccess

  function Failed(r: Reason): Result { Failure(BlobPersistFailed, r) }

  /** The answer when the call made in state `l` fails with `e`: what was not yet published fails or blocks, what
      may be published blocks, and a failed close spoils a success. */
  function FaultOf(l: Local, e: Errno): Result
    requires !l.pc.Finished?
  {
    match l.pc
    case POpenRoot => Blocked(if e == ELOOP then SymlinkOrNonregular else RootMissing)
    case PStatRoot => Blocked(AmbiguousPublicationState)
    case POpenShard => Blocked(if e == ELOOP || e == ENOTDIR then SymlinkOrNonregular else ShardDurabilityFailed)
    case PMkShard | PChmodShard | PStatShard | PSyncShard | PSyncParent => Blocked(ShardDurabilityFailed)
    case PCreateTemp => if e == EEXIST then Blocked(AmbiguousPublicationState) else Failed(TempCreateFailed)
    case PStatTemp => Blocked(TempCleanupAmbiguous)
    case PWrite => Failed(WriteFailed)
    case PChmodTemp | PVerifyTemp | PReadTemp => Failed(TempVerifyFailed)
    case PSyncTemp => Failed(FileFsyncFailed)
    case PRename => Failed(if e == ENOSYS then NoClobberUnavailable else PublishFailed)
    case PSyncDir | PSyncDirAgain | XSyncDir => Blocked(DirectoryFsyncFailed)
    case POpenTarget | PStatTarget => Blocked(FinalReadbackFailed)
    case PSyncTarget | XSyncFile => Blocked(FileFsyncFailed)
    case PReadTarget | XRead => Failure(CriticalCollisionDetected, ContentHashMismatch)
    case XOpen => Blocked(if e == ELOOP then SymlinkOrNonregular else AmbiguousPublicationState)
    case XStat => Blocked(AmbiguousPublicationState)
    case COpen | CStat | CClose | CUnlink | CSync => Blocked(TempCleanupAmbiguous)
    case PClosing => if l.outcome.Success() then Blocked(AmbiguousPublicationState) else l.outcome
  }

  /** The kernel fails the call, and it has no effect; that a shard or a target exists is no fault. */
  predicate Faulty(l: Local, ch: Choice) {
    ch.fail.Some? && !ch.effect && !(ch.fail == Some(EEXIST) && (l.pc.PMkShard? || l.pc.PRename?))
  }

  lemma FailingCall(s: Store, fds: Descs, c: Call, ch: Choice)
    requires ch.fail.Some? && !ch.effect
    ensures Exec(s, fds, c, ch) == Outcome(s, if c.Close? then fds - {c.fd} else fds, Fail(ch.fail.value), 0)
  {
  }

  // ---- what the protocol does with it ----------------------------------------------------------

  lemma OpeningFault(hash: Bytes -> Digest, l: Local, e: Errno)
    requires Opening(l.pc) && !(e == EEXIST && l.pc.PMkShard?)
    ensures After(hash, l, Fail(e)) == Stop(l, FaultOf(l, e))
  {
  }

  lemma StagingFault(hash: Bytes -> Digest, l: Local, e: Errno)
    requires Staging(l.pc) && !(e == EEXIST && l.pc.PRename?)
    ensures After(hash, l, Fail(e)) == if l.pc.PStatTemp? then Stop(l, FaultOf(l, e)) else Clean(l, FaultOf(l, e))
  {
  }

  lemma PublishedFault(hash: Bytes -> Digest, l: Local, e: Errno)
    requires Published(l.pc)
    ensures After(hash, l, Fail(e)) == Stop(l, FaultOf(l, e))
  {
  }

  lemma InspectingFault(hash: Bytes -> Digest, l: Local, e: Errno)
    requires Inspecting(l.pc)
    ensures After(hash, l, Fail(e)) == Clean(l, FaultOf(l, e))
  {
  }

  lemma CleaningFault(hash: Bytes -> Digest, l: Local, e: Errno)
    requires Cleaning(l.pc)
    ensures After(hash, l, Fail(e)) ==
      if l.pc.CStat? then l.(same := false, pc := CClose) else Stop(l, FaultOf(l, e))
  {
  }

  // ---- directories that are not as they should be ----------------------------------------------

  /** Why a directory is refused: it is none, is not ours, or has another mode than 0o700. */
  predicate Refused(st: Stat, uid: int, reason: Reason) {
    || (!st.kind.Directory? && reason == SymlinkOrNonregular)
    || (st.kind.Directory? && st.uid != uid && reason == OwnerMismatch)
    || (st.kind.Directory? && st.uid == uid && st.mode != 0x1C0 && reason == ModeMismatch)
  }

  /** The call goes on past the root only if it is a directory of ours with mode 0o700 and the one that was
      pinned; otherwise it blocks, with the first thing that is wrong. */
  lemma RootIsChecked(l: Local, st: Stat)
    ensures var l' := AfterStatRoot(l, Info(st));
      var right := st.kind.Directory? && st.uid == l.cfg.uid && st.mode == 0x1C0;
      && (l'.pc.PMkShard? <==> right && st.ino == l.cfg.root)
      && (right && st.ino != l.cfg.root ==> l' == Stop(l, Blocked(RootIdentityChanged)))
      && (!right ==>
         l'.pc.PClosing? && l'.outcome.status.BlockedRecoveryRequired? && Refused(st, l.cfg.uid, l'.outcome.reason))
  {
  }

  /** It goes on past a shard only if that is a directory of ours with mode 0o700, and past one it made only
      after syncing it. */
  lemma ShardIsChecked(l: Local, st: Stat)
    ensures var l' := AfterStatShard(l, Info(st));
      var right := st.kind.Directory? && st.uid == l.cfg.uid && st.mode == 0x1C0;
      && (right && l.created ==> l' == Go(l, PSyncShard))
      && (right && !l.created ==> l'.pc == if l.deep then PCreateTemp else PMkShard)
      && (!right ==>
         l'.pc.PClosing? && l'.outcome.status.BlockedRecoveryRequired? && Refused(st, l.cfg.uid, l'.outcome.reason))
  {
  }

  // ---- the step --------------------------------------------------------------------------------

  /** The call is closing, and the last close failed. */
  lemma SpoiltEnds(s: Store, p: Proc, q: Proc)
    requires p.l.pc.PClosing? && p.l.open != [] && q.l == Settle(AfterClosing(p.l, Fail(EOTHER)))
    ensures Ending(s, q, if p.l.outcome.Success() then Blocked(AmbiguousPublicationState) else p.l.outcome)
  {
  }

  lemma AnyFailedClose(l: Local, e: Errno)
    requires l.open != []
    ensures AfterClosing(l, Fail(e)) == AfterClosing(l, Fail(EOTHER))
  {
  }

  lemma FaultMoves(hash: Bytes -> Digest, s: Store, p: Proc, ch: Choice)
    requires WellFormed(p.l) && Settled(p.l) && !p.l.pc.Finished? && ch.fail.Some? && !ch.effect
    ensures var (s', p') := Act(hash, s, p, ch);
      && s' == s && p'.l == Settle(After(hash, p.l, Fail(ch.fail.value))) && p'.aux == p.aux
      && (!p.l.pc.CClose? && !p.l.pc.PClosing? ==> p'.fds == p.fds)
  {
    FailingCall(s, p.fds, NextCall(p.l), ch);
    hide Exec, After, IsLowerHex64;
  }

  lemma FaultEnds(hash: Bytes -> Digest, s: Store, p: Proc, ch: Choice, was: Option<Seen>)
    requires Ready(hash, s, p) && WellFormed(p.l) && Settled(p.l) && !p.l.pc.Finished?
    requires IsLowerHex64(p.l.snap.digest) && Happy(hash, s, p, was) && Faulty(p.l, ch)
    ensures var (s', p') := Act(hash, s, p, ch); Ending(s', p', FaultOf(p.l, ch.fail.value))
  {
    hide Standing, IsLowerHex64, After, Act, FaultOf, Expected, OnTheWay, MakingTemp;
    FaultMoves(hash, s, p, ch);
    var e := ch.fail.value;
    if Opening(p.l.pc) { OpeningFault(hash, p.l, e); }
    else if Staging(p.l.pc) { StagingFault(hash, p.l, e); TempIsHeld(hash, s, p); }
    else if Published(p.l.pc) { PublishedFault(hash, p.l, e); }
    else if Inspecting(p.l.pc) { InspectingFault(hash, p.l, e); }
    else if Cleaning(p.l.pc) { CleaningFault(hash, p.l, e); CleaningVerdict(p.l, e); }
    else {
      AnyFailedClose(p.l, e);
      ClosingVerdict(hash, p.l, e);
      SpoiltEnds(s, p, Act(hash, s, p, ch).1);
    }
  }

  lemma CleaningVerdict(l: Local, e: Errno)
    requires Cleaning(l.pc)
    ensures FaultOf(l, e) == Blocked(TempCleanupAmbiguous)
  {
  }

  lemma ClosingVerdict(hash: Bytes -> Digest, l: Local, e: Errno)
    requires l.pc.PClosing? && l.open != []
    ensures FaultOf(l, e) == if l.outcome.Success() then Blocked(AmbiguousPublicationState) else l.outcome
    ensures After(hash, l, Fail(e)) == AfterClosing(l, Fail(e))
  {
  }

  // ---- the run ---------------------------------------------------------------------------------

  lemma EndingCall(hash: Bytes -> Digest, s: Store, p: Proc, ch: Choice, out: Result)
    requires EndsWith(hash, s, p, out, ch) && WellFormed(p.l) && Settled(p.l) && !p.l.pc.Finished?
    ensures var (s', p') := Act(hash, s, p, ch); Ending(s', p', out)
  {
    hide EndsWith, IsLowerHex64, After, Exec, Moved, Ending;
    EndingIsFair(hash, s, p, ch, Exec(s, p.fds, NextCall(p.l), ch), out);
  }

  /** Adapter `i` is ending with `out`. */
  predicate EndsIn(w: World, i: nat, out: Result) { i in w.procs && Ending(w.store, w.procs[i], out) }

  lemma EndingTurn(hash: Bytes -> Digest, w: World, base: set<Ino>, i: nat, e: Event, out: Result)
    requires Inv(hash, w, base) && EndsIn(w, i, out) && FairEvent(w, i, e)
    ensures EndsIn(Next(hash, w, e), i, out)
  {
    hide Ending, Fair, IsLowerHex64, Standing, Act;
    if e.Acts? && CanAct(w, i) { EndingCall(hash, w.store, w.procs[i], e.ch, out); }
    if !e.Acts? { EndingIgnoresDisk(w.store, Next(hash, w, e).store, w.procs[i], out); }
  }

  lemma EndingIgnoresDisk(s: Store, s': Store, p: Proc, out: Result)
    requires Ending(s, p, out) && s'.ents == s.ents
    ensures Ending(s', p, out)
  {
  }

  lemma {:induction false} EndingRun(hash: Bytes -> Digest, w: World, base: set<Ino>, i: nat, es: seq<Event>,
      out: Result)
    requires Inv(hash, w, base) && EndsIn(w, i, out) && FairRun(hash, w, i, es)
    ensures EndsIn(Run(hash, w, es), i, out)
    decreases |es|
  {
    hide Inv, Next, EndsIn, FairEvent;
    if es != [] {
      var front, e := es[..|es| - 1], es[|es| - 1];
      EndingRun(hash, w, base, i, front, out);
      RunKeepsInv(hash, w, base, front);
      EndingTurn(hash, Run(hash, w, front), base, i, e, out);
    }
  }

  lemma FaultyTurn(hash: Bytes -> Digest, w: World, base: set<Ino>, i: nat, ch: Choice, cfg: Config, snap: Snapshot,
      was: Option<Seen>)
    requires Inv(hash, w, base) && Thriving(hash, w, i, cfg, snap, was) && CanAct(w, i) && Faulty(w.procs[i].l, ch)
    ensures EndsIn(Next(hash, w, Acts(i, ch)), i, FaultOf(w.procs[i].l, ch.fail.value))
  {
    hide Happy, IsLowerHex64, Standing, Act, Ending, Faulty, FaultOf, Rooted;
    FaultEnds(hash, w.store, w.procs[i], ch, was);
  }

  lemma {:induction false} RunSplits(hash: Bytes -> Digest, w: World, a: seq<Event>, b: seq<Event>, i: nat)
    ensures Run(hash, w, a + b) == Run(hash, Run(hash, w, a), b) && Turns(i, a + b) == Turns(i, a) + Turns(i, b)
    decreases |b|
  {
    hide Next;
    if b == [] { assert a + b == a; } else {
      assert (a + b)[..|a + b| - 1] == a + b[..|b| - 1];
      RunSplits(hash, w, a, b[..|b| - 1], i);
    }
  }

  /** For one adapter alone over a root and shards that are right or absent: if nothing fails before and after
      one system call that fails without effect, the call ends with the answer that belongs to that call,
      whatever the store held. */
  lemma OneFaultTellsReason(hash: Bytes -> Digest, s: Store, es: seq<Event>, i: nat, cfg: Config, snap: Snapshot,
                            before: seq<Event>, ch: Choice, after: seq<Event>)
    requires WellFormedStore(s) && i !in Reached(hash, s, es).procs && Admitted(hash, snap) && IsLowerHex64(snap.digest)
    requires var w0 := Reached(hash, s, es);
      Rooted(w0.store) && Paved(w0.store, cfg, snap.digest, false, false)
          && FairRun(hash, Next(hash, w0, Begin(i, cfg, snap)), i, before)
    requires var w := Run(hash, Next(hash, Reached(hash, s, es), Begin(i, cfg, snap)), before);
      CanAct(w, i) && Faulty(w.procs[i].l, ch) && FairRun(hash, Next(hash, w, Acts(i, ch)), i, after)
    requires Turns(i, before) + 1 + Turns(i, after) >= MostCalls(|snap.data|)
    ensures var w := Run(hash, Next(hash, Reached(hash, s, es), Begin(i, cfg, snap)), before);
      var w' := Run(hash, Next(hash, w, Acts(i, ch)), after);
      && i in w'.procs && w'.procs[i].l.pc.Finished?
      && w'.procs[i].l.outcome == FaultOf(w.procs[i].l, ch.fail.value)
  {
    hide Inv, Next, Paved, Reached, IsLowerHex64, Rooted, FairRun, Admitted, FaultOf, Happy, Run, EndsIn;
    var w0 := Reached(hash, s, es);
    var w1 := Next(hash, w0, Begin(i, cfg, snap));
    Reachable(hash, s, es);
    FairRunThrives(hash, w0, s.inodes.Keys, i, cfg, snap, before);
    NextKeepsInv(hash, w0, s.inodes.Keys, Begin(i, cfg, snap));
    RunKeepsInv(hash, w1, s.inodes.Keys, before);
    var w := Run(hash, w1, before);
    FaultyTurn(hash, w, s.inodes.Keys, i, ch, cfg, snap, Found(w0.store, cfg.root, snap.digest));
    var w2 := Next(hash, w, Acts(i, ch));
    NextKeepsInv(hash, w, s.inodes.Keys, Acts(i, ch));
    EndingRun(hash, w2, s.inodes.Keys, i, after, FaultOf(w.procs[i].l, ch.fail.value));
    var all := before + [Acts(i, ch)] + after;
    AllTogether(hash, w1, i, before, ch, after);
    NoPowerIsLost(hash, w1, i, before);
    NoPowerIsLost(hash, w2, i, after);
    CallsEnd(hash, w0, s.inodes.Keys, i, cfg, snap, all);
    FinishedEnds(Run(hash, w2, after), i, FaultOf(w.procs[i].l, ch.fail.value));
  }

  lemma AllTogether(hash: Bytes -> Digest, w1: World, i: nat, before: seq<Event>, ch: Choice, after: seq<Event>)
    ensures var all := before + [Acts(i, ch)] + after;
      && Run(hash, w1, all) == Run(hash, Next(hash, Run(hash, w1, before), Acts(i, ch)), after)
      && Turns(i, all) == Turns(i, before) + 1 + Turns(i, after)
  {
    hide Next;
    var one := [Acts(i, ch)];
    RunSplits(hash, w1, before + one, after, i);
    RunSplits(hash, w1, before, one, i);
    assert one[..0] == [] && one[..|one| - 1] == [];
    assert Run(hash, Run(hash, w1, before), one) == Next(hash, Run(hash, w1, before), Acts(i, ch));
    assert Turns(i, one) == 1;
  }

  lemma FinishedEnds(w: World, i: nat, out: Result)
    requires EndsIn(w, i, out) && w.procs[i].l.pc.Finished?
    ensures w.procs[i].l.outcome == out
  {
  }
}
