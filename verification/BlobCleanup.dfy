/** Steps of the temp's cleanup under inode proof, and the closing of the tracked descriptors. */
module BlobCleanup {
  import opened Wrappers
  import opened BlobProtocol
  import opened BlobKernel
  import opened BlobInvariant
  import opened BlobSteps
  import opened BlobMoves
  import opened BlobPublishing

  /** The verdict the cleanup was started for. */
  predicate Verdict(hash: Bytes -> Digest, s: Store, p: Proc)
    requires IsLowerHex64(p.l.snap.digest)
  {
    var st := p.l.outcome.status;
    !st.PersistedNew? && !st.SnapshotValidationFailed? && (st.VerifiedExistingNoop? ==> Landed(hash, s, p))
  }

  predicate Cleaned(hash: Bytes -> Digest, s: Store, p: Proc) {
    && Cleaning(p.l.pc) && Sound(hash, p.l.snap) && DescriptorsOk(p) && ShardsOk(s, p) && CleaningOk(s, p)
    && Verdict(hash, s, p)
  }

  lemma CleaningStands(hash: Bytes -> Digest, s: Store, p: Proc)
    requires Cleaning(p.l.pc)
    ensures Standing(hash, s, p) <==> Cleaned(hash, s, p)
  {
    hide DescriptorsOk, ShardsOk, IsLowerHex64, Landed;
  }

  /** An unproven cleanup leaves everything where it is and is reported as such. */
  lemma CleanupStops(hash: Bytes -> Digest, s: Store, p: Proc, l': Local)
    requires Cleaned(hash, s, p) && !HasCleanFd(p.l.pc) && l' == StopBlocked(p.l, TempCleanupAmbiguous)
    ensures Standing(hash, s, p.(l := l'))
  {
    hide Standing, ShardsOk, DescriptorsOk, IsLowerHex64, Landed;
    Stops(hash, s, p, p.(l := l'), l'.outcome);
  }

  /** Nothing a verdict says depends on the point of the cleanup or on descriptors. */
  lemma VerdictCarries(hash: Bytes -> Digest, s: Store, p: Proc, p': Proc)
    requires IsLowerHex64(p.l.snap.digest) && Verdict(hash, s, p)
    requires p'.l.snap == p.l.snap && p'.l.cfg == p.l.cfg && p'.l.outcome == p.l.outcome && p'.aux == p.aux
    ensures Verdict(hash, s, p')
  {
    hide IsLowerHex64;
  }

  lemma StepCOpen(hash: Bytes -> Digest, s: Store, p: Proc, o: Outcome, ch: Choice)
    requires Ready(hash, s, p) && p.l.pc.COpen? && o == ExecOpen(s, p.fds, p.l.fd.shard, p.l.TempName(), false, ch)
    ensures StepTo(hash, s, p, o, AfterCOpen(p.l, o.reply))
  {
    hide Standing, StoreOk, DescriptorsOk, ShardsOk, IsLowerHex64, Verdict;
    CleaningStands(hash, s, p);
    RootIsTracked(hash, s, p);
    StaysPut(hash, s, p.aux.temp);
    var l' := AfterCOpen(p.l, o.reply);
    if o.reply.Got? {
      TempIsReopened(hash, s, p, o, ch);
      Reaches(hash, s, p, o, l');
    } else {
      CleanupStops(hash, s, p, l');
      Lands(hash, s, p, o, l');
    }
  }

  /** Whatever inode the reopened name gives, if it is our temp's the name is our temp's. */
  lemma TempIsReopened(hash: Bytes -> Digest, s: Store, p: Proc, o: Outcome, ch: Choice)
    requires Cleaned(hash, s, p) && p.l.pc.COpen? && o == ExecOpen(s, p.fds, p.l.fd.shard, p.l.TempName(), false, ch)
    requires o.reply.Got? && Settled(p.l)
    ensures Standing(hash, s, Moved(s, p, o, AfterCOpen(p.l, o.reply)))
  {
    hide Standing, StoreOk, DescriptorsOk, ShardsOk, IsLowerHex64, Verdict;
    ShardIsHeld(s, p);
    var p' := Moved(s, p, o, AfterCOpen(p.l, o.reply));
    CleanDescriptorOpened(p, p', o.reply.fd, o.ino);
    TrackedStay(p, o.reply.fd, o.ino);
    ShardsCarry(s, p, p');
    VerdictCarries(hash, s, p, p');
    CleaningStands(hash, s, p');
  }

  lemma StepCStat(hash: Bytes -> Digest, s: Store, p: Proc, o: Outcome, ch: Choice)
    requires Ready(hash, s, p) && p.l.pc.CStat? && o == ExecFstat(s, p.fds, p.l.fd.clean, ch)
    ensures StepTo(hash, s, p, o, AfterCStat(p.l, o.reply))
  {
    hide Standing, StoreOk, DescriptorsOk, ShardsOk, IsLowerHex64, Verdict;
    CleaningStands(hash, s, p);
    StaysPut(hash, s, p.aux.temp);
    var p' := p.(l := AfterCStat(p.l, o.reply));
    DescriptorsKept(p, p');
    ShardsCarry(s, p, p');
    VerdictCarries(hash, s, p, p');
    CleaningStands(hash, s, p');
    Lands(hash, s, p, o, p'.l);
  }

  lemma StepCClose(hash: Bytes -> Digest, s: Store, p: Proc, o: Outcome, ch: Choice)
    requires Ready(hash, s, p) && p.l.pc.CClose? && o == Outcome(s, p.fds - {p.l.fd.clean}, Acked(ch), 0)
    ensures StepTo(hash, s, p, o, AfterCClose(p.l, o.reply))
  {
    hide Standing, StoreOk, DescriptorsOk, ShardsOk, IsLowerHex64, Verdict;
    CleaningStands(hash, s, p);
    RootIsTracked(hash, s, p);
    StaysPut(hash, s, p.aux.temp);
    var l' := AfterCClose(p.l, o.reply);
    ProofIsClosed(hash, s, p, o);
    Reaches(hash, s, p, o, l');
  }

  lemma ProofIsClosed(hash: Bytes -> Digest, s: Store, p: Proc, o: Outcome)
    requires Cleaned(hash, s, p) && p.l.pc.CClose? && Settled(p.l) && p.l.open != []
    requires o == Outcome(s, p.fds - {p.l.fd.clean}, o.reply, 0) && !o.reply.Got?
    ensures Standing(hash, s, Moved(s, p, o, AfterCClose(p.l, o.reply)))
  {
    hide Standing, StoreOk, DescriptorsOk, ShardsOk, IsLowerHex64, Verdict;
    if o.reply.Done? && p.l.same { ProofAllows(hash, s, p, o); } else { ProofFails(hash, s, p, o); }
  }

  lemma ProofAllows(hash: Bytes -> Digest, s: Store, p: Proc, o: Outcome)
    requires Cleaned(hash, s, p) && p.l.pc.CClose? && p.l.same
    requires o == Outcome(s, p.fds - {p.l.fd.clean}, o.reply, 0) && !o.reply.Got?
    ensures Standing(hash, s, Moved(s, p, o, Go(p.l, CUnlink)))
  {
    hide Standing, StoreOk, DescriptorsOk, ShardsOk, IsLowerHex64, Verdict;
    var q := Moved(s, p, o, Go(p.l, CUnlink));
    CleanDescriptorClosed(p, q);
    TrackedOutliveProof(p);
    ShardsCarry(s, p, q);
    VerdictCarries(hash, s, p, q);
    CleaningStands(hash, s, q);
  }

  lemma ProofFails(hash: Bytes -> Digest, s: Store, p: Proc, o: Outcome)
    requires Cleaned(hash, s, p) && p.l.pc.CClose? && p.l.open != []
    requires o == Outcome(s, p.fds - {p.l.fd.clean}, o.reply, 0) && !o.reply.Got?
    ensures Standing(hash, s, Moved(s, p, o, StopBlocked(p.l, TempCleanupAmbiguous)))
  {
    hide Standing, StoreOk, DescriptorsOk, ShardsOk, IsLowerHex64, Verdict;
    var q := Moved(s, p, o, Go(p.l, COpen));
    CleanDescriptorClosed(p, q);
    Stops(hash, s, q, q.(l := StopBlocked(q.l, TempCleanupAmbiguous)), Blocked(TempCleanupAmbiguous));
    assert Moved(s, p, o, StopBlocked(p.l, TempCleanupAmbiguous)) == q.(l := StopBlocked(q.l, TempCleanupAmbiguous));
  }

  lemma TrackedOutliveProof(p: Proc)
    requires DescriptorsOk(p) && p.l.pc.CClose?
    ensures forall f :: f in p.l.open ==>
        f in p.fds && f in p.fds - {p.l.fd.clean} && (p.fds - {p.l.fd.clean})[f] == p.fds[f]
  {
  }

  lemma StepCUnlink(hash: Bytes -> Digest, s: Store, p: Proc, o: Outcome, ch: Choice)
    requires Ready(hash, s, p) && p.l.pc.CUnlink? && o == ExecUnlink(s, p.fds, p.l.fd.shard, p.l.TempName(), ch)
    ensures StepTo(hash, s, p, o, AfterCUnlink(p.l, o.reply))
  {
    hide Standing, StoreOk, DescriptorsOk, ShardsOk, IsLowerHex64, Verdict, CleaningOk;
    CleaningStands(hash, s, p);
    RootIsTracked(hash, s, p);
    ShardIsHeld(s, p);
    var l' := AfterCUnlink(p.l, o.reply);
    if ch.fail.Some? && !ch.effect {
      StaysPut(hash, s, p.aux.temp);
      CleanupStops(hash, s, p, l');
    } else {
      OnlyOwnTempIsUnlinked(hash, s, p);
      if !o.reply.Done? { Stops(hash, o.store, p, p.(l := l'), l'.outcome); }
    }
    Lands(hash, s, p, o, l');
  }

  lemma OnlyOwnTempIsUnlinked(hash: Bytes -> Digest, s: Store, p: Proc)
    requires Ready(hash, s, p) && Cleaned(hash, s, p) && p.l.pc.CUnlink?
    ensures p.aux.temp.Some? && Maps(s.ents, TempKey(p), p.aux.temp.value)
    ensures var s' := Unlinked(s, TempKey(p));
      && StoreOk(hash, s, s', p.aux.temp) && IsRegular(s', p.aux.temp.value)
      && Standing(hash, s', p.(l := Go(p.l, CSync)))
  {
    hide Standing, DescriptorsOk, ShardsOk, IsLowerHex64, Landed, Verdict;
    UnlinkIsQuiet(hash, s, TempKey(p), p.aux.temp.value);
    AfterUnlink(hash, s, p);
  }

  /** With the temp's only name gone, the verdict waits for the directory to be synced. */
  lemma AfterUnlink(hash: Bytes -> Digest, s: Store, p: Proc)
    requires Cleaned(hash, s, p) && p.l.pc.CUnlink?
    requires StoreOk(hash, s, Unlinked(s, TempKey(p)), p.aux.temp)
    ensures Standing(hash, Unlinked(s, TempKey(p)), p.(l := Go(p.l, CSync)))
  {
    hide Standing, DescriptorsOk, ShardsOk, IsLowerHex64, Landed, Guarantee, WellFormedStore, NewTargetsSealed;
    var s' := Unlinked(s, TempKey(p));
    var p' := p.(l := Go(p.l, CSync));
    NameIsGone(s, p);
    ShardsStay(s, s', p, p.aux.temp);
    if Landed(hash, s, p) { LandedStays(hash, s, s', p, p.aux.temp); }
    DescriptorsKept(p, p');
    ShardsCarry(s', p, p');
    VerdictCarries(hash, s', p, p');
    hide CleaningOk;
    CleaningStands(hash, s', p');
  }

  lemma NameIsGone(s: Store, p: Proc)
    requires p.l.pc.CUnlink? && CleaningOk(s, p)
    ensures p.aux.temp.Some? && IsFile(s, p.aux.temp.value)
    ensures CleaningOk(Unlinked(s, TempKey(p)), p.(l := Go(p.l, CSync)))
  {
  }

  lemma StepCSync(hash: Bytes -> Digest, s: Store, p: Proc, o: Outcome, ch: Choice)
    requires Ready(hash, s, p) && p.l.pc.CSync? && o == ExecFsync(s, p.fds, p.l.fd.shard, ch)
    ensures StepTo(hash, s, p, o, AfterCSync(p.l, o.reply))
  {
    hide Standing, StoreOk, DescriptorsOk, ShardsOk, IsLowerHex64, Verdict;
    CleaningStands(hash, s, p);
    RootIsTracked(hash, s, p);
    ShardIsHeld(s, p);
    var l' := AfterCSync(p.l, o.reply);
    if o.reply.Done? {
      SyncIsQuiet(hash, s, p.aux.d2, None);
      QuietForSelf(hash, s, o.store, p);
      CleaningStands(hash, o.store, p);
      TempIsGone(o.store, p);
      VerdictIsGiven(hash, o.store, p);
    } else {
      StaysPut(hash, s, p.aux.temp);
      CleanupStops(hash, s, p, l');
    }
    Lands(hash, s, p, o, l');
  }

  lemma TempIsGone(s: Store, p: Proc)
    requires CleaningOk(s, p) && p.l.pc.CSync?
    requires forall k: Key :: k.dir == p.aux.d2 ==> SameAt(s.disk, s.ents, k)
    ensures TempGone(s, p)
  {
    assert SameAt(s.disk, s.ents, TempKey(p));
    assert SameAt(s.disk, s.ents, TargetKey(p));
  }

  lemma VerdictIsGiven(hash: Bytes -> Digest, s: Store, p: Proc)
    requires Cleaned(hash, s, p) && p.l.pc.CSync? && TempGone(s, p)
    ensures Standing(hash, s, p.(l := Stop(p.l, p.l.outcome)))
  {
    hide DescriptorsOk, IsLowerHex64, Landed, TempGone;
    DescriptorsKept(p, p.(l := Stop(p.l, p.l.outcome)));
    LandedIgnoresPoint(hash, s, p, PClosing);
    TempGoneIgnoresPoint(s, p, PClosing);
  }

  lemma LandedIgnoresPoint(hash: Bytes -> Digest, s: Store, p: Proc, pc: Pc)
    requires IsLowerHex64(p.l.snap.digest)
    ensures Landed(hash, s, p.(l := Go(p.l, pc))) == Landed(hash, s, p)
  {
    hide IsLowerHex64;
  }

  lemma TempGoneIgnoresPoint(s: Store, p: Proc, pc: Pc)
    ensures TempGone(s, p.(l := Go(p.l, pc))) == TempGone(s, p)
  {
  }

  // ---- closing ---------------------------------------------------------------------------------

  predicate Closing(hash: Bytes -> Digest, s: Store, p: Proc) {
    && Over(p.l.pc) && Sound(hash, p.l.snap) && DescriptorsOk(p)
       && (p.aux.temp.Some? ==> IsRegular(s, p.aux.temp.value))
    && OutcomeOk(hash, s, p) && !Refusal(p.l)
  }

  lemma ClosingStands(hash: Bytes -> Digest, s: Store, p: Proc)
    requires Over(p.l.pc) && !Refusal(p.l)
    ensures Standing(hash, s, p) <==> Closing(hash, s, p)
  {
    hide DescriptorsOk, IsLowerHex64, OutcomeOk;
  }

  /** Closing descriptors changes no outcome but a success spoilt by a failed close. */
  lemma OutcomeCarries(hash: Bytes -> Digest, s: Store, p: Proc, p': Proc)
    requires Over(p.l.pc) && Over(p'.l.pc) && IsLowerHex64(p.l.snap.digest) && OutcomeOk(hash, s, p)
    requires p'.l.cfg == p.l.cfg && p'.l.snap == p.l.snap && p'.aux == p.aux
    requires p'.l.outcome == p.l.outcome || Lost(p'.l.outcome)
    ensures OutcomeOk(hash, s, p')
  {
    hide IsLowerHex64;
  }

  lemma StepClosing(hash: Bytes -> Digest, s: Store, p: Proc, o: Outcome, ch: Choice)
    requires Ready(hash, s, p) && p.l.pc.PClosing?
    requires o == Outcome(s, p.fds - {p.l.open[|p.l.open| - 1]}, Acked(ch), 0)
    ensures StepTo(hash, s, p, o, AfterClosing(p.l, o.reply))
  {
    hide Standing, StoreOk, DescriptorsOk, IsLowerHex64, OutcomeOk;
    ClosingStands(hash, s, p);
    StaysPut(hash, s, p.aux.temp);
    var p' := Moved(s, p, o, AfterClosing(p.l, o.reply));
    LastDescriptorClosed(p, p');
    OutcomeCarries(hash, s, p, p');
    SuccessIsNotRefusal(hash, s, p, p');
    ClosingStands(hash, s, p');
    SettleSettles(AfterClosing(p.l, o.reply));
  }

  lemma SettleSettles(l: Local)
    ensures Settled(Settle(l))
  {
  }

  lemma SuccessIsNotRefusal(hash: Bytes -> Digest, s: Store, p: Proc, p': Proc)
    requires Over(p.l.pc) && IsLowerHex64(p.l.snap.digest) && OutcomeOk(hash, s, p)
    requires p'.l.outcome == p.l.outcome || Lost(p'.l.outcome)
    ensures !Refusal(p'.l)
  {
  }
}
