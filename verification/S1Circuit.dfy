/** The append circuit as one uninterrupted call on containers it updates in place: it is one schedule of
    the interleaved system, so everything proved about every schedule holds of it. */
module S1Circuit {
  import opened Wrappers
  import opened Faults
  import opened S1Log

  /** Caller `i` makes its steps one after the other. */
  function Steps(h: Hashes, x: World, i: nat, ws: seq<Weather>): World
    decreases |ws|
  {
    if ws == [] then x else Steps(h, Next(h, x, Step(i, ws[0])), i, ws[1..])
  }

  lemma {:induction false} DoneStays(h: Hashes, x: World, i: nat, ws: seq<Weather>)
    requires i in x.callers && x.callers[i].pc.Done?
    ensures Steps(h, x, i, ws) == x
    decreases |ws|
  {
    if ws != [] { DoneStays(h, x, i, ws[1..]); }
  }

  lemma OneStep(h: Hashes, x: World, i: nat, ws: seq<Weather>, k: nat)
    requires k < |ws| && i in x.callers && x.callers[i].Circuit?
    ensures Steps(h, x, i, ws[k..]) == Steps(h, CircuitStep(h, x, i, x.callers[i], ws[k]), i, ws[k + 1..])
  {
    assert ws[k..][0] == ws[k] && ws[k..][1..] == ws[k + 1..];
  }

  class Vault {
    const h: Hashes
    var files: map<Path, Container>
    var holder: Option<nat>
    ghost var callers: map<nat, Caller>

    constructor (h: Hashes)
      ensures this.h == h && Now() == World(map[], None, map[])
    {
      this.h := h;
      files, holder, callers := map[], None, map[];
    }

    ghost function Now(): World
      reads this
    {
      World(files, holder, callers)
    }

    /** Reports `r` and, in the database phase, lets the lock go. */
    method Finish(i: nat, r: Result)
      requires i in callers && callers[i].Circuit?
      modifies this
      ensures Now() == Return(old(Now()), i, old(callers[i]), r)
    {
      callers := callers[i := callers[i].Finished(r)];
      holder := None;
    }

    ghost method Proceed(i: nat, pc: Pc)
      requires i in callers && callers[i].Circuit?
      modifies this`callers
      ensures callers == old(callers)[i := old(callers[i]).To(pc)]
    {
      callers := callers[i := callers[i].To(pc)];
    }

    method RunCircuit(i: nat, cmd: Command, d: Decision, q: InitRequest, r: InitResult, ws: seq<Weather>)
        returns (result: Result)
      requires i !in callers && |ws| == 8
      modifies this
      ensures Now() == Steps(h, Next(h, old(Now()), CallCircuit(i, cmd, d, q, r)), i, ws)
      ensures i in callers && callers[i].Circuit? && callers[i].pc.Done? && callers[i].result == result
    {
      hide Gate, Validate, Bind;
      var reason := Gate(h, cmd, d, q, r);
      if reason != "" {
        callers := callers[i := Circuit(cmd, q.mode, Done, Blocked(reason))];
        DoneStays(h, Now(), i, ws);
        return Blocked(reason);
      }
      callers := callers[i := Circuit(cmd, q.mode, Locking, Blocked(""))];
      ghost var x := Now();
      OneStep(h, x, i, ws, 0);
      assert ws[0..] == ws;
      if holder.Some? {
        callers := callers[i := callers[i].Finished(Blocked("race_lock_unavailable"))];
        DoneStays(h, Now(), i, ws[1..]);
        return Blocked("race_lock_unavailable");
      }
      holder := Some(i);
      Proceed(i, Suspect);
      result := ExecuteDbPhase(i, cmd, q.mode, ws);
    }

    /** Recovery check, idempotency check, tamper battery and fingerprint, then the writer. */
    method ExecuteDbPhase(i: nat, cmd: Command, mode: int, ws: seq<Weather>) returns (result: Result)
      requires |ws| == 8 && i in callers && callers[i].Circuit? && callers[i].cmd == cmd && callers[i].mode == mode
          && callers[i].pc.Suspect?
      modifies this
      ensures Now() == Steps(h, old(Now()), i, ws[1..])
      ensures i in callers && callers[i].Circuit? && callers[i].pc.Done? && callers[i].result == result
    {
      hide VerifyContainer, Insert, Steps;
      OneStep(h, Now(), i, ws, 1);
      if cmd.path !in files || ws[1].sidecar {
        Finish(i, BlockedRecovery);
        DoneStays(h, Now(), i, ws[2..]);
        return BlockedRecovery;
      }
      Proceed(i, Precheck);
      OneStep(h, Now(), i, ws, 2);
      if !ws[2].readFails && files[cmd.path].table && Has(files[cmd.path], cmd.evidence, cmd.target) {
        Finish(i, BlockedDuplicate);
        DoneStays(h, Now(), i, ws[3..]);
        return BlockedDuplicate;
      }
      Proceed(i, Verifying);
      OneStep(h, Now(), i, ws, 3);
      var reason := VerifyContainer(files[cmd.path], Some(mode), Some(cmd.expectedRows), ws[3]);
      if reason != "" {
        Finish(i, BlockedTamper(reason));
        DoneStays(h, Now(), i, ws[4..]);
        return BlockedTamper(reason);
      }
      Proceed(i, Fingerprinting);
      result := Fingerprint(i, cmd, ws);
    }

    method Fingerprint(i: nat, cmd: Command, ws: seq<Weather>) returns (result: Result)
      requires |ws| == 8 && i in callers && callers[i].Circuit? && callers[i].cmd == cmd
          && callers[i].pc.Fingerprinting? && cmd.path in files
      modifies this
      ensures Now() == Steps(h, old(Now()), i, ws[4..])
      ensures i in callers && callers[i].Circuit? && callers[i].pc.Done? && callers[i].result == result
    {
      hide Steps;
      OneStep(h, Now(), i, ws, 4);
      if ws[4].readFails {
        Finish(i, BlockedTamper("introspection_failed"));
        DoneStays(h, Now(), i, ws[5..]);
        return BlockedTamper("introspection_failed");
      }
      if !files[cmd.path].Canonical() || cmd.fingerprint != h.canonical {
        Finish(i, BlockedTamper("fingerprint_mismatch"));
        DoneStays(h, Now(), i, ws[5..]);
        return BlockedTamper("fingerprint_mismatch");
      }
      Proceed(i, WriterChecks);
      result := ExecuteAppend(i, cmd, ws);
    }

    /** The writer: its own gates, then one transaction. */
    method ExecuteAppend(i: nat, cmd: Command, ws: seq<Weather>) returns (result: Result)
      requires |ws| == 8 && i in callers && callers[i].Circuit? && callers[i].cmd == cmd && callers[i].pc.WriterChecks?
          && cmd.path in files
      modifies this
      ensures Now() == Steps(h, old(Now()), i, ws[5..])
      ensures i in callers && callers[i].Circuit? && callers[i].pc.Done? && callers[i].result == result
    {
      hide VerifyContainer, Insert, Steps, WriterGate;
      OneStep(h, Now(), i, ws, 5);
      var reason := WriterGate(h, cmd);
      if reason != "" { Finish(i, Blocked(reason)); DoneStays(h, Now(), i, ws[6..]); return Blocked(reason); }
      if ws[5].sidecar { Finish(i, BlockedRecovery); DoneStays(h, Now(), i, ws[6..]); return BlockedRecovery; }
      Proceed(i, WriterVerifies);
      OneStep(h, Now(), i, ws, 6);
      reason := VerifyContainer(files[cmd.path], None, None, ws[6]);
      if reason != "" { Finish(i, Blocked(reason)); DoneStays(h, Now(), i, ws[7..]); return Blocked(reason); }
      Proceed(i, Inserting);
      OneStep(h, Now(), i, ws, 7);
      var file, outcome := AtomicAppend(i, files[cmd.path], cmd, ws[7].fault);
      files := files[cmd.path := file];
      Finish(i, outcome);
      DoneStays(h, Now(), i, ws[8..]);
      return outcome;
    }

    method AtomicAppend(i: nat, c: Container, cmd: Command, f: Fault) returns (file: Container, r: Result)
      ensures (file, r) == Insert(i, c, cmd, f)
    {
      if f.Lost? { return c, Blocked("write_failed"); }
      if Has(c, cmd.evidence, cmd.target) { return c, BlockedDuplicate; }
      var n := c.lastSeq + 1;
      file := c.(rows := c.rows + [RowOf(cmd, n)], lastSeq := n, authors := c.authors + [i]);
      r := if f.Fine? then Appended(n) else Blocked("write_failed");
    }
  }
}
