/** A log whose first circuit is told that its write failed, although its row is there. */
module S1Example {
  import opened Wrappers
  import opened Faults
  import opened S1Log
  import opened S1Theorems

  const HASHES := Hashes(_ => "f", _ => "w", "c")

  const LOG_MODE := 0x180
  const REQUEST := InitRequest("p", "v", LOG_MODE, true, true)
  const ORDER := Command("o", "p", "t", "e", "y", "a", "f", "s", "now", "d", "i", "w", "v", "c", 0, "", true)

  const FAIR := Weather(false, false, true, Fine, LOG_MODE)
  const LYING := Weather(false, false, true, Lied, LOG_MODE)

  /** The container after the table, the first `n` of its triggers, and the mode are made. */
  function Made(table: bool, n: nat): Container {
    Container(LOG_MODE, true, table, n >= 1, n >= 2, false, [], 0, [])
  }

  const START := World(map[], None, map[0 := Initializer(REQUEST, Starting, Blocked(""))])

  /** Initializer 0 is at `pc` and the container is `file`. */
  function Provisioning(file: Container, pc: Pc, r: Result): World {
    World(map["p" := file], None, map[0 := Initializer(REQUEST, pc, r)])
  }

  /** Circuit 1 is at `pc` on the provisioned container. */
  function Appending(pc: Pc): World {
    World(map["p" := Made(true, 2)], if InDbPhase(pc) then Some(1) else None,
          map[0 := Initializer(REQUEST, Done, Ready(true)), 1 := Circuit(ORDER, LOG_MODE, pc, Blocked(""))])
  }

  function Call(): Event {
    CallCircuit(1, ORDER, Decision(REVIEWABLE, "d"), REQUEST, InitResult(CONTAINER_OK, "i"))
  }

  /** `n` steps of caller `i` in fair weather. */
  function Steps(i: nat, n: nat): seq<Event> { if n == 0 then [] else Steps(i, n - 1) + [Step(i, FAIR)] }

  lemma RunOn(es: seq<Event>, e: Event)
    ensures Run(HASHES, NOWHERE, es + [e]) == Next(HASHES, Run(HASHES, NOWHERE, es), e)
  {
    assert (es + [e])[..|es|] == es;
  }

  lemma StepOn(es: seq<Event>, i: nat, n: nat)
    requires n > 0
    ensures Run(HASHES, NOWHERE, es + Steps(i, n)) ==
        Next(HASHES, Run(HASHES, NOWHERE, es + Steps(i, n - 1)), Step(i, FAIR))
  {
    assert es + Steps(i, n) == (es + Steps(i, n - 1)) + [Step(i, FAIR)];
    RunOn(es + Steps(i, n - 1), Step(i, FAIR));
  }

  lemma FileIsMade()
    ensures Next(HASHES, NOWHERE, CallInitializer(0, REQUEST)) == START
    ensures Next(HASHES, Next(HASHES, START, Step(0, FAIR)), Step(0, FAIR))
      == Provisioning(Made(false, 0), MakeTable, Blocked(""))
  {
  }

  lemma TableIsMade()
    ensures Next(HASHES, Provisioning(Made(false, 0), MakeTable, Blocked("")), Step(0, FAIR))
      == Provisioning(Made(true, 0), MakeNoUpdate, Blocked(""))
    ensures Next(HASHES, Provisioning(Made(true, 0), MakeNoUpdate, Blocked("")), Step(0, FAIR))
      == Provisioning(Made(true, 1), MakeNoDelete, Blocked(""))
  {
  }

  lemma TriggersAreMade()
    ensures Next(HASHES, Provisioning(Made(true, 1), MakeNoDelete, Blocked("")), Step(0, FAIR))
      == Provisioning(Made(true, 2), MakeMode, Blocked(""))
    ensures Next(HASHES, Provisioning(Made(true, 2), MakeMode, Blocked("")), Step(0, FAIR))
      == Provisioning(Made(true, 2), Done, Ready(true))
  {
  }

  /** The initializer is called and makes its six steps. */
  function Provision(): seq<Event> { [CallInitializer(0, REQUEST)] + Steps(0, 6) }

  lemma Provisioned()
    ensures Run(HASHES, NOWHERE, Provision()) == Provisioning(Made(true, 2), Done, Ready(true))
  {
    hide Next, Run, Steps;
    var es := [CallInitializer(0, REQUEST)];
    FileIsMade();
    TableIsMade();
    TriggersAreMade();
    NothingRun();
    RunOn([], CallInitializer(0, REQUEST));
    assert [] + es == es && es + Steps(0, 0) == es;
    StepOn(es, 0, 1);
    StepOn(es, 0, 2);
    StepOn(es, 0, 3);
    StepOn(es, 0, 4);
    StepOn(es, 0, 5);
    StepOn(es, 0, 6);
  }

  lemma NothingRun()
    ensures Run(HASHES, NOWHERE, []) == NOWHERE && forall i :: Steps(i, 0) == []
  {
  }

  lemma CircuitIsCalled()
    ensures Next(HASHES, Provisioning(Made(true, 2), Done, Ready(true)), Call()) == Appending(Locking)
  {
    assert Gate(HASHES, ORDER, Decision(REVIEWABLE, "d"), REQUEST, InitResult(CONTAINER_OK, "i")) == "";
  }

  lemma CircuitChecks()
    ensures Next(HASHES, Appending(Locking), Step(1, FAIR)) == Appending(Suspect)
    ensures Next(HASHES, Appending(Suspect), Step(1, FAIR)) == Appending(Precheck)
    ensures Next(HASHES, Appending(Precheck), Step(1, FAIR)) == Appending(Verifying)
  {
  }

  lemma CircuitVerifies()
    ensures Next(HASHES, Appending(Verifying), Step(1, FAIR)) == Appending(Fingerprinting)
    ensures Next(HASHES, Appending(Fingerprinting), Step(1, FAIR)) == Appending(WriterChecks)
  {
  }

  lemma WriterGoesOn()
    ensures Next(HASHES, Appending(WriterChecks), Step(1, FAIR)) == Appending(WriterVerifies)
    ensures Next(HASHES, Appending(WriterVerifies), Step(1, FAIR)) == Appending(Inserting)
  {
  }

  function ToInsert(): seq<Event> { Provision() + [Call()] + Steps(1, 7) }

  lemma AboutToInsert()
    ensures Run(HASHES, NOWHERE, ToInsert()) == Appending(Inserting)
  {
    hide Next, Run, Steps, Provision, Appending;
    var es := Provision() + [Call()];
    Provisioned();
    CircuitIsCalled();
    CircuitChecks();
    CircuitVerifies();
    WriterGoesOn();
    NothingRun();
    RunOn(Provision(), Call());
    assert es + Steps(1, 0) == es;
    StepOn(es, 1, 1);
    StepOn(es, 1, 2);
    StepOn(es, 1, 3);
    StepOn(es, 1, 4);
    StepOn(es, 1, 5);
    StepOn(es, 1, 6);
    StepOn(es, 1, 7);
  }

  /** An initializer runs to its end, then a circuit whose commit takes effect and is reported as failed: it
      is told that its write failed, and its row is the log. */
  lemma SomebodyIsToldWrong()
    ensures var es := ToInsert() + [Step(1, LYING)];
      var x := Run(HASHES, NOWHERE, es);
      && LiedTo(HASHES, es, 1) && WroteUnknowingly(x, 1)
      && x.callers[1].result == Blocked("write_failed")
      && "p" in x.files && x.files["p"].rows == [RowOf(ORDER, 1)]
  {
    hide ToInsert;
    AboutToInsert();
    InsertLies();
    RunOn(ToInsert(), Step(1, LYING));
    var es := ToInsert() + [Step(1, LYING)];
    assert es[..|es| - 1] == ToInsert();
    hide Run, Next, InsertLied, Appending, WroteUnknowingly;
    assert LiedTo(HASHES, es, 1);
    ToldWrongExactlyWhen(HASHES, es, 1);
  }

  lemma InsertLies()
    ensures InsertLied(Appending(Inserting), Step(1, LYING), 1)
    ensures var y := Next(HASHES, Appending(Inserting), Step(1, LYING));
      && "p" in y.files && y.files["p"].rows == [RowOf(ORDER, 1)]
      && 1 in y.callers && y.callers[1].Circuit? && y.callers[1].result == Blocked("write_failed")
  {
  }
}
