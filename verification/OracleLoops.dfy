/** The loops of the reconciler: they walk the page with sets of what they have seen, stop at the first
    conflict or unreadable row, and compute what `DualOracle` says. */
module OracleLoops {
  import opened Wrappers
  import opened DualOracle
  import opened OraclePermutation

  /** What the loops remember of the rows kept so far. */
  ghost predicate Remembers(kept: seq<Entry>, seen: set<Entry>, ids: set<string>) {
    && (forall e :: e in seen <==> e in kept)
    && (forall id :: id in ids <==> exists e :: e in kept && e.id == id)
  }

  lemma RememberMore(kept: seq<Entry>, seen: set<Entry>, ids: set<string>, e: Entry)
    requires Remembers(kept, seen, ids)
    ensures Remembers(kept + [e], seen + {e}, ids + {e.id})
  {
    forall id | id in ids + {e.id}
      ensures exists x :: x in kept + [e] && x.id == id
    {
      if id == e.id { assert e in kept + [e]; } else {
        var x :| x in kept && x.id == id;
        assert x in kept + [e];
      }
    }
  }

  /** Scanning one more entry of a page. */
  lemma ScanOneMore(parse: Parse, es: seq<Entry>, e: Entry)
    ensures ScanAll(parse, es + [e]) == if ScanAll(parse, es).Kept? then Take(parse, ScanAll(parse, es).entries, e)
        else ScanAll(parse, es)
  {
    assert (es + [e])[..|es|] == es;
  }

  lemma PageSplits(page: seq<Trade>, k: nat, ours: Raw, role: Role)
    requires k < |page|
    ensures Entries(page[..k + 1], ours, role) == Entries(page[..k], ours, role) + RowEntries(page[k], ours, role)
    ensures Entries(page, ours, role) == Entries(page[..k + 1], ours, role) + Entries(page[k + 1..], ours, role)
  {
    hide RowEntries;
    assert page[..k + 1][..k] == page[..k];
    assert page == page[..k + 1] + page[k + 1..];
    EntriesSplit(page[..k + 1], page[k + 1..], ours, role);
  }

  /** Sums, average and uniform fee of the kept rows. */
  method Summarise(parse: Parse, kept: seq<Entry>) returns (f: Fills)
    ensures f == Summary(parse, kept)
  {
    if kept == [] { return NoEvidence; }
    var total, notional, k := 0.0, 0.0, 0;
    while k < |kept|
      invariant 0 <= k <= |kept| && total == Total(parse, kept[..k]) && notional == Notional(parse, kept[..k])
    {
      assert kept[..k + 1][..k] == kept[..k];
      total := total + SizeOf(parse, kept[k]);
      notional := notional + ValueOf(parse, kept[k]);
      k := k + 1;
    }
    assert kept[..k] == kept;
    if total <= 0.0 { return NoEvidence; }
    var fee := UniformFee(parse, kept);
    return Known(Evidence(total, notional / total, fee, Ids(kept)));
  }

  method UniformFee(parse: Parse, kept: seq<Entry>) returns (fee: Option<real>)
    ensures fee == Fee(parse, kept)
  {
    var k := 0;
    while k < |kept|
      invariant 0 <= k <= |kept|
      invariant forall j :: 0 <= j < k ==>
          Number(parse, kept[j].fee).Some? && Number(parse, kept[j].fee) == Number(parse, kept[0].fee)
    {
      var rate := Number(parse, kept[k].fee);
      if rate.None? || rate != Number(parse, kept[0].fee) {
        assert kept[k] in kept;
        return None;
      }
      k := k + 1;
    }
    return if kept == [] then None else Number(parse, kept[0].fee);
  }

  method AggregateTaker(parse: Parse, page: seq<Trade>, ours: Raw) returns (f: Fills)
    ensures f == Aggregate(parse, Entries(page, ours, AsTaker))
  {
    hide ScanAll, Entries;
    var kept: seq<Entry>, seen: set<Entry>, ids: set<string>, k := [], {}, {}, 0;
    NothingScanned(parse, page, ours);
    while k < |page|
      invariant 0 <= k <= |page| && Remembers(kept, seen, ids)
      invariant ScanAll(parse, Entries(page[..k], ours, AsTaker)) == Kept(kept)
    {
      var t := page[k];
      ghost var before := Entries(page[..k], ours, AsTaker);
      ghost var rest := Entries(page[k + 1..], ours, AsTaker);
      PageSplits(page, k, ours, AsTaker);
      k := k + 1;
      if !Confirmed(t) || t.taker != ours { assert before + [] == before; continue; }
      var e := Entry(t.id, t.status, t.taker, t.taker, t.side, t.size, t.price, t.fee);
      ScanOneMore(parse, before, e);
      if e in seen { continue; }
      if e.id in ids { ScanStops(parse, before + [e], rest); return InConflict; }
      if !Parsed(parse, e) { ScanStops(parse, before + [e], rest); return NoEvidence; }
      RememberMore(kept, seen, ids, e);
      kept, seen, ids := kept + [e], seen + {e}, ids + {e.id};
    }
    assert page[..k] == page;
    f := Summarise(parse, kept);
  }

  lemma NothingScanned(parse: Parse, page: seq<Trade>, ours: Raw)
    ensures ScanAll(parse, Entries(page[..0], ours, AsTaker)) == Kept([])
    ensures ScanAll(parse, Entries(page[..0], ours, AsMaker)) == Kept([])
  {
  }

  lemma {:induction false} SlotsSplit(t: Trade, a: seq<Slot>, b: seq<Slot>, ours: Raw)
    ensures SlotEntries(t, a + b, ours) == SlotEntries(t, a, ours) + SlotEntries(t, b, ours)
    decreases |b|
  {
    if b == [] {
      assert a + b == a;
    } else {
      SlotsSplit(t, a, b[..|b| - 1], ours);
      assert (a + b)[..|a + b| - 1] == a + b[..|b| - 1];
    }
  }

  lemma SlotStep(t: Trade, slots: seq<Slot>, j: nat, ours: Raw)
    requires j < |slots|
    ensures var m := slots[j];
      SlotEntries(t, slots[..j + 1], ours) == SlotEntries(t, slots[..j], ours)
        + (if m.orderId == ours then [Entry(t.id, t.status, t.taker, m.orderId, m.side, m.amount, m.price, m.fee)]
            else [])
    ensures SlotEntries(t, slots, ours) == SlotEntries(t, slots[..j + 1], ours) + SlotEntries(t, slots[j + 1..], ours)
  {
    assert slots[..j + 1][..j] == slots[..j];
    assert slots == slots[..j + 1] + slots[j + 1..];
    SlotsSplit(t, slots[..j + 1], slots[j + 1..], ours);
  }

  /** The inner loop, over the maker slots of one row; some result when the page is decided here. */
  method TakeSlots(parse: Parse, t: Trade, ours: Raw, ghost before: seq<Entry>, kept0: seq<Entry>, seen0: set<Entry>,
      ids0: set<string>)
    returns (stop: Option<Fills>, kept: seq<Entry>, seen: set<Entry>, ids: set<string>)
    requires ScanAll(parse, before) == Kept(kept0) && Remembers(kept0, seen0, ids0)
    ensures var s := ScanAll(parse, before + SlotEntries(t, t.makers, ours));
      && (stop.None? ==> s == Kept(kept) && Remembers(kept, seen, ids))
      && (stop.Some? ==> !s.Kept? && stop.value == FillsOf(parse, s))
  {
    hide ScanAll, SlotEntries;
    stop, kept, seen, ids := None, kept0, seen0, ids0;
    var j := 0;
    NoSlots(t, t.makers, ours);
    assert before + [] == before;
    while j < |t.makers|
      invariant 0 <= j <= |t.makers| && Remembers(kept, seen, ids)
      invariant ScanAll(parse, before + SlotEntries(t, t.makers[..j], ours)) == Kept(kept)
    {
      var m := t.makers[j];
      SlotStep(t, t.makers, j, ours);
      ghost var now := before + SlotEntries(t, t.makers[..j], ours);
      ghost var tail := SlotEntries(t, t.makers[j + 1..], ours);
      j := j + 1;
      if m.orderId != ours { assert before + SlotEntries(t, t.makers[..j], ours) == now; continue; }
      var e := Entry(t.id, t.status, t.taker, m.orderId, m.side, m.amount, m.price, m.fee);
      ScanOneMore(parse, now, e);
      Associate(before, SlotEntries(t, t.makers[..j - 1], ours), [e]);
      Associate(before, SlotEntries(t, t.makers[..j], ours), tail);
      if e in seen { continue; }
      if e.id in ids { ScanStops(parse, now + [e], tail); return Some(InConflict), kept, seen, ids; }
      if !Parsed(parse, e) { ScanStops(parse, now + [e], tail); return Some(NoEvidence), kept, seen, ids; }
      RememberMore(kept, seen, ids, e);
      kept, seen, ids := kept + [e], seen + {e}, ids + {e.id};
    }
    assert t.makers[..j] == t.makers;
  }

  lemma NoSlots(t: Trade, slots: seq<Slot>, ours: Raw)
    ensures SlotEntries(t, slots[..0], ours) == []
  {
  }

  method AggregateMaker(parse: Parse, page: seq<Trade>, ours: Raw) returns (f: Fills)
    ensures f == Aggregate(parse, Entries(page, ours, AsMaker))
  {
    hide ScanAll, Entries;
    var kept: seq<Entry>, seen: set<Entry>, ids: set<string>, k := [], {}, {}, 0;
    NothingScanned(parse, page, ours);
    while k < |page|
      invariant 0 <= k <= |page| && Remembers(kept, seen, ids)
      invariant ScanAll(parse, Entries(page[..k], ours, AsMaker)) == Kept(kept)
    {
      ghost var before := Entries(page[..k], ours, AsMaker);
      PageSplits(page, k, ours, AsMaker);
      if !Confirmed(page[k]) {
        assert before + [] == before;
      } else {
        var stop;
        stop, kept, seen, ids := TakeSlots(parse, page[k], ours, before, kept, seen, ids);
        if stop.Some? {
          ScanStops(parse, before + RowEntries(page[k], ours, AsMaker), Entries(page[k + 1..], ours, AsMaker));
          return stop.value;
        }
      }
      k := k + 1;
    }
    assert page[..k] == page;
    f := Summarise(parse, kept);
  }

  /** The first confirmed fill of ours, taker before maker within a row. */
  method FindConfirmedFill(page: seq<Trade>, ours: Raw) returns (first: First)
    ensures first == FirstFill(page, ours)
  {
    var k := 0;
    while k < |page|
      invariant 0 <= k <= |page| && FirstFill(page[..k], ours).NoFill?
    {
      var t := page[k];
      assert page[..k + 1][..k] == page[..k];
      assert page == page[..k + 1] + page[k + 1..];
      FirstSplit(page[..k + 1], page[k + 1..], ours);
      first := FirstInRow(t, ours);
      if first.First? { return first; }
      k := k + 1;
    }
    assert page[..k] == page;
    return NoFill;
  }

  /** The resolution as the code reaches it: aggregates are computed only where a branch asks for them. */
  method DecideArafResolution(parse: Parse, i: Intent, o: Order, page: seq<Trade>) returns (r: Resolution)
    ensures r == Decide(parse, i, o, page)
  {
    hide Aggregate, FirstFill, NormSide, Entries, Single;
    var first := FindConfirmedFill(page, i.orderId);
    if first.NoFill? || NormSide(first.entry.side) != NormSide(i.side) { return OPEN; }
    var filled, target := Number(parse, first.entry.size), Target(parse, i, o);
    if filled.None? || target.None? || filled.value <= 0.0 { return OPEN; }
    if target.value > 0.0 {
      var all;
      if first.role.AsTaker? {
        all := AggregateTaker(parse, page, i.orderId);
      } else {
        all := AggregateMaker(parse, page, i.orderId);
      }
      if all.InConflict? { return OPEN; }
      if all.Known? && all.evidence.size == target.value { return Resolution(Filled, Some(all.evidence)); }
      if filled == target {
        var one := Single(parse, Entries(page, i.orderId, AsTaker));
        return Resolution(Filled, if one.Some? then one else Single(parse, Entries(page, i.orderId, AsMaker)));
      }
    }
    if filled.value < target.value && Live(o) { return OPEN; }
    var taken := AggregateTaker(parse, page, i.orderId);
    if taken.InConflict? { return OPEN; }
    if taken.Known? { return Resolution(PartialFilled, Some(taken.evidence)); }
    var made := AggregateMaker(parse, page, i.orderId);
    if made.InConflict? { return OPEN; }
    return Resolution(PartialFilled, if made.Known? then Some(made.evidence) else None);
  }
}
