/** Order and trade records combined into the fate of an unresolved intent (data/clob_reconcile.py).

    Field values are kept raw; `parse` reads a decimal out of a text, or fails. */
module DualOracle {
  import opened Wrappers

  type Raw = Option<string>
  type Parse = string -> Option<real>

  datatype Slot = Slot(orderId: Raw, side: Raw, amount: Raw, price: Raw, fee: Raw)

  datatype Trade = Trade(id: string, status: Raw, taker: Raw, side: Raw, size: Raw, price: Raw, fee: Raw,
      makers: seq<Slot>)

  datatype Order = Order(originalSize: Raw, status: Raw)

  datatype Intent = Intent(orderId: Raw, side: Raw, size: Raw)

  datatype State = RecoveryRequired | Filled | PartialFilled

  datatype Evidence = Evidence(size: real, average: real, fee: Option<real>, ids: seq<string>)

  datatype Resolution = Resolution(state: State, evidence: Option<Evidence>)

  const OPEN := Resolution(RecoveryRequired, None)

  // ---- normal forms ----------------------------------------------------------------------------

  function Upper(s: string): string {
    seq(|s|, i requires 0 <= i < |s| => if 'a' <= s[i] <= 'z' then (s[i] as int - 32) as char else s[i])
  }

  function Strip(s: string): string
    decreases |s|
  {
    if s != "" && s[0] == ' ' then Strip(s[1..])
    else if s != "" && s[|s| - 1] == ' ' then Strip(s[..|s| - 1])
    else s
  }

  function Text(r: Raw): string { if r.None? then "" else Upper(Strip(r.value)) }

  function Without(s: string, p: string, q: string): string {
    if p <= s then s[|p|..] else if q <= s then s[|q|..] else s
  }

  function NormStatus(r: Raw): string { Without(Text(r), "ORDER_STATUS_", "TRADE_STATUS_") }
  function NormSide(r: Raw): string { Without(Text(r), "TAKER_", "MAKER_") }

  predicate Confirmed(t: Trade) { NormStatus(t.status) == "CONFIRMED" }
  predicate Live(o: Order) { NormStatus(o.status) == "LIVE" || NormStatus(o.status) == "MATCHED" }

  function Number(parse: Parse, r: Raw): Option<real> { if r.None? then None else parse(r.value) }

  // ---- our fills in a page ---------------------------------------------------------------------

  datatype Role = AsTaker | AsMaker

  /** The raw accounting fields of one of our fills; two fills are the same row when all of them agree. */
  datatype Entry = Entry(id: string, status: Raw, taker: Raw, owner: Raw, side: Raw, size: Raw, price: Raw, fee: Raw)

  function SlotEntries(t: Trade, slots: seq<Slot>, ours: Raw): seq<Entry>
    decreases |slots|
  {
    if slots == [] then []
    else
      var n := |slots| - 1;
      var m := slots[n];
      var before := SlotEntries(t, slots[..n], ours);
      if m.orderId == ours then before + [Entry(t.id, t.status, t.taker, m.orderId, m.side, m.amount, m.price, m.fee)]
          else before
  }

  function RowEntries(t: Trade, ours: Raw, role: Role): seq<Entry> {
    if !Confirmed(t) then []
    else if role.AsMaker? then SlotEntries(t, t.makers, ours)
    else if t.taker == ours then [Entry(t.id, t.status, t.taker, t.taker, t.side, t.size, t.price, t.fee)]
    else []
  }

  function Entries(page: seq<Trade>, ours: Raw, role: Role): seq<Entry>
    decreases |page|
  {
    if page == [] then [] else Entries(page[..|page| - 1], ours, role) + RowEntries(page[|page| - 1], ours, role)
  }

  datatype First = NoFill | First(role: Role, entry: Entry)

  /** Within a row our taker side comes before our maker slots. */
  function FirstInRow(t: Trade, ours: Raw): First {
    if RowEntries(t, ours, AsTaker) != [] then First(AsTaker, RowEntries(t, ours, AsTaker)[0])
    else if RowEntries(t, ours, AsMaker) != [] then First(AsMaker, RowEntries(t, ours, AsMaker)[0])
    else NoFill
  }

  function FirstFill(page: seq<Trade>, ours: Raw): First
    decreases |page|
  {
    if page == [] then NoFill
    else
      var before := FirstFill(page[..|page| - 1], ours);
      if before.First? then before else FirstInRow(page[|page| - 1], ours)
  }

  // ---- aggregation -----------------------------------------------------------------------------

  predicate Parsed(parse: Parse, e: Entry) { Number(parse, e.size).Some? && Number(parse, e.price).Some? }

  datatype Scan = Conflict | Unparsed | Kept(entries: seq<Entry>)

  /** One row: an identical copy is skipped, another row of the same id is a conflict, a row that cannot
      be read spoils the page. */
  function Take(parse: Parse, kept: seq<Entry>, e: Entry): Scan {
    if e in kept then Kept(kept)
    else if exists k :: k in kept && k.id == e.id then Conflict
    else if !Parsed(parse, e) then Unparsed
    else Kept(kept + [e])
  }

  function ScanAll(parse: Parse, es: seq<Entry>): Scan
    decreases |es|
  {
    if es == [] then Kept([])
    else
      var before := ScanAll(parse, es[..|es| - 1]);
      if before.Kept? then Take(parse, before.entries, es[|es| - 1]) else before
  }

  function SizeOf(parse: Parse, e: Entry): real {
    if Number(parse, e.size).Some? then Number(parse, e.size).value else 0.0
  }
  function PriceOf(parse: Parse, e: Entry): real {
    if Number(parse, e.price).Some? then Number(parse, e.price).value else 0.0
  }

  function ValueOf(parse: Parse, e: Entry): real { SizeOf(parse, e) * PriceOf(parse, e) }

  function Total(parse: Parse, es: seq<Entry>): real
    decreases |es|
  {
    if es == [] then 0.0 else Total(parse, es[..|es| - 1]) + SizeOf(parse, es[|es| - 1])
  }

  function Notional(parse: Parse, es: seq<Entry>): real
    decreases |es|
  {
    if es == [] then 0.0
    else Notional(parse, es[..|es| - 1]) + ValueOf(parse, es[|es| - 1])
  }

  /** The one fee rate all rows agree on, if there is one. */
  function Fee(parse: Parse, es: seq<Entry>): Option<real> {
    if es != [] && Number(parse, es[0].fee).Some? && forall e :: e in es ==>
        Number(parse, e.fee) == Number(parse, es[0].fee)
    then Number(parse, es[0].fee)
    else None
  }

  function Ids(es: seq<Entry>): seq<string> { seq(|es|, k requires 0 <= k < |es| => es[k].id) }

  datatype Fills = InConflict | NoEvidence | Known(evidence: Evidence)

  function Summary(parse: Parse, kept: seq<Entry>): Fills {
    if kept == [] || Total(parse, kept) <= 0.0 then NoEvidence
    else Known(Evidence(Total(parse, kept), Notional(parse, kept) / Total(parse, kept), Fee(parse, kept), Ids(kept)))
  }

  function FillsOf(parse: Parse, s: Scan): Fills {
    match s
    case Conflict => InConflict
    case Unparsed => NoEvidence
    case Kept(kept) => Summary(parse, kept)
  }

  function Aggregate(parse: Parse, es: seq<Entry>): Fills { FillsOf(parse, ScanAll(parse, es)) }

  /** The evidence of a single fill, the first of its role. */
  function Single(parse: Parse, es: seq<Entry>): Option<Evidence> {
    if es == [] || !Parsed(parse, es[0]) then None
    else Some(Evidence(SizeOf(parse, es[0]), PriceOf(parse, es[0]), Number(parse, es[0].fee), [es[0].id]))
  }

  // ---- the decision ----------------------------------------------------------------------------

  /** All the decision sees of a page. */
  datatype View = View(first: First, takers: Fills, makers: Fills, taker1: Option<Evidence>, maker1: Option<Evidence>)

  function Look(parse: Parse, page: seq<Trade>, ours: Raw): View {
    View(FirstFill(page, ours),
         Aggregate(parse, Entries(page, ours, AsTaker)), Aggregate(parse, Entries(page, ours, AsMaker)),
         Single(parse, Entries(page, ours, AsTaker)), Single(parse, Entries(page, ours, AsMaker)))
  }

  function Target(parse: Parse, i: Intent, o: Order): Option<real> {
    Number(parse, if o.originalSize.Some? then o.originalSize else i.size)
  }

  function Partial(v: View): Resolution {
    if v.takers.InConflict? then OPEN
    else if v.takers.Known? then Resolution(PartialFilled, Some(v.takers.evidence))
    else if v.makers.InConflict? then OPEN
    else Resolution(PartialFilled, if v.makers.Known? then Some(v.makers.evidence) else None)
  }

  function Judge(v: View, filled: real, target: real, live: bool): Resolution
    requires v.first.First?
  {
    var role := v.first.role;
    var all := if role.AsTaker? then v.takers else v.makers;
    if filled <= 0.0 then OPEN
    else if target > 0.0 && all.InConflict? then OPEN
    else if target > 0.0 && all.Known? && all.evidence.size == target then Resolution(Filled, Some(all.evidence))
    else if target > 0.0 && filled == target then Resolution(Filled, if v.taker1.Some? then v.taker1 else v.maker1)
    else if filled < target && live then OPEN
    else Partial(v)
  }

  function Decide(parse: Parse, i: Intent, o: Order, page: seq<Trade>): Resolution {
    var v := Look(parse, page, i.orderId);
    if v.first.NoFill? || NormSide(v.first.entry.side) != NormSide(i.side) then OPEN
    else if Number(parse, v.first.entry.size).None? || Target(parse, i, o).None? then OPEN
    else Judge(v, Number(parse, v.first.entry.size).value, Target(parse, i, o).value, Live(o))
  }

  // ---- an exact copy changes nothing -----------------------------------------------------------

  lemma {:induction false} EntriesSplit(a: seq<Trade>, b: seq<Trade>, ours: Raw, role: Role)
    ensures Entries(a + b, ours, role) == Entries(a, ours, role) + Entries(b, ours, role)
    decreases |b|
  {
    hide RowEntries;
    if b == [] {
      assert a + b == a;
    } else {
      var front, last := b[..|b| - 1], b[|b| - 1];
      EntriesSplit(a, front, ours, role);
      assert (a + b)[..|a + b| - 1] == a + front && (a + b)[|a + b| - 1] == last;
      Associate(Entries(a, ours, role), Entries(front, ours, role), RowEntries(last, ours, role));
    }
  }

  lemma Associate<T>(a: seq<T>, b: seq<T>, c: seq<T>)
    ensures (a + b) + c == a + (b + c)
  {
  }

  lemma {:induction false} RowIsInPage(page: seq<Trade>, k: nat, ours: Raw, role: Role)
    requires k < |page|
    ensures forall e :: e in RowEntries(page[k], ours, role) ==> e in Entries(page, ours, role)
    decreases |page|
  {
    if k < |page| - 1 { RowIsInPage(page[..|page| - 1], k, ours, role); }
  }

  lemma {:induction false} FirstSplit(a: seq<Trade>, b: seq<Trade>, ours: Raw)
    ensures FirstFill(a + b, ours) == if FirstFill(a, ours).First? then FirstFill(a, ours) else FirstFill(b, ours)
    decreases |b|
  {
    if b == [] {
      assert a + b == a;
    } else {
      FirstSplit(a, b[..|b| - 1], ours);
      assert (a + b)[..|a + b| - 1] == a + b[..|b| - 1];
    }
  }

  lemma {:induction false} NoFirstAnywhere(page: seq<Trade>, k: nat, ours: Raw)
    requires k < |page| && FirstFill(page, ours).NoFill?
    ensures FirstInRow(page[k], ours).NoFill?
    decreases |page|
  {
    if k < |page| - 1 { NoFirstAnywhere(page[..|page| - 1], k, ours); }
  }

  lemma {:induction false} ScanKeepsAll(parse: Parse, es: seq<Entry>)
    requires ScanAll(parse, es).Kept?
    ensures forall e :: e in es ==> e in ScanAll(parse, es).entries
    decreases |es|
  {
    if es != [] { ScanKeepsAll(parse, es[..|es| - 1]); }
  }

  /** Rows already seen in `a` may come again. */
  lemma {:induction false} CopiesAreSkipped(parse: Parse, a: seq<Entry>, x: seq<Entry>)
    requires forall e :: e in x ==> e in a
    ensures ScanAll(parse, a + x) == ScanAll(parse, a)
    decreases |x|
  {
    if x == [] {
      assert a + x == a;
    } else {
      CopiesAreSkipped(parse, a, x[..|x| - 1]);
      assert (a + x)[..|a + x| - 1] == a + x[..|x| - 1];
      assert x[|x| - 1] in x;
      if ScanAll(parse, a).Kept? { ScanKeepsAll(parse, a); }
    }
  }

  lemma {:induction false} SameScanSameTail(parse: Parse, a: seq<Entry>, a': seq<Entry>, b: seq<Entry>)
    requires ScanAll(parse, a) == ScanAll(parse, a')
    ensures ScanAll(parse, a + b) == ScanAll(parse, a' + b)
    decreases |b|
  {
    if b == [] {
      assert a + b == a && a' + b == a';
    } else {
      SameScanSameTail(parse, a, a', b[..|b| - 1]);
      assert (a + b)[..|a + b| - 1] == a + b[..|b| - 1];
      assert (a' + b)[..|a' + b| - 1] == a' + b[..|b| - 1];
    }
  }

  lemma EntriesOfCopy(page: seq<Trade>, i: nat, j: nat, ours: Raw, role: Role)
    requires i < j <= |page|
    ensures var a, x, b := Entries(page[..j], ours, role), RowEntries(page[i], ours, role),
        Entries(page[j..], ours, role);
      && Entries(page[..j] + [page[i]] + page[j..], ours, role) == a + x + b
      && Entries(page, ours, role) == a + b
      && forall e :: e in x ==> e in a
  {
    hide RowEntries;
    EntriesSplit(page[..j] + [page[i]], page[j..], ours, role);
    EntriesSplit(page[..j], [page[i]], ours, role);
    EntriesSplit(page[..j], page[j..], ours, role);
    assert page == page[..j] + page[j..];
    assert [page[i]][..0] == [];
    assert page[..j][i] == page[i];
    RowIsInPage(page[..j], i, ours, role);
  }

  lemma CopyKeepsEntries(parse: Parse, page: seq<Trade>, i: nat, j: nat, ours: Raw, role: Role)
    requires i < j <= |page|
    ensures var copied := page[..j] + [page[i]] + page[j..];
      && Aggregate(parse, Entries(copied, ours, role)) == Aggregate(parse, Entries(page, ours, role))
      && Single(parse, Entries(copied, ours, role)) == Single(parse, Entries(page, ours, role))
  {
    hide RowEntries, Entries, FillsOf, Parsed;
    EntriesOfCopy(page, i, j, ours, role);
    var a, x, b := Entries(page[..j], ours, role), RowEntries(page[i], ours, role), Entries(page[j..], ours, role);
    CopiesAreSkipped(parse, a, x);
    SameScanSameTail(parse, a + x, a, b);
    if a == [] { assert x == [] && a + x + b == a + b; }
  }

  /** An exact copy of any row, put anywhere after it, leaves the whole resolution as it is: state, size,
      average, fee and ids, in every role, with conflicts and unreadable rows. */
  lemma CopyChangesNothing(parse: Parse, i: Intent, o: Order, page: seq<Trade>, row: nat, at: nat)
    requires row < at <= |page|
    ensures Decide(parse, i, o, page[..at] + [page[row]] + page[at..]) == Decide(parse, i, o, page)
  {
    hide Judge, Aggregate, Single, NormSide, Target, Entries, FirstFill;
    CopyKeepsEntries(parse, page, row, at, i.orderId, AsTaker);
    CopyKeepsEntries(parse, page, row, at, i.orderId, AsMaker);
    CopyKeepsFirst(page, row, at, i.orderId);
  }

  lemma CopyKeepsFirst(page: seq<Trade>, row: nat, at: nat, ours: Raw)
    requires row < at <= |page|
    ensures FirstFill(page[..at] + [page[row]] + page[at..], ours) == FirstFill(page, ours)
  {
    hide FirstInRow;
    FirstSplit(page[..at] + [page[row]], page[at..], ours);
    FirstSplit(page[..at], [page[row]], ours);
    FirstSplit(page[..at], page[at..], ours);
    assert page == page[..at] + page[at..];
    assert [page[row]][..0] == [];
    if FirstFill(page[..at], ours).NoFill? {
      assert page[..at][row] == page[row];
      NoFirstAnywhere(page[..at], row, ours);
    }
  }
}
