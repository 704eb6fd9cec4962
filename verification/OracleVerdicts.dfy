/** The verdict on a page, read off its rows: what a live order, a dead one and a whole one come to. */
module OracleVerdicts {
  import opened Wrappers
  import opened DualOracle
  import opened OraclePermutation

  // ---- normal forms ----------------------------------------------------------------------------

  lemma StatusPrefixes()
    ensures NormStatus(Some("ORDER_STATUS_LIVE")) == "LIVE" && NormStatus(Some("TRADE_STATUS_CONFIRMED")) == "CONFIRMED"
  {
    var a, b := "ORDER_STATUS_LIVE", "TRADE_STATUS_CONFIRMED";
    assert Strip(a) == a && Strip(b) == b;
    assert Upper(a) == a && Upper(b) == b;
    assert a == "ORDER_STATUS_" + "LIVE" && b == "TRADE_STATUS_" + "CONFIRMED";
    assert "TRADE_STATUS_"[0] != "ORDER_STATUS_"[0];
    hide Strip, Upper;
  }

  lemma SidePrefixes()
    ensures NormSide(Some("TAKER_BUY")) == "BUY" && NormSide(Some("MAKER_BUY")) == "BUY"
  {
    var a, b := "TAKER_BUY", "MAKER_BUY";
    assert Strip(a) == a && Strip(b) == b;
    assert Upper(a) == a && Upper(b) == b;
    assert a == "TAKER_" + "BUY" && b == "MAKER_" + "BUY";
    assert "MAKER_"[0] != "TAKER_"[0];
    hide Strip, Upper;
  }

  lemma LooseText()
    ensures Text(Some(" live ")) == "LIVE"
  {
    assert " live "[1..] == "live " && "live "[..4] == "live";
    assert Strip("live") == "live";
    assert Strip("live ") == "live";
    assert Strip(" live ") == "live";
    assert Upper("live") == "LIVE";
    hide Strip, Upper;
  }

  /** Texts are compared stripped, in capitals, and without their prefixes. */
  lemma TextsAreNormal()
    ensures NormStatus(Some(" live ")) == "LIVE" && NormStatus(Some("ORDER_STATUS_LIVE")) == "LIVE"
    ensures NormStatus(Some("TRADE_STATUS_CONFIRMED")) == "CONFIRMED"
    ensures NormSide(Some("TAKER_BUY")) == "BUY" && NormSide(Some("MAKER_BUY")) == "BUY"
  {
    StatusPrefixes();
    SidePrefixes();
    LooseText();
    assert |"LIVE"| < |"ORDER_STATUS_"| && |"LIVE"| < |"TRADE_STATUS_"|;
    hide Text;
  }

  // ---- what is aggregated ----------------------------------------------------------------------

  /** Every row can be read, and no two different rows share an id. */
  ghost predicate Clean(parse: Parse, es: seq<Entry>) { !HasBad(parse, es) && !HasClash(es) }

  /** A page is kept exactly when it is clean, and then each different row is kept once, in order. */
  lemma {:induction false} KeptAreTheRows(parse: Parse, es: seq<Entry>)
    ensures ScanAll(parse, es).Kept? <==> Clean(parse, es)
    ensures Clean(parse, es) ==> ScanAll(parse, es) == Kept(Dedup(es))
    decreases |es|
  {
    ScanFinds(parse, es);
    if es != [] && ScanAll(parse, es).Kept? {
      var front, last := es[..|es| - 1], es[|es| - 1];
      assert es == front + [last];
      KeptAreTheRows(parse, front);
      KeptMeans(parse, front);
      hide Parsed;
    }
  }

  /** Totals, average, fee and ids of the different rows. */
  function Account(parse: Parse, es: seq<Entry>): Evidence
    requires Total(parse, Dedup(es)) > 0.0
  {
    var rows := Dedup(es);
    Evidence(Total(parse, rows), Notional(parse, rows) / Total(parse, rows), Fee(parse, rows), Ids(rows))
  }

  lemma CleanIsAccounted(parse: Parse, es: seq<Entry>)
    requires es != [] && Clean(parse, es)
    ensures Aggregate(parse, es) == if Total(parse, Dedup(es)) > 0.0 then Known(Account(parse, es)) else NoEvidence
    ensures Total(parse, Dedup(es)) > 0.0 ==> Account(parse, es).size == Total(parse, Dedup(es))
  {
    hide Total, Notional, Fee, Ids, Dedup, ScanAll, Clean;
    KeptAreTheRows(parse, es);
    assert es[0] in Dedup(es);
  }

  /** Evidence is always that of a clean role; its size is the total of the different rows. */
  lemma KnownIsAccounted(parse: Parse, es: seq<Entry>)
    ensures Aggregate(parse, es).Known? ==>
      Clean(parse, es) && Total(parse, Dedup(es)) > 0.0 && Aggregate(parse, es).evidence == Account(parse, es)
      && Account(parse, es).size == Total(parse, Dedup(es))
  {
    hide Total, Notional, Fee, Ids, Dedup, ScanAll, Clean;
    KeptAreTheRows(parse, es);
  }

  // ---- the order and its first fill ------------------------------------------------------------

  /** The order wants `target`: its own size, or else the intent's. */
  predicate Wants(parse: Parse, i: Intent, o: Order, target: real) {
    match o.originalSize
    case Some(text) => parse(text) == Some(target)
    case None => i.size.Some? && parse(i.size.value) == Some(target)
  }

  /** Our first confirmed fill is `filled` shares in the given role, on the intent's side. */
  predicate FillsFirst(parse: Parse, i: Intent, page: seq<Trade>, role: Role, filled: real) {
    var f := FirstFill(page, i.orderId);
    && f.First? && f.role == role && NormSide(f.entry.side) == NormSide(i.side)
    && f.entry.size.Some? && parse(f.entry.size.value) == Some(filled)
  }

  predicate InBook(o: Order) { NormStatus(o.status) in ["LIVE", "MATCHED"] }

  /** The rows of a role are all of the order: clean, and together exactly the target. */
  ghost predicate Whole(parse: Parse, es: seq<Entry>, target: real) {
    Clean(parse, es) && Total(parse, Dedup(es)) == target
  }

  lemma {:induction false} FirstHasRows(page: seq<Trade>, ours: Raw)
    ensures FirstFill(page, ours).First? ==> Entries(page, ours, FirstFill(page, ours).role) != []
    decreases |page|
  {
    if page != [] { FirstHasRows(page[..|page| - 1], ours); }
  }

  /** A row is a confirmed one of ours, as taker or through one of its maker slots. */
  predicate OurRow(t: Trade, ours: Raw) {
    NormStatus(t.status) == "CONFIRMED" && (t.taker == ours
        || exists k :: 0 <= k < |t.makers| && t.makers[k].orderId == ours)
  }

  function SlotEntry(t: Trade, m: Slot, ours: Raw): Entry {
    Entry(t.id, t.status, t.taker, ours, m.side, m.amount, m.price, m.fee)
  }

  /** Slot `k` is the first of ours. */
  predicate FirstSlot(slots: seq<Slot>, ours: Raw, k: nat) {
    k < |slots| && slots[k].orderId == ours && forall j :: 0 <= j < k ==> slots[j].orderId != ours
  }

  lemma {:induction false} SlotsOf(t: Trade, slots: seq<Slot>, ours: Raw) returns (k: nat)
    ensures SlotEntries(t, slots, ours) == [] <==> forall j :: 0 <= j < |slots| ==> slots[j].orderId != ours
    ensures SlotEntries(t, slots, ours) != [] ==>
      FirstSlot(slots, ours, k) && SlotEntries(t, slots, ours)[0] == SlotEntry(t, slots[k], ours)
    decreases |slots|
  {
    k := 0;
    if slots != [] {
      var n := |slots| - 1;
      var front := slots[..n];
      k := SlotsOf(t, front, ours);
      assert forall j :: 0 <= j < n ==> front[j] == slots[j];
      if SlotEntries(t, front, ours) == [] { k := n; }
    }
  }

  /** What the first fill of row `t` of ours is: the row's own fields where we are its taker, else those of the
      first slot of ours. */
  ghost predicate FirstOfRow(f: First, t: Trade, ours: Raw) {
    && f.First?
    && if t.taker == ours then f == First(AsTaker, Entry(t.id, t.status, t.taker, ours, t.side, t.size, t.price, t.fee))
       else
         && f.role == AsMaker
         && exists k: nat :: FirstSlot(t.makers, ours, k) && f.entry == SlotEntry(t, t.makers[k], ours)
  }

  lemma FirstInRowMeans(t: Trade, ours: Raw)
    ensures FirstInRow(t, ours).First? <==> OurRow(t, ours)
    ensures OurRow(t, ours) ==> FirstOfRow(FirstInRow(t, ours), t, ours)
  {
    var k := SlotsOf(t, t.makers, ours);
    hide NormStatus, SlotEntries;
  }

  /** Row `k` is the first confirmed one of ours. */
  predicate FirstOurs(page: seq<Trade>, ours: Raw, k: nat) {
    k < |page| && OurRow(page[k], ours) && forall j :: 0 <= j < k ==> !OurRow(page[j], ours)
  }

  /** The fill that decides is that of the first confirmed row of ours on the page. */
  lemma {:induction false} FirstFillMeans(page: seq<Trade>, ours: Raw) returns (k: nat)
    ensures FirstFill(page, ours).NoFill? <==> forall j :: 0 <= j < |page| ==> !OurRow(page[j], ours)
    ensures FirstFill(page, ours).First? ==>
        FirstOurs(page, ours, k) && FirstOfRow(FirstFill(page, ours), page[k], ours)
    decreases |page|
  {
    hide OurRow, FirstOfRow, FirstInRow;
    k := 0;
    if page != [] {
      var n := |page| - 1;
      var front := page[..n];
      k := FirstFillMeans(front, ours);
      FirstInRowMeans(page[n], ours);
      assert forall j :: 0 <= j < n ==> front[j] == page[j];
      if FirstFill(front, ours).NoFill? { k := n; }
    }
  }

  /** A fee rate is part of the account exactly when every row carries that same readable one. */
  lemma FeeIsShared(parse: Parse, es: seq<Entry>, x: real)
    requires Total(parse, Dedup(es)) > 0.0
    ensures Account(parse, es).fee == Some(x) <==> es != [] && forall e :: e in es ==>
        e.fee.Some? && parse(e.fee.value) == Some(x)
  {
    hide Total, Notional, Ids;
    var rows := Dedup(es);
    if es != [] { assert es[0] in rows; }
    if rows != [] { assert rows[0] in rows; }
  }

  // ---- verdicts --------------------------------------------------------------------------------

  /** While the order is in the book, in either role, a first fill short of the target whose role is not
      whole settles nothing. */
  lemma LiveResidualStaysOpen(parse: Parse, i: Intent, o: Order, page: seq<Trade>, role: Role, filled: real,
      target: real)
    requires Wants(parse, i, o, target) && FillsFirst(parse, i, page, role, filled) && InBook(o)
    requires filled < target && !Whole(parse, Entries(page, i.orderId, role), target)
    ensures Decide(parse, i, o, page) == Resolution(RecoveryRequired, None)
  {
    hide Aggregate, Single, FirstFill, Entries, NormSide, NormStatus, Total, Dedup, Clean, Account;
    KnownIsAccounted(parse, Entries(page, i.orderId, role));
  }

  /** Once it is dead, a short fill whose role is clean is final: PARTIAL_FILLED with the totals of its
      different rows. */
  lemma DeadResidualIsPartial(parse: Parse, i: Intent, o: Order, page: seq<Trade>, role: Role, filled: real,
      target: real)
    requires Wants(parse, i, o, target) && FillsFirst(parse, i, page, role, filled) && !InBook(o)
    requires 0.0 < filled < target && Clean(parse, Entries(page, i.orderId, role))
    requires role.AsMaker? ==> Entries(page, i.orderId, AsTaker) == []
    requires var total := Total(parse, Dedup(Entries(page, i.orderId, role))); total > 0.0 && total != target
    ensures Decide(parse, i, o, page) == Resolution(PartialFilled, Some(Account(parse, Entries(page, i.orderId, role))))
  {
    hide Aggregate, Single, FirstFill, Entries, NormSide, NormStatus, Total, Dedup, Clean, Account;
    FirstHasRows(page, i.orderId);
    CleanIsAccounted(parse, Entries(page, i.orderId, role));
    NothingToAccount(parse);
  }

  lemma NothingToAccount(parse: Parse)
    ensures Aggregate(parse, []) == NoEvidence
  {
  }

  /** Whatever the order's status, a whole role is FILLED with its totals. */
  lemma WholeIsFilled(parse: Parse, i: Intent, o: Order, page: seq<Trade>, role: Role, filled: real, target: real)
    requires Wants(parse, i, o, target) && FillsFirst(parse, i, page, role, filled) && filled > 0.0 && target > 0.0
    requires Whole(parse, Entries(page, i.orderId, role), target)
    ensures Decide(parse, i, o, page) == Resolution(Filled, Some(Account(parse, Entries(page, i.orderId, role))))
  {
    hide Aggregate, Single, FirstFill, Entries, NormSide, NormStatus, Total, Dedup, Clean, Account;
    FirstHasRows(page, i.orderId);
    CleanIsAccounted(parse, Entries(page, i.orderId, role));
  }

  /** The evidence of a role's first row alone. */
  function FirstRow(parse: Parse, es: seq<Entry>): Option<Evidence> {
    if es != [] && es[0].size.Some? && es[0].price.Some? && parse(es[0].size.value).Some?
        && parse(es[0].price.value).Some?
    then Some(Evidence(parse(es[0].size.value).value, parse(es[0].price.value).value,
                       if es[0].fee.Some? then parse(es[0].fee.value) else None, [es[0].id]))
    else None
  }

  /** A first fill of the whole target is enough by itself where its role has no conflict; unless the whole role
      says so too, the evidence is that of our first taker row, or else of our first maker row. */
  lemma WholeFirstFillIsFilled(parse: Parse, i: Intent, o: Order, page: seq<Trade>, role: Role, target: real)
    requires Wants(parse, i, o, target) && FillsFirst(parse, i, page, role, target) && target > 0.0
    requires !HasClash(Entries(page, i.orderId, role))
    ensures var r, takers := Decide(parse, i, o, page), FirstRow(parse, Entries(page, i.orderId, AsTaker));
      && r.state == Filled
      && (!Whole(parse, Entries(page, i.orderId, role), target) ==>
            r.evidence == if takers.Some? then takers else FirstRow(parse, Entries(page, i.orderId, AsMaker)))
  {
    FirstRowIsSingle(parse, Entries(page, i.orderId, AsTaker));
    FirstRowIsSingle(parse, Entries(page, i.orderId, AsMaker));
    hide ScanAll, Single, FirstRow, FirstFill, Entries, NormSide, NormStatus, HasClash, HasBad, HasGoodClash, Summary,
        Account;
    KnownIsAccounted(parse, Entries(page, i.orderId, role));
    ScanFinds(parse, Entries(page, i.orderId, role));
    SummaryIsNoConflict(parse, ScanAll(parse, Entries(page, i.orderId, role)));
    hide Clean, Total, Dedup;
  }

  lemma FirstRowIsSingle(parse: Parse, es: seq<Entry>)
    ensures Single(parse, es) == FirstRow(parse, es)
  {
  }

  /** Where the order is dead and our taker rows cannot be read, our maker rows decide: a conflict among them
      settles nothing, and a clean account is the partial one. */
  lemma MakersStandIn(parse: Parse, i: Intent, o: Order, page: seq<Trade>, filled: real, target: real)
    requires Wants(parse, i, o, target) && FillsFirst(parse, i, page, AsTaker, filled) && !InBook(o)
        && 0.0 < filled < target
    requires HasBad(parse, Entries(page, i.orderId, AsTaker)) && !HasClash(Entries(page, i.orderId, AsTaker))
    ensures var ms := Entries(page, i.orderId, AsMaker);
      && (HasClash(ms) && !HasBad(parse, ms) ==> Decide(parse, i, o, page) == Resolution(RecoveryRequired, None))
      && (ms != [] && Clean(parse, ms) && Total(parse, Dedup(ms)) > 0.0 ==>
            Decide(parse, i, o, page) == Resolution(PartialFilled, Some(Account(parse, ms))))
  {
    hide ScanAll, Single, FirstFill, Entries, NormSide, NormStatus, HasClash, HasBad, HasGoodClash, Clean, Account,
        Total, Dedup;
    var ts, ms := Entries(page, i.orderId, AsTaker), Entries(page, i.orderId, AsMaker);
    ScanFinds(parse, ts);
    AggregateOf(parse, ts);
    AggregateOf(parse, ms);
    ScanFinds(parse, ms);
    KeptAreTheRows(parse, ts);
    KeptAreTheRows(parse, ms);
    CleanMeans(parse, ts);
    CleanMeans(parse, ms);
    if ms != [] && Clean(parse, ms) { CleanIsAccounted(parse, ms); }
    hide Aggregate;
  }

  lemma CleanMeans(parse: Parse, es: seq<Entry>)
    ensures Clean(parse, es) <==> !HasBad(parse, es) && !HasClash(es)
  {
  }

  lemma AggregateOf(parse: Parse, es: seq<Entry>)
    ensures ScanAll(parse, es).Conflict? <==> Aggregate(parse, es).InConflict?
    ensures ScanAll(parse, es).Unparsed? ==> Aggregate(parse, es).NoEvidence?
  {
    SummaryIsNoConflict(parse, ScanAll(parse, es));
    hide ScanAll, Summary;
  }

  lemma SummaryIsNoConflict(parse: Parse, s: Scan)
    ensures FillsOf(parse, s).InConflict? <==> s.Conflict?
  {
    hide Total, Notional, Fee, Ids;
  }

  /** A role in which a kept row meets another of its id before any unreadable one settles nothing. */
  lemma ConflictStaysOpen(parse: Parse, i: Intent, o: Order, page: seq<Trade>, role: Role, filled: real, target: real)
    requires Wants(parse, i, o, target) && FillsFirst(parse, i, page, role, filled) && target > 0.0
    requires HasClash(Entries(page, i.orderId, role)) && !HasBad(parse, Entries(page, i.orderId, role))
    ensures Decide(parse, i, o, page) == Resolution(RecoveryRequired, None)
  {
    hide ScanAll, Single, FirstFill, Entries, NormSide, NormStatus, HasBad, HasClash, HasGoodClash;
    ScanFinds(parse, Entries(page, i.orderId, role));
  }

  /** Without a readable, positive first fill on our side, or without a readable target, nothing is settled. */
  lemma NothingReadableStaysOpen(parse: Parse, i: Intent, o: Order, page: seq<Trade>)
    requires var f := FirstFill(page, i.orderId);
      || f.NoFill? || NormSide(f.entry.side) != NormSide(i.side) || f.entry.size.None?
      || parse(f.entry.size.value).None? || parse(f.entry.size.value).value <= 0.0
      || forall target :: !Wants(parse, i, o, target)
    ensures Decide(parse, i, o, page) == Resolution(RecoveryRequired, None)
  {
    hide Aggregate, Single, FirstFill, Entries, NormSide;
    if Target(parse, i, o).Some? { assert Wants(parse, i, o, Target(parse, i, o).value); }
  }
}
