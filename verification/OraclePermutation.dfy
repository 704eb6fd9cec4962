/** When the order of a page's rows matters to the resolution, and when it does not. */
module OraclePermutation {
  import opened Wrappers
  import Decimals
  import opened DualOracle

  // ---- what a scan finds -----------------------------------------------------------------------

  predicate Clash(a: Entry, b: Entry) { a != b && a.id == b.id }

  ghost predicate HasBad(parse: Parse, es: seq<Entry>) { exists e :: e in es && !Parsed(parse, e) }
  ghost predicate HasClash(es: seq<Entry>) { exists a, b :: a in es && b in es && Clash(a, b) }
  ghost predicate HasGoodClash(parse: Parse, es: seq<Entry>) {
    exists a, b :: a in es && b in es && Clash(a, b) && Parsed(parse, a)
  }

  predicate IdsApart(es: seq<Entry>) { forall j, k :: 0 <= j < k < |es| ==> es[j].id != es[k].id }

  lemma {:induction false} KeptMeans(parse: Parse, es: seq<Entry>)
    requires ScanAll(parse, es).Kept?
    ensures var ks := ScanAll(parse, es).entries;
      IdsApart(ks) && (forall e :: e in ks <==> e in es) && (forall e :: e in ks ==> Parsed(parse, e))
    decreases |es|
  {
    if es != [] { KeptMeans(parse, es[..|es| - 1]); }
  }

  /** A scan that keeps rows has met no unreadable row and no conflict. */
  lemma KeptIsClean(parse: Parse, es: seq<Entry>)
    requires ScanAll(parse, es).Kept?
    ensures !HasBad(parse, es) && !HasClash(es)
  {
    KeptMeans(parse, es);
    var ks := ScanAll(parse, es).entries;
    forall a, b | a in es && b in es && a.id == b.id
      ensures a == b
    {
      var j, k :| 0 <= j < |ks| && 0 <= k < |ks| && ks[j] == a && ks[k] == b;
    }
  }

  lemma {:induction false} ConflictMeans(parse: Parse, es: seq<Entry>)
    requires ScanAll(parse, es).Conflict?
    ensures HasGoodClash(parse, es)
    decreases |es|
  {
    var front, last := es[..|es| - 1], es[|es| - 1];
    if ScanAll(parse, front).Conflict? {
      ConflictMeans(parse, front);
      var a, b :| a in front && b in front && Clash(a, b) && Parsed(parse, a);
      assert a in es && b in es;
    } else {
      KeptMeans(parse, front);
      var k :| k in ScanAll(parse, front).entries && k.id == last.id;
      assert k in es && last in es && Clash(k, last);
    }
  }

  lemma {:induction false} UnparsedMeans(parse: Parse, es: seq<Entry>)
    requires ScanAll(parse, es).Unparsed?
    ensures HasBad(parse, es)
    decreases |es|
  {
    var front, last := es[..|es| - 1], es[|es| - 1];
    if ScanAll(parse, front).Unparsed? {
      UnparsedMeans(parse, front);
      var e :| e in front && !Parsed(parse, e);
      assert e in es;
    } else {
      assert last in es;
    }
  }

  // ---- permutations ----------------------------------------------------------------------------

  lemma Cut<T>(q: seq<T>, k: nat)
    requires k < |q|
    ensures q == q[..k] + [q[k]] + q[k + 1..]
    ensures multiset(q) == multiset(q[..k] + q[k + 1..]) + multiset{q[k]}
  {
    assert q == q[..k] + [q[k]] + q[k + 1..];
  }

  lemma LastOff<T>(p: seq<T>)
    requires p != []
    ensures multiset(p) == multiset(p[..|p| - 1]) + multiset{p[|p| - 1]}
  {
    assert p == p[..|p| - 1] + [p[|p| - 1]];
  }

  lemma IndexOf<T>(q: seq<T>, x: T) returns (k: nat)
    requires x in multiset(q)
    ensures k < |q| && q[k] == x
  {
    assert x in q;
    k :| k < |q| && q[k] == x;
  }

  lemma SameLess<T>(a: multiset<T>, b: multiset<T>, x: T)
    requires a + multiset{x} == b + multiset{x}
    ensures a == b
  {
    assert a == (a + multiset{x}) - multiset{x};
    assert b == (b + multiset{x}) - multiset{x};
  }

  lemma Position<T>(p: seq<T>, q: seq<T>) returns (k: nat)
    requires p != [] && multiset(p) == multiset(q)
    ensures k < |q| && q[k] == p[|p| - 1]
    ensures multiset(p[..|p| - 1]) == multiset(q[..k] + q[k + 1..])
  {
    var x := p[|p| - 1];
    LastOff(p);
    k := IndexOf(q, x);
    Cut(q, k);
    SameLess(multiset(p[..|p| - 1]), multiset(q[..k] + q[k + 1..]), x);
  }

  lemma {:induction false} PermutedEntries(p: seq<Trade>, q: seq<Trade>, ours: Raw, role: Role)
    requires multiset(p) == multiset(q)
    ensures multiset(Entries(p, ours, role)) == multiset(Entries(q, ours, role))
    decreases |p|
  {
    hide RowEntries;
    if p == [] {
      assert |multiset(q)| == |q|;
      assert q == [];
    } else {
      var k := Position(p, q);
      PermutedEntries(p[..|p| - 1], q[..k] + q[k + 1..], ours, role);
      EntriesSplit(q[..k], q[k + 1..], ours, role);
      Cut(q, k);
      EntriesSplit(q[..k] + [q[k]], q[k + 1..], ours, role);
      assert (q[..k] + [q[k]])[..k] == q[..k];
    }
  }

  lemma {:induction false} TotalSplit(parse: Parse, a: seq<Entry>, b: seq<Entry>)
    ensures Total(parse, a + b) == Total(parse, a) + Total(parse, b)
    ensures Notional(parse, a + b) == Notional(parse, a) + Notional(parse, b)
    decreases |b|
  {
    hide SizeOf, ValueOf;
    if b == [] {
      assert a + b == a;
    } else {
      TotalSplit(parse, a, b[..|b| - 1]);
      assert (a + b)[..|a + b| - 1] == a + b[..|b| - 1];
    }
  }

  lemma TotalCut(parse: Parse, q: seq<Entry>, k: nat)
    requires k < |q|
    ensures Total(parse, q) == Total(parse, q[..k] + q[k + 1..]) + SizeOf(parse, q[k])
    ensures Notional(parse, q) == Notional(parse, q[..k] + q[k + 1..]) + ValueOf(parse, q[k])
  {
    hide SizeOf, ValueOf;
    var a, x, b := q[..k], [q[k]], q[k + 1..];
    assert x[..0] == [];
    assert Total(parse, x) == SizeOf(parse, q[k]) && Notional(parse, x) == ValueOf(parse, q[k]);
    hide Total, Notional;
    Cut(q, k);
    TotalSplit(parse, a, b);
    TotalSplit(parse, a + x, b);
    TotalSplit(parse, a, x);
  }

  lemma {:induction false} PermutedTotals(parse: Parse, p: seq<Entry>, q: seq<Entry>)
    requires multiset(p) == multiset(q)
    ensures Total(parse, p) == Total(parse, q) && Notional(parse, p) == Notional(parse, q)
    decreases |p|
  {
    hide SizeOf, ValueOf, Total, Notional;
    if p == [] {
      assert |multiset(q)| == |q|;
    } else {
      var k := Position(p, q);
      var n := |p| - 1;
      PermutedTotals(parse, p[..n], q[..k] + q[k + 1..]);
      TotalCut(parse, q, k);
      TotalCut(parse, p, n);
      assert p[..n] + p[n + 1..] == p[..n];
    }
  }

  predicate NoDup(es: seq<Entry>) { forall j, k :: 0 <= j < k < |es| ==> es[j] != es[k] }

  lemma {:induction false} CountOnce(es: seq<Entry>, e: Entry)
    requires NoDup(es)
    ensures multiset(es)[e] == if e in es then 1 else 0
    decreases |es|
  {
    if es != [] {
      var n := |es| - 1;
      CountOnce(es[..n], e);
      assert es == es[..n] + [es[n]];
    }
  }

  /** Two lists without repetitions and with the same members are permutations of each other. */
  lemma SameMembers(a: seq<Entry>, b: seq<Entry>)
    requires NoDup(a) && NoDup(b) && forall e :: e in a <==> e in b
    ensures multiset(a) == multiset(b)
  {
    forall e: Entry
      ensures multiset(a)[e] == multiset(b)[e]
    {
      CountOnce(a, e);
      CountOnce(b, e);
    }
  }

  lemma {:induction false} PermutedIds(p: seq<Entry>, q: seq<Entry>)
    requires multiset(p) == multiset(q)
    ensures multiset(Ids(p)) == multiset(Ids(q))
    decreases |p|
  {
    if p == [] {
      assert |multiset(q)| == |q|;
    } else {
      var k := Position(p, q);
      PermutedIds(p[..|p| - 1], q[..k] + q[k + 1..]);
      assert Ids(p) == Ids(p[..|p| - 1]) + [p[|p| - 1].id];
      assert Ids(q) == Ids(q[..k]) + [q[k].id] + Ids(q[k + 1..]);
      assert Ids(q[..k] + q[k + 1..]) == Ids(q[..k]) + Ids(q[k + 1..]);
    }
  }

  // ---- pages where we are taker only -----------------------------------------------------------

  /** Each different row once. */
  function Dedup(es: seq<Entry>): (ds: seq<Entry>)
    ensures NoDup(ds) && forall e :: e in ds <==> e in es
    decreases |es|
  {
    if es == [] then []
    else
      var front, last := es[..|es| - 1], es[|es| - 1];
      assert es == front + [last];
      if last in front then Dedup(front) else Dedup(front) + [last]
  }

  predicate Positive(parse: Parse, es: seq<Entry>) {
    forall e :: e in es ==> Number(parse, e.size).Some? && SizeOf(parse, e) > 0.0
  }

  /** Our order is taker in every row it appears in, on the intent's side, with positive readable sizes;
      the different rows together do not exceed the target. */
  predicate TakerPage(parse: Parse, i: Intent, o: Order, page: seq<Trade>) {
    var es := Entries(page, i.orderId, AsTaker);
    && Entries(page, i.orderId, AsMaker) == []
    && (forall e :: e in es ==> NormSide(e.side) == NormSide(i.side))
    && Positive(parse, es)
    && (Target(parse, i, o).Some? ==> Total(parse, Dedup(es)) <= Target(parse, i, o).value)
  }

  lemma {:induction false} AtLeast(parse: Parse, ds: seq<Entry>, e: Entry)
    requires Positive(parse, ds)
    ensures Total(parse, ds) >= 0.0 && (e in ds ==> Total(parse, ds) >= SizeOf(parse, e))
    decreases |ds|
  {
    hide SizeOf, Number;
    if ds != [] {
      var front, last := ds[..|ds| - 1], ds[|ds| - 1];
      assert ds == front + [last] && last in ds;
      AtLeast(parse, front, e);
    }
  }

  lemma PairFits(parse: Parse, ds: seq<Entry>, e: Entry, f: Entry)
    requires Positive(parse, ds) && e in ds && f in ds && e != f
    ensures Total(parse, ds) >= SizeOf(parse, e) + SizeOf(parse, f)
  {
    hide SizeOf, Number, Total;
    var k :| 0 <= k < |ds| && ds[k] == e;
    TotalCut(parse, ds, k);
    var rest := ds[..k] + ds[k + 1..];
    assert forall x :: x in rest ==> x in ds;
    assert f in rest by { assert ds == ds[..k] + [ds[k]] + ds[k + 1..]; }
    AtLeast(parse, rest, f);
  }

  predicate Fits(parse: Parse, es: seq<Entry>, target: real) {
    Positive(parse, es) && Total(parse, Dedup(es)) <= target
  }

  /** Where a page's rows fit the target, a row as large as the target is the only one. */
  lemma FittingRows(parse: Parse, es: seq<Entry>, target: real, e: Entry)
    requires Fits(parse, es, target) && e in es
    ensures 0.0 < SizeOf(parse, e) <= target
    ensures SizeOf(parse, e) == target ==> forall f :: f in es ==> f == e
  {
    var ds := Dedup(es);
    hide SizeOf, Number, Total, Dedup;
    AtLeast(parse, ds, e);
    forall f | f in es && f != e
      ensures SizeOf(parse, e) < target
    {
      PairFits(parse, ds, e, f);
    }
  }

  function TakerView(parse: Parse, es: seq<Entry>): View
    requires es != []
  {
    View(First(AsTaker, es[0]), Aggregate(parse, es), NoEvidence, Single(parse, es), None)
  }

  function TakerJudge(parse: Parse, es: seq<Entry>, target: real, live: bool): Resolution
    requires es != []
  {
    Judge(TakerView(parse, es), SizeOf(parse, es[0]), target, live)
  }

  lemma {:induction false} FirstIsHead(page: seq<Trade>, ours: Raw)
    requires Entries(page, ours, AsMaker) == []
    ensures var es := Entries(page, ours, AsTaker);
      FirstFill(page, ours) == if es == [] then NoFill else First(AsTaker, es[0])
    decreases |page|
  {
    if page != [] {
      var front, last := page[..|page| - 1], page[|page| - 1];
      assert Entries(page, ours, AsTaker) == Entries(front, ours, AsTaker) + RowEntries(last, ours, AsTaker);
      assert Entries(page, ours, AsMaker) == Entries(front, ours, AsMaker) + RowEntries(last, ours, AsMaker);
      FirstIsHead(front, ours);
      hide Entries, RowEntries;
    }
  }

  lemma TakerPageDecides(parse: Parse, i: Intent, o: Order, page: seq<Trade>)
    requires TakerPage(parse, i, o, page)
    ensures var es, t := Entries(page, i.orderId, AsTaker), Target(parse, i, o);
      Decide(parse, i, o, page) == if es == [] || t.None? then OPEN else TakerJudge(parse, es, t.value, Live(o))
  {
    hide Judge, Target, Aggregate, NormSide, Live;
    FirstIsHead(page, i.orderId);
    var es := Entries(page, i.orderId, AsTaker);
    if es != [] { assert es[0] in es; }
    assert Aggregate(parse, []) == NoEvidence by { NoRowsNoEvidence(parse); }
  }

  lemma NoRowsNoEvidence(parse: Parse)
    ensures Aggregate(parse, []) == NoEvidence
  {
  }

  /** The verdict in terms of what the scan found. */
  function Outcome(parse: Parse, s: Scan, whole: bool, target: real, live: bool): Resolution {
    match s
    case Conflict => OPEN
    case Unparsed => if whole then Resolution(Filled, None) else if live then OPEN else Resolution(PartialFilled, None)
    case Kept(ks) =>
      if Summary(parse, ks).Known? && Total(parse, ks) == target
          then Resolution(Filled, Some(Summary(parse, ks).evidence))
      else if live then OPEN
      else if Summary(parse, ks).Known? then Resolution(PartialFilled, Some(Summary(parse, ks).evidence))
      else Resolution(PartialFilled, None)
  }

  lemma KeptTotal(parse: Parse, es: seq<Entry>, ks: seq<Entry>)
    requires ScanAll(parse, es) == Kept(ks)
    ensures multiset(ks) == multiset(Dedup(es)) && Total(parse, ks) == Total(parse, Dedup(es))
    ensures forall e :: e in ks <==> e in es
  {
    hide Total, Dedup;
    KeptMeans(parse, es);
    SameMembers(ks, Dedup(es));
    PermutedTotals(parse, ks, Dedup(es));
  }

  lemma TakerVerdict(parse: Parse, es: seq<Entry>, target: real, live: bool)
    requires es != [] && Fits(parse, es, target)
    ensures TakerJudge(parse, es, target, live) ==
        Outcome(parse, ScanAll(parse, es), SizeOf(parse, es[0]) == target, target, live)
  {
    hide SizeOf, Dedup;
    assert es[0] in es;
    FittingRows(parse, es, target, es[0]);
    match ScanAll(parse, es)
    case Conflict =>
    case Unparsed =>
      UnparsedMeans(parse, es);
      if SizeOf(parse, es[0]) == target { SpoiltIsSilent(parse, es); }
    case Kept(ks) =>
      KeptTotal(parse, es, ks);
      hide Total;
      AtLeast(parse, Dedup(es), es[0]);
      assert ks != [] by { assert es[0] in ks; }
  }

  lemma SpoiltIsSilent(parse: Parse, es: seq<Entry>)
    requires es != [] && HasBad(parse, es) && forall f :: f in es ==> f == es[0]
    ensures Single(parse, es).None?
  {
  }

  // ---- the order of rows -----------------------------------------------------------------------

  predicate SameEvidence(a: Option<Evidence>, b: Option<Evidence>) {
    a.Some? == b.Some? &&
    (a.Some? ==> a.value.size == b.value.size && a.value.average == b.value.average && a.value.fee == b.value.fee
                 && multiset(a.value.ids) == multiset(b.value.ids))
  }

  /** Equal verdict, size, average and fee; the ids are permuted. */
  predicate SameOutcome(a: Resolution, b: Resolution) { a.state == b.state && SameEvidence(a.evidence, b.evidence) }

  lemma SameRows(p: seq<Entry>, q: seq<Entry>)
    requires multiset(p) == multiset(q)
    ensures forall e :: e in p <==> e in q
    ensures p == [] <==> q == []
  {
    assert |p| == |multiset(p)| && |q| == |multiset(q)|;
    assert forall e :: e in p <==> e in multiset(p);
    assert forall e :: e in q <==> e in multiset(q);
  }

  lemma SameSummary(parse: Parse, p: seq<Entry>, q: seq<Entry>)
    requires multiset(p) == multiset(q)
    ensures Summary(parse, p).Known? == Summary(parse, q).Known? && !Summary(parse, p).InConflict?
    ensures Summary(parse, p).Known? ==>
      SameEvidence(Some(Summary(parse, p).evidence), Some(Summary(parse, q).evidence))
  {
    hide Total, Notional, Ids;
    SameRows(p, q);
    PermutedTotals(parse, p, q);
    PermutedIds(p, q);
    if p != [] { assert p[0] in q && q[0] in p; }
  }

  /** The one situation in which the order of rows shows: some row is unreadable, two rows of one id differ
      and the first of them could be kept, and nothing is left in the book. */
  ghost predicate Tangled(parse: Parse, i: Intent, o: Order, page: seq<Trade>) {
    var es := Entries(page, i.orderId, AsTaker);
    HasBad(parse, es) && HasGoodClash(parse, es) && !Live(o) && Target(parse, i, o).Some?
  }

  lemma PermutedScans(parse: Parse, p: seq<Entry>, q: seq<Entry>)
    requires multiset(p) == multiset(q) && !(HasBad(parse, p) && HasGoodClash(parse, p))
    ensures ScanAll(parse, p).Conflict? <==> ScanAll(parse, q).Conflict?
    ensures ScanAll(parse, p).Unparsed? <==> ScanAll(parse, q).Unparsed?
    ensures ScanAll(parse, p).Kept? ==> multiset(ScanAll(parse, p).entries) == multiset(ScanAll(parse, q).entries)
  {
    hide ScanAll, Parsed;
    SameRows(p, q);
    ScanFinds(parse, p);
    ScanFinds(parse, q);
    if ScanAll(parse, p).Kept? && ScanAll(parse, q).Kept? {
      KeptMeans(parse, p);
      KeptMeans(parse, q);
      SameMembers(ScanAll(parse, p).entries, ScanAll(parse, q).entries);
    }
  }

  lemma ScanFinds(parse: Parse, es: seq<Entry>)
    ensures ScanAll(parse, es).Kept? ==> !HasBad(parse, es) && !HasClash(es)
    ensures ScanAll(parse, es).Conflict? ==> HasGoodClash(parse, es) && HasClash(es)
    ensures ScanAll(parse, es).Unparsed? ==> HasBad(parse, es)
  {
    if ScanAll(parse, es).Kept? { KeptIsClean(parse, es); }
    if ScanAll(parse, es).Conflict? { ConflictMeans(parse, es); }
    if ScanAll(parse, es).Unparsed? { UnparsedMeans(parse, es); }
  }

  lemma PermutedVerdict(parse: Parse, p: seq<Entry>, q: seq<Entry>, target: real, live: bool)
    requires p != [] && q != [] && multiset(p) == multiset(q) && Fits(parse, p, target) && Fits(parse, q, target)
    requires live || !(HasBad(parse, p) && HasGoodClash(parse, p))
    ensures SameOutcome(TakerJudge(parse, p, target, live), TakerJudge(parse, q, target, live))
  {
    TakerVerdict(parse, p, target, live);
    TakerVerdict(parse, q, target, live);
    SameRows(p, q);
    hide TakerJudge, SizeOf, ScanAll, Summary, Fits, Total, HasBad, HasGoodClash, HasClash;
    WholeIsWhole(parse, p, q, target);
    if HasBad(parse, p) && HasGoodClash(parse, p) {
      TangledScans(parse, p, q);
      ClashIsNotWhole(parse, p, target);
      ClashIsNotWhole(parse, q, target);
    } else {
      PermutedScans(parse, p, q);
      if ScanAll(parse, p).Kept? {
        PermutedKept(parse, ScanAll(parse, p).entries, ScanAll(parse, q).entries, SizeOf(parse, p[0]) == target,
            target, live);
      }
    }
  }

  lemma PermutedKept(parse: Parse, ps: seq<Entry>, qs: seq<Entry>, whole: bool, target: real, live: bool)
    requires multiset(ps) == multiset(qs)
    ensures SameOutcome(Outcome(parse, Kept(ps), whole, target, live), Outcome(parse, Kept(qs), whole, target, live))
  {
    SameSummary(parse, ps, qs);
    PermutedTotals(parse, ps, qs);
    hide Summary, Total;
  }

  lemma TangledScans(parse: Parse, p: seq<Entry>, q: seq<Entry>)
    requires (forall e :: e in p <==> e in q) && HasBad(parse, p) && HasGoodClash(parse, p)
    ensures HasClash(p) && HasClash(q) && !ScanAll(parse, p).Kept? && !ScanAll(parse, q).Kept?
  {
    hide ScanAll, Parsed;
    ScanFinds(parse, p);
    ScanFinds(parse, q);
  }

  lemma WholeIsWhole(parse: Parse, p: seq<Entry>, q: seq<Entry>, target: real)
    requires p != [] && q != [] && (forall e :: e in p <==> e in q) && Fits(parse, p, target) && Fits(parse, q, target)
    ensures SizeOf(parse, p[0]) == target <==> SizeOf(parse, q[0]) == target
  {
    hide SizeOf, Fits;
    assert p[0] in p && q[0] in q;
    FittingRows(parse, p, target, p[0]);
    FittingRows(parse, q, target, q[0]);
  }

  lemma ClashIsNotWhole(parse: Parse, es: seq<Entry>, target: real)
    requires es != [] && HasClash(es) && Fits(parse, es, target)
    ensures SizeOf(parse, es[0]) < target
  {
    hide SizeOf, Fits;
    assert es[0] in es;
    FittingRows(parse, es, target, es[0]);
  }

  lemma TakerPagePermutes(parse: Parse, i: Intent, o: Order, p: seq<Trade>, q: seq<Trade>)
    requires TakerPage(parse, i, o, p) && multiset(p) == multiset(q)
    ensures TakerPage(parse, i, o, q)
    ensures multiset(Entries(p, i.orderId, AsTaker)) == multiset(Entries(q, i.orderId, AsTaker))
  {
    hide NormSide, Target, Entries, Total, SizeOf, Dedup;
    PermutedEntries(p, q, i.orderId, AsTaker);
    PermutedEntries(p, q, i.orderId, AsMaker);
    var a, b := Entries(p, i.orderId, AsTaker), Entries(q, i.orderId, AsTaker);
    SameRows(a, b);
    SameRows(Entries(p, i.orderId, AsMaker), Entries(q, i.orderId, AsMaker));
    SameDistinctTotal(parse, a, b);
  }

  lemma SameDistinctTotal(parse: Parse, a: seq<Entry>, b: seq<Entry>)
    requires forall e :: e in a <==> e in b
    ensures Total(parse, Dedup(a)) == Total(parse, Dedup(b))
  {
    hide Total, Dedup;
    SameMembers(Dedup(a), Dedup(b));
    PermutedTotals(parse, Dedup(a), Dedup(b));
  }

  /** Unless the page is tangled, every permutation of it gives the same outcome. */
  lemma PermutationChangesNothing(parse: Parse, i: Intent, o: Order, p: seq<Trade>, q: seq<Trade>)
    requires TakerPage(parse, i, o, p) && multiset(p) == multiset(q) && !Tangled(parse, i, o, p)
    ensures SameOutcome(Decide(parse, i, o, p), Decide(parse, i, o, q))
  {
    hide Entries, Target, Live, TakerJudge, HasBad, HasGoodClash, Decide;
    TakerPagePermutes(parse, i, o, p, q);
    TakerPageDecides(parse, i, o, p);
    TakerPageDecides(parse, i, o, q);
    var a, b := Entries(p, i.orderId, AsTaker), Entries(q, i.orderId, AsTaker);
    SameRows(a, b);
    if a != [] && Target(parse, i, o).Some? {
      PermutedVerdict(parse, a, b, Target(parse, i, o).value, Live(o));
    }
  }

  // -- a tangled page has two orders that disagree

  lemma {:induction false} RowOf(page: seq<Trade>, ours: Raw, e: Entry) returns (k: nat)
    requires e in Entries(page, ours, AsTaker)
    ensures k < |page| && RowEntries(page[k], ours, AsTaker) == [e]
    decreases |page|
  {
    var n := |page| - 1;
    if e in RowEntries(page[n], ours, AsTaker) { k := n; } else { k := RowOf(page[..n], ours, e); }
  }

  function ToFront<T>(q: seq<T>, k: nat): seq<T>
    requires k < |q|
  {
    [q[k]] + q[..k] + q[k + 1..]
  }

  lemma ToFrontPermutes<T>(q: seq<T>, k: nat)
    requires k < |q|
    ensures multiset(ToFront(q, k)) == multiset(q)
  {
    Cut(q, k);
  }

  lemma StartsWith(page: seq<Trade>, ours: Raw, e: Entry)
    requires page != [] && RowEntries(page[0], ours, AsTaker) == [e]
    ensures var es := Entries(page, ours, AsTaker); es != [] && es[0] == e
    ensures Entries(page, ours, AsTaker) == [e] + Entries(page[1..], ours, AsTaker)
  {
    hide RowEntries;
    EntriesSplit([page[0]], page[1..], ours, AsTaker);
    assert page == [page[0]] + page[1..];
    assert [page[0]][..0] == [];
  }

  /** A scan that stops in its first rows stops there for good. */
  lemma {:induction false} ScanStops(parse: Parse, a: seq<Entry>, b: seq<Entry>)
    requires !ScanAll(parse, a).Kept?
    ensures ScanAll(parse, a + b) == ScanAll(parse, a)
    decreases |b|
  {
    if b == [] {
      assert a + b == a;
    } else {
      ScanStops(parse, a, b[..|b| - 1]);
      assert (a + b)[..|a + b| - 1] == a + b[..|b| - 1];
    }
  }

  lemma BadFirst(parse: Parse, e: Entry, rest: seq<Entry>)
    requires !Parsed(parse, e)
    ensures ScanAll(parse, [e] + rest).Unparsed?
  {
    assert [e][..0] == [];
    ScanStops(parse, [e], rest);
  }

  lemma ClashFirst(parse: Parse, a: Entry, b: Entry, rest: seq<Entry>)
    requires Clash(a, b) && Parsed(parse, a)
    ensures ScanAll(parse, [a] + ([b] + rest)).Conflict?
  {
    assert [a][..0] == [] && [a, b][..1] == [a];
    assert ScanAll(parse, [a]) == Kept([a]);
    assert ScanAll(parse, [a, b]).Conflict?;
    ScanStops(parse, [a, b], rest);
    assert [a] + ([b] + rest) == [a, b] + rest;
  }

  lemma BadOrder(parse: Parse, i: Intent, o: Order, p: seq<Trade>) returns (q: seq<Trade>)
    requires TakerPage(parse, i, o, p) && Tangled(parse, i, o, p)
    ensures multiset(q) == multiset(p) && Decide(parse, i, o, q) == Resolution(PartialFilled, None)
  {
    hide RowEntries, Target, Live, SizeOf, TakerJudge, Decide, NormSide, Total, Dedup;
    var ours := i.orderId;
    var es := Entries(p, ours, AsTaker);
    var e :| e in es && !Parsed(parse, e);
    var k := RowOf(p, ours, e);
    q := ToFront(p, k);
    ToFrontPermutes(p, k);
    StartsWith(q, ours, e);
    var fs := Entries(q, ours, AsTaker);
    BadFirst(parse, e, Entries(q[1..], ours, AsTaker));
    TakerPagePermutes(parse, i, o, p, q);
    SameRows(es, fs);
    TakerPageDecides(parse, i, o, q);
    var target := Target(parse, i, o).value;
    TakerVerdict(parse, fs, target, Live(o));
    assert HasClash(fs);
    ClashIsNotWhole(parse, fs, target);
  }

  /** Some order of the rows puts a kept row first and the row it clashes with second. */
  lemma ClashToFront(parse: Parse, p: seq<Trade>, ours: Raw, a: Entry, b: Entry) returns (q: seq<Trade>)
    requires a in Entries(p, ours, AsTaker) && b in Entries(p, ours, AsTaker) && Clash(a, b) && Parsed(parse, a)
    ensures multiset(q) == multiset(p) && ScanAll(parse, Entries(q, ours, AsTaker)).Conflict?
  {
    hide RowEntries, ScanAll, Parsed;
    var kb := RowOf(p, ours, b);
    var p1 := ToFront(p, kb);
    ToFrontPermutes(p, kb);
    PermutedEntries(p, p1, ours, AsTaker);
    SameRows(Entries(p, ours, AsTaker), Entries(p1, ours, AsTaker));
    var ka := RowOf(p1, ours, a);
    assert p1[0] == p[kb] && ka > 0;
    q := ToFront(p1, ka);
    ToFrontPermutes(p1, ka);
    hide Entries;
    StartsWith(q, ours, a);
    assert q[1..][0] == p1[0];
    StartsWith(q[1..], ours, b);
    ClashFirst(parse, a, b, Entries(q[1..][1..], ours, AsTaker));
  }

  lemma ClashOrder(parse: Parse, i: Intent, o: Order, p: seq<Trade>) returns (q: seq<Trade>)
    requires TakerPage(parse, i, o, p) && Tangled(parse, i, o, p)
    ensures multiset(q) == multiset(p) && Decide(parse, i, o, q) == OPEN
  {
    hide RowEntries, Target, Live, SizeOf, TakerJudge, Decide, NormSide, Total, Dedup, Entries, ScanAll;
    var es := Entries(p, i.orderId, AsTaker);
    var a, b :| a in es && b in es && Clash(a, b) && Parsed(parse, a);
    q := ClashToFront(parse, p, i.orderId, a, b);
    TakerPagePermutes(parse, i, o, p, q);
    TakerPageDecides(parse, i, o, q);
    var fs := Entries(q, i.orderId, AsTaker);
    SameRows(es, fs);
    TakerVerdict(parse, fs, Target(parse, i, o).value, Live(o));
  }

  /** For a taker-only page that fits its target, the outcome is the same for every order of the rows exactly
      when the page is not tangled. */
  lemma OrderMattersExactlyWhen(parse: Parse, i: Intent, o: Order, p: seq<Trade>)
    requires TakerPage(parse, i, o, p)
    ensures (forall q :: multiset(q) == multiset(p) ==> SameOutcome(Decide(parse, i, o, p), Decide(parse, i, o, q)))
       <==> !Tangled(parse, i, o, p)
  {
    hide TakerPage, Decide, Tangled;
    if Tangled(parse, i, o, p) {
      var q1 := BadOrder(parse, i, o, p);
      var q2 := ClashOrder(parse, i, o, p);
      assert !(SameOutcome(Decide(parse, i, o, p), Decide(parse, i, o, q1))
          && SameOutcome(Decide(parse, i, o, p), Decide(parse, i, o, q2)));
    } else {
      forall q | multiset(q) == multiset(p)
        ensures SameOutcome(Decide(parse, i, o, p), Decide(parse, i, o, q))
      {
        PermutationChangesNothing(parse, i, o, p, q);
      }
    }
  }

  /** Texts that read as numbers in the example below. */
  function Reads(s: string): Option<real> {
    if s == "1" then Some(1.0) else if s == "2" then Some(2.0) else if s == "10" then Some(10.0) else None
  }

  function Row(id: string, price: string): Trade {
    Trade(id, Some("CONFIRMED"), Some("me"), Some("BUY"), Some("1"), Some(price), None, [])
  }

  function RowEntry(id: string, price: string): Entry {
    Entry(id, Some("CONFIRMED"), Some("me"), Some("me"), Some("BUY"), Some("1"), Some(price), None)
  }

  const OURS := Intent(Some("me"), Some("BUY"), None)
  const DEAD := Order(Some("10"), Some("CANCELED"))

  /** One fill reported at two prices, and another at a price that cannot be read. */
  const TANGLED := [Row("a", "1"), Row("a", "2"), Row("b", "?")]

  lemma PlainText(s: string)
    requires s != "" && forall k :: 0 <= k < |s| ==> 'A' <= s[k] <= 'Z'
    ensures Text(Some(s)) == s
  {
    assert Strip(s) == s;
    assert Upper(s) == s;
  }

  lemma RowIsOurs(id: string, price: string)
    ensures RowEntries(Row(id, price), Some("me"), AsTaker) == [RowEntry(id, price)]
    ensures RowEntries(Row(id, price), Some("me"), AsMaker) == []
  {
    PlainText("CONFIRMED");
    assert |"CONFIRMED"| < |"ORDER_STATUS_"| && |"CONFIRMED"| < |"TRADE_STATUS_"|;
    hide Text;
  }

  lemma {:induction false} RowsOfTangled(role: Role)
    ensures Entries(TANGLED, Some("me"), role) ==
      if role.AsTaker? then [RowEntry("a", "1"), RowEntry("a", "2"), RowEntry("b", "?")] else []
  {
    var p := TANGLED;
    RowIsOurs("a", "1");
    RowIsOurs("a", "2");
    RowIsOurs("b", "?");
    hide RowEntries, Row, RowEntry;
    assert p[..3] == p && p[..3][..2] == p[..2] && p[..2][..1] == p[..1] && p[..1][..0] == [];
    assert Entries(p[..1], Some("me"), role) == RowEntries(p[0], Some("me"), role);
  }

  /** There are tangled pages, so the order of rows does decide: this one resolves to PARTIAL_FILLED in one
      order of its rows and stays open in another. */
  lemma SomePageIsTangled() returns (p: seq<Trade>, q: seq<Trade>)
    ensures TakerPage(Reads, OURS, DEAD, TANGLED) && Tangled(Reads, OURS, DEAD, TANGLED)
    ensures multiset(p) == multiset(q) == multiset(TANGLED)
    ensures Decide(Reads, OURS, DEAD, p) == Resolution(PartialFilled, None) && Decide(Reads, OURS, DEAD, q) == OPEN
  {
    hide TakerPage, Tangled, Decide, Entries, Reads, RowEntry, Clash, Parsed, Live, Target, SizeOf;
    RowsOfTangled(AsTaker);
    RowsOfTangled(AsMaker);
    OursAreReadable();
    ThreeRows(Reads, OURS, DEAD, TANGLED, RowEntry("a", "1"), RowEntry("a", "2"), RowEntry("b", "?"));
    p := BadOrder(Reads, OURS, DEAD, TANGLED);
    q := ClashOrder(Reads, OURS, DEAD, TANGLED);
  }

  /** Three taker rows of size one, the second clashing with the first and the third unreadable. */
  lemma ThreeRows(parse: Parse, i: Intent, o: Order, page: seq<Trade>, a: Entry, b: Entry, c: Entry)
    requires Entries(page, i.orderId, AsTaker) == [a, b, c] && Entries(page, i.orderId, AsMaker) == []
    requires Target(parse, i, o) == Some(10.0) && !Live(o) && a.side == b.side == c.side == i.side
    requires Parsed(parse, a) && !Parsed(parse, c) && Clash(a, b) && b != c && a != c
    requires a != b && SizeOf(parse, a) == SizeOf(parse, b) == SizeOf(parse, c) == 1.0
    ensures TakerPage(parse, i, o, page) && Tangled(parse, i, o, page)
  {
    hide NormSide, Entries, Target, Live, Parsed, Clash, Total, Dedup, SizeOf, Number, Positive, HasBad, HasGoodClash;
    var es := [a, b, c];
    ThreeFit(parse, a, b, c);
    ThreeTangle(parse, a, b, c);
    forall e | e in es ensures NormSide(e.side) == NormSide(i.side) { assert e == a || e == b || e == c; }
  }

  lemma ThreeTangle(parse: Parse, a: Entry, b: Entry, c: Entry)
    requires Parsed(parse, a) && !Parsed(parse, c) && Clash(a, b)
    ensures HasBad(parse, [a, b, c]) && HasGoodClash(parse, [a, b, c])
  {
    hide Parsed, Clash;
    assert c in [a, b, c] && a in [a, b, c] && b in [a, b, c];
  }

  lemma ThreeFit(parse: Parse, a: Entry, b: Entry, c: Entry)
    requires a != b && b != c && a != c && SizeOf(parse, a) == SizeOf(parse, b) == SizeOf(parse, c) == 1.0
    ensures Positive(parse, [a, b, c]) && Total(parse, Dedup([a, b, c])) == 3.0
  {
    hide Dedup, Total;
    assert Positive(parse, [a, b, c]);
    hide SizeOf, Positive;
    ThreeApart(a, b, c);
    TotalOfMore(parse, a, []);
    TotalOfMore(parse, b, [a]);
    TotalOfMore(parse, c, [a, b]);
    assert [] + [a] == [a] && [a] + [b] == [a, b] && [a, b] + [c] == [a, b, c];
  }

  lemma ThreeApart(a: Entry, b: Entry, c: Entry)
    requires a != b && b != c && a != c
    ensures Dedup([a, b, c]) == [a, b, c]
  {
    DedupMore([], a);
    DedupMore([a], b);
    DedupMore([a, b], c);
    assert [] + [a] == [a] && [a] + [b] == [a, b] && [a, b] + [c] == [a, b, c];
    hide Dedup;
  }

  lemma DedupMore(front: seq<Entry>, e: Entry)
    requires e !in front
    ensures Dedup(front + [e]) == Dedup(front) + [e] && Dedup([]) == []
  {
    assert (front + [e])[..|front|] == front;
  }

  lemma OursAreReadable()
    ensures Target(Reads, OURS, DEAD) == Some(10.0) && !Live(DEAD)
    ensures var a, b, c := RowEntry("a", "1"), RowEntry("a", "2"), RowEntry("b", "?");
      && Parsed(Reads, a) && !Parsed(Reads, c) && Clash(a, b) && a != b && b != c && a != c
      && a.side == b.side == c.side == OURS.side
      && SizeOf(Reads, a) == SizeOf(Reads, b) == SizeOf(Reads, c) == 1.0
  {
    PlainText("CANCELED");
    assert "CANCELED"[0] == 'C' && "LIVE"[0] == 'L' && "MATCHED"[0] == 'M';
  }

  lemma TotalOfMore(parse: Parse, e: Entry, ds: seq<Entry>)
    ensures Total(parse, ds + [e]) == Total(parse, ds) + SizeOf(parse, e) && Total(parse, []) == 0.0
  {
    assert (ds + [e])[..|ds|] == ds;
  }

  // ---- what the evidence says ------------------------------------------------------------------

  lemma {:induction false} NotionalBetween(parse: Parse, es: seq<Entry>, low: real, high: real)
    requires Positive(parse, es) && forall e :: e in es ==> low <= PriceOf(parse, e) <= high
    ensures low * Total(parse, es) <= Notional(parse, es) <= high * Total(parse, es)
    decreases |es|
  {
    hide SizeOf, PriceOf, ValueOf;
    if es != [] {
      var front, e := es[..|es| - 1], es[|es| - 1];
      assert es == front + [e] && e in es;
      NotionalBetween(parse, front, low, high);
      ValueBetween(parse, e, low, high);
      var t, n := Total(parse, front), Notional(parse, front);
      assert Total(parse, es) == t + SizeOf(parse, e) && Notional(parse, es) == n + ValueOf(parse, e);
      hide Total, Notional, Positive;
      Distribute(low, t, SizeOf(parse, e));
      Distribute(high, t, SizeOf(parse, e));
    }
  }

  lemma ValueBetween(parse: Parse, e: Entry, low: real, high: real)
    requires SizeOf(parse, e) > 0.0 && low <= PriceOf(parse, e) <= high
    ensures low * SizeOf(parse, e) <= ValueOf(parse, e) <= high * SizeOf(parse, e)
  {
    var size, price := SizeOf(parse, e), PriceOf(parse, e);
    assert (price - low) * size >= 0.0 && (high - price) * size >= 0.0;
  }

  lemma Distribute(a: real, b: real, c: real)
    ensures a * (b + c) == a * b + a * c
  {
  }

  lemma QuotientBetween(n: real, d: real, low: real, high: real)
    requires d > 0.0 && low * d <= n <= high * d
    ensures low <= n / d <= high
  {
    Decimals.ScaleBack(n, d);
    Decimals.ScaleOrder(low, n / d, d);
    Decimals.ScaleOrder(n / d, high, d);
  }

  /** The aggregated average lies between the lowest and the highest fill price. */
  lemma AverageIsBetween(parse: Parse, es: seq<Entry>, low: real, high: real)
    requires Positive(parse, es) && Aggregate(parse, es).Known?
    requires forall e :: e in es ==> low <= PriceOf(parse, e) <= high
    ensures low <= Aggregate(parse, es).evidence.average <= high
  {
    hide PriceOf, SizeOf, ScanAll, Total, Notional;
    var ks := ScanAll(parse, es).entries;
    KeptMeans(parse, es);
    NotionalBetween(parse, ks, low, high);
    QuotientBetween(Notional(parse, ks), Total(parse, ks), low, high);
  }

  /** On a page where our order plays one role, FILLED with evidence means exactly the target size. */
  lemma FilledIsWhole(parse: Parse, i: Intent, o: Order, page: seq<Trade>)
    requires Entries(page, i.orderId, AsTaker) == [] || Entries(page, i.orderId, AsMaker) == []
    ensures var r := Decide(parse, i, o, page);
      r.state.Filled? && r.evidence.Some? ==>
          Target(parse, i, o).Some? && r.evidence.value.size == Target(parse, i, o).value
  {
    hide Aggregate, NormSide, Target, Parsed;
    FirstOfRole(page, i.orderId);
  }

  lemma {:induction false} FirstOfRole(page: seq<Trade>, ours: Raw)
    requires Entries(page, ours, AsTaker) == [] || Entries(page, ours, AsMaker) == []
    ensures var ts, ms := Entries(page, ours, AsTaker), Entries(page, ours, AsMaker);
      FirstFill(page, ours) == if ts != [] then First(AsTaker, ts[0]) else if ms != [] then First(AsMaker, ms[0])
          else NoFill
    decreases |page|
  {
    if page != [] {
      var front, last := page[..|page| - 1], page[|page| - 1];
      var ts, ms := Entries(front, ours, AsTaker), Entries(front, ours, AsMaker);
      assert Entries(page, ours, AsTaker) == ts + RowEntries(last, ours, AsTaker);
      assert Entries(page, ours, AsMaker) == ms + RowEntries(last, ours, AsMaker);
      FirstOfRole(front, ours);
      hide Entries, RowEntries;
    }
  }

  predicate IsFill(parse: Parse, i: Intent, t: Trade, e: Entry) {
    Confirmed(t) && e.owner == i.orderId && NormSide(e.side) == NormSide(i.side) && SizeOf(parse, e) > 0.0
  }

  /** Nothing terminal without a confirmed fill of our order, on our side, of positive size. */
  lemma TerminalNeedsConfirmedFill(parse: Parse, i: Intent, o: Order, page: seq<Trade>)
    requires !Decide(parse, i, o, page).state.RecoveryRequired?
    ensures exists k, role, e ::
        0 <= k < |page| && e in RowEntries(page[k], i.orderId, role) && IsFill(parse, i, page[k], e)
  {
    hide Aggregate, NormSide, Target, Single, Confirmed;
    var k := FirstIsSomewhere(page, i.orderId);
    var f := FirstFill(page, i.orderId);
    SlotsAreOurs(page[k], page[k].makers, i.orderId);
    assert f.entry in RowEntries(page[k], i.orderId, f.role);
  }

  lemma {:induction false} FirstIsSomewhere(page: seq<Trade>, ours: Raw) returns (k: nat)
    requires FirstFill(page, ours).First?
    ensures k < |page| && FirstInRow(page[k], ours) == FirstFill(page, ours)
    decreases |page|
  {
    var n := |page| - 1;
    if FirstFill(page[..n], ours).First? { k := FirstIsSomewhere(page[..n], ours); } else { k := n; }
  }

  lemma {:induction false} SlotsAreOurs(t: Trade, slots: seq<Slot>, ours: Raw)
    ensures forall e :: e in SlotEntries(t, slots, ours) ==> e.owner == ours
    decreases |slots|
  {
    if slots != [] { SlotsAreOurs(t, slots[..|slots| - 1], ours); }
  }
}
