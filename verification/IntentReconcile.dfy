/** Directional aggregation of candidate trades into the fate of an intent (execution/reconciliation.py). */
module IntentReconcile {
  import opened Wrappers
  import opened Decimals

  datatype Side = Buy | Sell | NoSide

  /** `side` is the trade's side in upper case; a price or size that is not a number is None. */
  datatype Trade = Trade(id: string, token: string, side: Side, time: Option<int>, price: Option<real>,
      size: Option<real>)

  /** `side` is the taker side of the intent: TAKER_BUY, TAKER_SELL or neither. */
  datatype Intent = Intent(side: Side, limit: real, intended: real, token: string, time: int)

  datatype State = RecoveryRequired | Filled | PartialFilled | Cancelled | SubmittedUnknown

  datatype Verdict =
    | Raised
    | Verdict(state: State, executed: real, average: Option<real>, ids: seq<string>, pause: bool)

  const PRICE_UNIT := 0.0001

  predicate SideMatch(i: Intent, t: Trade) { !i.side.NoSide? && t.side == i.side }

  predicate DirectionalOk(side: Side, price: real, limit: real) {
    match side
    case Buy => price <= limit
    case Sell => price >= limit
    case NoSide => false
  }

  /** The row is for our token and side, inside the window, and was not counted in an earlier round. */
  predicate Candidate(i: Intent, window: int, already: set<string>, t: Trade) {
    t.id !in already && t.token == i.token && SideMatch(i, t) && t.time.Some?
        && i.time <= t.time.value <= i.time + window
  }

  predicate Numeric(t: Trade) { t.price.Some? && t.size.Some? }

  predicate Ours(i: Intent, window: int, already: set<string>, t: Trade) {
    Candidate(i, window, already, t) && Numeric(t) && t.size.value > 0.0
        && DirectionalOk(i.side, t.price.value, i.limit)
  }

  datatype Fill = Fill(id: string, price: real, size: real)

  function FillOf(t: Trade): Fill
    requires Numeric(t)
  {
    Fill(t.id, t.price.value, t.size.value)
  }

  predicate Within(i: Intent, already: set<string>, f: Fill) {
    f.id !in already && f.size > 0.0 && DirectionalOk(i.side, f.price, i.limit)
  }

  /** The rows that count, in page order. */
  function Matched(i: Intent, window: int, already: set<string>, page: seq<Trade>): (r: seq<Fill>)
    ensures forall k :: 0 <= k < |r| ==> Within(i, already, r[k])
    decreases |page|
  {
    if page == [] then []
    else
      var n := |page| - 1;
      var t := page[n];
      var before := Matched(i, window, already, page[..n]);
      if Ours(i, window, already, t) then before + [FillOf(t)] else before
  }

  function Size(fs: seq<Fill>): real
    decreases |fs|
  {
    if fs == [] then 0.0 else Size(fs[..|fs| - 1]) + fs[|fs| - 1].size
  }

  function Worth(f: Fill): real { f.price * f.size }

  function Notional(fs: seq<Fill>): real
    decreases |fs|
  {
    if fs == [] then 0.0 else Notional(fs[..|fs| - 1]) + Worth(fs[|fs| - 1])
  }

  function Ids(fs: seq<Fill>): seq<string> { seq(|fs|, k requires 0 <= k < |fs| => fs[k].id) }

  lemma Grow(fs: seq<Fill>, f: Fill)
    ensures Size(fs + [f]) == Size(fs) + f.size && Notional(fs + [f]) == Notional(fs) + Worth(f)
    ensures Ids(fs + [f]) == Ids(fs) + [f.id]
  {
    assert (fs + [f])[..|fs|] == fs;
  }

  lemma NothingYet(i: Intent, window: int, already: set<string>)
    ensures Matched(i, window, already, []) == [] && Size([]) == 0.0 && Notional([]) == 0.0 && Ids([]) == []
  {
  }

  lemma OneMore(i: Intent, window: int, already: set<string>, page: seq<Trade>, k: nat)
    requires k < |page|
    ensures var t := page[k];
      var before := Matched(i, window, already, page[..k]);
      Matched(i, window, already, page[..k + 1]) ==
        if Ours(i, window, already, t) then before + [FillOf(t)] else before
  {
    assert page[..k + 1][..k] == page[..k];
  }

  predicate AllNumeric(i: Intent, window: int, already: set<string>, page: seq<Trade>) {
    forall t :: t in page && Candidate(i, window, already, t) ==> Numeric(t)
  }

  function Decide(i: Intent, now: int, window: int, size: real, notional: real, ids: seq<string>): Verdict {
    var average := if size > 0.0 then Some(Quantize(notional / size, PRICE_UNIT)) else None;
    if size > i.intended then Verdict(RecoveryRequired, size, average, ids, true)
    else if size >= i.intended then Verdict(Filled, size, average, ids, false)
    else if size > 0.0 then Verdict(PartialFilled, size, average, ids, false)
    else if now - i.time > window then Verdict(Cancelled, 0.0, None, [], false)
    else Verdict(SubmittedUnknown, 0.0, None, [], false)
  }

  function Reconcile(i: Intent, page: seq<Trade>, now: int, window: int, already: set<string>): Verdict {
    if !AllNumeric(i, window, already, page) then Raised
    else
      var ts := Matched(i, window, already, page);
      Decide(i, now, window, Size(ts), Notional(ts), Ids(ts))
  }

  /** The loop of `reconcile_intent`. */
  method ReconcileIntent(i: Intent, page: seq<Trade>, now: int, window: int, already: set<string>) returns (v: Verdict)
    ensures v == Reconcile(i, page, now, window, already)
  {
    hide Matched, Size, Notional, Ids, Decide;
    var ids: seq<string>, size, notional, k := [], 0.0, 0.0, 0;
    NothingYet(i, window, already);
    while k < |page|
      invariant 0 <= k <= |page|
      invariant AllNumeric(i, window, already, page[..k])
      invariant var ts := Matched(i, window, already, page[..k]);
        ids == Ids(ts) && size == Size(ts) && notional == Notional(ts)
    {
      var t := page[k];
      OneMore(i, window, already, page, k);
      k := k + 1;
      if t.id in already || t.token != i.token || !SideMatch(i, t) { continue; }
      if t.time.None? || t.time.value < i.time || t.time.value - i.time > window { continue; }
      if t.price.None? || t.size.None? { assert t in page; return Raised; }
      if t.size.value <= 0.0 || !DirectionalOk(i.side, t.price.value, i.limit) { continue; }
      Grow(Matched(i, window, already, page[..k - 1]), FillOf(t));
      ids := ids + [t.id];
      size := size + t.size.value;
      notional := notional + Worth(FillOf(t));
    }
    assert page[..k] == page;
    return Decide(i, now, window, size, notional, ids);
  }

  // ---- the average -----------------------------------------------------------------------------

  lemma {:induction false} SizesArePositive(fs: seq<Fill>)
    requires forall k :: 0 <= k < |fs| ==> fs[k].size > 0.0
    ensures Size(fs) >= 0.0 && (fs != [] ==> Size(fs) > 0.0)
    decreases |fs|
  {
    if fs != [] { SizesArePositive(fs[..|fs| - 1]); }
  }

  /** Spending stays on the right side of the limit. */
  lemma {:induction false} NotionalWithinLimit(side: Side, limit: real, fs: seq<Fill>)
    requires forall k :: 0 <= k < |fs| ==> fs[k].size > 0.0 && DirectionalOk(side, fs[k].price, limit)
    ensures side.Buy? ==> Notional(fs) <= limit * Size(fs)
    ensures side.Sell? ==> Notional(fs) >= limit * Size(fs)
    decreases |fs|
  {
    hide Worth;
    if fs != [] {
      var front, f := fs[..|fs| - 1], fs[|fs| - 1];
      NotionalWithinLimit(side, limit, front);
      WorthWithinLimit(side, limit, f);
      var n, z := Notional(front), Size(front);
      assert Notional(fs) == n + Worth(f) && Size(fs) == z + f.size;
      hide Notional, Size;
      Distribute(limit, z, f.size);
    }
  }

  lemma Distribute(a: real, b: real, c: real)
    ensures a * (b + c) == a * b + a * c
  {
  }

  lemma WorthWithinLimit(side: Side, limit: real, f: Fill)
    requires f.size > 0.0 && DirectionalOk(side, f.price, limit)
    ensures side.Buy? ==> Worth(f) <= limit * f.size
    ensures side.Sell? ==> Worth(f) >= limit * f.size
  {
    ScaleOrder(f.price, limit, f.size);
    ScaleOrder(limit, f.price, f.size);
  }

  lemma AverageSide(notional: real, size: real, limit: real)
    requires size > 0.0
    ensures notional <= limit * size ==> notional / size <= limit
    ensures notional >= limit * size ==> notional / size >= limit
  {
    DivideOrder(notional, limit * size, size);
    DivideOrder(limit * size, notional, size);
    assert limit * size / size == limit;
  }

  /** Rounded to four decimals, the reported average never violates a limit that lies on that grid. */
  lemma AverageRespectsLimit(i: Intent, page: seq<Trade>, now: int, window: int, already: set<string>)
    requires OnGrid(i.limit, PRICE_UNIT)
    ensures var v := Reconcile(i, page, now, window, already);
      v.Verdict? && v.average.Some? ==> DirectionalOk(i.side, v.average.value, i.limit)
  {
    hide OnGrid, Quantize, Matched;
    if AllNumeric(i, window, already, page) {
      var ts := Matched(i, window, already, page);
      var size, notional := Size(ts), Notional(ts);
      NotionalWithinLimit(i.side, i.limit, ts);
      if size > 0.0 {
        AverageSide(notional, size, i.limit);
        QuantizeKeepsSide(notional / size, i.limit, PRICE_UNIT);
      }
    }
  }

  /** The verdict compares what was matched with what was intended, and pauses exactly on an overfill. */
  lemma VerdictMeans(i: Intent, page: seq<Trade>, now: int, window: int, already: set<string>)
    requires AllNumeric(i, window, already, page)
    ensures var v := Reconcile(i, page, now, window, already);
      var fs := Matched(i, window, already, page);
      && v.Verdict? && v.executed == Size(fs) && v.ids == Ids(fs)
      && (v.pause <==> Size(fs) > i.intended) && (v.pause <==> v.state.RecoveryRequired?)
      && (v.state.Filled? <==> Size(fs) == i.intended)
      && (v.state.PartialFilled? <==> 0.0 < Size(fs) < i.intended)
      && (v.state.Cancelled? <==> fs == [] && i.intended > 0.0 && now > i.time + window)
      && (v.state.SubmittedUnknown? <==> fs == [] && i.intended > 0.0 && now <= i.time + window)
  {
    SizesArePositive(Matched(i, window, already, page));
  }

  /** The row is for our token and side inside the window, not counted before, of positive size, and at a price
      no worse than the limit. */
  predicate Counts(i: Intent, window: int, already: set<string>, t: Trade) {
    && t.id !in already && t.token == i.token && t.time.Some? && 0 <= t.time.value - i.time <= window
    && t.price.Some? && t.size.Some? && t.size.value > 0.0
    && ((i.side == Buy && t.side == Buy && t.price.value <= i.limit)
        || (i.side == Sell && t.side == Sell && t.price.value >= i.limit))
  }

  /** The row would be looked at, but its price or size is not a number. */
  predicate Unreadable(i: Intent, window: int, already: set<string>, t: Trade) {
    && t.id !in already && t.token == i.token && t.time.Some? && 0 <= t.time.value - i.time <= window
    && ((i.side == Buy && t.side == Buy) || (i.side == Sell && t.side == Sell))
    && (t.price.None? || t.size.None?)
  }

  lemma {:induction false} MatchedCount(i: Intent, window: int, already: set<string>, page: seq<Trade>)
    ensures forall t :: t in page && Counts(i, window, already, t) ==> FillOf(t) in Matched(i, window, already, page)
    ensures forall f :: f in Matched(i, window, already, page) ==>
      exists t :: t in page && Counts(i, window, already, t) && FillOf(t) == f
    decreases |page|
  {
    if page != [] {
      var front, last := page[..|page| - 1], page[|page| - 1];
      MatchedCount(i, window, already, front);
      assert last in page && forall t :: t in front ==> t in page;
      OursCount(i, window, already, last);
      forall t | t in page && Counts(i, window, already, t)
        ensures FillOf(t) in Matched(i, window, already, page)
      {
        if t in front { assert FillOf(t) in Matched(i, window, already, front); } else { assert t == last; }
      }
      hide Counts, Ours;
    }
  }

  lemma OursCount(i: Intent, window: int, already: set<string>, t: Trade)
    ensures Ours(i, window, already, t) <==> Counts(i, window, already, t)
    ensures Candidate(i, window, already, t) && !Numeric(t) <==> Unreadable(i, window, already, t)
  {
  }

  /** A reconciliation raises exactly when a row it would look at cannot be read; otherwise the ids it reports
      are those of the rows that count, and the average is theirs, rounded to the nearest 0.0001. */
  lemma ReportsWhatCounts(i: Intent, page: seq<Trade>, now: int, window: int, already: set<string>)
    ensures var v, m := Reconcile(i, page, now, window, already), Matched(i, window, already, page);
      && (v.Raised? <==> exists t :: t in page && Unreadable(i, window, already, t))
      && (v.Verdict? ==>
            && (forall x :: x in v.ids <==> exists t :: t in page && Counts(i, window, already, t) && t.id == x)
            && (v.average.Some? <==> m != [])
            && (m != [] ==> -PRICE_UNIT / 2.0 <= v.average.value - Notional(m) / Size(m) <= PRICE_UNIT / 2.0))
  {
    forall t ensures Candidate(i, window, already, t) && !Numeric(t) <==> Unreadable(i, window, already, t) {
      OursCount(i, window, already, t);
    }
    hide Candidate, Numeric, Unreadable, Counts, Matched, Quantize, Size, Notional;
    var v, m := Reconcile(i, page, now, window, already), Matched(i, window, already, page);
    if v.Raised? {
      var t :| t in page && Candidate(i, window, already, t) && !Numeric(t);
      assert Unreadable(i, window, already, t);
    } else {
      VerdictOf(i, page, now, window, already);
      MatchedCount(i, window, already, page);
      SizesArePositive(m);
      forall x ensures x in v.ids <==> exists t :: t in page && Counts(i, window, already, t) && t.id == x {
        IdOfCounted(i, window, already, page, x);
      }
      if m != [] { QuantizeIsNear(Notional(m) / Size(m), PRICE_UNIT); } else { NothingYet(i, window, already); }
    }
  }

  lemma IdOfCounted(i: Intent, window: int, already: set<string>, page: seq<Trade>, x: string)
    ensures x in Ids(Matched(i, window, already, page)) <==>
        exists t :: t in page && Counts(i, window, already, t) && t.id == x
  {
    var m := Matched(i, window, already, page);
    MatchedCount(i, window, already, page);
    hide Counts, Matched;
    if x in Ids(m) {
      var k :| 0 <= k < |m| && m[k].id == x;
      assert m[k] in m;
    }
    if t :| t in page && Counts(i, window, already, t) && t.id == x {
      assert Numeric(t) by { OursCount(i, window, already, t); }
      assert FillOf(t) in m;
      var k :| 0 <= k < |m| && m[k] == FillOf(t);
      assert Ids(m)[k] == x;
    }
  }

  // ---- rounds ----------------------------------------------------------------------------------

  /** One reconciliation of the same intent: the page it sees and the time. */
  datatype Round = Round(page: seq<Trade>, now: int)

  function Known(ids: seq<string>): set<string> { set x | x in ids }

  /** All ids counted, all sizes added up, and the pages of the rounds that did not raise, when every
      round's matched ids are fed back into the next. */
  function Counted(i: Intent, window: int, already: set<string>, rounds: seq<Round>): seq<string>
    decreases |rounds|
  {
    if rounds == [] then []
    else
      var v := Reconcile(i, rounds[0].page, rounds[0].now, window, already);
      if v.Raised? then Counted(i, window, already, rounds[1..])
      else v.ids + Counted(i, window, already + Known(v.ids), rounds[1..])
  }

  function Executed(i: Intent, window: int, already: set<string>, rounds: seq<Round>): real
    decreases |rounds|
  {
    if rounds == [] then 0.0
    else
      var v := Reconcile(i, rounds[0].page, rounds[0].now, window, already);
      if v.Raised? then Executed(i, window, already, rounds[1..])
      else v.executed + Executed(i, window, already + Known(v.ids), rounds[1..])
  }

  function Heard(i: Intent, window: int, already: set<string>, rounds: seq<Round>): seq<seq<Trade>>
    decreases |rounds|
  {
    if rounds == [] then []
    else
      var v := Reconcile(i, rounds[0].page, rounds[0].now, window, already);
      if v.Raised? then Heard(i, window, already, rounds[1..])
      else [rounds[0].page] + Heard(i, window, already + Known(v.ids), rounds[1..])
  }

  // ---- what should have been counted -----------------------------------------------------------

  /** Every trade of ours once: of rows with one id the first. */
  function Once(i: Intent, window: int, already: set<string>, rows: seq<Trade>): (r: seq<Fill>)
    ensures forall k :: 0 <= k < |r| ==> Within(i, already, r[k])
    decreases |rows|
  {
    if rows == [] then []
    else
      var before, t := Once(i, window, already, rows[..|rows| - 1]), rows[|rows| - 1];
      if Ours(i, window, already, t) && t.id !in Known(Ids(before)) then before + [FillOf(t)] else before
  }

  function Flat(pages: seq<seq<Trade>>): seq<Trade>
    decreases |pages|
  {
    if pages == [] then [] else pages[0] + Flat(pages[1..])
  }

  /** The ids of the rows that are ours and were not counted before. */
  function OurIds(i: Intent, window: int, already: set<string>, rows: seq<Trade>): set<string> {
    set t | t in rows && Ours(i, window, already, t) :: t.id
  }

  /** No two rows of the page that are ours share an id. */
  predicate OneRowEach(i: Intent, window: int, already: set<string>, page: seq<Trade>) {
    forall j, k :: 0 <= j < k < |page| && Ours(i, window, already, page[j]) && Ours(i, window, already, page[k]) ==>
      page[j].id != page[k].id
  }

  /** No page has two rows of ours with one id that no earlier page had. */
  predicate NoRepeats(i: Intent, window: int, already: set<string>, pages: seq<seq<Trade>>)
    decreases |pages|
  {
    pages == [] ||
    (&& OneRowEach(i, window, already, pages[0])
     && NoRepeats(i, window, already + OurIds(i, window, already, pages[0]), pages[1..]))
  }

  predicate Distinct(ids: seq<string>) { forall j, k :: 0 <= j < k < |ids| ==> ids[j] != ids[k] }

  lemma DistinctGrows(ids: seq<string>, x: string)
    requires Distinct(ids) && x !in Known(ids)
    ensures Distinct(ids + [x])
  {
    assert forall j :: 0 <= j < |ids| ==> ids[j] in Known(ids);
  }

  lemma {:induction false} DistinctOnce(i: Intent, window: int, already: set<string>, rows: seq<Trade>)
    ensures Distinct(Ids(Once(i, window, already, rows)))
    decreases |rows|
  {
    if rows != [] {
      hide Distinct, Known, Ours;
      var front, t := rows[..|rows| - 1], rows[|rows| - 1];
      DistinctOnce(i, window, already, front);
      var before := Once(i, window, already, front);
      if Ours(i, window, already, t) && t.id !in Known(Ids(before)) {
        Grow(before, FillOf(t));
        DistinctGrows(Ids(before), t.id);
      }
    }
  }

  lemma KnownGrows(fs: seq<Fill>, f: Fill)
    ensures Known(Ids(fs + [f])) == Known(Ids(fs)) + {f.id}
  {
    Grow(fs, f);
  }

  lemma OurIdsGrow(i: Intent, window: int, already: set<string>, front: seq<Trade>, t: Trade)
    ensures OurIds(i, window, already, front + [t]) ==
      OurIds(i, window, already, front) + if Ours(i, window, already, t) then {t.id} else {}
  {
    hide Ours;
  }

  lemma OneRowEachGrows(i: Intent, window: int, already: set<string>, front: seq<Trade>, t: Trade)
    ensures OneRowEach(i, window, already, front + [t]) <==>
      && OneRowEach(i, window, already, front)
      && (Ours(i, window, already, t) ==> t.id !in OurIds(i, window, already, front))
  {
    hide Ours;
    var rows := front + [t];
    assert forall j :: 0 <= j < |front| ==> rows[j] == front[j] && front[j] in front;
    if OneRowEach(i, window, already, rows) && Ours(i, window, already, t) {
      forall u | u in front && Ours(i, window, already, u) ensures u.id != t.id {
        var j :| 0 <= j < |front| && front[j] == u;
        assert rows[j] == u && rows[|front|] == t;
      }
    }
    if OneRowEach(i, window, already, rows) {
      forall j, k | 0 <= j < k < |front| && Ours(i, window, already, front[j]) && Ours(i, window, already, front[k])
        ensures front[j].id != front[k].id
      {
        assert rows[j] == front[j] && rows[k] == front[k];
      }
    }
  }

  /** One page counts the ids of our rows, and their sizes at least once; exactly once when no id repeats. */
  lemma {:induction false} PageCounts(i: Intent, window: int, already: set<string>, page: seq<Trade>)
    ensures var m, o := Matched(i, window, already, page), Once(i, window, already, page);
      && Known(Ids(m)) == OurIds(i, window, already, page) == Known(Ids(o))
      && |m| >= |o| && Size(m) >= Size(o)
      && (OneRowEach(i, window, already, page) <==> |m| == |o|)
      && (OneRowEach(i, window, already, page) <==> Size(m) == Size(o))
      && (OneRowEach(i, window, already, page) ==> m == o)
    decreases |page|
  {
    hide Ours;
    if page != [] {
      var front, t := page[..|page| - 1], page[|page| - 1];
      assert page == front + [t];
      PageCounts(i, window, already, front);
      var m, o := Matched(i, window, already, front), Once(i, window, already, front);
      OurIdsGrow(i, window, already, front, t);
      OneRowEachGrows(i, window, already, front, t);
      if Ours(i, window, already, t) { OursIsGood(i, window, already, t); OursGrows(m, o, t); }
      hide Size, Ids, Known, OneRowEach, OurIds;
    }
  }

  lemma OursIsGood(i: Intent, window: int, already: set<string>, t: Trade)
    requires Ours(i, window, already, t)
    ensures Numeric(t) && t.size.value > 0.0
  {
  }

  lemma OursGrows(m: seq<Fill>, o: seq<Fill>, t: Trade)
    requires Numeric(t)
    ensures Known(Ids(m + [FillOf(t)])) == Known(Ids(m)) + {t.id} && Size(m + [FillOf(t)]) == Size(m) + t.size.value
    ensures Known(Ids(o + [FillOf(t)])) == Known(Ids(o)) + {t.id} && Size(o + [FillOf(t)]) == Size(o) + t.size.value
  {
    KnownGrows(m, FillOf(t));
    KnownGrows(o, FillOf(t));
    Grow(m, FillOf(t));
    Grow(o, FillOf(t));
  }

  lemma OursLater(i: Intent, window: int, already: set<string>, more: set<string>, t: Trade)
    ensures Ours(i, window, already + more, t) <==> Ours(i, window, already, t) && t.id !in more
  {
  }

  lemma KnownSplits(a: seq<Fill>, b: seq<Fill>)
    ensures Known(Ids(a + b)) == Known(Ids(a)) + Known(Ids(b)) && Ids(a + b) == Ids(a) + Ids(b)
  {
    assert Ids(a + b) == Ids(a) + Ids(b);
  }

  lemma {:induction false} SizeSplits(a: seq<Fill>, b: seq<Fill>)
    ensures Size(a + b) == Size(a) + Size(b)
    decreases |b|
  {
    if b == [] { assert a + b == a; } else {
      assert (a + b)[..|a + b| - 1] == a + b[..|b| - 1];
      SizeSplits(a, b[..|b| - 1]);
    }
  }

  /** Counting once over pages in a row is counting once over each with the ids before it known. */
  lemma {:induction false} OnceSplits(i: Intent, window: int, already: set<string>, a: seq<Trade>, b: seq<Trade>)
    ensures var first := Once(i, window, already, a);
      Once(i, window, already, a + b) == first + Once(i, window, already + Known(Ids(first)), b)
    decreases |b|
  {
    hide Ours;
    if b == [] { assert a + b == a; } else {
      var front, t := b[..|b| - 1], b[|b| - 1];
      assert (a + b)[..|a + b| - 1] == a + front;
      OnceSplits(i, window, already, a, front);
      var first := Once(i, window, already, a);
      var known := Known(Ids(first));
      OursLater(i, window, already, known, t);
      KnownSplits(first, Once(i, window, already + known, front));
      hide Known, Ids;
    }
  }

  lemma OurIdsSplit(i: Intent, window: int, already: set<string>, a: seq<Trade>, b: seq<Trade>)
    ensures OurIds(i, window, already, a + b) ==
      OurIds(i, window, already, a) + OurIds(i, window, already + OurIds(i, window, already, a), b)
  {
    var first := OurIds(i, window, already, a);
    forall t ensures Ours(i, window, already + first, t) <==> Ours(i, window, already, t) && t.id !in first {
      OursLater(i, window, already, first, t);
    }
    hide Ours;
  }

  lemma VerdictOf(i: Intent, page: seq<Trade>, now: int, window: int, already: set<string>)
    requires AllNumeric(i, window, already, page)
    ensures var v, m := Reconcile(i, page, now, window, already), Matched(i, window, already, page);
      v.Verdict? && v.ids == Ids(m) && v.executed == Size(m)
  {
    SizesArePositive(Matched(i, window, already, page));
  }

  /** Over any number of rounds, raising ones among them, the ids counted are exactly those of our rows on
      the pages that were heard, and the sizes add up to at least those of the distinct trades. */
  lemma {:induction false} EveryTradeIsCounted(i: Intent, window: int, already: set<string>, rounds: seq<Round>)
    ensures var rows := Flat(Heard(i, window, already, rounds));
      var once := Once(i, window, already, rows);
      && Known(Counted(i, window, already, rounds)) == OurIds(i, window, already, rows) == Known(Ids(once))
      && |Counted(i, window, already, rounds)| >= |once|
      && Executed(i, window, already, rounds) >= Size(once)
    decreases |rounds|
  {
    PageCounts(i, window, already, Flat(Heard(i, window, already, rounds)));
    hide Ours, Matched, Size, Once, Ids, OneRowEach, Reconcile, OurIds, Known;
    if rounds == [] { Nothing(i, window, already); } else {
      var page := rounds[0].page;
      if !AllNumeric(i, window, already, page) {
        RaisesThen(i, window, already, rounds[0]);
        EveryTradeIsCounted(i, window, already, rounds[1..]);
      } else {
        VerdictOf(i, page, rounds[0].now, window, already);
        var m := Matched(i, window, already, page);
        var next := already + Known(Ids(m));
        EveryTradeIsCounted(i, window, next, rounds[1..]);
        PageCounts(i, window, already, page);
        var rest := Flat(Heard(i, window, next, rounds[1..]));
        OnceSplits(i, window, already, page, rest);
        OurIdsSplit(i, window, already, page, rest);
        SizeSplits(Once(i, window, already, page), Once(i, window, next, rest));
        KnownOf(Ids(m), Counted(i, window, next, rounds[1..]));
        assert Flat(Heard(i, window, already, rounds)) == page + rest;
        assert Counted(i, window, already, rounds) == Ids(m) + Counted(i, window, next, rounds[1..]);
        assert |Counted(i, window, already, rounds)| == |m| + |Counted(i, window, next, rounds[1..])| by {
          LengthOf(m);
        }
      }
    }
  }

  lemma LengthOf(fs: seq<Fill>)
    ensures |Ids(fs)| == |fs|
  {
  }

  lemma KnownOf(a: seq<string>, b: seq<string>)
    ensures Known(a + b) == Known(a) + Known(b)
  {
  }

  lemma Nothing(i: Intent, window: int, already: set<string>)
    ensures Once(i, window, already, []) == [] && Known([]) == {} == OurIds(i, window, already, []) && Ids([]) == []
        && Size([]) == 0.0
  {
  }

  lemma RaisesThen(i: Intent, window: int, already: set<string>, r: Round)
    requires !AllNumeric(i, window, already, r.page)
    ensures Reconcile(i, r.page, r.now, window, already).Raised?
  {
  }

  /** Over any number of rounds every trade of ours is counted once, in its id and in its size, exactly when
      no page repeats the id of a row of ours that no earlier page had: ids are remembered between rounds
      but not within one. */
  lemma {:induction false} CountedOnceExactlyWhen(i: Intent, window: int, already: set<string>, rounds: seq<Round>)
    ensures var pages := Heard(i, window, already, rounds);
      var once := Once(i, window, already, Flat(pages));
      && Distinct(Ids(once))
      && (NoRepeats(i, window, already, pages) <==> Counted(i, window, already, rounds) == Ids(once))
      && (NoRepeats(i, window, already, pages) <==> Executed(i, window, already, rounds) == Size(once))
    decreases |rounds|
  {
    DistinctOnce(i, window, already, Flat(Heard(i, window, already, rounds)));
    hide Ours, Matched, Size, Once, Ids, OneRowEach, Reconcile, OurIds, Known, Distinct;
    if rounds == [] { Nothing(i, window, already); } else {
      var page := rounds[0].page;
      if !AllNumeric(i, window, already, page) {
        RaisesThen(i, window, already, rounds[0]);
        CountedOnceExactlyWhen(i, window, already, rounds[1..]);
      } else {
        VerdictOf(i, page, rounds[0].now, window, already);
        var m := Matched(i, window, already, page);
        var next := already + Known(Ids(m));
        CountedOnceExactlyWhen(i, window, next, rounds[1..]);
        EveryTradeIsCounted(i, window, next, rounds[1..]);
        PageCounts(i, window, already, page);
        var o, rest := Once(i, window, already, page), Flat(Heard(i, window, next, rounds[1..]));
        OnceSplits(i, window, already, page, rest);
        SizeSplits(o, Once(i, window, next, rest));
        SameParts(m, Counted(i, window, next, rounds[1..]), o, Once(i, window, next, rest));
      }
    }
  }

  /** Two lists of ids in two parts, each part at least as long on the left, agree when the parts do. */
  lemma SameParts(m: seq<Fill>, c: seq<string>, o: seq<Fill>, rest: seq<Fill>)
    requires |m| >= |o| && |c| >= |rest|
    ensures Ids(m) + c == Ids(o + rest) <==> |m| == |o| && Ids(m) == Ids(o) && c == Ids(rest)
  {
    KnownSplits(o, rest);
    assert |Ids(m)| == |m| && |Ids(o)| == |o| && |Ids(rest)| == |rest|;
    if Ids(m) + c == Ids(o) + Ids(rest) {
      assert |m| == |o|;
      assert Ids(m) == (Ids(m) + c)[..|m|] == Ids(o);
      assert c == (Ids(m) + c)[|m|..] == Ids(rest);
    }
  }

  const REPEATED := Trade("t1", "tok", Buy, Some(5), Some(0.5), Some(6.0))

  /** A page that lists one trade of six shares twice reports twelve against an intent of ten, and pauses. */
  lemma RepeatedRowIsCountedTwice()
    ensures var i := Intent(Buy, 0.5, 10.0, "tok", 0);
      var v := Reconcile(i, [REPEATED, REPEATED], 10, 60, {});
      v.Verdict? && v.executed == 12.0 && v.state.RecoveryRequired? && v.pause
      && v.ids == ["t1", "t1"] && Reconcile(i, [REPEATED], 10, 60, {}).state.PartialFilled?
  {
    var i := Intent(Buy, 0.5, 10.0, "tok", 0);
    var one, two := [REPEATED], [REPEATED, REPEATED];
    assert one[..0] == [] && two[..1] == one;
    assert Ours(i, 60, {}, REPEATED);
    assert Matched(i, 60, {}, []) == [];
    var f := Fill("t1", 0.5, 6.0);
    assert Matched(i, 60, {}, one) == [f];
    assert Matched(i, 60, {}, two) == [f, f];
    assert [f][..0] == [] && [f, f][..1] == [f];
    assert Size([f]) == 6.0 && Size([f, f]) == 12.0;
    assert Ids([f, f]) == ["t1", "t1"];
  }
}
