/** Properties of the benchmark: how the capital map accumulates, the
    shape of the walk's entries, what the running totals do, which
    injections are invested, and how the time-weighted return chains. */
module BenchmarkLaws {
  import opened Basics
  import opened SortedKeys
  import opened BenchmarkSpec

  /** No flow on a day means nothing injected on it. */
  lemma {:induction false} InjectedOnAbsent(flows: seq<CapitalFlow>, d: int)
    requires d !in FlowDates(flows)
    ensures InjectedOn(flows, d) == 0.0
    decreases |flows|
  {
    if flows != [] {
      var prefix := flows[..|flows| - 1];
      assert forall f :: f in prefix ==> f in flows;
      assert flows[|flows| - 1] in flows;
      InjectedOnAbsent(prefix, d);
    }
  }

  /** Adding one flow adds its magnitude to its own day and leaves every
      other day alone. */
  lemma CapitalMapSnoc(flows: seq<CapitalFlow>, f: CapitalFlow)
    ensures CapitalMap(flows + [f])
            == CapitalMap(flows)[f.date := Injection(CapitalMap(flows), f.date) + Abs(f.amount)]
  {
    var fs := flows + [f];
    assert fs[..|fs| - 1] == flows;
    assert FlowDates(fs) == FlowDates(flows) + {f.date} by {
      assert forall g :: g in fs <==> g in flows || g == f;
    }
    if f.date !in FlowDates(flows) {
      InjectedOnAbsent(flows, f.date);
    }
  }

  /** A prefix of a walkable date list is walkable, and walking one more
      date is one more step. */
  lemma WalkSnoc(dates: seq<int>, prices: map<int, real>, cap: map<int, real>, first: int, n: nat)
    requires Walkable(dates, prices, cap) && n < |dates|
    ensures Walkable(dates[..n], prices, cap) && Walkable(dates[..n + 1], prices, cap)
    ensures Walk(dates[..n + 1], prices, cap, first)
            == WalkStep(Walk(dates[..n], prices, cap, first), dates[n], prices, cap, first)
  {
    forall d | d in dates[..n + 1] ensures d in dates {
      var k :| 0 <= k < n + 1 && dates[..n + 1][k] == d;
      assert dates[k] == d;
    }
    assert dates[..n + 1][..n] == dates[..n];
  }

  /** A prefix of a history on which the TWR is defined has it defined,
      and one more entry is one more chained step and one more point. */
  lemma TwrSnoc(h: seq<BenchmarkEntry>, cap: map<int, real>, n: nat)
    requires TwrDefined(h, cap) && n < |h|
    ensures TwrDefined(h[..n], cap) && TwrDefined(h[..n + 1], cap)
    ensures var p := TwrPeriod(h[..n], cap);
            p.start.Some? && Injection(cap, h[n].date) <= 0.0 ==> p.start.value != 0.0
    ensures TwrPeriod(h[..n + 1], cap) == Chain(TwrPeriod(h[..n], cap), h[n], cap)
    ensures TwrPoints(h[..n + 1], cap)
            == TwrPoints(h[..n], cap) + [PointOf(h[n], TwrPeriod(h[..n + 1], cap))]
  {
    assert h[..n + 1][..n] == h[..n];
  }

  /** A step of the walk appends to whatever entries come before. */
  lemma WalkStepAppend(w: WalkState, pre: seq<BenchmarkEntry>, d: int, prices: map<int, real>,
                       cap: map<int, real>, first: int)
    requires d in prices && (Injection(cap, d) != 0.0 ==> prices[d] != 0.0)
    ensures var s := WalkStep(w, d, prices, cap, first);
            WalkStep(WalkState(w.units, w.invested, pre + w.entries), d, prices, cap, first)
            == WalkState(s.units, s.invested, pre + s.entries)
  {
    var s := WalkStep(w, d, prices, cap, first);
    var w' := WalkState(w.units, w.invested, pre + w.entries);
    var s' := WalkStep(w', d, prices, cap, first);
    if d >= first {
      assert s'.units == s.units;
      assert s'.invested == s.invested;
      assert s.entries == Emit(w.entries, d, s.units, s.invested, prices[d]);
      assert s'.entries == Emit(pre + w.entries, d, s.units, s.invested, prices[d]);
      if s.units > 0.0 {
        var e := BenchmarkEntry(d, s.units * prices[d], s.invested, s.units, prices[d]);
        assert (pre + w.entries) + [e] == pre + (w.entries + [e]);
      }
    }
  }

  /** A walked day's entry, spelled out. */
  lemma EmitStep(entries: seq<BenchmarkEntry>, d: int, units: real, invested: real, p: real)
    ensures units > 0.0 ==>
      Emit(entries, d, units, invested, p) == entries + [BenchmarkEntry(d, units * p, invested, units, p)]
    ensures units <= 0.0 ==> Emit(entries, d, units, invested, p) == entries
  {
  }

  /** Every member of a prefix is a member of the whole. */
  lemma InPrefix(dates: seq<int>, n: nat)
    requires n <= |dates|
    ensures forall d :: d in dates[..n] ==> d in dates
  {
    forall d | d in dates[..n] ensures d in dates {
      var k :| 0 <= k < n && dates[..n][k] == d;
      assert dates[k] == d;
    }
  }

  /** The walk over a non-empty date list is one step after the walk
      over all but its last date. */
  lemma WalkUnfold(dates: seq<int>, prices: map<int, real>, cap: map<int, real>, first: int)
    requires Walkable(dates, prices, cap) && |dates| > 0
    ensures Walkable(dates[..|dates| - 1], prices, cap)
    ensures Walk(dates, prices, cap, first)
            == WalkStep(Walk(dates[..|dates| - 1], prices, cap, first), dates[|dates| - 1], prices, cap, first)
  {
    InPrefix(dates, |dates| - 1);
  }

  /** What an emitted entry looks like: dated on a walked day on or after
      the first injection, with positive units, priced at that day's
      price and valued at units times price. */
  ghost predicate EntryOf(e: BenchmarkEntry, dates: seq<int>, prices: map<int, real>, first: int)
  {
    && e.date in dates && e.date >= first && e.date in prices
    && e.units > 0.0 && e.omxPrice == prices[e.date]
    && e.benchmarkValue == e.units * e.omxPrice
  }

  /** Every entry of the walk has the shape of `EntryOf`. */
  lemma {:induction false} WalkEntryShape(dates: seq<int>, prices: map<int, real>, cap: map<int, real>,
                                          first: int)
    requires Walkable(dates, prices, cap)
    ensures var es := Walk(dates, prices, cap, first).entries;
            forall k :: 0 <= k < |es| ==> EntryOf(es[k], dates, prices, first)
    decreases |dates|
  {
    if dates != [] {
      var pre := dates[..|dates| - 1];
      WalkUnfold(dates, prices, cap, first);
      WalkEntryShape(pre, prices, cap, first);
      InPrefix(dates, |dates| - 1);
      var w := Walk(pre, prices, cap, first);
      var d := dates[|dates| - 1];
      var st := WalkStep(w, d, prices, cap, first);
      if d >= first {
        EmitStep(w.entries, d, st.units, st.invested, prices[d]);
      }
      var es := st.entries;
      forall k | 0 <= k < |es| ensures EntryOf(es[k], dates, prices, first) {
        if k < |w.entries| {
          assert es[k] == w.entries[k];
          assert EntryOf(es[k], pre, prices, first);
        }
      }
    }
  }

  /** Over strictly ascending price dates, the entries are in strictly
      ascending date order, so there is at most one per price date. */
  lemma {:induction false} WalkEntriesAscending(dates: seq<int>, prices: map<int, real>, cap: map<int, real>,
                                                first: int)
    requires Walkable(dates, prices, cap) && StrictlyIncreasing(dates)
    ensures var es := Walk(dates, prices, cap, first).entries;
            forall j, k :: 0 <= j < k < |es| ==> es[j].date < es[k].date
    decreases |dates|
  {
    if dates != [] {
      var pre := dates[..|dates| - 1];
      var last := dates[|dates| - 1];
      WalkUnfold(dates, prices, cap, first);
      WalkEntriesAscending(pre, prices, cap, first);
      WalkEntryShape(pre, prices, cap, first);
      var w := Walk(pre, prices, cap, first);
      var es := Walk(dates, prices, cap, first).entries;
      forall j, k | 0 <= j < k < |es| ensures es[j].date < es[k].date {
        assert es[j] == w.entries[j];
        assert EntryOf(w.entries[j], pre, prices, first);
        var i :| 0 <= i < |pre| && pre[i] == es[j].date;
        if k == |w.entries| {
          assert es[k].date == last == dates[|dates| - 1];
          assert pre[i] == dates[i];
        } else {
          assert es[k] == w.entries[k];
        }
      }
    }
  }

  /** Every capital map value is non-negative (the map holds magnitudes). */
  ghost predicate NonNegative(cap: map<int, real>)
  {
    forall d :: d in cap ==> cap[d] >= 0.0
  }

  /** Every injection day among the walked dates has a positive price. */
  ghost predicate PositivelyPriced(dates: seq<int>, prices: map<int, real>, cap: map<int, real>)
  {
    Walkable(dates, prices, cap)
    && forall d :: d in dates && Injection(cap, d) != 0.0 ==> prices[d] > 0.0
  }

  /** A prefix of positively priced dates is positively priced. */
  lemma PositivelyPricedPrefix(dates: seq<int>, prices: map<int, real>, cap: map<int, real>, n: nat)
    requires PositivelyPriced(dates, prices, cap) && n <= |dates|
    ensures PositivelyPriced(dates[..n], prices, cap)
  {
    InPrefix(dates, n);
  }

  /** One walked day: with non-negative injections and positive prices the
      totals never shrink; they grow strictly on an injection day on or
      after the first injection, and stay put on every other day. */
  lemma WalkStepGrows(w: WalkState, d: int, prices: map<int, real>, cap: map<int, real>, first: int)
    requires d in prices && (Injection(cap, d) != 0.0 ==> prices[d] > 0.0) && NonNegative(cap)
    ensures var s := WalkStep(w, d, prices, cap, first);
            && s.units >= w.units && s.invested >= w.invested
            && (d >= first && Injection(cap, d) != 0.0 ==> s.units > w.units && s.invested > w.invested)
            && (d < first || Injection(cap, d) == 0.0 ==> s.units == w.units && s.invested == w.invested)
  {
    if d >= first && Injection(cap, d) != 0.0 {
      assert Injection(cap, d) > 0.0;
      assert Injection(cap, d) / prices[d] > 0.0;
    }
  }

  /** Over the whole walk: the totals after any prefix are at most the
      final totals. */
  lemma {:induction false} WalkMonotone(dates: seq<int>, prices: map<int, real>, cap: map<int, real>,
                                        first: int, n: nat)
    requires PositivelyPriced(dates, prices, cap) && NonNegative(cap) && n <= |dates|
    ensures Walkable(dates[..n], prices, cap)
    ensures Walk(dates[..n], prices, cap, first).units <= Walk(dates, prices, cap, first).units
    ensures Walk(dates[..n], prices, cap, first).invested <= Walk(dates, prices, cap, first).invested
    decreases |dates|
  {
    InPrefix(dates, n);
    if n == |dates| {
      assert dates[..n] == dates;
    } else {
      var pre := dates[..|dates| - 1];
      WalkUnfold(dates, prices, cap, first);
      PositivelyPricedPrefix(dates, prices, cap, |dates| - 1);
      WalkMonotone(pre, prices, cap, first, n);
      assert pre[..n] == dates[..n];
      WalkStepGrows(Walk(pre, prices, cap, first), dates[|dates| - 1], prices, cap, first);
    }
  }

  /** The sum of the injections on the walked days on or after `first`. */
  ghost function InjectedFrom(dates: seq<int>, cap: map<int, real>, first: int): real
    decreases |dates|
  {
    if dates == [] then 0.0
    else
      var d := dates[|dates| - 1];
      InjectedFrom(dates[..|dates| - 1], cap, first) + (if d >= first then Injection(cap, d) else 0.0)
  }

  /** The invested total is exactly the injections on walked days from the
      first injection on; an injection on a day without a price is never
      invested. */
  lemma {:induction false} WalkInvested(dates: seq<int>, prices: map<int, real>, cap: map<int, real>,
                                        first: int)
    requires Walkable(dates, prices, cap)
    ensures Walk(dates, prices, cap, first).invested == InjectedFrom(dates, cap, first)
    decreases |dates|
  {
    if dates != [] {
      WalkUnfold(dates, prices, cap, first);
      WalkInvested(dates[..|dates| - 1], prices, cap, first);
    }
  }

  /** Dropping the injection of a day that is not walked changes nothing
      in the walk. */
  lemma {:induction false} WalkIgnoresUnpriced(dates: seq<int>, prices: map<int, real>, cap: map<int, real>,
                                               first: int, d0: int)
    requires Walkable(dates, prices, cap) && d0 !in dates
    ensures Walkable(dates, prices, cap - {d0})
    ensures Walk(dates, prices, cap, first) == Walk(dates, prices, cap - {d0}, first)
    decreases |dates|
  {
    assert forall d :: d in dates ==> Injection(cap - {d0}, d) == Injection(cap, d);
    if dates != [] {
      var pre := dates[..|dates| - 1];
      WalkUnfold(dates, prices, cap, first);
      WalkUnfold(dates, prices, cap - {d0}, first);
      InPrefix(dates, |dates| - 1);
      WalkIgnoresUnpriced(pre, prices, cap, first, d0);
    }
  }

  /** With non-negative injections and positive prices: while nothing has
      been emitted nothing is held or invested; once something has, units
      are positive, the first entry is on an injection day, and the last
      entry carries the running totals. */
  lemma {:induction false} WalkEntriesTrackTotals(dates: seq<int>, prices: map<int, real>, cap: map<int, real>,
                                                  first: int)
    requires PositivelyPriced(dates, prices, cap) && NonNegative(cap)
    ensures var w := Walk(dates, prices, cap, first);
            && (w.entries == [] ==> w.units == 0.0 && w.invested == 0.0)
            && (w.entries != [] ==>
                  && w.units > 0.0
                  && Injection(cap, w.entries[0].date) > 0.0
                  && w.entries[|w.entries| - 1].units == w.units
                  && w.entries[|w.entries| - 1].totalInvested == w.invested)
    decreases |dates|
  {
    if dates != [] {
      var pre := dates[..|dates| - 1];
      var d := dates[|dates| - 1];
      WalkUnfold(dates, prices, cap, first);
      PositivelyPricedPrefix(dates, prices, cap, |dates| - 1);
      WalkEntriesTrackTotals(pre, prices, cap, first);
      var w := Walk(pre, prices, cap, first);
      WalkStepGrows(w, d, prices, cap, first);
      var s := WalkStep(w, d, prices, cap, first);
      if d >= first {
        EmitStep(w.entries, d, s.units, s.invested, prices[d]);
        if w.entries == [] && s.units > 0.0 {
          assert s.units != w.units;
          assert Injection(cap, d) > 0.0;
        }
      }
    }
  }

  /** The totals entry `e` carries when it is the entry of walked day
      `dates[i]`: the units held and the sum invested after walking
      `dates[..i + 1]`. */
  ghost predicate EntryTotalsAt(e: BenchmarkEntry, dates: seq<int>, prices: map<int, real>,
                                cap: map<int, real>, first: int, i: int)
  {
    && 0 <= i < |dates| && dates[i] == e.date
    && Walkable(dates[..i + 1], prices, cap)
    && e.units == Walk(dates[..i + 1], prices, cap, first).units
    && e.totalInvested == InjectedFrom(dates[..i + 1], cap, first)
  }

  /** `e` is the entry of some walked day and carries that day's totals. */
  ghost predicate CarriesTotals(e: BenchmarkEntry, dates: seq<int>, prices: map<int, real>,
                                cap: map<int, real>, first: int)
  {
    exists i :: EntryTotalsAt(e, dates, prices, cap, first, i)
  }

  /** Every entry carries the running totals of its own day: the units
      held after walking up to it and the injections invested so far. */
  lemma {:induction false} WalkEntryTotals(dates: seq<int>, prices: map<int, real>, cap: map<int, real>,
                                           first: int)
    requires Walkable(dates, prices, cap)
    ensures var es := Walk(dates, prices, cap, first).entries;
            forall k :: 0 <= k < |es| ==> CarriesTotals(es[k], dates, prices, cap, first)
    decreases |dates|
  {
    if dates != [] {
      var n := |dates| - 1;
      var pre := dates[..n];
      WalkUnfold(dates, prices, cap, first);
      WalkEntryTotals(pre, prices, cap, first);
      WalkInvested(dates, prices, cap, first);
      var w := Walk(pre, prices, cap, first);
      var es := Walk(dates, prices, cap, first).entries;
      forall k | 0 <= k < |es| ensures CarriesTotals(es[k], dates, prices, cap, first) {
        if k < |w.entries| {
          assert es[k] == w.entries[k];
          assert CarriesTotals(w.entries[k], pre, prices, cap, first);
          var i :| EntryTotalsAt(w.entries[k], pre, prices, cap, first, i);
          assert pre[..i + 1] == dates[..i + 1];
          assert EntryTotalsAt(es[k], dates, prices, cap, first, i);
        } else {
          assert dates[..n + 1] == dates;
          assert EntryTotalsAt(es[k], dates, prices, cap, first, n);
        }
      }
    }
  }

  /** With non-negative injections, whatever the prices: while nothing
      has been emitted no positive holding exists, and the first entry is
      on an injection day, since units change only when capital comes in. */
  lemma {:induction false} WalkFirstEntryOnInjection(dates: seq<int>, prices: map<int, real>,
                                                     cap: map<int, real>, first: int)
    requires Walkable(dates, prices, cap) && NonNegative(cap)
    ensures var w := Walk(dates, prices, cap, first);
            && (w.entries == [] ==> w.units <= 0.0)
            && (w.entries != [] ==> Injection(cap, w.entries[0].date) > 0.0)
    decreases |dates|
  {
    if dates != [] {
      var pre := dates[..|dates| - 1];
      var d := dates[|dates| - 1];
      WalkUnfold(dates, prices, cap, first);
      WalkFirstEntryOnInjection(pre, prices, cap, first);
      var w := Walk(pre, prices, cap, first);
      var s := WalkStep(w, d, prices, cap, first);
      if d >= first {
        EmitStep(w.entries, d, s.units, s.invested, prices[d]);
        if w.entries == [] && s.units > 0.0 {
          assert s.units != w.units;
          assert Injection(cap, d) > 0.0;
        } else if w.entries != [] {
          assert s.entries[0] == w.entries[0];
        }
      }
    }
  }
}
