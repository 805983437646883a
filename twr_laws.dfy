/** Properties of the chained time-weighted return: one point per
    history entry in history order, the first point of a benchmark
    history is 0%, each step multiplies the factor by the period's value
    ratio, and over a single sub-period the factor telescopes to the
    ratio of the last value to the first. */
module TwrLaws {
  import opened Basics
  import opened BenchmarkSpec
  import opened BenchmarkLaws

  /** The `k`-th point is the `k`-th entry's date with the factor reached
      after that entry. */
  lemma {:induction false} TwrPointsAt(h: seq<BenchmarkEntry>, cap: map<int, real>, k: nat)
    requires TwrDefined(h, cap) && k < |h|
    ensures TwrDefined(h[..k + 1], cap)
    ensures TwrPoints(h, cap)[k] == PointOf(h[k], TwrPeriod(h[..k + 1], cap))
    ensures TwrPoints(h, cap)[k].date == h[k].date
    decreases |h|
  {
    var n := |h|;
    TwrDefinedPrefix(h, cap, n - 1);
    TwrDefinedPrefix(h, cap, k + 1);
    if k < n - 1 {
      var pre := h[..n - 1];
      TwrPointsAt(pre, cap, k);
      assert pre[..k + 1] == h[..k + 1];
    } else {
      assert h[..k + 1] == h;
    }
  }

  /** A prefix of a history on which the TWR is defined has it defined. */
  lemma TwrDefinedPrefix(h: seq<BenchmarkEntry>, cap: map<int, real>, n: nat)
    requires TwrDefined(h, cap) && n <= |h|
    ensures TwrDefined(h[..n], cap)
  {
  }

  /** A history that opens on an injection day starts at 0%. */
  lemma TwrFirstPointZero(h: seq<BenchmarkEntry>, cap: map<int, real>)
    requires TwrDefined(h, cap) && |h| > 0 && Injection(cap, h[0].date) > 0.0
    ensures TwrPoints(h, cap)[0].twr == 0.0
  {
    TwrPointsAt(h, cap, 0);
    TwrSnoc(h, cap, 0);
    assert h[..0] == [];
  }

  /** The benchmark's own history opens on an injection day, so its TWR
      starts at 0%. */
  lemma BenchmarkTwrStartsAtZero(dates: seq<int>, prices: map<int, real>, cap: map<int, real>, first: int)
    requires Walkable(dates, prices, cap) && NonNegative(cap)
    requires TwrDefined(Walk(dates, prices, cap, first).entries, cap)
    requires Walk(dates, prices, cap, first).entries != []
    ensures TwrPoints(Walk(dates, prices, cap, first).entries, cap)[0].twr == 0.0
  {
    WalkFirstEntryOnInjection(dates, prices, cap, first);
    TwrFirstPointZero(Walk(dates, prices, cap, first).entries, cap);
  }

  /** One chained step as a ratio: a later injection day multiplies the
      factor by (value - injected) / start when the period started
      positive and keeps it otherwise; a regular day multiplies it by
      value / start; the first injection resets it to 1. The period then
      starts at the day's value. */
  lemma ChainRatio(p: Period, e: BenchmarkEntry, cap: map<int, real>)
    requires p.start.Some? && Injection(cap, e.date) <= 0.0 ==> p.start.value != 0.0
    ensures var q := Chain(p, e, cap);
            var inj := Injection(cap, e.date);
            var v := e.benchmarkValue;
            && (inj > 0.0 && p.start.Some? && p.lastFlowDate.Some? && p.start.value > 0.0 ==>
                  q.factor == p.factor * ((v - inj) / p.start.value))
            && (inj > 0.0 && p.start.Some? && p.lastFlowDate.Some? && p.start.value <= 0.0 ==>
                  q.factor == p.factor)
            && (inj > 0.0 && (p.start.None? || p.lastFlowDate.None?) ==> q.factor == 1.0)
            && (inj <= 0.0 && p.start.Some? ==> q.factor == p.factor * (v / p.start.value))
            && (inj <= 0.0 && p.start.None? ==> q.factor == 1.0 && q.start == None)
            && (inj > 0.0 || p.start.Some? ==> q.start == Some(v))
            && (inj > 0.0 ==> q.lastFlowDate == Some(e.date))
            && (inj <= 0.0 ==> q.lastFlowDate == p.lastFlowDate)
  {
    var inj := Injection(cap, e.date);
    var v := e.benchmarkValue;
    if p.start.Some? {
      var s := p.start.value;
      if inj > 0.0 && s > 0.0 {
        OnePlusReturn(v - inj, s);
      } else if inj <= 0.0 {
        OnePlusReturn(v, s);
      }
    }
  }

  /** `1 + (x - s) / s` is the ratio `x / s`. */
  lemma OnePlusReturn(x: real, s: real)
    requires s != 0.0
    ensures 1.0 + (x - s) / s == x / s
  {
    assert (x - s) / s == x / s - s / s;
  }

  /** Over a single sub-period (an injection on the first entry only, no
      zero values), the period start is the latest value and the factor
      is the ratio of the latest value to the first. */
  lemma {:induction false} TwrTelescopes(h: seq<BenchmarkEntry>, cap: map<int, real>)
    requires |h| > 0 && Injection(cap, h[0].date) > 0.0
    requires forall i :: 1 <= i < |h| ==> Injection(cap, h[i].date) <= 0.0
    requires forall i :: 0 <= i < |h| ==> h[i].benchmarkValue != 0.0
    ensures TwrDefined(h, cap)
    ensures TwrPeriod(h, cap).start == Some(h[|h| - 1].benchmarkValue)
    ensures Scales(TwrPeriod(h, cap).factor, h[0].benchmarkValue, h[|h| - 1].benchmarkValue)
    decreases |h|
  {
    var n := |h|;
    if n == 1 {
      TwrSnoc(h, cap, 0);
      assert h[..0] == [] && h[..1] == h;
    } else {
      TwrTelescopes(h[..n - 1], cap);
      TelescopeStep(h, cap);
    }
  }

  /** The step of `TwrTelescopes`: a regular day extends the sub-period by
      the ratio of its value to the previous one. */
  lemma TelescopeStep(h: seq<BenchmarkEntry>, cap: map<int, real>)
    requires |h| > 1 && TwrDefined(h, cap) && Injection(cap, h[|h| - 1].date) <= 0.0
    requires h[|h| - 2].benchmarkValue != 0.0
    requires TwrDefined(h[..|h| - 1], cap)
    requires TwrPeriod(h[..|h| - 1], cap).start == Some(h[|h| - 2].benchmarkValue)
    requires Scales(TwrPeriod(h[..|h| - 1], cap).factor, h[0].benchmarkValue, h[|h| - 2].benchmarkValue)
    ensures TwrPeriod(h, cap).start == Some(h[|h| - 1].benchmarkValue)
    ensures Scales(TwrPeriod(h, cap).factor, h[0].benchmarkValue, h[|h| - 1].benchmarkValue)
  {
    var n := |h|;
    ChainRegular(TwrPeriod(h[..n - 1], cap), h[n - 1], cap, h[0].benchmarkValue);
  }

  /** A regular day with `factor * v0` at the period start keeps
      `factor * v0` at the new period start. */
  lemma ChainRegular(p: Period, e: BenchmarkEntry, cap: map<int, real>, v0: real)
    requires Injection(cap, e.date) <= 0.0 && p.start.Some? && p.start.value != 0.0
    requires Scales(p.factor, v0, p.start.value)
    ensures Chain(p, e, cap).start == Some(e.benchmarkValue)
    ensures Scales(Chain(p, e, cap).factor, v0, e.benchmarkValue)
  {
    ChainRatio(p, e, cap);
    Rescale(p.factor, v0, p.start.value, e.benchmarkValue);
  }

  /** The factor `f` carries the value `v0` to `v`. */
  ghost predicate Scales(f: real, v0: real, v: real)
  {
    f * v0 == v
  }

  /** If `f * v0 == u` then `f * (v / u) * v0 == v`. */
  lemma Rescale(f: real, v0: real, u: real, v: real)
    requires u != 0.0 && f * v0 == u
    ensures f * (v / u) * v0 == v
  {
    calc {
      f * (v / u) * v0;
      == (f * v0) * (v / u);
      == u * (v / u);
      == v;
    }
  }
}
