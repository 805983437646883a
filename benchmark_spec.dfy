/** The buy-and-hold benchmark of `BenchmarkEngine` as values: capital
    injections aggregated per day, the walk over the benchmark's price
    dates that buys index units with every injection, the chained
    time-weighted return over the resulting history, and the guards of
    the two annualised figures. The engine's imperative methods are
    proved against these definitions. */
module BenchmarkSpec {
  import opened Basics
  import opened Xirr
  import opened SortedKeys

  /** External capital entering the portfolio (negative when paid in). */
  datatype CapitalFlow = CapitalFlow(date: int, amount: real)

  /** One row of the benchmark history. */
  datatype BenchmarkEntry = BenchmarkEntry(date: int, benchmarkValue: real, totalInvested: real,
                                           units: real, omxPrice: real)

  /** One point of the time-weighted return, in percent. */
  datatype TwrPoint = TwrPoint(date: int, twr: real)

  /** What `getOmxPrice` returns. */
  datatype PricePoint = PricePoint(date: int, price: real)

  /** Sum of `|amount|` over the flows dated `d`. */
  function InjectedOn(flows: seq<CapitalFlow>, d: int): (total: real)
    ensures total >= 0.0
    decreases |flows|
  {
    if flows == [] then 0.0
    else
      var f := flows[|flows| - 1];
      InjectedOn(flows[..|flows| - 1], d) + (if f.date == d then Abs(f.amount) else 0.0)
  }

  /** The days on which some flow is dated. */
  function FlowDates(flows: seq<CapitalFlow>): set<int>
  {
    set f | f in flows :: f.date
  }

  /** `capitalByDate`: every flow day mapped to the total injected on it. */
  function CapitalMap(flows: seq<CapitalFlow>): (cap: map<int, real>)
    ensures forall d :: d in cap ==> cap[d] >= 0.0
  {
    map d | d in FlowDates(flows) :: InjectedOn(flows, d)
  }

  /** The amount injected on day `d`, 0 on a day without flows. */
  function Injection(cap: map<int, real>, d: int): real
  {
    if d in cap then cap[d] else 0.0
  }

  /** The earliest day of `capitalByDate`: the first injection day. */
  ghost function FirstCapitalDate(flows: seq<CapitalFlow>): (d: int)
    requires |flows| > 0
    ensures d in FlowDates(flows)
    ensures forall f :: f in flows ==> d <= f.date
  {
    assert forall f :: f in flows ==> f.date in FlowDates(flows);
    assert flows[0] in flows;
    MinOf(FlowDates(flows))
  }

  /** The running totals of the walk and the entries emitted so far. */
  datatype WalkState = WalkState(units: real, invested: real, entries: seq<BenchmarkEntry>)

  /** Every walked day has a price, and every injection day a non-zero one. */
  ghost predicate Walkable(dates: seq<int>, prices: map<int, real>, cap: map<int, real>)
  {
    forall d :: d in dates ==> d in prices && (Injection(cap, d) != 0.0 ==> prices[d] != 0.0)
  }

  /** One price date of the walk: days before the first injection are
      skipped; an injection buys `amount / price` units and adds `amount`
      to the invested total; an entry is emitted once units are positive. */
  function WalkStep(w: WalkState, d: int, prices: map<int, real>, cap: map<int, real>, first: int): (s: WalkState)
    requires d in prices && (Injection(cap, d) != 0.0 ==> prices[d] != 0.0)
    ensures d < first ==> s == w
    ensures s.units != w.units || s.invested != w.invested ==> Injection(cap, d) != 0.0
    ensures |w.entries| <= |s.entries| <= |w.entries| + 1 && s.entries[..|w.entries|] == w.entries
  {
    if d < first then w
    else
      var p := prices[d];
      var amount := Injection(cap, d);
      var units := if amount != 0.0 then w.units + amount / p else w.units;
      var invested := if amount != 0.0 then w.invested + amount else w.invested;
      WalkState(units, invested, Emit(w.entries, d, units, invested, p))
  }

  /** The entry of a walked day is emitted once units are positive. */
  function Emit(entries: seq<BenchmarkEntry>, d: int, units: real, invested: real, p: real): seq<BenchmarkEntry>
  {
    if units > 0.0 then entries + [BenchmarkEntry(d, units * p, invested, units, p)] else entries
  }

  /** The walk over `dates` from zero units and nothing invested. */
  function Walk(dates: seq<int>, prices: map<int, real>, cap: map<int, real>, first: int): (w: WalkState)
    requires Walkable(dates, prices, cap)
    ensures |w.entries| <= |dates|
    decreases |dates|
  {
    if dates == [] then WalkState(0.0, 0.0, [])
    else
      assert Walkable(dates[..|dates| - 1], prices, cap);
      WalkStep(Walk(dates[..|dates| - 1], prices, cap, first), dates[|dates| - 1], prices, cap, first)
  }

  /** The running state of `calculateTWR`: the chained factor, the value
      at the start of the current sub-period, and the last injection day. */
  datatype Period = Period(factor: real, start: Option<real>, lastFlowDate: Option<int>)

  /** The state before the first entry. */
  const NoPeriod: Period := Period(1.0, None, None)

  /** A regular (non-injection) day divides by the previous day's value,
      which must then be non-zero. */
  ghost predicate TwrDefined(h: seq<BenchmarkEntry>, cap: map<int, real>)
  {
    forall i :: 1 <= i < |h| && Injection(cap, h[i].date) <= 0.0 ==> h[i - 1].benchmarkValue != 0.0
  }

  /** One history entry of `calculateTWR`. An injection day starts a new
      sub-period: the first one resets the factor to 1, a later one
      chains the return up to just before the injection when the period
      started positive. A regular day after the first injection chains
      the day's return. Before any injection the factor stays 1. The
      period then starts at the day's value. */
  function Chain(p: Period, e: BenchmarkEntry, cap: map<int, real>): (q: Period)
    requires p.start.Some? && Injection(cap, e.date) <= 0.0 ==> p.start.value != 0.0
    ensures q.start.Some? <==> Injection(cap, e.date) > 0.0 || p.start.Some?
    ensures q.start.Some? ==> q.start.value == e.benchmarkValue
    ensures q.lastFlowDate.Some? <==> Injection(cap, e.date) > 0.0 || p.lastFlowDate.Some?
  {
    var inj := Injection(cap, e.date);
    var v := e.benchmarkValue;
    var factor :=
      if inj > 0.0 then
        if p.start.Some? && p.lastFlowDate.Some? then
          if p.start.value > 0.0 then p.factor * (1.0 + ((v - inj) - p.start.value) / p.start.value)
          else p.factor
        else 1.0
      else if p.start.Some? then p.factor * (1.0 + (v - p.start.value) / p.start.value)
      else 1.0;
    var start := if inj > 0.0 || p.start.Some? then Some(v) else None;
    var lastFlowDate := if inj > 0.0 then Some(e.date) else p.lastFlowDate;
    Period(factor, start, lastFlowDate)
  }

  /** The point emitted for an entry once its period state is known. */
  function PointOf(e: BenchmarkEntry, p: Period): TwrPoint
  {
    TwrPoint(e.date, (p.factor - 1.0) * 100.0)
  }

  /** The period state after a whole history. Once an injection has been
      seen, the period start is the latest entry's value. */
  function TwrPeriod(h: seq<BenchmarkEntry>, cap: map<int, real>): (p: Period)
    requires TwrDefined(h, cap)
    ensures p.start.Some? <==> p.lastFlowDate.Some?
    ensures p.start.Some? ==> |h| > 0 && p.start.value == h[|h| - 1].benchmarkValue
    decreases |h|
  {
    if h == [] then NoPeriod
    else
      var prefix := h[..|h| - 1];
      assert TwrDefined(prefix, cap);
      Chain(TwrPeriod(prefix, cap), h[|h| - 1], cap)
  }

  /** `calculateTWR`'s points: one per history entry. */
  function TwrPoints(h: seq<BenchmarkEntry>, cap: map<int, real>): (points: seq<TwrPoint>)
    requires TwrDefined(h, cap)
    ensures |points| == |h|
    decreases |h|
  {
    if h == [] then []
    else
      var prefix := h[..|h| - 1];
      assert TwrDefined(prefix, cap);
      TwrPoints(prefix, cap) + [PointOf(h[|h| - 1], TwrPeriod(h, cap))]
  }

  /** `calculateAnnualizedTWR`: the last TWR point compounded to a yearly
      rate over the elapsed years (days over 365.25); 0 for an empty TWR list
      or when no time has elapsed. `Math.pow` is the parameter `pow`. */
  function AnnualizedTwr(points: seq<TwrPoint>, startDate: int, endDate: int,
                         pow: (real, real) -> real): (r: real)
    ensures |points| == 0 ==> r == 0.0
    ensures endDate <= startDate ==> r == 0.0
  {
    if |points| == 0 then 0.0
    else
      var twrReturn := points[|points| - 1].twr / 100.0;
      var years := (endDate - startDate) as real / 365.25;
      if years <= 0.0 then 0.0
      else (pow(1.0 + twrReturn, 1.0 / years) - 1.0) * 100.0
  }

  /** The benchmark's XIRR schedule: every capital flow as it is (already
      negative when paid in), then the final value. */
  function BenchmarkSchedule(flows: seq<CapitalFlow>, endValue: real, endDate: int): (s: seq<Flow>)
    ensures |s| == |flows| + 1
    ensures forall i :: 0 <= i < |flows| ==> s[i] == Flow(flows[i].date, flows[i].amount)
    ensures s[|flows|] == Flow(endDate, endValue)
  {
    seq(|flows|, i requires 0 <= i < |flows| => Flow(flows[i].date, flows[i].amount))
    + [Flow(endDate, endValue)]
  }
}
