/** `BenchmarkEngine`: the buy-and-hold shadow portfolio. `Process`
    walks the benchmark's price dates and buys index units with every
    capital injection; `CalculateTwr` chains the time-weighted return
    over the resulting history; `GetOmxPrice` looks up the nearest price
    on or before a day. */
module Benchmark {
  import opened Basics
  import opened Xirr
  import opened SortedKeys
  import opened BenchmarkSpec
  import opened BenchmarkLaws

  /** What `getStats` reports. */
  datatype BenchmarkStats = BenchmarkStats(benchmarkValue: real, benchmarkAnnualizedTwr: real,
                                           benchmarkCagr: real, totalUnits: real,
                                           totalInvested: real)

  class BenchmarkEngine {
    const capitalFlows: seq<CapitalFlow>
    /** Closing price of the index per day. */
    const benchmarkPrices: map<int, real>
    var history: seq<BenchmarkEntry>
    var totalUnits: real
    var totalInvested: real
    var twrHistory: seq<TwrPoint>

    constructor (capitalFlows: seq<CapitalFlow>, benchmarkPrices: map<int, real>)
      ensures this.capitalFlows == capitalFlows && this.benchmarkPrices == benchmarkPrices
      ensures history == [] && totalUnits == 0.0 && totalInvested == 0.0 && twrHistory == []
    {
      this.capitalFlows := capitalFlows;
      this.benchmarkPrices := benchmarkPrices;
      history := [];
      totalUnits := 0.0;
      totalInvested := 0.0;
      twrHistory := [];
    }

    /** `getOmxPrice`: the day itself when it has a non-zero price;
        otherwise the latest priced day on or before it; otherwise the
        earliest priced day; nothing when there are no prices. */
    method GetOmxPrice(target: int) returns (r: Option<PricePoint>)
      ensures r.None? <==> |benchmarkPrices| == 0
      ensures r.Some? ==> r.value.date in benchmarkPrices
                          && r.value.price == benchmarkPrices[r.value.date]
      ensures target in benchmarkPrices && benchmarkPrices[target] != 0.0 ==>
                r == Some(PricePoint(target, benchmarkPrices[target]))
      ensures r.Some? && (exists k :: k in benchmarkPrices && k <= target) ==>
                && r.value.date <= target
                && forall k :: k in benchmarkPrices && k <= target ==> k <= r.value.date
      ensures r.Some? && (forall k :: k in benchmarkPrices ==> k > target) ==>
                forall k :: k in benchmarkPrices ==> r.value.date <= k
    {
      if target in benchmarkPrices && benchmarkPrices[target] != 0.0 {
        return Some(PricePoint(target, benchmarkPrices[target]));
      }
      var sortedDates := SortedDates(benchmarkPrices);
      AscendingSpec(benchmarkPrices.Keys);
      var closest := LatestOnOrBefore(sortedDates, target);
      if closest.Some? {
        return Some(PricePoint(closest.value, benchmarkPrices[closest.value]));
      }
      if |sortedDates| == 0 {
        return None;
      }
      assert sortedDates[0] in benchmarkPrices;
      assert forall k :: k in benchmarkPrices ==> k in sortedDates;
      return Some(PricePoint(sortedDates[0], benchmarkPrices[sortedDates[0]]));
    }

    /** The scan of `getOmxPrice`: the last of the ascending days that is
        on or before the target, if any. */
    static method LatestOnOrBefore(sortedDates: seq<int>, target: int) returns (closest: Option<int>)
      requires StrictlyIncreasing(sortedDates)
      ensures closest.None? <==> forall k :: 0 <= k < |sortedDates| ==> sortedDates[k] > target
      ensures closest.Some? ==> closest.value in sortedDates && closest.value <= target
      ensures closest.Some? ==> forall k :: k in sortedDates && k <= target ==> k <= closest.value
    {
      closest := None;
      var i := 0;
      while i < |sortedDates| && sortedDates[i] <= target
        invariant 0 <= i <= |sortedDates|
        invariant forall k :: 0 <= k < i ==> sortedDates[k] <= target
        invariant closest == if i == 0 then None else Some(sortedDates[i - 1])
      {
        closest := Some(sortedDates[i]);
        i := i + 1;
      }
      assert forall k :: i <= k < |sortedDates| ==> sortedDates[k] > target;
    }

    /** One history entry of `calculateTWR`, as the source branches on it. */
    static method ChainEntry(factor: real, startValue: Option<real>, lastFlowDate: Option<int>,
                             entry: BenchmarkEntry, capitalByDate: map<int, real>)
      returns (newFactor: real, newStart: Option<real>, newLastFlowDate: Option<int>)
      requires startValue.Some? && Injection(capitalByDate, entry.date) <= 0.0 ==> startValue.value != 0.0
      ensures Period(newFactor, newStart, newLastFlowDate)
              == Chain(Period(factor, startValue, lastFlowDate), entry, capitalByDate)
    {
      newFactor, newStart, newLastFlowDate := factor, startValue, lastFlowDate;
      var benchmarkValue := entry.benchmarkValue;
      var capitalInjected := Injection(capitalByDate, entry.date);
      if capitalInjected > 0.0 {
        if startValue.Some? && lastFlowDate.Some? {
          var endValueBeforeInjection := benchmarkValue - capitalInjected;
          if startValue.value > 0.0 {
            var periodReturn := (endValueBeforeInjection - startValue.value) / startValue.value;
            newFactor := factor * (1.0 + periodReturn);
          }
        } else {
          newFactor := 1.0;
        }
        newStart := Some(benchmarkValue);
        newLastFlowDate := Some(entry.date);
      } else if startValue.Some? {
        var periodReturn := (benchmarkValue - startValue.value) / startValue.value;
        newFactor := factor * (1.0 + periodReturn);
        newStart := Some(benchmarkValue);
      } else {
        newFactor := 1.0;
      }
    }

    /** `capitalByDate`, accumulated flow by flow. */
    method BuildCapitalByDate() returns (cap: map<int, real>)
      ensures cap == CapitalMap(capitalFlows)
    {
      cap := map[];
      var i := 0;
      while i < |capitalFlows|
        invariant 0 <= i <= |capitalFlows|
        invariant cap == CapitalMap(capitalFlows[..i])
      {
        var flow := capitalFlows[i];
        ghost var before := cap;
        if flow.date !in cap {
          cap := cap[flow.date := 0.0];
        }
        assert cap == before[flow.date := Injection(before, flow.date)];
        cap := cap[flow.date := cap[flow.date] + Abs(flow.amount)];
        CapitalMapSnoc(capitalFlows[..i], flow);
        assert capitalFlows[..i + 1] == capitalFlows[..i] + [flow];
        i := i + 1;
      }
      assert capitalFlows[..i] == capitalFlows;
    }

    /** `process`: nothing without capital flows; otherwise the walk over
        the ascending price dates from the first injection day, appended
        to the history, with the final running totals stored. */
    method Process() returns (h: seq<BenchmarkEntry>)
      requires Walkable(Ascending(benchmarkPrices.Keys), benchmarkPrices, CapitalMap(capitalFlows))
      modifies this`history, this`totalUnits, this`totalInvested
      ensures |capitalFlows| == 0 ==>
        history == old(history) && totalUnits == old(totalUnits) && totalInvested == old(totalInvested)
      ensures |capitalFlows| > 0 ==>
        var w := Walk(Ascending(benchmarkPrices.Keys), benchmarkPrices, CapitalMap(capitalFlows),
                      FirstCapitalDate(capitalFlows));
        history == old(history) + w.entries && totalUnits == w.units && totalInvested == w.invested
      ensures h == history
    {
      if |capitalFlows| == 0 {
        return history;
      }
      var sortedBenchmarkDates := SortedDates(benchmarkPrices);
      var capitalByDate := BuildCapitalByDate();
      var capitalDates := SortedDates(capitalByDate);
      AscendingSpec(capitalByDate.Keys);
      assert capitalByDate.Keys == FlowDates(capitalFlows);
      assert capitalFlows[0] in capitalFlows;
      assert capitalFlows[0].date in capitalByDate;
      var firstCapitalDate := capitalDates[0];
      ghost var prefix := history;
      var cumulativeUnits := 0.0;
      var cumulativeInvested := 0.0;
      var i := 0;
      while i < |sortedBenchmarkDates|
        invariant 0 <= i <= |sortedBenchmarkDates|
        invariant Walkable(sortedBenchmarkDates[..i], benchmarkPrices, capitalByDate)
        invariant var w := Walk(sortedBenchmarkDates[..i], benchmarkPrices, capitalByDate, firstCapitalDate);
                  cumulativeUnits == w.units && cumulativeInvested == w.invested
                  && history == prefix + w.entries
      {
        var dateKey := sortedBenchmarkDates[i];
        WalkSnoc(sortedBenchmarkDates, benchmarkPrices, capitalByDate, firstCapitalDate, i);
        ghost var w := Walk(sortedBenchmarkDates[..i], benchmarkPrices, capitalByDate, firstCapitalDate);
        cumulativeUnits, cumulativeInvested :=
          WalkDate(dateKey, capitalByDate, firstCapitalDate, cumulativeUnits, cumulativeInvested);
        WalkStepAppend(w, prefix, dateKey, benchmarkPrices, capitalByDate, firstCapitalDate);
        i := i + 1;
      }
      assert sortedBenchmarkDates[..i] == sortedBenchmarkDates;
      totalUnits := cumulativeUnits;
      totalInvested := cumulativeInvested;
      h := history;
    }

    /** One price date of `process`: skip it before the first injection;
        buy `amount / price` units on an injection day; append an entry
        once units are positive. */
    method WalkDate(dateKey: int, capitalByDate: map<int, real>, firstCapitalDate: int,
                    units: real, invested: real)
      returns (newUnits: real, newInvested: real)
      requires dateKey in benchmarkPrices
      requires Injection(capitalByDate, dateKey) != 0.0 ==> benchmarkPrices[dateKey] != 0.0
      modifies this`history
      ensures WalkState(newUnits, newInvested, history)
              == WalkStep(WalkState(units, invested, old(history)), dateKey, benchmarkPrices,
                          capitalByDate, firstCapitalDate)
    {
      newUnits, newInvested := units, invested;
      if dateKey < firstCapitalDate {
        assert WalkStep(WalkState(units, invested, history), dateKey, benchmarkPrices,
                        capitalByDate, firstCapitalDate) == WalkState(units, invested, history);
        return;
      }
      var omxPrice := benchmarkPrices[dateKey];
      if Injection(capitalByDate, dateKey) != 0.0 {
        var amount := capitalByDate[dateKey];
        var unitsBought := amount / omxPrice;
        newUnits := newUnits + unitsBought;
        newInvested := newInvested + amount;
      }
      ghost var w := WalkStep(WalkState(units, invested, history), dateKey, benchmarkPrices,
                              capitalByDate, firstCapitalDate);
      assert w.units == newUnits && w.invested == newInvested;
      assert w.entries == Emit(history, dateKey, newUnits, newInvested, omxPrice);
      EmitStep(history, dateKey, newUnits, newInvested, omxPrice);
      if newUnits > 0.0 {
        var benchmarkValue := newUnits * omxPrice;
        history := history + [BenchmarkEntry(dateKey, benchmarkValue, newInvested, newUnits, omxPrice)];
      }
    }

    /** `calculateTWR`: nothing (and no stored result) for an empty history
        or without capital flows; otherwise one point per history entry,
        stored in `twrHistory`. */
    method CalculateTwr() returns (points: seq<TwrPoint>)
      requires TwrDefined(history, CapitalMap(capitalFlows))
      modifies this`twrHistory
      ensures |history| == 0 || |capitalFlows| == 0 ==> points == [] && twrHistory == old(twrHistory)
      ensures |history| > 0 && |capitalFlows| > 0 ==>
        points == TwrPoints(history, CapitalMap(capitalFlows)) && twrHistory == points
    {
      if |history| == 0 || |capitalFlows| == 0 {
        return [];
      }
      var capitalByDate := BuildCapitalByDate();
      var cumulativeTwr := 1.0;
      var startValue: Option<real> := None;
      var lastFlowDate: Option<int> := None;
      points := [];
      var i := 0;
      while i < |history|
        invariant 0 <= i <= |history|
        invariant TwrDefined(history[..i], capitalByDate)
        invariant Period(cumulativeTwr, startValue, lastFlowDate) == TwrPeriod(history[..i], capitalByDate)
        invariant points == TwrPoints(history[..i], capitalByDate)
      {
        var entry := history[i];
        TwrSnoc(history, capitalByDate, i);
        cumulativeTwr, startValue, lastFlowDate :=
          ChainEntry(cumulativeTwr, startValue, lastFlowDate, entry, capitalByDate);
        points := points + [TwrPoint(entry.date, (cumulativeTwr - 1.0) * 100.0)];
        i := i + 1;
      }
      assert history[..i] == history;
      twrHistory := points;
    }

    /** `calculateCAGR`: 0 when the schedule has fewer than two flows (no
        capital flows); otherwise the solver's rate on the schedule,
        through the fail-safe. */
    method CalculateCagr(endValue: real, endDate: int, solve: seq<Flow> -> SolverOutcome)
      returns (pct: real)
      ensures |capitalFlows| == 0 ==> pct == 0.0
      ensures |capitalFlows| > 0 ==>
        pct == RateToPercent(solve(BenchmarkSchedule(capitalFlows, endValue, endDate)))
      ensures -10000.0 <= pct <= 10000.0
    {
      var flows: seq<Flow> := [];
      var i := 0;
      while i < |capitalFlows|
        invariant 0 <= i <= |capitalFlows|
        invariant flows == seq(i, k requires 0 <= k < i => Flow(capitalFlows[k].date, capitalFlows[k].amount))
      {
        flows := flows + [Flow(capitalFlows[i].date, capitalFlows[i].amount)];
        i := i + 1;
      }
      flows := flows + [Flow(endDate, endValue)];
      if |flows| < 2 {
        return 0.0;
      }
      assert flows == BenchmarkSchedule(capitalFlows, endValue, endDate);
      pct := RateToPercent(solve(flows));
    }

    /** `getStats`: nothing without history; otherwise the last value, the
        annualised TWR from the first to the last entry, the CAGR, and the
        stored totals. Computing the TWR stores it in `twrHistory`. */
    method GetStats(pow: (real, real) -> real, solve: seq<Flow> -> SolverOutcome)
      returns (stats: Option<BenchmarkStats>)
      requires TwrDefined(history, CapitalMap(capitalFlows))
      modifies this`twrHistory
      ensures stats.None? <==> |history| == 0
      ensures |history| > 0 && |capitalFlows| > 0 ==> twrHistory == TwrPoints(history, CapitalMap(capitalFlows))
      ensures |history| == 0 || |capitalFlows| == 0 ==> twrHistory == old(twrHistory)
      ensures stats.Some? ==>
        var last := history[|history| - 1];
        var twr := if |capitalFlows| == 0 then [] else TwrPoints(history, CapitalMap(capitalFlows));
        && stats.value.benchmarkValue == last.benchmarkValue
        && stats.value.benchmarkAnnualizedTwr == AnnualizedTwr(twr, history[0].date, last.date, pow)
        && stats.value.benchmarkCagr == (if |capitalFlows| == 0 then 0.0
                                         else RateToPercent(solve(BenchmarkSchedule(capitalFlows, last.benchmarkValue, last.date))))
        && stats.value.totalUnits == totalUnits
        && stats.value.totalInvested == totalInvested
    {
      if |history| == 0 {
        return None;
      }
      var last := history[|history| - 1];
      var first := history[0];
      var twr := CalculateTwr();
      var annualizedTwr := AnnualizedTwr(twr, first.date, last.date, pow);
      var cagr := CalculateCagr(last.benchmarkValue, last.date, solve);
      stats := Some(BenchmarkStats(last.benchmarkValue, annualizedTwr, cagr, totalUnits, totalInvested));
    }
  }
}
