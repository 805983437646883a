/** `PortfolioEngine`: the ledger state machine driven by the trade and
    cashflow rows. `Process` normalises the rows, sorts the events in
    place, applies them one at a time and appends one history row per
    event; `GetStats` reads the final state. */
module Portfolio {
  import opened Basics
  import opened Xirr
  import opened PortfolioEvents
  import opened PortfolioLedger
  import PortfolioLaws

  /** What `getStats` reports. */
  datatype Stats = Stats(portfolioValue: real, cash: real, totalReturnPct: real, cagr: real,
                         holdings: map<string, real>, purchasePrices: map<string, real>, nav: real)

  class PortfolioEngine {
    const trades: seq<TradeRow>
    const cashflows: seq<CashflowRow>
    var history: seq<HistoryEntry>
    var currentPositions: map<string, real>
    /** Each stock held in `currentPositions`, once. */
    var positionOrder: seq<string>
    /** Latest purchase price per stock. */
    var purchasePrices: map<string, real>
    /** Average cost per share, fees included. */
    var avgCost: map<string, real>
    var cashBalance: real
    var totalDeposits: real
    /** The sorted events, each with the realized P&L of a sell. */
    var processedEvents: seq<ProcessedEvent>

    /** The ledger the fields hold. */
    function State(): Ledger
      reads this
    {
      Ledger(cashBalance, totalDeposits, currentPositions, positionOrder, avgCost, purchasePrices)
    }

    ghost predicate Valid()
      reads this
    {
      WellFormed(State())
    }

    constructor (trades: seq<TradeRow>, cashflows: seq<CashflowRow>)
      ensures Valid() && State() == Initial
      ensures this.trades == trades && this.cashflows == cashflows
      ensures history == [] && processedEvents == []
    {
      this.trades := trades;
      this.cashflows := cashflows;
      history := [];
      currentPositions := map[];
      positionOrder := [];
      purchasePrices := map[];
      avgCost := map[];
      cashBalance := 0.0;
      totalDeposits := 0.0;
      processedEvents := [];
    }

    /** Step 1 of `process`: every trade row, then every cashflow row, as
        an event. */
    method UnifyEvents() returns (events: seq<Event>)
      ensures events == Normalised(trades, cashflows)
    {
      events := [];
      var i := 0;
      while i < |trades|
        invariant 0 <= i <= |trades|
        invariant events == seq(i, k requires 0 <= k < i => TradeEvent(trades[k]))
      {
        events := events + [TradeEvent(trades[i])];
        i := i + 1;
      }
      var j := 0;
      while j < |cashflows|
        invariant 0 <= j <= |cashflows|
        invariant events == seq(|trades|, k requires 0 <= k < |trades| => TradeEvent(trades[k]))
                            + seq(j, k requires 0 <= k < j => CashflowEvent(cashflows[k]))
      {
        events := events + [CashflowEvent(cashflows[j])];
        j := j + 1;
      }
    }

    /** Applies one event to the fields and returns the realized P&L it
        records (sells only). */
    method ApplyEvent(e: Event) returns (pnl: Option<real>)
      requires Valid()
      modifies this
      ensures Valid()
      ensures State() == Apply(old(State()), e)
      ensures pnl == RealizedPnL(old(State()), e)
      ensures history == old(history) && processedEvents == old(processedEvents)
    {
      if e.Cashflow? {
        cashBalance := cashBalance + e.amount;
        if e.amount > 0.0 {
          totalDeposits := totalDeposits + e.amount;
        }
        pnl := None;
      } else {
        pnl := ApplyTrade(e);
      }
    }

    /** The trade branch of `ApplyEvent`. */
    method ApplyTrade(e: Event) returns (pnl: Option<real>)
      requires Valid() && e.Trade?
      modifies this`cashBalance, this`currentPositions, this`positionOrder, this`avgCost,
               this`purchasePrices
      ensures State() == Apply(old(State()), e)
      ensures pnl == RealizedPnL(old(State()), e)
    {
      if e.quantity > 0.0 {
        ApplyBuy(e);
        pnl := None;
      } else if e.quantity < 0.0 {
        pnl := ApplySell(e);
      } else {
        assert e == Trade(e.date, e.action, e.stock, e.quantity, e.price, e.totalValue);
        cashBalance := cashBalance + e.totalValue;
        TouchStock(e.stock);
        pnl := None;
      }
    }

    /** A buy: pay, open the stock if new, update its average cost,
        quantity and latest purchase price. */
    method ApplyBuy(e: Event)
      requires Valid() && e.Trade? && e.quantity > 0.0
      modifies this`cashBalance, this`currentPositions, this`positionOrder, this`avgCost,
               this`purchasePrices
      ensures State() == Apply(old(State()), e)
    {
      ghost var l := State();
      var stock := e.stock;
      var qty := e.quantity;
      assert e == Trade(e.date, e.action, stock, qty, e.price, e.totalValue);
      ghost var t := Touch(l.(cash := l.cash + e.totalValue), stock);
      cashBalance := cashBalance + e.totalValue;
      TouchStock(stock);
      assert State() == t;
      var totalCost := Abs(e.totalValue);
      var currentQty := currentPositions[stock];
      avgCost := avgCost[stock := AverageCost(currentQty, avgCost[stock], qty, totalCost)];
      currentPositions := currentPositions[stock := currentQty + qty];
      purchasePrices := purchasePrices[stock := e.price];
    }

    /** A sell: collect the proceeds, open the stock if new, reduce the
        position and return the realized P&L against the average cost. */
    method ApplySell(e: Event) returns (pnl: Option<real>)
      requires Valid() && IsSell(e)
      modifies this`cashBalance, this`currentPositions, this`positionOrder, this`avgCost
      ensures State() == Apply(old(State()), e)
      ensures pnl == RealizedPnL(old(State()), e)
    {
      ghost var l := State();
      var stock := e.stock;
      var qty := e.quantity;
      assert e == Trade(e.date, e.action, stock, qty, e.price, e.totalValue);
      ghost var t := Touch(l.(cash := l.cash + e.totalValue), stock);
      cashBalance := cashBalance + e.totalValue;
      TouchStock(stock);
      assert State() == t;
      assert avgCost[stock] == AvgOrZero(l, e.stock);
      var realized := Reduce(stock, qty, e.totalValue);
      assert realized == e.totalValue - Abs(e.quantity) * AvgOrZero(l, e.stock);
      pnl := Some(realized);
      assert pnl == RealizedPnL(l, e) by {
        PortfolioLaws.SellEffect(l, e);
      }
    }

    /** The sell itself: realized P&L is the proceeds minus the sold
        quantity at the average cost, and the position shrinks by the sold
        quantity, snapped to 0 below the dust threshold. */
    method Reduce(stock: string, qty: real, proceeds: real) returns (realized: real)
      requires stock in currentPositions && stock in avgCost
      modifies this`currentPositions
      ensures realized == proceeds - Abs(qty) * avgCost[stock]
      ensures currentPositions == old(currentPositions)[stock := SnapDust(old(currentPositions)[stock] + qty)]
    {
      var sellQty := Abs(qty);
      var costBasis := sellQty * avgCost[stock];
      realized := proceeds - costBasis;
      currentPositions := currentPositions[stock := currentPositions[stock] + qty];
      if Abs(currentPositions[stock]) < DustThreshold {
        currentPositions := currentPositions[stock := 0.0];
      }
    }

    /** Opens a zero position and a zero average cost for a stock seen for
        the first time. */
    method TouchStock(stock: string)
      requires Valid()
      modifies this`currentPositions, this`positionOrder, this`avgCost
      ensures State() == Touch(old(State()), stock)
    {
      if stock !in currentPositions {
        currentPositions := currentPositions[stock := 0.0];
        positionOrder := positionOrder + [stock];
        avgCost := avgCost[stock := 0.0];
      }
    }

    /** NAV: each non-zero position at its latest purchase price, in key
        order. */
    method NetAssetValue() returns (nav: real)
      ensures nav == NavOf(positionOrder, currentPositions, purchasePrices)
    {
      nav := 0.0;
      var i := 0;
      while i < |positionOrder|
        invariant 0 <= i <= |positionOrder|
        invariant nav == NavOf(positionOrder[..i], currentPositions, purchasePrices)
      {
        var stock := positionOrder[i];
        if stock in currentPositions && currentPositions[stock] != 0.0
           && stock in purchasePrices && purchasePrices[stock] != 0.0 {
          nav := nav + currentPositions[stock] * purchasePrices[stock];
        }
        assert positionOrder[..i + 1][..i] == positionOrder[..i];
        i := i + 1;
      }
      assert positionOrder[..i] == positionOrder;
    }

    /** Appends the history row for the current state. */
    method TakeSnapshot(date: int)
      modifies this`history
      ensures history == old(history) + [Snapshot(State(), date)]
    {
      var nav := NetAssetValue();
      var portfolioValue := cashBalance + nav;
      var pnl := portfolioValue - totalDeposits;
      history := history + [HistoryEntry(date, cashBalance, nav, portfolioValue,
                                         totalDeposits, pnl, currentPositions)];
    }

    /** `process`: the events in chronological order (a permutation of
        the normalised rows), the ledger replayed over them, and one
        history row per event. */
    method Process() returns (h: seq<HistoryEntry>)
      requires Valid()
      modifies this
      ensures Valid()
      ensures Chronological(EventsOf(processedEvents))
      ensures KeySorted(EventsOf(processedEvents))
      ensures multiset(EventsOf(processedEvents)) == multiset(Normalised(trades, cashflows))
      ensures SameKeyOrder(EventsOf(processedEvents), Normalised(trades, cashflows))
      ensures State() == Run(old(State()), EventsOf(processedEvents))
      ensures processedEvents == Annotated(old(State()), EventsOf(processedEvents))
      ensures history == old(history) + History(old(State()), EventsOf(processedEvents))
      ensures h == history
      ensures KeyOrder(old(State())) ==> KeyOrder(State())
    {
      ghost var start := State();
      var events := UnifyEvents();
      var a := new Event[|events|](i requires 0 <= i < |events| => events[i]);
      assert a[..] == events;
      SortEvents(a);
      Replay(a);
      PortfolioLaws.EventsOfAnnotated(start, a[..]);
      if KeyOrder(start) {
        PortfolioLaws.RunKeepsKeyOrder(start, a[..]);
      }
      h := history;
    }

    /** The loop of `process`: every event of `a` in turn, starting from
        the current state. */
    method Replay(a: array<Event>)
      requires Valid()
      modifies this
      ensures Valid()
      ensures State() == Run(old(State()), a[..])
      ensures processedEvents == Annotated(old(State()), a[..])
      ensures history == old(history) + History(old(State()), a[..])
    {
      ghost var start := State();
      processedEvents := [];
      var i := 0;
      while i < a.Length
        invariant 0 <= i <= a.Length
        invariant Valid()
        invariant State() == Run(start, a[..i])
        invariant history == old(history) + History(start, a[..i])
        invariant processedEvents == Annotated(start, a[..i])
      {
        var e := a[i];
        ghost var done := a[..i];
        assert a[..i + 1] == done + [e];
        PortfolioLaws.RunSnoc(start, done, e);
        Step(e);
        i := i + 1;
      }
      assert a[..i] == a[..];
    }

    /** One iteration of `process`: apply the event, record it with its
        realized P&L, and take the snapshot. */
    method Step(e: Event)
      requires Valid()
      modifies this
      ensures Valid()
      ensures State() == Apply(old(State()), e)
      ensures processedEvents == old(processedEvents) + [ProcessedEvent(e, RealizedPnL(old(State()), e))]
      ensures history == old(history) + [Snapshot(State(), e.date)]
    {
      var pnl := ApplyEvent(e);
      processedEvents := processedEvents + [ProcessedEvent(e, pnl)];
      TakeSnapshot(e.date);
    }

    /** `calculateCAGR`'s schedule: cashflow rows (deposits negative,
        others positive), the final value, then, only without cashflow
        rows, the buy trades as money in. */
    method CagrSchedule(endValue: real, endDate: int) returns (flows: seq<Flow>)
      ensures flows == PortfolioSchedule(trades, cashflows, endValue, endDate)
    {
      flows := [];
      var i := 0;
      while i < |cashflows|
        invariant 0 <= i <= |cashflows|
        invariant flows == seq(i, k requires 0 <= k < i =>
                               Flow(cashflows[k].date, CashflowXirrAmount(cashflows[k])))
      {
        var cf := cashflows[i];
        if cf.kind == "Deposit" {
          flows := flows + [Flow(cf.date, -Abs(cf.amount))];
        } else {
          flows := flows + [Flow(cf.date, Abs(cf.amount))];
        }
        i := i + 1;
      }
      flows := flows + [Flow(endDate, endValue)];
      if |cashflows| == 0 {
        ghost var prefix := flows;
        var j := 0;
        while j < |trades|
          invariant 0 <= j <= |trades|
          invariant flows == prefix + BuyFlows(trades[..j])
        {
          if trades[j].quantity > 0.0 {
            flows := flows + [Flow(trades[j].date, -Abs(trades[j].totalValue))];
          }
          assert trades[..j + 1][..j] == trades[..j];
          j := j + 1;
        }
        assert trades[..j] == trades;
      }
    }

    /** `calculateCAGR`: the solver's rate on the schedule, through the
        fail-safe. */
    method CalculateCagr(endValue: real, endDate: int, solve: seq<Flow> -> SolverOutcome)
      returns (pct: real)
      ensures pct == RateToPercent(solve(PortfolioSchedule(trades, cashflows, endValue, endDate)))
      ensures -10000.0 <= pct <= 10000.0
    {
      var flows := CagrSchedule(endValue, endDate);
      pct := RateToPercent(solve(flows));
    }

    /** `getStats`: nothing without history; otherwise the last row's
        value, cash and NAV, the simple return over total deposits, the
        CAGR, and the current holdings and purchase prices. */
    method GetStats(solve: seq<Flow> -> SolverOutcome) returns (stats: Option<Stats>)
      ensures stats.None? <==> |history| == 0
      ensures stats.Some? ==>
        var last := history[|history| - 1];
        && stats.value.portfolioValue == last.portfolioValue
        && stats.value.cash == last.cash
        && stats.value.nav == last.nav
        && stats.value.totalReturnPct == SimpleReturn(last.portfolioValue, totalDeposits)
        && stats.value.cagr == RateToPercent(solve(PortfolioSchedule(trades, cashflows,
                                                                     last.portfolioValue, last.date)))
        && stats.value.holdings == currentPositions
        && stats.value.purchasePrices == purchasePrices
    {
      if |history| == 0 {
        return None;
      }
      var last := history[|history| - 1];
      var totalReturnPct := 0.0;
      if totalDeposits > 0.0 {
        totalReturnPct := (last.portfolioValue - totalDeposits) / totalDeposits * 100.0;
      }
      var cagr := CalculateCagr(last.portfolioValue, last.date, solve);
      stats := Some(Stats(last.portfolioValue, last.cash, totalReturnPct, cagr,
                          currentPositions, purchasePrices, last.nav));
    }
  }
}
