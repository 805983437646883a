/** The ledger of `PortfolioEngine` as values: what applying one event
    does to cash, deposits, positions, average costs and latest purchase
    prices; the snapshot taken after each event; and the replay of a
    whole event sequence. The engine's imperative `process` is proved
    against these definitions. */
module PortfolioLedger {
  import opened Basics
  import opened PortfolioEvents
  import opened Xirr

  /** A position whose magnitude falls below this after a sell is set to 0. */
  const DustThreshold: real := 0.0001

  /** The engine's mutable state. `order` lists each stock of `positions`
      once; the NAV loop visits the stocks through it. */
  datatype Ledger = Ledger(cash: real, deposits: real,
                           positions: map<string, real>, order: seq<string>,
                           avgCost: map<string, real>, purchasePrices: map<string, real>)

  /** The state of a freshly constructed engine. */
  const Initial: Ledger := Ledger(0.0, 0.0, map[], [], map[], map[])

  /** `order` lists every member of `keys` exactly once and nothing else. */
  ghost predicate ListsOnce(order: seq<string>, keys: set<string>)
    decreases |order|
  {
    if order == [] then keys == {}
    else
      var last := order[|order| - 1];
      last in keys && ListsOnce(order[..|order| - 1], keys - {last})
  }

  /** Every stock with a position is listed exactly once in key order, so
      the NAV loop visits each holding once. */
  ghost predicate KeyOrder(l: Ledger)
  {
    ListsOnce(l.order, l.positions.Keys)
  }

  /** Every stock with a position has an average cost; purchase prices
      exist only for such stocks. */
  ghost predicate WellFormed(l: Ledger)
  {
    && l.avgCost.Keys == l.positions.Keys
    && l.purchasePrices.Keys <= l.positions.Keys
  }

  /** Position of a stock, 0 when it has none. */
  function Held(l: Ledger, s: string): real
  {
    if s in l.positions then l.positions[s] else 0.0
  }

  /** Average cost of a stock, 0 when it has none (a missing entry reads as 0). */
  function AvgOrZero(l: Ledger, s: string): real
  {
    if s in l.avgCost then l.avgCost[s] else 0.0
  }

  /** A stock seen for the first time gets a zero position and a zero
      average cost; a known stock is left as it is. */
  function Touch(l: Ledger, s: string): (r: Ledger)
    requires WellFormed(l)
    ensures WellFormed(r)
    ensures s in r.positions && s in r.avgCost
    ensures Held(r, s) == Held(l, s) && AvgOrZero(r, s) == AvgOrZero(l, s)
  {
    if s in l.positions then l
    else
      l.(positions := l.positions[s := 0.0], order := l.order + [s],
         avgCost := l.avgCost[s := 0.0])
  }

  /** Weighted average cost after buying `qty` more for a total of `paid`
      (fees included). When `held + qty` is 0 the source divides by zero;
      the model records 0 there. */
  function AverageCost(held: real, avg: real, qty: real, paid: real): (r: real)
    ensures held + qty != 0.0 ==> r * (held + qty) == held * avg + paid
  {
    if held + qty != 0.0 then (held * avg + paid) / (held + qty) else 0.0
  }

  /** A position below the dust threshold in magnitude is snapped to 0. */
  function SnapDust(p: real): (r: real)
    ensures Abs(r) < DustThreshold ==> r == 0.0
    ensures r == p || (r == 0.0 && Abs(p) < DustThreshold)
  {
    if Abs(p) < DustThreshold then 0.0 else p
  }

  /** Applies one event to the ledger. */
  function Apply(l: Ledger, e: Event): (r: Ledger)
    requires WellFormed(l)
    ensures WellFormed(r)
  {
    match e
    case Cashflow(_, _, amount) =>
      l.(cash := l.cash + amount,
         deposits := if amount > 0.0 then l.deposits + amount else l.deposits)
    case Trade(_, _, s, qty, price, totalValue) =>
      var t := Touch(l.(cash := l.cash + totalValue), s);
      var held := t.positions[s];
      if qty > 0.0 then
        t.(avgCost := t.avgCost[s := AverageCost(held, t.avgCost[s], qty, Abs(totalValue))],
           positions := t.positions[s := held + qty],
           purchasePrices := t.purchasePrices[s := price])
      else if qty < 0.0 then
        t.(positions := t.positions[s := SnapDust(held + qty)])
      else
        t
  }

  /** The realized P&L the engine attaches to an event applied in state
      `l`: proceeds minus the sold quantity at the average cost held
      before the sell; only sells get one. */
  function RealizedPnL(l: Ledger, e: Event): (r: Option<real>)
    ensures r.Some? <==> IsSell(e)
  {
    if IsSell(e) then Some(e.totalValue - Abs(e.quantity) * AvgOrZero(l, e.stock)) else None
  }

  /** One entry of the processed-events list: the event and, for a sell,
      the realized P&L recorded on it. */
  datatype ProcessedEvent = ProcessedEvent(event: Event, realizedPnL: Option<real>)

  /** One row of `history`. */
  datatype HistoryEntry = HistoryEntry(date: int, cash: real, nav: real, portfolioValue: real,
                                       totalDeposits: real, pnl: real,
                                       positions: map<string, real>)

  /** Contribution of one stock to NAV: its quantity at its latest
      purchase price, when both are non-zero. */
  function NavTerm(s: string, positions: map<string, real>, prices: map<string, real>): real
  {
    if s in positions && positions[s] != 0.0 && s in prices && prices[s] != 0.0
    then positions[s] * prices[s] else 0.0
  }

  /** NAV summed over the stocks in `order`, visited front to back. */
  function NavOf(order: seq<string>, positions: map<string, real>, prices: map<string, real>): (nav: real)
    decreases |order|
  {
    if order == [] then 0.0
    else NavOf(order[..|order| - 1], positions, prices) + NavTerm(order[|order| - 1], positions, prices)
  }

  /** The history row taken in state `l` after an event dated `date`. */
  function Snapshot(l: Ledger, date: int): (h: HistoryEntry)
    ensures h.date == date && h.cash == l.cash && h.totalDeposits == l.deposits
    ensures h.nav == NavOf(l.order, l.positions, l.purchasePrices)
    ensures h.portfolioValue == h.cash + h.nav
    ensures h.pnl == h.portfolioValue - h.totalDeposits
    ensures h.positions == l.positions
  {
    var nav := NavOf(l.order, l.positions, l.purchasePrices);
    HistoryEntry(date, l.cash, nav, l.cash + nav, l.deposits, l.cash + nav - l.deposits, l.positions)
  }

  /** The ledger after applying `es` in order, starting from `l`. */
  function Run(l: Ledger, es: seq<Event>): (r: Ledger)
    requires WellFormed(l)
    ensures WellFormed(r)
    decreases |es|
  {
    if es == [] then l else Apply(Run(l, es[..|es| - 1]), es[|es| - 1])
  }

  /** One snapshot per event, each taken right after that event. */
  function History(l: Ledger, es: seq<Event>): (h: seq<HistoryEntry>)
    requires WellFormed(l)
    ensures |h| == |es|
    decreases |es|
  {
    if es == [] then []
    else History(l, es[..|es| - 1]) + [Snapshot(Run(l, es), es[|es| - 1].date)]
  }

  /** The events as processed: each event with the realized P&L it got. */
  function Annotated(l: Ledger, es: seq<Event>): (ps: seq<ProcessedEvent>)
    requires WellFormed(l)
    ensures |ps| == |es|
    decreases |es|
  {
    if es == [] then []
    else Annotated(l, es[..|es| - 1])
         + [ProcessedEvent(es[|es| - 1], RealizedPnL(Run(l, es[..|es| - 1]), es[|es| - 1]))]
  }

  function EventsOf(ps: seq<ProcessedEvent>): (es: seq<Event>)
  {
    seq(|ps|, i requires 0 <= i < |ps| => ps[i].event)
  }

  /** `getStats`'s simple return: gain over deposits in percent, 0 when
      nothing was deposited. */
  function SimpleReturn(portfolioValue: real, deposits: real): (pct: real)
    ensures deposits <= 0.0 ==> pct == 0.0
    ensures deposits > 0.0 ==> pct * deposits == (portfolioValue - deposits) * 100.0
    ensures deposits > 0.0 ==> (pct > 0.0 <==> portfolioValue > deposits)
    ensures deposits > 0.0 ==> (pct == 0.0 <==> portfolioValue == deposits)
  {
    if deposits > 0.0 then (portfolioValue - deposits) / deposits * 100.0 else 0.0
  }

  /** XIRR sign of a cashflow row: a deposit is money in (negative), any
      other type money out (positive). */
  function CashflowXirrAmount(row: CashflowRow): (a: real)
    ensures row.kind == "Deposit" ==> a <= 0.0
    ensures row.kind != "Deposit" ==> a >= 0.0
    ensures Abs(a) == Abs(row.amount)
  {
    if row.kind == "Deposit" then -Abs(row.amount) else Abs(row.amount)
  }

  /** Buy trades as money in, in input order; the fallback schedule when
      there are no cashflow rows. */
  function BuyFlows(trades: seq<TradeRow>): (fs: seq<Flow>)
    ensures |fs| <= |trades|
    ensures forall i :: 0 <= i < |fs| ==> fs[i].amount <= 0.0
    decreases |trades|
  {
    if trades == [] then []
    else
      var t := trades[|trades| - 1];
      BuyFlows(trades[..|trades| - 1])
        + (if t.quantity > 0.0 then [Flow(t.date, -Abs(t.totalValue))] else [])
  }

  /** Every buy (a trade of positive quantity) is in the fallback
      schedule, as a flow of minus its total value on its date. */
  lemma {:induction false} BuyFlowsHasEveryBuy(trades: seq<TradeRow>)
    ensures forall k :: 0 <= k < |trades| && trades[k].quantity > 0.0 ==>
      Flow(trades[k].date, -Abs(trades[k].totalValue)) in BuyFlows(trades)
    decreases |trades|
  {
    if trades != [] {
      var init := trades[..|trades| - 1];
      BuyFlowsHasEveryBuy(init);
      forall k | 0 <= k < |trades| && trades[k].quantity > 0.0
        ensures Flow(trades[k].date, -Abs(trades[k].totalValue)) in BuyFlows(trades)
      {
        if k < |init| {
          assert init[k] == trades[k];
        }
      }
    }
  }

  /** The fallback schedule holds nothing but buys: each of its flows is
      minus some buy's total value on that buy's date. */
  lemma {:induction false} BuyFlowsOnlyBuys(trades: seq<TradeRow>)
    ensures forall f :: f in BuyFlows(trades) ==>
      (exists k :: 0 <= k < |trades| && trades[k].quantity > 0.0 &&
                   f == Flow(trades[k].date, -Abs(trades[k].totalValue)))
    decreases |trades|
  {
    if trades != [] {
      var init := trades[..|trades| - 1];
      var t := trades[|trades| - 1];
      BuyFlowsOnlyBuys(init);
      forall f | f in BuyFlows(trades)
        ensures exists k :: 0 <= k < |trades| && trades[k].quantity > 0.0 &&
                            f == Flow(trades[k].date, -Abs(trades[k].totalValue))
      {
        if f in BuyFlows(init) {
          var k :| 0 <= k < |init| && init[k].quantity > 0.0 &&
                   f == Flow(init[k].date, -Abs(init[k].totalValue));
          assert trades[k] == init[k];
        } else {
          assert trades[|trades| - 1] == t;
        }
      }
    }
  }

  /** The schedule `calculateCAGR` hands to the solver: one flow per
      cashflow row, then the final value, then (only when there are no
      cashflow rows) one flow per buy trade. */
  function PortfolioSchedule(trades: seq<TradeRow>, cashflows: seq<CashflowRow>,
                             endValue: real, endDate: int): seq<Flow>
  {
    seq(|cashflows|, i requires 0 <= i < |cashflows| =>
          Flow(cashflows[i].date, CashflowXirrAmount(cashflows[i])))
    + [Flow(endDate, endValue)]
    + (if |cashflows| == 0 then BuyFlows(trades) else [])
  }
}
