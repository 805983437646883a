/** Properties of the portfolio ledger: what one event does, what a whole
    run conserves, how the history and the processed events line up with
    the events, and the concrete scenarios the engine is expected to
    reproduce. */
module PortfolioLaws {
  import opened Basics
  import opened PortfolioEvents
  import opened PortfolioLedger

  /** A cashflow moves cash by exactly its (normalised) amount, adds it to
      total deposits exactly when it is positive, and touches no position. */
  lemma CashflowEffect(l: Ledger, e: Event)
    requires WellFormed(l) && e.Cashflow?
    ensures Apply(l, e).cash == l.cash + e.amount
    ensures Apply(l, e).deposits == if e.amount > 0.0 then l.deposits + e.amount else l.deposits
    ensures Apply(l, e).positions == l.positions && Apply(l, e).avgCost == l.avgCost
    ensures Apply(l, e).purchasePrices == l.purchasePrices
  {
  }

  /** A trade moves cash by exactly its total value, leaves deposits
      alone, changes only its own stock's entries, and changes that
      stock's position by its quantity (snapped to 0 below the dust
      threshold after a sell). */
  lemma TradeEffect(l: Ledger, e: Event)
    requires WellFormed(l) && e.Trade?
    ensures Apply(l, e).cash == l.cash + e.totalValue
    ensures Apply(l, e).deposits == l.deposits
    ensures e.stock in Apply(l, e).positions
    ensures forall s :: s != e.stock ==>
      && (s in Apply(l, e).positions <==> s in l.positions)
      && Held(Apply(l, e), s) == Held(l, s)
      && AvgOrZero(Apply(l, e), s) == AvgOrZero(l, s)
      && (s in Apply(l, e).purchasePrices <==> s in l.purchasePrices)
      && (s in l.purchasePrices ==> Apply(l, e).purchasePrices[s] == l.purchasePrices[s])
    ensures Held(Apply(l, e), e.stock) ==
      if e.quantity > 0.0 then Held(l, e.stock) + e.quantity
      else if e.quantity < 0.0 then SnapDust(Held(l, e.stock) + e.quantity)
      else Held(l, e.stock)
  {
  }

  /** A buy makes the new cost basis the old one plus everything paid (fee
      included), records the trade price as the latest purchase price,
      and realizes nothing. */
  lemma BuyEffect(l: Ledger, e: Event)
    requires WellFormed(l) && IsBuy(e)
    ensures var held := Held(l, e.stock);
      held + e.quantity != 0.0 ==>
        Apply(l, e).avgCost[e.stock] * (held + e.quantity)
        == held * AvgOrZero(l, e.stock) + Abs(e.totalValue)
    ensures Apply(l, e).purchasePrices[e.stock] == e.price
    ensures RealizedPnL(l, e) == None
  {
  }

  /** A sell keeps the average cost and the latest purchase price, and
      realizes its proceeds minus the sold quantity at the average cost
      held before the sell (0 when the stock had none). */
  lemma SellEffect(l: Ledger, e: Event)
    requires WellFormed(l) && IsSell(e)
    ensures Apply(l, e).avgCost[e.stock] == AvgOrZero(l, e.stock)
    ensures e.stock in Apply(l, e).purchasePrices <==> e.stock in l.purchasePrices
    ensures e.stock in l.purchasePrices ==>
      Apply(l, e).purchasePrices[e.stock] == l.purchasePrices[e.stock]
    ensures RealizedPnL(l, e) == Some(e.totalValue - Abs(e.quantity) * AvgOrZero(l, e.stock))
  {
    var pnl := e.totalValue - Abs(e.quantity) * AvgOrZero(l, e.stock);
    assert RealizedPnL(l, e) == Some(pnl);
  }

  /** Selling a whole position (to within the dust threshold) leaves it at
      exactly 0, so it no longer counts towards NAV. */
  lemma FullSellClosesPosition(l: Ledger, e: Event)
    requires WellFormed(l) && IsSell(e)
    requires Abs(Held(l, e.stock) + e.quantity) < DustThreshold
    ensures Held(Apply(l, e), e.stock) == 0.0
    ensures NavTerm(e.stock, Apply(l, e).positions, Apply(l, e).purchasePrices) == 0.0
  {
  }

  /** Sum of the positive cashflow amounts. */
  function Inflows(es: seq<Event>): (total: real)
    ensures total >= 0.0
    decreases |es|
  {
    if es == [] then 0.0
    else
      var e := es[|es| - 1];
      Inflows(es[..|es| - 1]) + (if e.Cashflow? && e.amount > 0.0 then e.amount else 0.0)
  }

  /** Net cash brought in by the events: cashflow amounts and trade
      total values. */
  function NetCash(es: seq<Event>): real
    decreases |es|
  {
    if es == [] then 0.0
    else
      var e := es[|es| - 1];
      NetCash(es[..|es| - 1]) + (if e.Cashflow? then e.amount else e.totalValue)
  }

  /** Total deposits end as the start plus every positive cashflow. */
  lemma {:induction false} RunDeposits(l: Ledger, es: seq<Event>)
    requires WellFormed(l)
    ensures Run(l, es).deposits == l.deposits + Inflows(es)
    decreases |es|
  {
    if es != [] {
      RunDeposits(l, es[..|es| - 1]);
    }
  }

  /** Total deposits never decrease along a run. */
  lemma {:induction false} DepositsNeverDecrease(l: Ledger, es: seq<Event>, i: nat, j: nat)
    requires WellFormed(l) && i <= j <= |es|
    ensures Run(l, es[..i]).deposits <= Run(l, es[..j]).deposits
    decreases j - i
  {
    if i < j {
      DepositsNeverDecrease(l, es, i, j - 1);
      var prefix := es[..j - 1];
      assert es[..j] == prefix + [es[j - 1]];
      assert es[..j][..j - 1] == prefix;
      var before := Run(l, prefix);
      assert Run(l, es[..j]) == Apply(before, es[j - 1]);
      if es[j - 1].Cashflow? {
        CashflowEffect(before, es[j - 1]);
      } else {
        TradeEffect(before, es[j - 1]);
      }
    }
  }

  /** Cash is conserved: it ends as the start plus the net cash of the
      events. */
  lemma {:induction false} RunCash(l: Ledger, es: seq<Event>)
    requires WellFormed(l)
    ensures Run(l, es).cash == l.cash + NetCash(es)
    decreases |es|
  {
    if es != [] {
      RunCash(l, es[..|es| - 1]);
    }
  }

  /** History row `i` is the snapshot taken right after event `i`. */
  lemma {:induction false} HistoryAt(l: Ledger, es: seq<Event>, i: nat)
    requires WellFormed(l) && i < |es|
    ensures History(l, es)[i] == Snapshot(Run(l, es[..i + 1]), es[i].date)
    decreases |es|
  {
    if i < |es| - 1 {
      HistoryAt(l, es[..|es| - 1], i);
      assert es[..|es| - 1][..i + 1] == es[..i + 1];
    } else {
      assert es[..i + 1] == es;
    }
  }

  /** Each history row is consistent: value is cash plus NAV, P&L is value
      minus deposits, and its date is its event's date. */
  lemma HistoryRowsConsistent(l: Ledger, es: seq<Event>)
    requires WellFormed(l)
    ensures |History(l, es)| == |es|
    ensures forall i :: 0 <= i < |es| ==>
      && History(l, es)[i].date == es[i].date
      && History(l, es)[i].portfolioValue == History(l, es)[i].cash + History(l, es)[i].nav
      && History(l, es)[i].pnl == History(l, es)[i].portfolioValue - History(l, es)[i].totalDeposits
  {
    forall i | 0 <= i < |es|
      ensures History(l, es)[i].date == es[i].date
      ensures History(l, es)[i].portfolioValue == History(l, es)[i].cash + History(l, es)[i].nav
      ensures History(l, es)[i].pnl == History(l, es)[i].portfolioValue - History(l, es)[i].totalDeposits
    {
      HistoryAt(l, es, i);
    }
  }

  /** Processed event `i` is event `i` with the realized P&L computed in
      the state just before it. */
  lemma {:induction false} AnnotatedAt(l: Ledger, es: seq<Event>, i: nat)
    requires WellFormed(l) && i < |es|
    ensures Annotated(l, es)[i] == ProcessedEvent(es[i], RealizedPnL(Run(l, es[..i]), es[i]))
    decreases |es|
  {
    if i < |es| - 1 {
      AnnotatedAt(l, es[..|es| - 1], i);
      assert es[..|es| - 1][..i] == es[..i];
    }
  }

  /** The processed events are the events, in the same order, and exactly
      the sells carry a realized P&L. */
  lemma EventsOfAnnotated(l: Ledger, es: seq<Event>)
    requires WellFormed(l)
    ensures EventsOf(Annotated(l, es)) == es
    ensures forall i :: 0 <= i < |es| ==> (Annotated(l, es)[i].realizedPnL.Some? <==> IsSell(es[i]))
  {
    forall i | 0 <= i < |es|
      ensures Annotated(l, es)[i].event == es[i]
      ensures Annotated(l, es)[i].realizedPnL.Some? <==> IsSell(es[i])
    {
      AnnotatedAt(l, es, i);
    }
  }

  /** A closed position adds nothing to NAV whatever its purchase price. */
  lemma {:induction false} ClosedPositionAddsNothing(order: seq<string>, positions: map<string, real>,
                                                     prices: map<string, real>, s: string, p: real)
    requires s in positions && positions[s] == 0.0
    ensures NavOf(order, positions, prices[s := p]) == NavOf(order, positions, prices)
    decreases |order|
  {
    if order != [] {
      ClosedPositionAddsNothing(order[..|order| - 1], positions, prices, s, p);
      var last := order[|order| - 1];
      assert NavTerm(last, positions, prices[s := p]) == NavTerm(last, positions, prices);
    }
  }

  /** A long-only book at non-negative prices has a non-negative NAV. */
  lemma {:induction false} NavOfLongOnly(order: seq<string>, positions: map<string, real>,
                                         prices: map<string, real>)
    requires forall s :: s in positions ==> positions[s] >= 0.0
    requires forall s :: s in prices ==> prices[s] >= 0.0
    ensures NavOf(order, positions, prices) >= 0.0
    decreases |order|
  {
    if order != [] {
      NavOfLongOnly(order[..|order| - 1], positions, prices);
      var last := order[|order| - 1];
      if last in positions && last in prices {
        assert positions[last] * prices[last] >= 0.0;
      }
    }
  }

  /** A stock seen for the first time is appended to the key order. */
  lemma TouchKeepsKeyOrder(l: Ledger, s: string)
    requires WellFormed(l) && KeyOrder(l)
    ensures KeyOrder(Touch(l, s))
    ensures s !in l.positions ==> Touch(l, s).order == l.order + [s]
    ensures s in l.positions ==> Touch(l, s).order == l.order
  {
    if s !in l.positions {
      var r := Touch(l, s);
      assert r.order[..|r.order| - 1] == l.order;
      assert r.positions.Keys - {s} == l.positions.Keys;
    }
  }

  /** Every event keeps each held stock listed exactly once in key order:
      NAV counts every holding once. */
  lemma ApplyKeepsKeyOrder(l: Ledger, e: Event)
    requires WellFormed(l) && KeyOrder(l)
    ensures KeyOrder(Apply(l, e))
  {
    if e.Trade? {
      var l1 := l.(cash := l.cash + e.totalValue);
      TouchKeepsKeyOrder(l1, e.stock);
      var t := Touch(l1, e.stock);
      assert Apply(l, e).order == t.order;
      assert Apply(l, e).positions.Keys == t.positions.Keys;
    }
  }

  /** The key order invariant holds along a whole run. */
  lemma {:induction false} RunKeepsKeyOrder(l: Ledger, es: seq<Event>)
    requires WellFormed(l) && KeyOrder(l)
    ensures KeyOrder(Run(l, es))
    decreases |es|
  {
    if es != [] {
      RunKeepsKeyOrder(l, es[..|es| - 1]);
      ApplyKeepsKeyOrder(Run(l, es[..|es| - 1]), es[|es| - 1]);
    }
  }

  /** Replaying one more event extends the run, the history and the
      processed events by exactly that event. */
  lemma RunSnoc(l: Ledger, es: seq<Event>, e: Event)
    requires WellFormed(l)
    ensures Run(l, es + [e]) == Apply(Run(l, es), e)
    ensures History(l, es + [e]) == History(l, es) + [Snapshot(Apply(Run(l, es), e), e.date)]
    ensures Annotated(l, es + [e]) == Annotated(l, es) + [ProcessedEvent(e, RealizedPnL(Run(l, es), e))]
  {
    assert (es + [e])[..|es|] == es;
  }

  /** Deposit 1000, buy 10 ABC at 50 for 500, sell 5 ABC at 60 for 300
      (one day each): cash 800, 5 ABC held, and the sell realizes 50. */
  lemma ScenarioDepositBuySell()
    ensures var es := [CashflowEvent(CashflowRow(1, "Deposit", 1000.0)),
                       TradeEvent(TradeRow(2, "Köp", "ABC", 10.0, 50.0, -500.0)),
                       TradeEvent(TradeRow(3, "Sälj", "ABC", -5.0, 60.0, 300.0))];
      && Run(Initial, es).cash == 800.0
      && Run(Initial, es).positions["ABC"] == 5.0
      && Annotated(Initial, es)[2].realizedPnL == Some(50.0)
  {
    ScenarioRows();
    ScenarioThreeEvents();
  }

  /** The history of the same scenario: value 1000 after the deposit, cash
      500 and value 1000 after the buy, value 1050 after the sell. */
  lemma ScenarioDepositBuySellHistory()
    ensures var es := [CashflowEvent(CashflowRow(1, "Deposit", 1000.0)),
                       TradeEvent(TradeRow(2, "Köp", "ABC", 10.0, 50.0, -500.0)),
                       TradeEvent(TradeRow(3, "Sälj", "ABC", -5.0, 60.0, 300.0))];
      && History(Initial, es)[0].portfolioValue == 1000.0
      && History(Initial, es)[1].cash == 500.0
      && History(Initial, es)[1].portfolioValue == 1000.0
      && History(Initial, es)[2].portfolioValue == 1050.0
  {
    ScenarioRows();
    ScenarioThreeEvents();
    ScenarioSnapshots();
  }

  /** The scenario's rows normalise to these three events. */
  lemma ScenarioRows()
    ensures [CashflowEvent(CashflowRow(1, "Deposit", 1000.0)),
             TradeEvent(TradeRow(2, "Köp", "ABC", 10.0, 50.0, -500.0)),
             TradeEvent(TradeRow(3, "Sälj", "ABC", -5.0, 60.0, 300.0))]
            == [Cashflow(1, "Deposit", 1000.0), Trade(2, "Köp", "ABC", 10.0, 50.0, -500.0),
                Trade(3, "Sälj", "ABC", -5.0, 60.0, 300.0)]
  {
  }

  /** The ledger, history and processed events after all three events of
      the deposit, buy, sell scenario. */
  lemma ScenarioThreeEvents()
    ensures var es := [Cashflow(1, "Deposit", 1000.0), Trade(2, "Köp", "ABC", 10.0, 50.0, -500.0),
                       Trade(3, "Sälj", "ABC", -5.0, 60.0, 300.0)];
      var l2 := Ledger(500.0, 1000.0, map["ABC" := 10.0], ["ABC"], map["ABC" := 50.0], map["ABC" := 50.0]);
      var l3 := Ledger(800.0, 1000.0, map["ABC" := 5.0], ["ABC"], map["ABC" := 50.0], map["ABC" := 50.0]);
      && Run(Initial, es) == l3
      && History(Initial, es) == [Snapshot(Initial.(cash := 1000.0, deposits := 1000.0), 1),
                                  Snapshot(l2, 2), Snapshot(l3, 3)]
      && Annotated(Initial, es)[2].realizedPnL == Some(50.0)
  {
    var deposit := Cashflow(1, "Deposit", 1000.0);
    var buy := Trade(2, "Köp", "ABC", 10.0, 50.0, -500.0);
    var sell := Trade(3, "Sälj", "ABC", -5.0, 60.0, 300.0);
    ScenarioRuns();
    SellStep();
    RunSnoc(Initial, [deposit, buy], sell);
    assert [deposit, buy] + [sell] == [deposit, buy, sell];
  }

  /** The snapshots of the deposit, buy, sell scenario's ledgers. */
  lemma ScenarioSnapshots()
    ensures Snapshot(Initial.(cash := 1000.0, deposits := 1000.0), 1).portfolioValue == 1000.0
    ensures var s := Snapshot(Ledger(500.0, 1000.0, map["ABC" := 10.0], ["ABC"], map["ABC" := 50.0],
                                     map["ABC" := 50.0]), 2);
            s.cash == 500.0 && s.portfolioValue == 1000.0
    ensures Snapshot(Ledger(800.0, 1000.0, map["ABC" := 5.0], ["ABC"], map["ABC" := 50.0],
                            map["ABC" := 50.0]), 3).portfolioValue == 1050.0
  {
    NavOfOne("ABC", 10.0, 50.0);
    NavOfOne("ABC", 5.0, 50.0);
  }

  /** The ledgers after the first one and two events of the deposit, buy,
      sell scenario. */
  lemma ScenarioRuns()
    ensures Run(Initial, [Cashflow(1, "Deposit", 1000.0)])
            == Initial.(cash := 1000.0, deposits := 1000.0)
    ensures History(Initial, [Cashflow(1, "Deposit", 1000.0)])
            == [Snapshot(Initial.(cash := 1000.0, deposits := 1000.0), 1)]
    ensures Run(Initial, [Cashflow(1, "Deposit", 1000.0), Trade(2, "Köp", "ABC", 10.0, 50.0, -500.0)])
            == Ledger(500.0, 1000.0, map["ABC" := 10.0], ["ABC"], map["ABC" := 50.0], map["ABC" := 50.0])
    ensures History(Initial, [Cashflow(1, "Deposit", 1000.0), Trade(2, "Köp", "ABC", 10.0, 50.0, -500.0)])
            == [Snapshot(Initial.(cash := 1000.0, deposits := 1000.0), 1),
                Snapshot(Ledger(500.0, 1000.0, map["ABC" := 10.0], ["ABC"], map["ABC" := 50.0],
                                map["ABC" := 50.0]), 2)]
  {
    var deposit := Cashflow(1, "Deposit", 1000.0);
    var buy := Trade(2, "Köp", "ABC", 10.0, 50.0, -500.0);
    DepositStep();
    RunSnoc(Initial, [], deposit);
    assert [] + [deposit] == [deposit];
    BuyStep();
    RunSnoc(Initial, [deposit], buy);
    assert [deposit] + [buy] == [deposit, buy];
  }

  /** The ledgers of the deposit, buy, sell scenario, one step at a time. */
  lemma DepositStep()
    ensures Apply(Initial, Cashflow(1, "Deposit", 1000.0)) == Initial.(cash := 1000.0, deposits := 1000.0)
  {
  }

  lemma BuyStep()
    ensures Apply(Initial.(cash := 1000.0, deposits := 1000.0), Trade(2, "Köp", "ABC", 10.0, 50.0, -500.0))
            == Ledger(500.0, 1000.0, map["ABC" := 10.0], ["ABC"], map["ABC" := 50.0], map["ABC" := 50.0])
  {
    assert AverageCost(0.0, 0.0, 10.0, 500.0) == 50.0;
  }

  lemma SellStep()
    ensures Apply(Ledger(500.0, 1000.0, map["ABC" := 10.0], ["ABC"], map["ABC" := 50.0], map["ABC" := 50.0]),
                  Trade(3, "Sälj", "ABC", -5.0, 60.0, 300.0))
            == Ledger(800.0, 1000.0, map["ABC" := 5.0], ["ABC"], map["ABC" := 50.0], map["ABC" := 50.0])
    ensures RealizedPnL(Ledger(500.0, 1000.0, map["ABC" := 10.0], ["ABC"], map["ABC" := 50.0], map["ABC" := 50.0]),
                        Trade(3, "Sälj", "ABC", -5.0, 60.0, 300.0)) == Some(50.0)
  {
    assert SnapDust(5.0) == 5.0;
  }

  /** NAV of a single stock held at a purchase price. */
  lemma NavOfOne(s: string, qty: real, price: real)
    requires qty != 0.0 && price != 0.0
    ensures NavOf([s], map[s := qty], map[s := price]) == qty * price
  {
    assert [s][..0] == [];
  }

  /** Deposit 992.59, then buy 11 units at 90.10 for 992.59: NAV is
      marked at the unit price, so the 1.49 fee shows as a simple return
      of -149 / 992.59 percent (about -0.15 %). */
  lemma ScenarioFeeShowsAsLoss()
    ensures var es := [CashflowEvent(CashflowRow(1, "Deposit", 992.59)),
                       TradeEvent(TradeRow(2, "Köp", "XYZ", 11.0, 90.10, -992.59))];
      && History(Initial, es)[1].portfolioValue == 991.10
      && SimpleReturn(History(Initial, es)[1].portfolioValue, Run(Initial, es).deposits)
         == -149.0 / 992.59
  {
    var deposit := Cashflow(1, "Deposit", 992.59);
    var buy := Trade(2, "Köp", "XYZ", 11.0, 90.10, -992.59);
    assert [CashflowEvent(CashflowRow(1, "Deposit", 992.59)),
            TradeEvent(TradeRow(2, "Köp", "XYZ", 11.0, 90.10, -992.59))] == [deposit, buy];
    var l2 := Ledger(0.0, 992.59, map["XYZ" := 11.0], ["XYZ"],
                     map["XYZ" := 992.59 / 11.0], map["XYZ" := 90.10]);
    FeeScenarioRun();
    NavOfOne("XYZ", 11.0, 90.10);
    assert Snapshot(l2, 2).portfolioValue == 991.10;
  }

  /** The ledger and history of the fee scenario. */
  lemma FeeScenarioRun()
    ensures var es := [Cashflow(1, "Deposit", 992.59), Trade(2, "Köp", "XYZ", 11.0, 90.10, -992.59)];
      var l2 := Ledger(0.0, 992.59, map["XYZ" := 11.0], ["XYZ"],
                       map["XYZ" := 992.59 / 11.0], map["XYZ" := 90.10]);
      Run(Initial, es) == l2 && History(Initial, es)[1] == Snapshot(l2, 2)
  {
    var deposit := Cashflow(1, "Deposit", 992.59);
    var buy := Trade(2, "Köp", "XYZ", 11.0, 90.10, -992.59);
    FeeSteps();
    RunSnoc(Initial, [], deposit);
    assert [] + [deposit] == [deposit];
    RunSnoc(Initial, [deposit], buy);
    assert [deposit] + [buy] == [deposit, buy];
  }

  /** The ledgers of the fee scenario, one step at a time. */
  lemma FeeSteps()
    ensures Apply(Initial, Cashflow(1, "Deposit", 992.59)) == Initial.(cash := 992.59, deposits := 992.59)
    ensures Apply(Initial.(cash := 992.59, deposits := 992.59), Trade(2, "Köp", "XYZ", 11.0, 90.10, -992.59))
            == Ledger(0.0, 992.59, map["XYZ" := 11.0], ["XYZ"], map["XYZ" := 992.59 / 11.0], map["XYZ" := 90.10])
  {
    assert AverageCost(0.0, 0.0, 11.0, 992.59) == 992.59 / 11.0;
  }

  /** Deposit 1000, then withdraw 200 (however the row signs it): cash and
      value 800, and the withdrawal does not reduce total deposits. */
  lemma ScenarioWithdrawal()
    ensures var es := [CashflowEvent(CashflowRow(1, "Deposit", 1000.0)),
                       CashflowEvent(CashflowRow(5, "Withdrawal", -200.0))];
      && Run(Initial, es).cash == 800.0
      && Run(Initial, es).deposits == 1000.0
      && History(Initial, es)[1].portfolioValue == 800.0
  {
    var deposit := Cashflow(1, "Deposit", 1000.0);
    var withdrawal := Cashflow(5, "Withdrawal", -200.0);
    assert [CashflowEvent(CashflowRow(1, "Deposit", 1000.0)),
            CashflowEvent(CashflowRow(5, "Withdrawal", -200.0))] == [deposit, withdrawal];
    RunSnoc(Initial, [], deposit);
    assert [] + [deposit] == [deposit];
    RunSnoc(Initial, [deposit], withdrawal);
    assert [deposit] + [withdrawal] == [deposit, withdrawal];
  }
}
