/** The first two stages of `PortfolioEngine.process`: turning trade rows
    and cashflow rows into tagged events, and ordering those events by
    date with the same-day tie-break (cashflows before trades, buys before
    sells). Dates are day numbers. */
module PortfolioEvents {
  import opened Basics

  /** A row of the trades table: `Date, Action, Stock, Quantity, Price,
      Total_Value`. Quantity is positive for a buy and negative for a sell;
      Total_Value is negative for a buy and positive for a sell. */
  datatype TradeRow = TradeRow(date: int, action: string, stock: string,
                               quantity: real, price: real, totalValue: real)

  /** A row of the cashflows table: `Date, Type, Amount`. */
  datatype CashflowRow = CashflowRow(date: int, kind: string, amount: real)

  /** A normalised event. `action` keeps the row's Action or Type label. */
  datatype Event =
    | Cashflow(date: int, action: string, amount: real)
    | Trade(date: int, action: string, stock: string,
            quantity: real, price: real, totalValue: real)

  /** A trade row becomes a Trade event carrying its fields verbatim. */
  function TradeEvent(row: TradeRow): (e: Event)
    ensures e.Trade? && e.date == row.date && e.action == row.action && e.stock == row.stock
    ensures e.quantity == row.quantity && e.price == row.price && e.totalValue == row.totalValue
  {
    Trade(row.date, row.action, row.stock, row.quantity, row.price, row.totalValue)
  }

  /** A cashflow row becomes a Cashflow event whose sign follows its label:
      a deposit always adds |Amount|, a withdrawal always removes |Amount|,
      and a row of any other type keeps its raw Amount. */
  function CashflowEvent(row: CashflowRow): (e: Event)
    ensures e.Cashflow? && e.date == row.date && e.action == row.kind
    ensures row.kind == "Deposit" ==> e.amount >= 0.0 && Abs(e.amount) == Abs(row.amount)
    ensures row.kind == "Withdrawal" ==> e.amount <= 0.0 && Abs(e.amount) == Abs(row.amount)
    ensures row.kind != "Deposit" && row.kind != "Withdrawal" ==> e.amount == row.amount
  {
    var amount :=
      if row.kind == "Deposit" then Abs(row.amount)
      else if row.kind == "Withdrawal" then -Abs(row.amount)
      else row.amount;
    Cashflow(row.date, row.kind, amount)
  }

  /** All trades first, then all cashflows, each in input order. */
  function Normalised(trades: seq<TradeRow>, cashflows: seq<CashflowRow>): seq<Event>
  {
    seq(|trades|, i requires 0 <= i < |trades| => TradeEvent(trades[i]))
    + seq(|cashflows|, i requires 0 <= i < |cashflows| => CashflowEvent(cashflows[i]))
  }

  predicate IsBuy(e: Event) { e.Trade? && e.quantity > 0.0 }

  predicate IsSell(e: Event) { e.Trade? && e.quantity < 0.0 }

  /** The sort comparator of the engine: negative when `a` goes first,
      positive when `b` goes first, 0 when either order is acceptable. */
  function Compare(a: Event, b: Event): (c: int)
    ensures -1 <= c <= 1
    ensures a.date != b.date ==> c != 0 && (c < 0 <==> a.date < b.date)
  {
    if a.date < b.date then -1
    else if a.date > b.date then 1
    else if a.Cashflow? && b.Trade? then -1
    else if a.Trade? && b.Cashflow? then 1
    else if a.Trade? && b.Trade? then
      (if a.quantity > 0.0 && b.quantity < 0.0 then -1
       else if a.quantity < 0.0 && b.quantity > 0.0 then 1
       else 0)
    else 0
  }

  /** Same-date position of an event: cashflows, then trades that are not
      sells, then sells. */
  function Rank(e: Event): int
  {
    if e.Cashflow? then 0 else if e.quantity < 0.0 then 2 else 1
  }

  /** The total preorder the sort follows: by date, then by rank. */
  predicate KeyLe(a: Event, b: Event)
  {
    a.date < b.date || (a.date == b.date && Rank(a) <= Rank(b))
  }

  /** The order the engine promises after sorting: dates never decrease,
      and on one date no trade precedes a cashflow and no sell precedes a
      buy. */
  predicate Chronological(s: seq<Event>)
  {
    forall i, j :: 0 <= i < j < |s| ==>
      && s[i].date <= s[j].date
      && (s[i].date == s[j].date && s[i].Trade? ==> s[j].Trade?)
      && (s[i].date == s[j].date && IsSell(s[i]) ==> !IsBuy(s[j]))
  }

  /** Chronological order is exactly "the comparator never asks for a
      pair to be swapped". */
  lemma ChronologicalIffComparator(s: seq<Event>)
    ensures Chronological(s) <==> forall i, j :: 0 <= i < j < |s| ==> Compare(s[i], s[j]) <= 0
  {
    if forall i, j :: 0 <= i < j < |s| ==> Compare(s[i], s[j]) <= 0 {
      forall i, j | 0 <= i < j < |s|
        ensures s[i].date <= s[j].date
        ensures s[i].date == s[j].date && s[i].Trade? ==> s[j].Trade?
        ensures s[i].date == s[j].date && IsSell(s[i]) ==> !IsBuy(s[j])
      {
        assert Compare(s[i], s[j]) <= 0;
      }
    }
  }

  /** Events ordered by the key are in chronological order. */
  lemma KeySortedIsChronological(s: seq<Event>)
    requires forall i, j :: 0 <= i < j < |s| ==> KeyLe(s[i], s[j])
    ensures Chronological(s)
  {
    forall i, j | 0 <= i < j < |s|
      ensures s[i].date <= s[j].date
      ensures s[i].date == s[j].date && s[i].Trade? ==> s[j].Trade?
      ensures s[i].date == s[j].date && IsSell(s[i]) ==> !IsBuy(s[j])
    {
      assert KeyLe(s[i], s[j]);
    }
  }

  /** Events are in key order: by date, then by same-date rank. */
  predicate KeySorted(s: seq<Event>)
  {
    forall i, j :: 0 <= i < j < |s| ==> KeyLe(s[i], s[j])
  }

  /** A trade of zero quantity is neither a buy nor a sell; the comparator
      is a consistent order only on events without one. */
  predicate NoZeroTrade(e: Event)
  {
    e.Cashflow? || e.quantity != 0.0
  }

  /** Without zero-quantity trades, the comparator is exactly the key
      order: negative when `a` must go first, positive when `b` must, and
      0 exactly when the two share a key. */
  lemma CompareAgreesWithKey(a: Event, b: Event)
    requires NoZeroTrade(a) && NoZeroTrade(b)
    ensures Compare(a, b) < 0 <==> !KeyLe(b, a)
    ensures Compare(a, b) > 0 <==> !KeyLe(a, b)
    ensures Compare(a, b) == 0 <==> KeyLe(a, b) && KeyLe(b, a)
  {
  }

  /** The events of `s` dated `d` with same-date rank `r`, in their order
      in `s`. */
  function WithKey(s: seq<Event>, d: int, r: int): (w: seq<Event>)
    ensures |w| <= |s|
    ensures forall e :: e in w ==> e in s && e.date == d && Rank(e) == r
    decreases |s|
  {
    if s == [] then []
    else (if s[0].date == d && Rank(s[0]) == r then [s[0]] else []) + WithKey(s[1..], d, r)
  }

  /** `s` and `t` list the events of every key in the same order: a
      reordering between them is stable. */
  ghost predicate SameKeyOrder(s: seq<Event>, t: seq<Event>)
  {
    forall d, r :: WithKey(s, d, r) == WithKey(t, d, r)
  }

  /** Exchanging two neighbours that are out of key order keeps the events
      of every key in the same order. */
  lemma {:induction false} SwapKeepsKeyOrder(s: seq<Event>, j: int, d: int, r: int)
    requires 0 < j < |s| && !KeyLe(s[j - 1], s[j])
    ensures WithKey(s[j - 1 := s[j]][j := s[j - 1]], d, r) == WithKey(s, d, r)
    decreases j
  {
    var t := s[j - 1 := s[j]][j := s[j - 1]];
    if j == 1 {
      assert t[1..][1..] == s[1..][1..];
    } else {
      SwapKeepsKeyOrder(s[1..], j - 1, d, r);
      assert t[1..] == s[1..][j - 2 := s[j]][j - 1 := s[j - 1]];
    }
  }

  /** Two key-sorted arrangements of the same length that list every
      key's events in the same order are equal: a stable sort by key has
      exactly one result. */
  lemma {:induction false} StableSortUnique(s: seq<Event>, t: seq<Event>)
    requires |s| == |t| && KeySorted(s) && KeySorted(t) && SameKeyOrder(s, t)
    ensures s == t
    decreases |s|
  {
    if s != [] {
      var x, y := s[0], t[0];
      HeadOfKey(t);
      HeadOfKey(s);
      assert WithKey(s, y.date, Rank(y)) == WithKey(t, y.date, Rank(y));
      assert WithKey(s, x.date, Rank(x)) == WithKey(t, x.date, Rank(x));
      SortedHeadFirst(s, y);
      SortedHeadFirst(t, x);
      assert x == y by {
        assert WithKey(s, x.date, Rank(x))[0] == WithKey(t, x.date, Rank(x))[0];
      }
      TailsKeepKeyOrder(s, t);
      StableSortUnique(s[1..], t[1..]);
      assert s == [x] + s[1..] && t == [y] + t[1..];
    }
  }

  /** The first event of a sequence heads the list of its key. */
  lemma HeadOfKey(s: seq<Event>)
    requires s != []
    ensures WithKey(s, s[0].date, Rank(s[0])) == [s[0]] + WithKey(s[1..], s[0].date, Rank(s[0]))
  {
  }

  /** In a key-sorted sequence the first event is at or before every
      event listed under any key. */
  lemma SortedHeadFirst(s: seq<Event>, y: Event)
    requires KeySorted(s) && s != [] && y in WithKey(s, y.date, Rank(y))
    ensures KeyLe(s[0], y)
  {
    var i :| 0 <= i < |s| && s[i] == y;
    if i > 0 {
      assert KeyLe(s[0], s[i]);
    }
  }

  /** Dropping a common first event keeps the per-key order. */
  lemma TailsKeepKeyOrder(s: seq<Event>, t: seq<Event>)
    requires s != [] && t != [] && s[0] == t[0] && SameKeyOrder(s, t)
    ensures SameKeyOrder(s[1..], t[1..])
  {
    forall d, r
      ensures WithKey(s[1..], d, r) == WithKey(t[1..], d, r)
    {
      var h := if s[0].date == d && Rank(s[0]) == r then [s[0]] else [];
      assert WithKey(s, d, r) == h + WithKey(s[1..], d, r);
      assert WithKey(t, d, r) == h + WithKey(t[1..], d, r);
      assert WithKey(s[1..], d, r) == WithKey(s, d, r)[|h|..];
      assert WithKey(t[1..], d, r) == WithKey(t, d, r)[|h|..];
    }
  }

  /** Per-key order is an equivalence: it composes. */
  lemma SameKeyOrderTrans(s: seq<Event>, t: seq<Event>, u: seq<Event>)
    requires SameKeyOrder(s, t) && SameKeyOrder(t, u)
    ensures SameKeyOrder(s, u)
  {
  }

  /** `events.sort(comparator)`, in place: an insertion sort by key that
      swaps only neighbours strictly out of order. The result is in key
      order (hence chronological), a permutation of the input, and keeps
      the input order among events of the same key. */
  method SortEvents(a: array<Event>)
    modifies a
    ensures KeySorted(a[..])
    ensures Chronological(a[..])
    ensures multiset(a[..]) == multiset(old(a[..]))
    ensures SameKeyOrder(a[..], old(a[..]))
  {
    var i := 0;
    while i < a.Length
      invariant 0 <= i <= a.Length
      invariant KeySorted(a[..i])
      invariant multiset(a[..]) == multiset(old(a[..]))
      invariant SameKeyOrder(a[..], old(a[..]))
    {
      ghost var before := a[..];
      InsertOne(a, i);
      SameKeyOrderTrans(a[..], before, old(a[..]));
      i := i + 1;
    }
    assert a[..i] == a[..];
    KeySortedIsChronological(a[..]);
  }

  /** One pass of the insertion sort: moves `a[i]` down past every event
      strictly after it, extending the sorted prefix by one. */
  method InsertOne(a: array<Event>, i: int)
    requires 0 <= i < a.Length && KeySorted(a[..i])
    modifies a
    ensures KeySorted(a[..i + 1])
    ensures multiset(a[..]) == multiset(old(a[..]))
    ensures SameKeyOrder(a[..], old(a[..]))
  {
    var j := i;
    InsertionStart(a[..], i);
    while j > 0 && !KeyLe(a[j - 1], a[j])
      invariant Inserting(a[..], i, j)
      invariant multiset(a[..]) == multiset(old(a[..]))
      invariant SameKeyOrder(a[..], old(a[..]))
    {
      ghost var s := a[..];
      SwapDown(a, j, old(a[..]));
      InsertionStep(s, i, j);
      j := j - 1;
    }
    InsertionDone(a[..], i, j);
  }

  /** Midway through inserting `s[i]`: it sits at `j`, everything else up
      to `i` is in key order, and nothing after `j` is before it. */
  ghost predicate Inserting(s: seq<Event>, i: int, j: int)
  {
    && 0 <= j <= i < |s|
    && (forall p, q :: 0 <= p < q <= i && p != j && q != j ==> KeyLe(s[p], s[q]))
    && (forall q :: j < q <= i ==> KeyLe(s[j], s[q]))
  }

  /** Before the first swap, the sorted prefix ends just before `i`. */
  lemma InsertionStart(s: seq<Event>, i: int)
    requires 0 <= i < |s| && KeySorted(s[..i])
    ensures Inserting(s, i, i)
  {
    forall p, q | 0 <= p < q <= i && p != i && q != i
      ensures KeyLe(s[p], s[q])
    {
      assert s[..i][p] == s[p] && s[..i][q] == s[q];
    }
  }

  /** Swapping the inserted event with a strictly later predecessor moves
      it one place down. */
  lemma InsertionStep(s: seq<Event>, i: int, j: int)
    requires Inserting(s, i, j) && j > 0 && !KeyLe(s[j - 1], s[j])
    ensures Inserting(s[j - 1 := s[j]][j := s[j - 1]], i, j - 1)
  {
  }

  /** Once the predecessor is not after it, the prefix up to `i` is sorted. */
  lemma InsertionDone(s: seq<Event>, i: int, j: int)
    requires Inserting(s, i, j) && (j == 0 || KeyLe(s[j - 1], s[j]))
    ensures KeySorted(s[..i + 1])
  {
    forall p, q | 0 <= p < q <= i
      ensures KeyLe(s[p], s[q])
    {
      if q == j && p < j - 1 {
        assert KeyLe(s[p], s[j - 1]);
      } else if p == j - 1 && q > j {
        assert KeyLe(s[j], s[q]);
      }
    }
  }

  /** Exchanges the event at `j` with the one before it, which is strictly
      after it in key order. The sequence stays a stable rearrangement of
      `orig`. */
  method SwapDown(a: array<Event>, j: int, ghost orig: seq<Event>)
    requires 0 < j < a.Length && !KeyLe(a[j - 1], a[j])
    requires multiset(a[..]) == multiset(orig) && SameKeyOrder(a[..], orig)
    modifies a
    ensures a[..] == old(a[..])[j - 1 := old(a[j])][j := old(a[j - 1])]
    ensures multiset(a[..]) == multiset(orig) && SameKeyOrder(a[..], orig)
  {
    ghost var s := a[..];
    a[j - 1], a[j] := a[j], a[j - 1];
    forall d, r
      ensures WithKey(a[..], d, r) == WithKey(s, d, r)
    {
      SwapKeepsKeyOrder(s, j, d, r);
    }
    SameKeyOrderTrans(a[..], s, orig);
  }
}
