/** `Object.keys(m).sort()` over a map keyed by day numbers.  ISO
    `YYYY-MM-DD` keys sort lexicographically in date order, so with days
    as integers the sorted key list is the keys in ascending order. */
module SortedKeys {

  /** A non-empty set has a member. */
  lemma NonEmptyHasMember(s: set<int>)
    requires s != {}
    ensures exists x :: x in s
  {
    if !exists x :: x in s {
      assert false;
    }
  }

  /** Every finite non-empty set of days has a least element. */
  lemma {:induction false} MinExists(s: set<int>)
    requires s != {}
    ensures exists m :: m in s && forall x :: x in s ==> m <= x
  {
    NonEmptyHasMember(s);
    var y :| y in s;
    if exists x :: x in s && x < y {
      var x :| x in s && x < y;
      var rest := s - {y};
      assert x in rest;
      MinExists(rest);
      var m :| m in rest && forall z :: z in rest ==> m <= z;
      var least := if y < m then y else m;
      forall z | z in s ensures least <= z {
        if z != y { assert z in rest; }
      }
      assert least in s;
    } else {
      assert forall z :: z in s ==> y <= z;
    }
  }

  /** The earliest day of a non-empty set. */
  ghost function MinOf(s: set<int>): (m: int)
    requires s != {}
    ensures m in s
    ensures forall x :: x in s ==> m <= x
  {
    MinExists(s);
    var m :| m in s && forall x :: x in s ==> m <= x; m
  }

  /** The days of `s` in ascending order: the reference definition of a
      sorted key list. */
  ghost function Ascending(s: set<int>): (ks: seq<int>)
    decreases s
  {
    if s == {} then [] else var m := MinOf(s); [m] + Ascending(s - {m})
  }

  ghost predicate StrictlyIncreasing(ks: seq<int>)
  {
    forall i, j :: 0 <= i < j < |ks| ==> ks[i] < ks[j]
  }

  /** The ascending list holds exactly the days of the set, each once, in
      strictly increasing order, and starts with the least one. */
  lemma {:induction false} AscendingSpec(s: set<int>)
    ensures |Ascending(s)| == |s|
    ensures forall x :: x in s <==> x in Ascending(s)
    ensures StrictlyIncreasing(Ascending(s))
    ensures s != {} ==> Ascending(s)[0] == MinOf(s)
    decreases s
  {
    if s != {} {
      var m := MinOf(s);
      var rest := Ascending(s - {m});
      AscendingSpec(s - {m});
      assert Ascending(s) == [m] + rest;
      forall i, j | 0 <= i < j < |Ascending(s)|
        ensures Ascending(s)[i] < Ascending(s)[j]
      {
        if i == 0 {
          assert Ascending(s)[j] == rest[j - 1];
          assert rest[j - 1] in s - {m};
        } else {
          assert Ascending(s)[i] == rest[i - 1] && Ascending(s)[j] == rest[j - 1];
        }
      }
    }
  }

  /** The sorted key list of a price map, built one least key at a time. */
  method SortedDates(m: map<int, real>) returns (ks: seq<int>)
    ensures ks == Ascending(m.Keys)
  {
    ks := [];
    var rest := m.Keys;
    while rest != {}
      invariant ks + Ascending(rest) == Ascending(m.Keys)
      decreases rest
    {
      MinExists(rest);
      var k :| k in rest && forall x :: x in rest ==> k <= x;
      assert k == MinOf(rest);
      ks, rest := ks + [k], rest - {k};
    }
  }
}
