/** The month picker of src/components/finance-cards.tsx: the distinct months (start-of-month
    of the due date) of the paid orders, latest first. The date-fns `startOfMonth` is a parameter. */
module FinanceCards {
  import opened Schema
  import opened Seqs

  /** `orders.filter(order => order.paymentDate)`. */
  predicate IsPaid(o: Order) { o.paymentDate.Some? }

  predicate HasDueDate(o: Order) { o.dueDate.Some? }

  /** An order that offers a month: it is paid and has a due date. */
  predicate Contributes(o: Order) { o.paymentDate.Some? && o.dueDate.Some? }

  /** The months the picker should offer. */
  ghost function MonthsOf(orders: seq<Order>, startOfMonth: Timestamp -> Timestamp): set<Timestamp> {
    set o | o in orders && Contributes(o) :: startOfMonth(o.dueDate.value)
  }

  predicate Distinct(s: seq<Timestamp>) {
    forall i, j :: 0 <= i < j < |s| ==> s[i] != s[j]
  }

  /** A sequence without repeats has each value at most once. */
  lemma {:induction false} DistinctCount(s: seq<Timestamp>, x: Timestamp)
    requires Distinct(s)
    ensures multiset(s)[x] <= 1
  {
    if s != [] {
      assert s == [s[0]] + s[1..];
      DistinctCount(s[1..], x);
      if x == s[0] {
        assert x !in s[1..];
      }
    }
  }

  /** Reordering a sequence without repeats gives a sequence without repeats. */
  lemma DistinctPermutation(s: seq<Timestamp>, t: seq<Timestamp>)
    requires multiset(s) == multiset(t) && Distinct(s)
    ensures Distinct(t)
  {
    forall i, j | 0 <= i < j < |t|
      ensures t[i] != t[j]
    {
      if t[i] == t[j] {
        var x := t[i];
        assert t == t[..j] + t[j..];
        assert x in multiset(t[..j]) && x in multiset(t[j..]);
        assert multiset(t)[x] == multiset(t[..j])[x] + multiset(t[j..])[x];
        DistinctCount(s, x);
        assert false;
      }
    }
  }

  /** `uniqueMonths.sort((a, b) => b - a)`: in place, latest first. */
  method SortDescending(a: array<Timestamp>)
    modifies a
    ensures forall i, j :: 0 <= i < j < a.Length ==> a[i] >= a[j]
    ensures multiset(a[..]) == old(multiset(a[..]))
  {
    for i := 0 to a.Length
      invariant forall p, q :: 0 <= p < q < i ==> a[p] >= a[q]
      invariant multiset(a[..]) == old(multiset(a[..]))
    {
      var j := i;
      while j > 0 && a[j - 1] < a[j]
        invariant 0 <= j <= i
        invariant forall p, q :: 0 <= p < q <= i && p != j && q != j ==> a[p] >= a[q]
        invariant forall q :: j < q <= i ==> a[j] > a[q]
        invariant multiset(a[..]) == old(multiset(a[..]))
      {
        a[j - 1], a[j] := a[j], a[j - 1];
        j := j - 1;
      }
    }
  }

  /** The months of a prefix grow by the month of the next order, if it offers one. */
  lemma MonthsOfSnoc(s: seq<Order>, o: Order, startOfMonth: Timestamp -> Timestamp)
    ensures MonthsOf(s + [o], startOfMonth)
         == MonthsOf(s, startOfMonth) + (if Contributes(o) then {startOfMonth(o.dueDate.value)} else {})
  {
    assert forall x :: x in s + [o] <==> x in s || x == o;
  }

  /** The `reduce` over the paid orders: the start of the month of each due date, each month
      once (the `acc.some(...)` check before `acc.push`). The order of the list is not promised;
      the caller sorts it. */
  method CollectMonths(paidOrders: seq<Order>, startOfMonth: Timestamp -> Timestamp) returns (acc: seq<Timestamp>)
    requires forall i :: 0 <= i < |paidOrders| ==> paidOrders[i].paymentDate.Some?
    ensures Distinct(acc)
    ensures forall m :: m in acc <==> m in MonthsOf(paidOrders, startOfMonth)
    ensures |acc| <= |Filter(paidOrders, HasDueDate)|
  {
    acc := [];
    for i := 0 to |paidOrders|
      invariant Distinct(acc)
      invariant forall m :: m in acc <==> m in MonthsOf(paidOrders[..i], startOfMonth)
      invariant |acc| <= |Filter(paidOrders[..i], HasDueDate)|
    {
      var order := paidOrders[i];
      assert paidOrders[..i + 1] == paidOrders[..i] + [order];
      MonthsOfSnoc(paidOrders[..i], order, startOfMonth);
      FilterConcat(paidOrders[..i], [order], HasDueDate);
      if order.dueDate.Some? {
        var value := startOfMonth(order.dueDate.value);
        if value !in acc {
          acc := acc + [value];
        }
      }
    }
    assert paidOrders[..|paidOrders|] == paidOrders;
  }

  /** The first effect of FinanceCards: the picker's list of months, latest first. */
  method UniqueMonths(orders: seq<Order>, startOfMonth: Timestamp -> Timestamp) returns (months: seq<Timestamp>)
    ensures forall i, j :: 0 <= i < j < |months| ==> months[i] > months[j]
    ensures forall m :: m in months <==> m in MonthsOf(orders, startOfMonth)
    ensures |months| <= |Filter(orders, Contributes)|
  {
    var paidOrders := Filter(orders, IsPaid);
    assert forall i :: 0 <= i < |paidOrders| ==> paidOrders[i] in paidOrders;
    var acc := CollectMonths(paidOrders, startOfMonth);
    assert forall o :: o in paidOrders && Contributes(o) <==> o in orders && Contributes(o);
    assert MonthsOf(paidOrders, startOfMonth) == MonthsOf(orders, startOfMonth);
    FilterFilter(orders, IsPaid, HasDueDate, Contributes);

    var a := new Timestamp[|acc|](k requires 0 <= k < |acc| => acc[k]);
    assert a[..] == acc;
    SortDescending(a);
    months := a[..];
    DistinctPermutation(acc, months);
    assert forall m :: m in months <==> m in multiset(acc);
  }

  /** The contract of UniqueMonths leaves no choice: two lists sorted strictly latest first that
      offer the same months are the same list. */
  lemma {:induction false} MonthListDetermined(s: seq<Timestamp>, t: seq<Timestamp>)
    requires forall i, j :: 0 <= i < j < |s| ==> s[i] > s[j]
    requires forall i, j :: 0 <= i < j < |t| ==> t[i] > t[j]
    requires forall m :: m in s <==> m in t
    ensures s == t
  {
    if s != [] {
      assert s[0] in s;
    }
    if t != [] {
      assert t[0] in t;
    }
    if s != [] && t != [] {
      assert s[0] in t && t[0] in s;
      assert s[0] == t[0];
      forall m
        ensures m in s[1..] <==> m in t[1..]
      {
        assert m in s[1..] <==> m in s && m != s[0];
        assert m in t[1..] <==> m in t && m != t[0];
      }
      MonthListDetermined(s[1..], t[1..]);
      assert s == [s[0]] + s[1..] && t == [t[0]] + t[1..];
    }
  }
}
