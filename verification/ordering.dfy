/** The comparators the views hand to `Array.prototype.sort`, and the sort
    itself. JavaScript's sort is stable, and a stable sort under a comparator
    that is a total preorder has exactly one possible result, so the stable
    insertion sort `Sort` below gives the order the browser gives for the same
    comparator. The name and time orders compare texts by character code, not
    by the browser's locale, so for those two the order can differ. */
module BookingOrder {
  import opened Records
  import opened Text

  /** One comparator per sort order: the five of the history view
      (BookingHistory.jsx), the time-of-day order of today's schedule
      (UpcomingBookings.jsx) and the default case that answers 0. */
  datatype Order =
    | DateDesc(at: InstantOf)
    | DateAsc(at: InstantOf)
    | AmountDesc
    | AmountAsc
    | NameAsc
    | TimeAsc
    | Unordered

  /** The comparator's answer: negative when `a` goes first, positive when `b` does. */
  function Compare(order: Order, a: Booking, b: Booking): int {
    match order
    case DateDesc(at) => Instant(at, b) - Instant(at, a)
    case DateAsc(at) => Instant(at, a) - Instant(at, b)
    case AmountDesc => AmountOr0(b) - AmountOr0(a)
    case AmountAsc => AmountOr0(a) - AmountOr0(b)
    case NameAsc => LexCompare(a.clientName, b.clientName)
    case TimeAsc => LexCompare(a.time, b.time)
    case Unordered => 0
  }

  predicate InOrder(order: Order, a: Booking, b: Booking) {
    Compare(order, a, b) <= 0
  }

  /** `s` lists its bookings in the order the comparator asks for. */
  ghost predicate Sorted(order: Order, s: seq<Booking>) {
    forall i, j :: 0 <= i < j < |s| ==> InOrder(order, s[i], s[j])
  }

  /** Every comparator is total: when it puts `b` first, `b` before `a` is in order. */
  lemma CompareFlip(order: Order, a: Booking, b: Booking)
    ensures Compare(order, a, b) > 0 ==> Compare(order, b, a) < 0
  {
    match order
    case NameAsc => LexCompareFlip(a.clientName, b.clientName);
    case TimeAsc => LexCompareFlip(a.time, b.time);
    case _ =>
  }

  /** Every comparator is transitive. */
  lemma CompareTrans(order: Order, a: Booking, b: Booking, c: Booking)
    requires InOrder(order, a, b) && InOrder(order, b, c)
    ensures InOrder(order, a, c)
  {
    match order
    case NameAsc => LexCompareTrans(a.clientName, b.clientName, c.clientName);
    case TimeAsc => LexCompareTrans(a.time, b.time, c.time);
    case _ =>
  }

  /** Inserts `x` after the last element of `s` that the comparator does not put after it. */
  function Insert(order: Order, s: seq<Booking>, x: Booking): (r: seq<Booking>)
    ensures |r| == |s| + 1
    decreases |s|
  {
    if s == [] then [x]
    else if Compare(order, s[|s| - 1], x) > 0 then Insert(order, s[..|s| - 1], x) + [s[|s| - 1]]
    else s + [x]
  }

  /** Inserting adds exactly the new booking. */
  lemma {:induction false} InsertAdds(order: Order, s: seq<Booking>, x: Booking)
    ensures multiset(Insert(order, s, x)) == multiset(s) + multiset{x}
    decreases |s|
  {
    if s != [] && Compare(order, s[|s| - 1], x) > 0 {
      InsertAdds(order, s[..|s| - 1], x);
      assert s == s[..|s| - 1] + [s[|s| - 1]];
    }
  }

  /** Each element of an insertion is the inserted booking or, at index `k`,
      one of the list's own. */
  lemma InsertFrom(order: Order, s: seq<Booking>, x: Booking, i: int) returns (k: int)
    requires 0 <= i < |s| + 1
    ensures k == -1 ==> Insert(order, s, x)[i] == x
    ensures k != -1 ==> 0 <= k < |s| && s[k] == Insert(order, s, x)[i]
  {
    var t := Insert(order, s, x);
    InsertAdds(order, s, x);
    assert t[i] in multiset(t);
    if t[i] == x {
      k := -1;
    } else {
      assert t[i] in multiset(s);
      k :| 0 <= k < |s| && s[k] == t[i];
    }
  }

  /** The list after `sort` with the comparator of `order`. */
  function Sort(order: Order, s: seq<Booking>): (r: seq<Booking>)
    ensures |r| == |s|
  {
    if s == [] then [] else Insert(order, Sort(order, s[..|s| - 1]), s[|s| - 1])
  }

  /** Sorting is a permutation of its input. */
  lemma {:induction false} SortPermutes(order: Order, s: seq<Booking>)
    ensures multiset(Sort(order, s)) == multiset(s)
  {
    if s != [] {
      SortPermutes(order, s[..|s| - 1]);
      InsertAdds(order, Sort(order, s[..|s| - 1]), s[|s| - 1]);
      assert s == s[..|s| - 1] + [s[|s| - 1]];
    }
  }

  lemma {:induction false} InsertSorted(order: Order, s: seq<Booking>, x: Booking)
    requires Sorted(order, s)
    ensures Sorted(order, Insert(order, s, x))
    decreases |s|
  {
    if s != [] {
      var last := s[|s| - 1];
      if Compare(order, last, x) > 0 {
        var init := s[..|s| - 1];
        InsertSorted(order, init, x);
        InsertSortedPast(order, s, x);
      } else {
        assert Insert(order, s, x) == s + [x];
        forall i | 0 <= i < |s| ensures InOrder(order, s[i], x) {
          if i < |s| - 1 {
            CompareTrans(order, s[i], last, x);
          }
        }
      }
    }
  }

  /** The step of `InsertSorted` where `x` moves past the last element. */
  lemma InsertSortedPast(order: Order, s: seq<Booking>, x: Booking)
    requires s != [] && Sorted(order, s) && Compare(order, s[|s| - 1], x) > 0
    requires Sorted(order, Insert(order, s[..|s| - 1], x))
    ensures Sorted(order, Insert(order, s, x))
  {
    var last := s[|s| - 1];
    var init := s[..|s| - 1];
    var t := Insert(order, init, x);
    assert Insert(order, s, x) == t + [last];
    CompareFlip(order, last, x);
    forall i | 0 <= i < |t| ensures InOrder(order, t[i], last) {
      var k := InsertFrom(order, init, x, i);
      if k >= 0 {
        assert s[k] == t[i];
      }
    }
    var u := t + [last];
    forall i, j | 0 <= i < j < |u| ensures InOrder(order, u[i], u[j]) {
      if j < |t| {
        assert u[i] == t[i] && u[j] == t[j];
      } else {
        assert u[i] == t[i] && u[j] == last;
      }
    }
  }

  /** The result of `sort` is ordered by the comparator. */
  lemma {:induction false} SortSorted(order: Order, s: seq<Booking>)
    ensures Sorted(order, Sort(order, s))
  {
    if s != [] {
      SortSorted(order, s[..|s| - 1]);
      InsertSorted(order, Sort(order, s[..|s| - 1]), s[|s| - 1]);
    }
  }

  /** A comparator that always answers 0 leaves the list as it was. */
  lemma {:induction false} SortUnordered(s: seq<Booking>)
    ensures Sort(Unordered, s) == s
  {
    if s != [] {
      SortUnordered(s[..|s| - 1]);
      assert s == s[..|s| - 1] + [s[|s| - 1]];
    }
  }

  /** What `sort` promises for each order: a permutation of its input, arranged
      by the order's key, and the input itself for the comparator that answers 0. */
  lemma SortSpec(order: Order, s: seq<Booking>)
    ensures multiset(Sort(order, s)) == multiset(s)
    ensures order.DateAsc? ==> forall i, j :: 0 <= i < j < |s| ==>
      Instant(order.at, Sort(order, s)[i]) <= Instant(order.at, Sort(order, s)[j])
    ensures order.DateDesc? ==> forall i, j :: 0 <= i < j < |s| ==>
      Instant(order.at, Sort(order, s)[i]) >= Instant(order.at, Sort(order, s)[j])
    ensures order.AmountAsc? ==> forall i, j :: 0 <= i < j < |s| ==>
      AmountOr0(Sort(order, s)[i]) <= AmountOr0(Sort(order, s)[j])
    ensures order.AmountDesc? ==> forall i, j :: 0 <= i < j < |s| ==>
      AmountOr0(Sort(order, s)[i]) >= AmountOr0(Sort(order, s)[j])
    ensures order.NameAsc? ==> forall i, j :: 0 <= i < j < |s| ==>
      LexCompare(Sort(order, s)[i].clientName, Sort(order, s)[j].clientName) <= 0
    ensures order.TimeAsc? ==> forall i, j :: 0 <= i < j < |s| ==>
      LexCompare(Sort(order, s)[i].time, Sort(order, s)[j].time) <= 0
    ensures order.Unordered? ==> Sort(order, s) == s
  {
    SortPermutes(order, s);
    SortSorted(order, s);
    if order.Unordered? {
      SortUnordered(s);
    }
  }
}
