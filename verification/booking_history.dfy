/** The history view (src/components/BookingHistory.jsx): aggregate financial
    statistics over all bookings, the per-booking payout and profit of the
    detail view, and the filtered and sorted booking list. */
module BookingHistory {
  import opened Records
  import opened BookingOrder

  const ALL: string := "all"

  // ---------------------------------------------------------------------------
  // Filtering

  /** `bookings.filter(b => b.status === status)` */
  function WithStatus(bs: seq<Booking>, status: string): (r: seq<Booking>)
    ensures |r| <= |bs|
  {
    if bs == [] then []
    else
      var last := bs[|bs| - 1];
      WithStatus(bs[..|bs| - 1], status) + (if last.status == status then [last] else [])
  }

  /** The filter keeps every booking of that status, as often as it occurs, and no other. */
  lemma {:induction false} WithStatusCounts(bs: seq<Booking>, status: string)
    ensures forall b :: multiset(WithStatus(bs, status))[b] == if b.status == status then multiset(bs)[b] else 0
  {
    if bs != [] {
      var last := bs[|bs| - 1];
      WithStatusCounts(bs[..|bs| - 1], status);
      assert bs == bs[..|bs| - 1] + [last];
    }
  }

  /** Filtering keeps the relative order: it distributes over concatenation. */
  lemma {:induction false} WithStatusConcat(a: seq<Booking>, b: seq<Booking>, status: string)
    ensures WithStatus(a + b, status) == WithStatus(a, status) + WithStatus(b, status)
    decreases |b|
  {
    if b != [] {
      var b' := b[..|b| - 1];
      WithStatusConcat(a, b', status);
      assert (a + b)[..|a + b| - 1] == a + b';
    } else {
      assert a + b == a;
    }
  }

  /** Two different statuses select disjoint parts of the list. */
  lemma {:induction false} StatusCountsBound(bs: seq<Booking>, s1: string, s2: string)
    requires s1 != s2
    ensures |WithStatus(bs, s1)| + |WithStatus(bs, s2)| <= |bs|
  {
    if bs != [] {
      StatusCountsBound(bs[..|bs| - 1], s1, s2);
    }
  }

  // ---------------------------------------------------------------------------
  // Money

  /** Sum of `totalAmount || 0` over a list. */
  function SumAmounts(bs: seq<Booking>): int {
    if bs == [] then 0 else SumAmounts(bs[..|bs| - 1]) + AmountOr0(bs[|bs| - 1])
  }

  /** `totalRevenue`: only completed bookings count. */
  function TotalRevenue(bs: seq<Booking>): int {
    SumAmounts(WithStatus(bs, COMPLETED))
  }

  /** What one member adds to the worker payments: the rate of its worker, or 0
      when the worker is the owner or no worker has that id. The member's cost
      plays no part. */
  function MemberPayout(m: Member, ws: seq<Worker>): (r: int)
    ensures (forall i :: 0 <= i < |ws| ==> ws[i].id != m.workerId) ==> r == 0
    ensures r == 0 || exists i :: 0 <= i < |ws| && ws[i].id == m.workerId && !ws[i].isOwner && r == ws[i].paymentRate
    ensures forall i :: 0 <= i < |ws| && ws[i].id == m.workerId && (forall k :: 0 <= k < i ==> ws[k].id != m.workerId)
                        ==> r == if ws[i].isOwner then 0 else ws[i].paymentRate
  {
    match FindWorker(ws, m.workerId)
    case None => 0
    case Some(w) => if w.isOwner then 0 else w.paymentRate
  }

  function SumPayouts(ms: seq<Member>, ws: seq<Worker>): int {
    if ms == [] then 0 else SumPayouts(ms[..|ms| - 1], ws) + MemberPayout(ms[|ms| - 1], ws)
  }

  /** The "Worker Payments" line of the detail view. */
  function BookingPayout(b: Booking, ws: seq<Worker>): int {
    SumPayouts(b.members, ws)
  }

  /** The "Your Profit" line of the detail view. */
  function BookingProfit(b: Booking, ws: seq<Worker>): (r: int)
    ensures r + BookingPayout(b, ws) == AmountOr0(b)
  {
    AmountOr0(b) - BookingPayout(b, ws)
  }

  function SumBookingPayouts(bs: seq<Booking>, ws: seq<Worker>): int {
    if bs == [] then 0 else SumBookingPayouts(bs[..|bs| - 1], ws) + BookingPayout(bs[|bs| - 1], ws)
  }

  function SumBookingProfits(bs: seq<Booking>, ws: seq<Worker>): int {
    if bs == [] then 0 else SumBookingProfits(bs[..|bs| - 1], ws) + BookingProfit(bs[|bs| - 1], ws)
  }

  /** `totalWorkerPayments`: the payouts of completed bookings only. */
  function TotalWorkerPayments(bs: seq<Booking>, ws: seq<Worker>): int {
    SumBookingPayouts(WithStatus(bs, COMPLETED), ws)
  }

  // ---------------------------------------------------------------------------
  // Statistics

  datatype Stats = Stats(
    totalBookings: int,
    completedCount: int,
    upcomingCount: int,
    totalRevenue: int,
    totalWorkerPayments: int,
    netProfit: int,
    averageBookingValue: real)

  /** `n > 0 ? total / n : 0`: the mean of `n` values summing to `total`, and 0
      when there are none. */
  function GuardedMean(total: int, n: int): (m: real)
    requires n >= 0
    ensures n == 0 ==> m == 0.0
    ensures n > 0 ==> m * n as real == total as real
  {
    if n > 0 then total as real / n as real else 0.0
  }

  /** The `stats` memo of the history view. */
  function ComputeStats(bs: seq<Booking>, ws: seq<Worker>): (st: Stats)
    ensures st.totalBookings == |bs|
    ensures 0 <= st.completedCount && 0 <= st.upcomingCount
    ensures st.completedCount + st.upcomingCount <= st.totalBookings
    ensures st.netProfit == st.totalRevenue - st.totalWorkerPayments
    ensures st.averageBookingValue == GuardedMean(st.totalRevenue, st.completedCount)
    ensures st.completedCount == |WithStatus(bs, COMPLETED)| && st.upcomingCount == |WithStatus(bs, UPCOMING)|
    ensures st.totalRevenue == TotalRevenue(bs) && st.totalWorkerPayments == TotalWorkerPayments(bs, ws)
    ensures bs == [] ==> st == Stats(0, 0, 0, 0, 0, 0, 0.0)
  {
    var completed := WithStatus(bs, COMPLETED);
    var totalRevenue := SumAmounts(completed);
    var completedCount := |completed|;
    var upcomingCount := |WithStatus(bs, UPCOMING)|;
    var totalWorkerPayments := SumBookingPayouts(completed, ws);
    StatusCountsBound(bs, COMPLETED, UPCOMING);
    Stats(|bs|, completedCount, upcomingCount, totalRevenue, totalWorkerPayments,
          totalRevenue - totalWorkerPayments, GuardedMean(totalRevenue, completedCount))
  }

  /** A booking adds its amount (0 when missing) to the revenue when it is
      completed, and nothing otherwise. */
  lemma RevenueAppend(bs: seq<Booking>, b: Booking)
    ensures TotalRevenue(bs + [b]) == TotalRevenue(bs) + (if b.status == COMPLETED then AmountOr0(b) else 0)
  {
    assert (bs + [b])[..|bs + [b]| - 1] == bs;
    var c := WithStatus(bs, COMPLETED);
    if b.status == COMPLETED {
      assert (c + [b])[..|c + [b]| - 1] == c;
    } else {
      assert c + [] == c;
    }
  }

  lemma {:induction false} SumAmountsConcat(a: seq<Booking>, b: seq<Booking>)
    ensures SumAmounts(a + b) == SumAmounts(a) + SumAmounts(b)
    decreases |b|
  {
    if b != [] {
      SumAmountsConcat(a, b[..|b| - 1]);
      assert (a + b)[..|a + b| - 1] == a + b[..|b| - 1];
    } else {
      assert a + b == a;
    }
  }

  /** Revenue, payouts and counts of a list split in two are the sums over the parts. */
  lemma StatsConcat(a: seq<Booking>, b: seq<Booking>, ws: seq<Worker>)
    ensures TotalRevenue(a + b) == TotalRevenue(a) + TotalRevenue(b)
    ensures TotalWorkerPayments(a + b, ws) == TotalWorkerPayments(a, ws) + TotalWorkerPayments(b, ws)
    ensures ComputeStats(a + b, ws).completedCount == ComputeStats(a, ws).completedCount + ComputeStats(b, ws).completedCount
    ensures ComputeStats(a + b, ws).upcomingCount == ComputeStats(a, ws).upcomingCount + ComputeStats(b, ws).upcomingCount
  {
    WithStatusConcat(a, b, COMPLETED);
    WithStatusConcat(a, b, UPCOMING);
    SumAmountsConcat(WithStatus(a, COMPLETED), WithStatus(b, COMPLETED));
    SumBookingPayoutsConcat(WithStatus(a, COMPLETED), WithStatus(b, COMPLETED), ws);
  }

  lemma {:induction false} SumBookingPayoutsConcat(a: seq<Booking>, b: seq<Booking>, ws: seq<Worker>)
    ensures SumBookingPayouts(a + b, ws) == SumBookingPayouts(a, ws) + SumBookingPayouts(b, ws)
    decreases |b|
  {
    if b != [] {
      SumBookingPayoutsConcat(a, b[..|b| - 1], ws);
      assert (a + b)[..|a + b| - 1] == a + b[..|b| - 1];
    } else {
      assert a + b == a;
    }
  }

  /** The payout of a booking depends only on which workers its members name,
      never on what the members cost. */
  lemma {:induction false} PayoutIgnoresCost(ms: seq<Member>, ms': seq<Member>, ws: seq<Worker>)
    requires |ms| == |ms'|
    requires forall i :: 0 <= i < |ms| ==> ms[i].workerId == ms'[i].workerId
    ensures SumPayouts(ms, ws) == SumPayouts(ms', ws)
  {
    if ms != [] {
      PayoutIgnoresCost(ms[..|ms| - 1], ms'[..|ms'| - 1], ws);
    }
  }

  /** What one more member adds to the payouts: nothing when the owner or a
      worker no longer on the team serves it, and that worker's rate otherwise. */
  lemma PayoutStep(ms: seq<Member>, m: Member, ws: seq<Worker>)
    ensures SumPayouts(ms + [m], ws) == SumPayouts(ms, ws) +
      (if FindWorker(ws, m.workerId).None? || FindWorker(ws, m.workerId).value.isOwner then 0
       else FindWorker(ws, m.workerId).value.paymentRate)
  {
    assert (ms + [m])[..|ms|] == ms;
  }

  /** A member served by the owner, or by a worker no longer on the team, adds
      nothing to the payouts. */
  lemma OwnerWorkIsFree(ms: seq<Member>, m: Member, ws: seq<Worker>)
    requires FindWorker(ws, m.workerId).None? || FindWorker(ws, m.workerId).value.isOwner
    ensures SumPayouts(ms + [m], ws) == SumPayouts(ms, ws)
  {
    PayoutStep(ms, m, ws);
  }

  /** When every member is served by the owner or by a worker no longer on the
      team, the booking pays out nothing and its profit is its whole amount. */
  lemma {:induction false} OwnerOnlyBookingKeepsAmount(b: Booking, ws: seq<Worker>)
    requires forall i :: 0 <= i < |b.members| ==>
      FindWorker(ws, b.members[i].workerId).None? || FindWorker(ws, b.members[i].workerId).value.isOwner
    ensures BookingPayout(b, ws) == 0
    ensures BookingProfit(b, ws) == AmountOr0(b)
  {
    var ms := b.members;
    var k := 0;
    while k < |ms|
      invariant 0 <= k <= |ms|
      invariant SumPayouts(ms[..k], ws) == 0
    {
      assert ms[..k + 1] == ms[..k] + [ms[k]];
      OwnerWorkIsFree(ms[..k], ms[k], ws);
      k := k + 1;
    }
    assert ms[..|ms|] == ms;
  }

  /** A member served by a non-owner adds exactly that worker's rate. */
  lemma PaidWorkerAddsRate(ms: seq<Member>, m: Member, ws: seq<Worker>, w: Worker)
    requires FindWorker(ws, m.workerId) == Some(w) && !w.isOwner
    ensures SumPayouts(ms + [m], ws) == SumPayouts(ms, ws) + w.paymentRate
  {
    PayoutStep(ms, m, ws);
  }

  /** The aggregate net profit is the sum of the profits shown in the detail
      view of every completed booking. */
  lemma {:induction false} NetProfitIsSumOfBookingProfits(bs: seq<Booking>, ws: seq<Worker>)
    ensures ComputeStats(bs, ws).netProfit == SumBookingProfits(WithStatus(bs, COMPLETED), ws)
  {
    ProfitsAreRevenueLessPayouts(WithStatus(bs, COMPLETED), ws);
  }

  lemma {:induction false} ProfitsAreRevenueLessPayouts(bs: seq<Booking>, ws: seq<Worker>)
    ensures SumBookingProfits(bs, ws) == SumAmounts(bs) - SumBookingPayouts(bs, ws)
  {
    if bs != [] {
      ProfitsAreRevenueLessPayouts(bs[..|bs| - 1], ws);
    }
  }

  // ---------------------------------------------------------------------------
  // Listing

  /** The sort order chosen by the `sortBy` key; an unknown key makes the
      comparator answer 0. */
  function OrderOf(sortBy: string, at: InstantOf): Order {
    if sortBy == "date-desc" then DateDesc(at)
    else if sortBy == "date-asc" then DateAsc(at)
    else if sortBy == "amount-desc" then AmountDesc
    else if sortBy == "amount-asc" then AmountAsc
    else if sortBy == "name-asc" then NameAsc
    else Unordered
  }

  /** The list the history view shows, as a value. */
  function FilteredAndSorted(bs: seq<Booking>, filterStatus: string, sortBy: string, at: InstantOf): seq<Booking> {
    Sort(OrderOf(sortBy, at), if filterStatus == ALL then bs else WithStatus(bs, filterStatus))
  }

  /** With a status filter the list holds exactly the bookings of that status,
      each as often as in the input; with `all` it is a permutation of the input;
      an unknown sort key keeps the filtered order. */
  lemma FilteredAndSortedSpec(bs: seq<Booking>, filterStatus: string, sortBy: string, at: InstantOf)
    ensures var r := FilteredAndSorted(bs, filterStatus, sortBy, at);
      && (filterStatus == ALL ==> multiset(r) == multiset(bs))
      && (filterStatus != ALL ==> forall i :: 0 <= i < |r| ==> r[i].status == filterStatus)
      && (filterStatus != ALL ==> forall b: Booking :: b.status == filterStatus ==> multiset(r)[b] == multiset(bs)[b])
      && Sorted(OrderOf(sortBy, at), r)
      && (OrderOf(sortBy, at).Unordered? ==> r == if filterStatus == ALL then bs else WithStatus(bs, filterStatus))
  {
    var s := if filterStatus == ALL then bs else WithStatus(bs, filterStatus);
    var r := Sort(OrderOf(sortBy, at), s);
    SortSpec(OrderOf(sortBy, at), s);
    SortSorted(OrderOf(sortBy, at), s);
    WithStatusCounts(bs, filterStatus);
    if filterStatus != ALL {
      forall i | 0 <= i < |r| ensures r[i].status == filterStatus {
        assert r[i] in multiset(r);
      }
    }
  }

  /** Moving `x` one place left past an element it goes before. */
  lemma InsertStep(order: Order, s: seq<Booking>, x: Booking, j: int)
    requires 0 < j <= |s| && Compare(order, s[j - 1], x) > 0
    ensures Insert(order, s[..j], x) + s[j..] == Insert(order, s[..j - 1], x) + s[j - 1..]
  {
    assert s[..j][..j - 1] == s[..j - 1];
    assert s[j - 1..] == [s[j - 1]] + s[j..];
  }

  /** Where `x` stops moving, it sits right after the prefix. */
  lemma InsertStop(order: Order, s: seq<Booking>, x: Booking, j: int)
    requires 0 <= j <= |s| && (j == 0 || Compare(order, s[j - 1], x) <= 0)
    ensures Insert(order, s[..j], x) == s[..j] + [x]
  {
  }

  lemma SortStep(order: Order, s: seq<Booking>, i: int)
    requires 0 <= i < |s|
    ensures Sort(order, s[..i + 1]) == Insert(order, Sort(order, s[..i]), s[i])
  {
    assert s[..i + 1][..i] == s[..i];
  }

  /** Swapping `x` with its left neighbour moves it one place left. */
  lemma SwapLeft(p: seq<Booking>, x: Booking, rest: seq<Booking>, j: int)
    requires 0 < j <= |p|
    ensures (p[..j] + [x] + p[j..] + rest)[j - 1 := x][j := p[j - 1]] == p[..j - 1] + [x] + p[j - 1..] + rest
  {
    var u := (p[..j] + [x] + p[j..] + rest)[j - 1 := x][j := p[j - 1]];
    var v := p[..j - 1] + [x] + p[j - 1..] + rest;
    assert |u| == |v|;
    forall k | 0 <= k < |u| ensures u[k] == v[k] {
      if k < j - 1 {
      } else if k == j - 1 {
      } else if k == j {
      } else if k < |p| + 1 {
        assert u[k] == p[k - 1];
      } else {
      }
    }
  }

  /** The array while `x` moves left through the sorted prefix `p`: `x` sits
      at index `j`, and `rest` follows the prefix. */
  function Shape(p: seq<Booking>, x: Booking, rest: seq<Booking>, j: int): seq<Booking>
    requires 0 <= j <= |p|
  {
    p[..j] + [x] + p[j..] + rest
  }

  /** The insertion of `x` into `p` once `x` has moved past `p[j..]`. */
  function Pending(order: Order, p: seq<Booking>, x: Booking, j: int): seq<Booking>
    requires 0 <= j <= |p|
  {
    Insert(order, p[..j], x) + p[j..]
  }

  lemma ShapeFacts(p: seq<Booking>, x: Booking, rest: seq<Booking>, j: int)
    requires 0 <= j <= |p|
    ensures |Shape(p, x, rest, j)| == |p| + 1 + |rest|
    ensures Shape(p, x, rest, j)[j] == x
    ensures j > 0 ==> Shape(p, x, rest, j)[j - 1] == p[j - 1]
  {
  }

  lemma ShapeStart(order: Order, p: seq<Booking>, x: Booking, rest: seq<Booking>)
    ensures Shape(p, x, rest, |p|) == p + [x] + rest
    ensures Pending(order, p, x, |p|) == Insert(order, p, x)
  {
    assert p[..|p|] == p && p[|p|..] == [];
  }

  /** `x` moves one place left past an element it goes before. */
  lemma ShapeStep(order: Order, p: seq<Booking>, x: Booking, rest: seq<Booking>, j: int)
    requires 0 < j <= |p| && Compare(order, p[j - 1], x) > 0
    ensures Shape(p, x, rest, j)[j - 1 := x][j := p[j - 1]] == Shape(p, x, rest, j - 1)
    ensures Pending(order, p, x, j) == Pending(order, p, x, j - 1)
  {
    InsertStep(order, p, x, j);
    SwapLeft(p, x, rest, j);
  }

  /** Where `x` stops, the first `|p| + 1` elements are the insertion. */
  lemma ShapeStop(order: Order, p: seq<Booking>, x: Booking, rest: seq<Booking>, j: int)
    requires 0 <= j <= |p| && (j == 0 || Compare(order, p[j - 1], x) <= 0)
    ensures Shape(p, x, rest, j)[..|p| + 1] == Pending(order, p, x, j)
    ensures Shape(p, x, rest, j)[|p| + 1..] == rest
  {
    InsertStop(order, p, x, j);
    var u := Shape(p, x, rest, j);
    assert u == (p[..j] + [x] + p[j..]) + rest;
  }

  /** Exchanges `a[j - 1]` and `a[j]`. */
  method Swap(a: array<Booking>, j: int)
    requires 0 < j < a.Length
    modifies a
    ensures a[..] == old(a[..])[j - 1 := old(a[j])][j := old(a[j - 1])]
  {
    a[j - 1], a[j] := a[j], a[j - 1];
  }

  /** One pass of the insertion: moves `a[i]` left past every element of the
      sorted prefix that the comparator puts after it. */
  method InsertAt(a: array<Booking>, i: int, order: Order)
    requires 0 <= i < a.Length
    modifies a
    ensures a[..i + 1] == Insert(order, old(a[..i]), old(a[i]))
    ensures a[i + 1..] == old(a[i + 1..])
  {
    ghost var sorted := a[..i];
    ghost var x := a[i];
    ghost var rest := a[i + 1..];
    ShapeStart(order, sorted, x, rest);
    assert a[..] == sorted + [x] + rest;
    var j := i;
    while j > 0 && Compare(order, a[j - 1], a[j]) > 0
      invariant 0 <= j <= i
      invariant a[..] == Shape(sorted, x, rest, j)
      invariant Pending(order, sorted, x, j) == Insert(order, sorted, x)
    {
      ShapeFacts(sorted, x, rest, j);
      ShapeStep(order, sorted, x, rest, j);
      Swap(a, j);
      j := j - 1;
    }
    ShapeFacts(sorted, x, rest, j);
    ShapeStop(order, sorted, x, rest, j);
    assert a[..i + 1] == a[..][..i + 1] && a[i + 1..] == a[..][i + 1..];
  }

  /** `filtered.sort(...)`: sorts the array in place, as JavaScript's stable sort
      does with the comparator of `order`. */
  method SortInPlace(a: array<Booking>, order: Order)
    modifies a
    ensures a[..] == Sort(order, old(a[..]))
  {
    ghost var input := a[..];
    var i := 0;
    while i < a.Length
      invariant 0 <= i <= a.Length
      invariant a[..i] == Sort(order, input[..i])
      invariant a[i..] == input[i..]
    {
      assert a[i + 1..] == input[i + 1..] by {
        assert a[i + 1..] == a[i..][1..] && input[i + 1..] == input[i..][1..];
      }
      assert a[i] == input[i] by {
        assert a[i] == a[i..][0] && input[i] == input[i..][0];
      }
      InsertAt(a, i, order);
      SortStep(order, input, i);
      i := i + 1;
    }
    assert a[..a.Length] == a[..] && input[..a.Length] == input;
  }

  /** `filteredAndSortedBookings`: with the filter `all` the caller's own array
      is sorted in place and returned; otherwise a fresh filtered array is sorted
      and the caller's array is left alone. */
  method FilterAndSort(bookings: array<Booking>, filterStatus: string, sortBy: string, at: InstantOf)
    returns (filtered: array<Booking>)
    modifies bookings
    ensures filtered[..] == FilteredAndSorted(old(bookings[..]), filterStatus, sortBy, at)
    ensures filterStatus == ALL ==> filtered == bookings
    ensures filterStatus != ALL ==> fresh(filtered) && bookings[..] == old(bookings[..])
  {
    filtered := bookings;
    if filterStatus != ALL {
      var kept := WithStatus(bookings[..], filterStatus);
      filtered := new Booking[|kept|](i requires 0 <= i < |kept| => kept[i]);
      assert filtered[..] == kept;
    }
    SortInPlace(filtered, OrderOf(sortBy, at));
  }

  /** A worked example: a booking of 3500 whose two members are
      served by the paid assistant (rate 800) and by the owner. */
  lemma BridalExample()
    ensures var ws := [Worker(1, "Ruchika Bhansali", "Certified Makeup Artist", 0, true),
                       Worker(2, "Assistant", "Makeup Assistant", 800, false)];
            var b := Booking(7, "Client", "", "2025-01-10", "10:00", 1, 2, "", COMPLETED, "",
                             [Member("A", 1, 2, "", Some(2000)), Member("B", 1, 1, "", Some(1500))], Some(3500));
            BookingPayout(b, ws) == 800 && BookingProfit(b, ws) == 2700
  {
    var ws := [Worker(1, "Ruchika Bhansali", "Certified Makeup Artist", 0, true),
               Worker(2, "Assistant", "Makeup Assistant", 800, false)];
    var ms := [Member("A", 1, 2, "", Some(2000)), Member("B", 1, 1, "", Some(1500))];
    assert FindWorker(ws, 2) == Some(ws[1]);
    assert FindWorker(ws, 1) == Some(ws[0]);
    assert ms[..1] == [ms[0]] && [ms[0]][..0] == [];
    assert SumPayouts(ms, ws) == 800;
  }
}
