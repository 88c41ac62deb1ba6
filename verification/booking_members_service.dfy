/** The data-side helpers for group members (src/services/bookingMembersService.js):
    the row `createBookingMember` inserts, with its defaults, and the per-booking
    statistics `getBookingMemberStats` reduces from the member rows. */
module BookingMembersService {
  import opened Records

  // ---------------------------------------------------------------------------
  // Creating a member row

  /** The member data a caller hands in; every field but the name and the
      service may be missing. */
  datatype MemberInput = MemberInput(
    member_name: string,
    member_relation: Option<string>,
    member_age: Option<int>,
    service_provided: string,
    service_price: Option<int>,
    worker_assigned: Option<string>,
    occasion: Option<string>,
    service_duration: Option<int>,
    member_satisfaction: Option<int>,
    member_feedback: Option<string>,
    follow_up_required: Option<bool>)

  /** The row that is inserted. A missing number is stored as null (`None`). */
  datatype MemberRecord = MemberRecord(
    booking_id: int,
    member_name: string,
    member_relation: string,
    member_age: Option<int>,
    service_provided: string,
    service_price: int,
    worker_assigned: string,
    occasion: string,
    service_duration: Option<int>,
    member_satisfaction: Option<int>,
    member_feedback: string,
    follow_up_required: bool)

  /** `x || null` on a number: null, undefined and 0 all become null. */
  function NullIfFalsy(x: Option<int>): (r: Option<int>)
    ensures r.Some? <==> x.Some? && x.value != 0
    ensures r.Some? ==> r == x
  {
    if x.Some? && x.value != 0 then x else None
  }

  /** The row `createBookingMember` inserts for `bookingId`. */
  function NewMemberRecord(bookingId: int, m: MemberInput): (r: MemberRecord)
    ensures r.booking_id == bookingId && r.member_name == m.member_name
    ensures r.service_provided == m.service_provided
    ensures r.service_price == OrDefault(m.service_price, 0)
    ensures m.service_price.None? ==> r.service_price == 0
    ensures r.member_relation == TextOrEmpty(m.member_relation)
    ensures r.worker_assigned == TextOrEmpty(m.worker_assigned)
    ensures r.occasion == TextOrEmpty(m.occasion)
    ensures r.member_feedback == TextOrEmpty(m.member_feedback)
    ensures r.member_age == NullIfFalsy(m.member_age)
    ensures r.service_duration == NullIfFalsy(m.service_duration)
    ensures r.member_satisfaction == NullIfFalsy(m.member_satisfaction)
    ensures r.follow_up_required <==> m.follow_up_required == Some(true)
  {
    MemberRecord(
      bookingId, m.member_name, TextOrEmpty(m.member_relation), NullIfFalsy(m.member_age),
      m.service_provided, OrDefault(m.service_price, 0), TextOrEmpty(m.worker_assigned),
      TextOrEmpty(m.occasion), NullIfFalsy(m.service_duration), NullIfFalsy(m.member_satisfaction),
      TextOrEmpty(m.member_feedback), m.follow_up_required == Some(true))
  }

  // ---------------------------------------------------------------------------
  // Statistics

  /** The three columns the statistics query selects. */
  datatype StatsRow = StatsRow(service_price: Option<int>, member_satisfaction: Option<int>, service_duration: Option<int>)

  function StatsRowOf(r: MemberRecord): StatsRow {
    StatsRow(Some(r.service_price), r.member_satisfaction, r.service_duration)
  }

  /** `filter(m => m.member_satisfaction)`: a rating of 0 or null is left out. */
  predicate Rated(r: StatsRow) {
    r.member_satisfaction.Some? && r.member_satisfaction.value != 0
  }

  function SumPrices(rows: seq<StatsRow>): int {
    if rows == [] then 0 else SumPrices(rows[..|rows| - 1]) + OrDefault(rows[|rows| - 1].service_price, 0)
  }

  function SumDurations(rows: seq<StatsRow>): int {
    if rows == [] then 0 else SumDurations(rows[..|rows| - 1]) + OrDefault(rows[|rows| - 1].service_duration, 0)
  }

  /** The rated rows, in order. */
  function RatedRows(rows: seq<StatsRow>): (r: seq<StatsRow>)
    ensures |r| <= |rows|
    ensures forall i :: 0 <= i < |r| ==> Rated(r[i])
    ensures forall i :: 0 <= i < |rows| && Rated(rows[i]) ==> rows[i] in r
  {
    if rows == [] then []
    else
      var last := rows[|rows| - 1];
      RatedRows(rows[..|rows| - 1]) + (if Rated(last) then [last] else [])
  }

  /** The filter keeps every rated row, as often as it occurs, and no other. */
  lemma {:induction false} RatedRowsCounts(rows: seq<StatsRow>)
    ensures forall r :: multiset(RatedRows(rows))[r] == if Rated(r) then multiset(rows)[r] else 0
  {
    if rows != [] {
      var last := rows[|rows| - 1];
      RatedRowsCounts(rows[..|rows| - 1]);
      assert rows == rows[..|rows| - 1] + [last];
    }
  }

  /** The rating a row adds to the sum; null adds nothing. */
  function RatingOf(r: StatsRow): int {
    OrDefault(r.member_satisfaction, 0)
  }

  /** The sum of the ratings. */
  function SumRatings(rows: seq<StatsRow>): int {
    if rows == [] then 0 else SumRatings(rows[..|rows| - 1]) + RatingOf(rows[|rows| - 1])
  }

  /** There is a rated row exactly when the rated rows are not empty. */
  lemma {:induction false} RatedRowsEmpty(rows: seq<StatsRow>)
    ensures RatedRows(rows) == [] <==> forall i :: 0 <= i < |rows| ==> !Rated(rows[i])
  {
    if rows != [] {
      RatedRowsEmpty(rows[..|rows| - 1]);
      var init := rows[..|rows| - 1];
      assert forall i :: 0 <= i < |init| ==> rows[i] == init[i];
    }
  }

  /** JavaScript's `a / b` on numbers: `None` stands for a result that is not a
      finite number, as `0 / 0` (NaN) is. */
  function JsDivide(a: int, b: int): (r: Option<real>)
    ensures r.Some? <==> b != 0
    ensures r.Some? ==> r.value * b as real == a as real
  {
    if b == 0 then None else Some(a as real / b as real)
  }

  /** `average_satisfaction` as the code computes it: 0 when there are no rows,
      otherwise the sum of the ratings over the number of rated rows, which is
      `0 / 0` when rows exist and none is rated. */
  function AverageSatisfactionAsWritten(rows: seq<StatsRow>): Option<real> {
    if |rows| > 0 then
      var rated := RatedRows(rows);
      JsDivide(SumRatings(rated), |rated|)
    else Some(0.0)
  }

  /** `average_satisfaction` with the guard on the rated rows: the mean rating of
      the rated rows, and 0 when there is none. */
  function AverageSatisfaction(rows: seq<StatsRow>): (r: real)
    ensures RatedRows(rows) == [] ==> r == 0.0
    ensures RatedRows(rows) != [] ==> r * |RatedRows(rows)| as real == SumRatings(RatedRows(rows)) as real
  {
    var rated := RatedRows(rows);
    if |rated| == 0 then 0.0 else SumRatings(rated) as real / |rated| as real
  }

  /** A single unrated row makes the code divide 0 by 0. */
  lemma UnratedRowGivesNaN()
    ensures AverageSatisfactionAsWritten([StatsRow(None, None, None)]) == None
  {
    assert RatedRows([StatsRow(None, None, None)]) == [];
  }

  /** The code fails exactly when rows exist and none is rated; everywhere else
      it agrees with the guarded average. */
  lemma AsWrittenAgrees(rows: seq<StatsRow>)
    ensures AverageSatisfactionAsWritten(rows).None? <==>
      |rows| > 0 && forall i :: 0 <= i < |rows| ==> !Rated(rows[i])
    ensures AverageSatisfactionAsWritten(rows).Some? ==>
      AverageSatisfactionAsWritten(rows).value == AverageSatisfaction(rows)
  {
    RatedRowsEmpty(rows);
  }

  /** Ratings of at least `lo` each sum to at least `lo` per row. */
  lemma {:induction false} SumRatingsAtLeast(rows: seq<StatsRow>, lo: int)
    requires forall i :: 0 <= i < |rows| ==> lo <= RatingOf(rows[i])
    ensures lo * |rows| <= SumRatings(rows)
  {
    if rows != [] {
      var n := |rows| - 1;
      var init := rows[..n];
      assert forall i :: 0 <= i < |init| ==> init[i] == rows[i];
      SumRatingsAtLeast(init, lo);
      assert lo * (n + 1) == lo * n + lo;
    }
  }

  /** Ratings of at most `hi` each sum to at most `hi` per row. */
  lemma {:induction false} SumRatingsAtMost(rows: seq<StatsRow>, hi: int)
    requires forall i :: 0 <= i < |rows| ==> RatingOf(rows[i]) <= hi
    ensures SumRatings(rows) <= hi * |rows|
  {
    if rows != [] {
      var n := |rows| - 1;
      var init := rows[..n];
      assert forall i :: 0 <= i < |init| ==> init[i] == rows[i];
      SumRatingsAtMost(init, hi);
      assert hi * (n + 1) == hi * n + hi;
    }
  }

  /** When every rating lies on the scale `lo..hi` and one exists, the average
      lies on the same scale. */
  lemma AverageOnScale(rows: seq<StatsRow>, lo: int, hi: int)
    requires forall i :: 0 <= i < |rows| && Rated(rows[i]) ==> lo <= RatingOf(rows[i]) <= hi
    requires exists i :: 0 <= i < |rows| && Rated(rows[i])
    ensures lo as real <= AverageSatisfaction(rows) <= hi as real
  {
    var rated := RatedRows(rows);
    RatedRowsEmpty(rows);
    RatedRowsBounded(rows, lo, hi);
    SumRatingsAtLeast(rated, lo);
    SumRatingsAtMost(rated, hi);
    QuotientBounds(SumRatings(rated), |rated|, lo, hi);
  }

  /** A sum between `lo` and `hi` times a positive count has its mean between
      `lo` and `hi`. */
  lemma QuotientBounds(sum: int, n: int, lo: int, hi: int)
    requires n > 0 && lo * n <= sum <= hi * n
    ensures lo as real <= sum as real / n as real <= hi as real
  {
    var q := sum as real / n as real;
    assert q * n as real == sum as real;
    assert (lo as real) * (n as real) <= q * (n as real);
    assert q * (n as real) <= (hi as real) * (n as real);
  }

  /** The rated rows keep the ratings of the rows they come from. */
  lemma {:induction false} RatedRowsBounded(rows: seq<StatsRow>, lo: int, hi: int)
    requires forall i :: 0 <= i < |rows| && Rated(rows[i]) ==> lo <= RatingOf(rows[i]) <= hi
    ensures forall i :: 0 <= i < |RatedRows(rows)| ==> lo <= RatingOf(RatedRows(rows)[i]) <= hi
  {
    if rows != [] {
      var init := rows[..|rows| - 1];
      assert forall i :: 0 <= i < |init| ==> rows[i] == init[i];
      RatedRowsBounded(init, lo, hi);
    }
  }

  /** The statistics object `getBookingMemberStats` returns. */
  datatype MemberStats = MemberStats(
    total_members: int,
    total_revenue: int,
    average_satisfaction: real,
    total_duration: int)

  /** The reduction over the member rows of one booking, with the guarded average. */
  function MemberStatsOf(rows: seq<StatsRow>): (st: MemberStats)
    ensures st.total_members == |rows|
    ensures rows == [] ==> st == MemberStats(0, 0, 0.0, 0)
    ensures (forall i :: 0 <= i < |rows| ==> !Rated(rows[i])) ==> st.average_satisfaction == 0.0
    ensures st.total_revenue == SumPrices(rows) && st.total_duration == SumDurations(rows)
    ensures st.average_satisfaction == AverageSatisfaction(rows)
  {
    RatedRowsEmpty(rows);
    MemberStats(|rows|, SumPrices(rows), AverageSatisfaction(rows), SumDurations(rows))
  }

  lemma {:induction false} SumPricesConcat(a: seq<StatsRow>, b: seq<StatsRow>)
    ensures SumPrices(a + b) == SumPrices(a) + SumPrices(b)
    decreases |b|
  {
    if b == [] {
      assert a + b == a;
    } else {
      SumPricesConcat(a, b[..|b| - 1]);
      assert (a + b)[..|a + b| - 1] == a + b[..|b| - 1];
    }
  }

  lemma {:induction false} SumDurationsConcat(a: seq<StatsRow>, b: seq<StatsRow>)
    ensures SumDurations(a + b) == SumDurations(a) + SumDurations(b)
    decreases |b|
  {
    if b == [] {
      assert a + b == a;
    } else {
      SumDurationsConcat(a, b[..|b| - 1]);
      assert (a + b)[..|a + b| - 1] == a + b[..|b| - 1];
    }
  }

  /** Revenue and duration add up over rows split in two parts. */
  lemma StatsSplit(a: seq<StatsRow>, b: seq<StatsRow>)
    ensures MemberStatsOf(a + b).total_revenue == MemberStatsOf(a).total_revenue + MemberStatsOf(b).total_revenue
    ensures MemberStatsOf(a + b).total_duration == MemberStatsOf(a).total_duration + MemberStatsOf(b).total_duration
  {
    SumPricesConcat(a, b);
    SumDurationsConcat(a, b);
  }

  /** The statistics rows of members created for one booking. */
  function CreatedRows(bookingId: int, ms: seq<MemberInput>): (rows: seq<StatsRow>)
    ensures |rows| == |ms|
    ensures forall i :: 0 <= i < |ms| ==>
      && rows[i].service_price == Some(OrDefault(ms[i].service_price, 0))
      && rows[i].member_satisfaction == NullIfFalsy(ms[i].member_satisfaction)
      && rows[i].service_duration == NullIfFalsy(ms[i].service_duration)
  {
    seq(|ms|, i requires 0 <= i < |ms| => StatsRowOf(NewMemberRecord(bookingId, ms[i])))
  }

  lemma {:induction false} CreatedRowsPrices(bookingId: int, ms: seq<MemberInput>)
    ensures SumPrices(CreatedRows(bookingId, ms)) == InputPrices(ms)
  {
    if ms != [] {
      var init := ms[..|ms| - 1];
      var rows := CreatedRows(bookingId, ms);
      CreatedRowsPrices(bookingId, init);
      assert rows[..|rows| - 1] == CreatedRows(bookingId, init);
    }
  }

  /** The rows of members created through `createBookingMember`: the revenue is
      the sum of the prices handed in, missing ones counting 0, and a member is
      rated exactly when a nonzero rating was handed in. */
  lemma CreatedMembersStats(bookingId: int, ms: seq<MemberInput>)
    ensures var rows := CreatedRows(bookingId, ms);
      && MemberStatsOf(rows).total_revenue == InputPrices(ms)
      && forall i :: 0 <= i < |ms| ==>
           (Rated(rows[i]) <==> ms[i].member_satisfaction.Some? && ms[i].member_satisfaction.value != 0)
  {
    CreatedRowsPrices(bookingId, ms);
  }

  /** The prices handed in, a missing one counting 0. */
  function InputPrices(ms: seq<MemberInput>): int {
    if ms == [] then 0 else InputPrices(ms[..|ms| - 1]) + OrDefault(ms[|ms| - 1].service_price, 0)
  }
}
