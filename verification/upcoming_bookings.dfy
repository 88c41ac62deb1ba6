/** The upcoming-bookings view (src/components/UpcomingBookings.jsx): the
    countdown shown beside each booking, the list ordered by date and time,
    the name of a booking's service, and the schedule card for today. */
module UpcomingBookings {
  import opened Records
  import opened Text
  import opened BookingOrder
  import ServicesManager
  import App

  const MS_PER_MINUTE: int := 60000
  const MS_PER_HOUR: int := 3600000
  const MS_PER_DAY: int := 86400000

  datatype TimeUnit = Day | Hour | Minute

  /** The countdown text: `Past due`, or `<count> <unit>[s] away`. */
  datatype Countdown = PastDue | Away(count: int, unit: TimeUnit)

  function UnitMs(u: TimeUnit): int {
    match u
    case Day => MS_PER_DAY
    case Hour => MS_PER_HOUR
    case Minute => MS_PER_MINUTE
  }

  /** The unit's name takes an `s` only for more than one. */
  predicate Plural(c: Countdown) {
    c.Away? && c.count > 1
  }

  /** Flooring whole hours into whole days is flooring the milliseconds into days. */
  lemma HoursToDays(ms: int)
    requires ms >= 0
    ensures (ms / MS_PER_HOUR) / 24 == ms / MS_PER_DAY
  {
    var h := ms / MS_PER_HOUR;
    var d := h / 24;
    assert ms == MS_PER_HOUR * h + ms % MS_PER_HOUR;
    assert h == 24 * d + h % 24;
    assert ms == MS_PER_DAY * d + (MS_PER_HOUR * (h % 24) + ms % MS_PER_HOUR);
    assert 0 <= MS_PER_HOUR * (h % 24) + ms % MS_PER_HOUR < MS_PER_DAY;
  }

  /** `getTimeUntilBooking` once the difference `diffMs` between the booking's
      instant and now is known: past due when negative, otherwise the whole
      number of the largest unit among days and hours that fits at least once,
      and whole minutes below an hour. */
  function TimeUntil(diffMs: int): (r: Countdown)
    ensures r.PastDue? <==> diffMs < 0
    ensures r.Away? ==> r.count * UnitMs(r.unit) <= diffMs < (r.count + 1) * UnitMs(r.unit)
    ensures r.Away? && r.unit == Day <==> diffMs >= MS_PER_DAY
    ensures r.Away? && r.unit == Hour <==> MS_PER_HOUR <= diffMs < MS_PER_DAY
    ensures r.Away? && r.unit == Minute <==> 0 <= diffMs < MS_PER_HOUR
    ensures r.Away? ==> r.count >= (if r.unit == Minute then 0 else 1)
    ensures r.Away? && r.unit == Hour ==> r.count <= 23
    ensures r.Away? && r.unit == Minute ==> r.count <= 59
  {
    if diffMs < 0 then PastDue
    else
      var diffHours := diffMs / MS_PER_HOUR;
      var diffDays := diffHours / 24;
      HoursToDays(diffMs);
      if diffDays > 0 then Away(diffDays, Day)
      else if diffHours > 0 then Away(diffHours, Hour)
      else Away(diffMs / MS_PER_MINUTE, Minute)
  }

  /** The countdown beside a booking at the instant `now`. */
  function CountdownOf(at: InstantOf, b: Booking, now: int): (c: Countdown)
    ensures c.PastDue? <==> Instant(at, b) < now
    ensures c.Away? ==> c.count * UnitMs(c.unit) <= Instant(at, b) - now < (c.count + 1) * UnitMs(c.unit)
    ensures c.Away? && c.unit == Day <==> Instant(at, b) - now >= MS_PER_DAY
    ensures c.Away? && c.unit == Hour <==> MS_PER_HOUR <= Instant(at, b) - now < MS_PER_DAY
    ensures c.Away? && c.unit == Minute <==> 0 <= Instant(at, b) - now < MS_PER_HOUR
  {
    TimeUntil(Instant(at, b) - now)
  }

  /** A booking shows `Past due` exactly when its instant has passed, which is
      when the next status sweep at that instant moves an upcoming booking to
      completed. */
  lemma PastDueIsSwept(at: InstantOf, b: Booking, now: int)
    ensures CountdownOf(at, b, now).PastDue? <==> Instant(at, b) < now
    ensures b.status == UPCOMING && CountdownOf(at, b, now).PastDue? ==> App.Promote(now, at, b).status == COMPLETED
    ensures b.status == UPCOMING && !CountdownOf(at, b, now).PastDue? ==> App.Promote(now, at, b) == b
  {
  }

  /** Larger units first. */
  function Rank(u: TimeUnit): int {
    match u
    case Day => 2
    case Hour => 1
    case Minute => 0
  }

  /** As the booking comes closer the countdown never grows: a smaller difference
      shows the same or a smaller unit, and of the same unit no more. */
  lemma CountdownShrinks(d1: int, d2: int)
    requires 0 <= d1 <= d2
    ensures TimeUntil(d1).Away? && TimeUntil(d2).Away?
    ensures Rank(TimeUntil(d1).unit) <= Rank(TimeUntil(d2).unit)
    ensures TimeUntil(d1).unit == TimeUntil(d2).unit ==> TimeUntil(d1).count <= TimeUntil(d2).count
  {
  }

  /** `sortedBookings`: the bookings ordered by their instant, earliest first. */
  function SortedBookings(bs: seq<Booking>, at: InstantOf): seq<Booking> {
    Sort(DateAsc(at), bs)
  }

  /** The list holds every booking exactly as often as before, earliest first. */
  lemma SortedBookingsSpec(bs: seq<Booking>, at: InstantOf)
    ensures multiset(SortedBookings(bs, at)) == multiset(bs)
    ensures forall i, j :: 0 <= i < j < |bs| ==>
      Instant(at, SortedBookings(bs, at)[i]) <= Instant(at, SortedBookings(bs, at)[j])
  {
    SortSpec(DateAsc(at), bs);
  }

  /** `getServiceName`: the name of the service with that id, or a placeholder. */
  function ServiceName(ss: seq<Service>, id: int): (name: string)
    ensures (forall i :: 0 <= i < |ss| ==> ss[i].id != id) ==> name == "Unknown Service"
    ensures forall i :: 0 <= i < |ss| && ss[i].id == id && (forall k :: 0 <= k < i ==> ss[k].id != id)
                        ==> name == ss[i].name
  {
    match ServicesManager.FindService(ss, id)
    case None => "Unknown Service"
    case Some(s) => s.name
  }

  /** The calendar day of a date text, `new Date(date).toDateString()`; the
      parsing is not modelled and every caller passes it in. */
  type DayOf = string -> string

  /** The bookings whose date falls on `today`, in their original order. */
  function OnDay(bs: seq<Booking>, dayOf: DayOf, today: string): (r: seq<Booking>)
    ensures |r| <= |bs|
    ensures forall i :: 0 <= i < |r| ==> dayOf(r[i].date) == today
  {
    if bs == [] then []
    else
      var last := bs[|bs| - 1];
      OnDay(bs[..|bs| - 1], dayOf, today) + (if dayOf(last.date) == today then [last] else [])
  }

  /** Every booking of the day is kept as often as it occurs, and no other. */
  lemma {:induction false} OnDayCounts(bs: seq<Booking>, dayOf: DayOf, today: string)
    ensures forall b: Booking ::
      multiset(OnDay(bs, dayOf, today))[b] == (if dayOf(b.date) == today then multiset(bs)[b] else 0)
  {
    if bs != [] {
      OnDayCounts(bs[..|bs| - 1], dayOf, today);
      assert bs == bs[..|bs| - 1] + [bs[|bs| - 1]];
    }
  }

  /** The card is shown when some booking falls on today. */
  predicate HasToday(bs: seq<Booking>, dayOf: DayOf, today: string) {
    exists i :: 0 <= i < |bs| && dayOf(bs[i].date) == today
  }

  /** The schedule card: today's bookings ordered by their time text. */
  function TodaySchedule(bs: seq<Booking>, dayOf: DayOf, today: string): seq<Booking> {
    Sort(TimeAsc, OnDay(bs, dayOf, today))
  }

  /** The schedule lists exactly today's bookings, each as often as it occurs,
      by time of day, and it is empty exactly when the card is hidden. */
  lemma TodayScheduleSpec(bs: seq<Booking>, dayOf: DayOf, today: string)
    ensures var r := TodaySchedule(bs, dayOf, today);
      && (forall i :: 0 <= i < |r| ==> dayOf(r[i].date) == today)
      && (forall b: Booking :: dayOf(b.date) == today ==> multiset(r)[b] == multiset(bs)[b])
      && (forall i, j :: 0 <= i < j < |r| ==> LexCompare(r[i].time, r[j].time) <= 0)
      && (r != [] <==> HasToday(bs, dayOf, today))
  {
    TodayOnly(bs, dayOf, today);
    TodayCounts(bs, dayOf, today);
    TodayByTime(bs, dayOf, today);
    TodayShown(bs, dayOf, today);
  }

  /** Every booking dated today is on the schedule as often as it occurs. */
  lemma TodayCounts(bs: seq<Booking>, dayOf: DayOf, today: string)
    ensures forall b: Booking :: dayOf(b.date) == today ==>
      multiset(TodaySchedule(bs, dayOf, today))[b] == multiset(bs)[b]
  {
    SortPermutes(TimeAsc, OnDay(bs, dayOf, today));
    OnDayCounts(bs, dayOf, today);
  }

  /** The schedule runs by time text. */
  lemma TodayByTime(bs: seq<Booking>, dayOf: DayOf, today: string)
    ensures forall i, j :: 0 <= i < j < |TodaySchedule(bs, dayOf, today)| ==>
      LexCompare(TodaySchedule(bs, dayOf, today)[i].time, TodaySchedule(bs, dayOf, today)[j].time) <= 0
  {
    var r := TodaySchedule(bs, dayOf, today);
    SortSorted(TimeAsc, OnDay(bs, dayOf, today));
    forall i, j | 0 <= i < j < |r| ensures LexCompare(r[i].time, r[j].time) <= 0 {
      assert InOrder(TimeAsc, r[i], r[j]);
    }
  }

  /** Only bookings dated today are on the schedule. */
  lemma TodayOnly(bs: seq<Booking>, dayOf: DayOf, today: string)
    ensures forall i :: 0 <= i < |TodaySchedule(bs, dayOf, today)| ==>
      dayOf(TodaySchedule(bs, dayOf, today)[i].date) == today
  {
    var s := OnDay(bs, dayOf, today);
    var r := TodaySchedule(bs, dayOf, today);
    SortPermutes(TimeAsc, s);
    forall i | 0 <= i < |r| ensures dayOf(r[i].date) == today {
      assert r[i] in multiset(s);
    }
  }

  /** The schedule has an entry exactly when some booking is dated today. */
  lemma TodayShown(bs: seq<Booking>, dayOf: DayOf, today: string)
    ensures TodaySchedule(bs, dayOf, today) != [] <==> HasToday(bs, dayOf, today)
  {
    var s := OnDay(bs, dayOf, today);
    var r := TodaySchedule(bs, dayOf, today);
    SortPermutes(TimeAsc, s);
    OnDayCounts(bs, dayOf, today);
    if HasToday(bs, dayOf, today) {
      var i :| 0 <= i < |bs| && dayOf(bs[i].date) == today;
      assert bs[i] in multiset(bs);
      assert multiset(r)[bs[i]] > 0;
    }
    if r != [] {
      assert r[0] in multiset(s);
      assert r[0] in multiset(bs);
      var k :| 0 <= k < |bs| && bs[k] == r[0];
    }
  }
}
