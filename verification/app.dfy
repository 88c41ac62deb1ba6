/** The top-level component (src/App.jsx): the application state, the mapping of
    stored rows to app records when data is loaded, the status sweep that
    promotes past bookings, and the append of a newly created booking. */
module App {
  import opened Records
  import BookingHistory
  import NewBooking

  // ---------------------------------------------------------------------------
  // Stored rows and their mapping to app records

  datatype ServiceRow = ServiceRow(id: int, name: string, client_price: int, description: string)

  datatype WorkerRow = WorkerRow(id: int, name: string, role: string, payment_rate: int, is_owner: bool)

  datatype BookingRow = BookingRow(
    id: int,
    name: string,
    phone: string,
    date: string,
    time: string,
    service: string,
    estimated_people: Option<int>,
    notes: string,
    status: string,
    created_at: string,
    service_price: Option<int>)

  function ServiceFromRow(r: ServiceRow): Service {
    Service(r.id, r.name, r.client_price, r.description)
  }

  function WorkerFromRow(r: WorkerRow): Worker {
    Worker(r.id, r.name, r.role, r.payment_rate, r.is_owner)
  }

  /** `services.find(s => s.name === name)`: the first service with that name. */
  function FindServiceByName(ss: seq<Service>, name: string): (r: Option<Service>)
    ensures r.None? <==> forall i :: 0 <= i < |ss| ==> ss[i].name != name
    ensures r.Some? ==> exists i :: 0 <= i < |ss| && ss[i] == r.value && r.value.name == name
                                  && forall k :: 0 <= k < i ==> ss[k].name != name
  {
    if ss == [] then None
    else if ss[0].name == name then Some(ss[0])
    else
      var r := FindServiceByName(ss[1..], name);
      assert forall i :: 1 <= i < |ss| ==> ss[i] == ss[1..][i - 1];
      r
  }

  /** `loadedServices.find(s => s.name === row.service)?.id || 1` */
  function PrimaryServiceOf(ss: seq<Service>, name: string): (id: int)
    ensures id != 0
    ensures (forall i :: 0 <= i < |ss| ==> ss[i].name != name) ==> id == 1
    ensures forall i :: 0 <= i < |ss| && ss[i].name == name && (forall k :: 0 <= k < i ==> ss[k].name != name)
                        ==> id == if ss[i].id != 0 then ss[i].id else 1
  {
    match FindServiceByName(ss, name)
    case None => OrDefault(None, 1)
    case Some(s) => OrDefault(Some(s.id), 1)
  }

  /** One stored booking row as an app booking. */
  function BookingFromRow(ss: seq<Service>, r: BookingRow): (b: Booking)
    ensures b.members == []
    ensures b.estimatedPeople == (if r.estimated_people.Some? && r.estimated_people.value != 0
                                  then r.estimated_people.value else 1)
    ensures b.totalAmount.Some? && b.totalAmount.value == (if r.service_price.Some? then r.service_price.value else 0)
    ensures (forall i :: 0 <= i < |ss| ==> ss[i].name != r.service) ==> b.primaryService == 1
    ensures forall i :: 0 <= i < |ss| && ss[i].name == r.service
                        && (forall k :: 0 <= k < i ==> ss[k].name != r.service)
                        ==> b.primaryService == if ss[i].id != 0 then ss[i].id else 1
    ensures b.id == r.id && b.clientName == r.name && b.clientPhone == r.phone && b.date == r.date
         && b.time == r.time && b.notes == r.notes && b.status == r.status && b.createdAt == r.created_at
  {
    Booking(r.id, r.name, r.phone, r.date, r.time, PrimaryServiceOf(ss, r.service),
            OrDefault(r.estimated_people, 1), r.notes, r.status, r.created_at, [],
            Some(OrDefault(r.service_price, 0)))
  }

  /** `servicesData.map(...)`: each row with its price column renamed. */
  function ServicesFromRows(rows: seq<ServiceRow>): (r: seq<Service>)
    ensures |r| == |rows|
    ensures forall i :: 0 <= i < |rows| ==>
      r[i].id == rows[i].id && r[i].name == rows[i].name && r[i].clientPrice == rows[i].client_price
      && r[i].description == rows[i].description
  {
    seq(|rows|, i requires 0 <= i < |rows| => ServiceFromRow(rows[i]))
  }

  /** `workersData.map(...)`: each row with its rate and owner columns renamed. */
  function WorkersFromRows(rows: seq<WorkerRow>): (r: seq<Worker>)
    ensures |r| == |rows|
    ensures forall i :: 0 <= i < |rows| ==>
      r[i].id == rows[i].id && r[i].name == rows[i].name && r[i].role == rows[i].role
      && r[i].paymentRate == rows[i].payment_rate && r[i].isOwner == rows[i].is_owner
  {
    seq(|rows|, i requires 0 <= i < |rows| => WorkerFromRow(rows[i]))
  }

  /** `bookingsData.map(...)`: each row mapped on its own, against the same services. */
  function BookingsFromRows(ss: seq<Service>, rows: seq<BookingRow>): (r: seq<Booking>)
    ensures |r| == |rows|
    ensures forall i :: 0 <= i < |rows| ==> r[i] == BookingFromRow(ss, rows[i])
  {
    seq(|rows|, i requires 0 <= i < |rows| => BookingFromRow(ss, rows[i]))
  }

  /** Looking a worker up in the loaded team finds the first row with that id:
      its rate and owner flag are what the payouts use. */
  lemma {:induction false} LoadedWorkerLookup(rows: seq<WorkerRow>, id: int)
    ensures (forall i :: 0 <= i < |rows| ==> rows[i].id != id) ==> FindWorker(WorkersFromRows(rows), id) == None
    ensures forall i :: 0 <= i < |rows| && rows[i].id == id && (forall k :: 0 <= k < i ==> rows[k].id != id)
                        ==> FindWorker(WorkersFromRows(rows), id) == Some(WorkerFromRow(rows[i]))
  {
    var ws := WorkersFromRows(rows);
    forall i | 0 <= i < |rows| && rows[i].id == id && (forall k :: 0 <= k < i ==> rows[k].id != id)
      ensures FindWorker(ws, id) == Some(WorkerFromRow(rows[i]))
    {
      var j :| 0 <= j < |ws| && ws[j] == FindWorker(ws, id).value && ws[j].id == id
               && forall k :: 0 <= k < j ==> ws[k].id != id;
      assert j == i;
      assert ws[i] == WorkerFromRow(rows[i]);
    }
  }

  /** Freshly loaded bookings carry no members, so their payout is 0 and their
      profit in the detail view is their whole amount. */
  lemma LoadedBookingsHaveNoPayout(ss: seq<Service>, rows: seq<BookingRow>, ws: seq<Worker>)
    ensures forall b :: b in BookingsFromRows(ss, rows) ==>
      BookingHistory.BookingPayout(b, ws) == 0 && BookingHistory.BookingProfit(b, ws) == AmountOr0(b)
  {
    forall b | b in BookingsFromRows(ss, rows)
      ensures BookingHistory.BookingPayout(b, ws) == 0 && BookingHistory.BookingProfit(b, ws) == AmountOr0(b)
    {
      var i :| 0 <= i < |rows| && BookingsFromRows(ss, rows)[i] == b;
      assert b.members == [];
    }
  }

  // ---------------------------------------------------------------------------
  // The status sweep

  /** One booking as the sweep leaves it: an upcoming booking whose instant is
      strictly before `now` becomes completed; any other booking is returned as is. */
  function Promote(now: int, at: InstantOf, b: Booking): (r: Booking)
    ensures r == b || (b.status == UPCOMING && r == b.(status := COMPLETED))
    ensures r.status == COMPLETED <==> b.status == COMPLETED || (b.status == UPCOMING && Instant(at, b) < now)
  {
    if b.status == UPCOMING && Instant(at, b) < now then b.(status := COMPLETED) else b
  }

  /** `updateStatuses`: the sweep over all bookings at the instant `now`. */
  function Sweep(now: int, at: InstantOf, bs: seq<Booking>): (r: seq<Booking>)
    ensures |r| == |bs|
    ensures forall i :: 0 <= i < |bs| ==>
      r[i] == if bs[i].status == UPCOMING && Instant(at, bs[i]) < now then bs[i].(status := COMPLETED) else bs[i]
  {
    seq(|bs|, i requires 0 <= i < |bs| => Promote(now, at, bs[i]))
  }

  /** A booking changes only from upcoming to completed, only when its instant has
      passed, and keeps every other field; a completed booking never goes back. */
  lemma SweepOnlyPromotes(now: int, at: InstantOf, bs: seq<Booking>, i: int)
    requires 0 <= i < |bs|
    ensures var r := Sweep(now, at, bs)[i];
      && (r != bs[i] ==> bs[i].status == UPCOMING && Instant(at, bs[i]) < now && r.status == COMPLETED)
      && r.(status := bs[i].status) == bs[i]
      && (bs[i].status == COMPLETED ==> r.status == COMPLETED)
      && (bs[i].status != UPCOMING ==> r == bs[i])
  {
  }

  /** Sweeping twice at the same instant is sweeping once. */
  lemma SweepIdempotent(now: int, at: InstantOf, bs: seq<Booking>)
    ensures Sweep(now, at, Sweep(now, at, bs)) == Sweep(now, at, bs)
  {
  }

  /** A missed sweep is caught up: a sweep at a later instant gives the same
      list whether or not an earlier sweep ran. */
  lemma SweepCatchesUp(t1: int, t2: int, at: InstantOf, bs: seq<Booking>)
    requires t1 <= t2
    ensures Sweep(t2, at, Sweep(t1, at, bs)) == Sweep(t2, at, bs)
  {
  }

  /** The sweep only moves bookings from upcoming to completed: the completed count
      never falls, and completed plus upcoming stays the same. */
  lemma {:induction false} SweepKeepsCounts(now: int, at: InstantOf, bs: seq<Booking>)
    ensures var c := |BookingHistory.WithStatus(bs, COMPLETED)|;
            var u := |BookingHistory.WithStatus(bs, UPCOMING)|;
            var c' := |BookingHistory.WithStatus(Sweep(now, at, bs), COMPLETED)|;
            var u' := |BookingHistory.WithStatus(Sweep(now, at, bs), UPCOMING)|;
            c' >= c && c' + u' == c + u
  {
    if bs != [] {
      var init := bs[..|bs| - 1];
      var r := Sweep(now, at, bs);
      SweepKeepsCounts(now, at, init);
      assert r[..|r| - 1] == Sweep(now, at, init);
      var b := bs[|bs| - 1];
      var b' := r[|r| - 1];
      assert b' == Promote(now, at, b);
      CountStep(bs, COMPLETED);
      CountStep(bs, UPCOMING);
      CountStep(r, COMPLETED);
      CountStep(r, UPCOMING);
    }
  }

  /** The last booking of a list counts once for its own status. */
  lemma CountStep(bs: seq<Booking>, status: string)
    requires bs != []
    ensures |BookingHistory.WithStatus(bs, status)| ==
      |BookingHistory.WithStatus(bs[..|bs| - 1], status)| + (if bs[|bs| - 1].status == status then 1 else 0)
  {
  }

  /** Appending a newly created booking counts it once more as upcoming and
      changes neither the revenue nor the worker payments. */
  lemma CreatedBookingLeavesFinances(bs: seq<Booking>, ws: seq<Worker>, f: NewBooking.BookingForm, id: int, createdAt: string)
    requires f.primaryService.Number? && f.estimatedPeople.Number?
    ensures var b := NewBooking.BuildBooking(f, id, createdAt);
            var st := BookingHistory.ComputeStats(bs, ws);
            var st' := BookingHistory.ComputeStats(bs + [b], ws);
            && st'.totalBookings == st.totalBookings + 1
            && st'.upcomingCount == st.upcomingCount + 1
            && st'.completedCount == st.completedCount
            && st'.totalRevenue == st.totalRevenue
            && st'.totalWorkerPayments == st.totalWorkerPayments
  {
    var b := NewBooking.BuildBooking(f, id, createdAt);
    BookingHistory.StatsConcat(bs, [b], ws);
    assert BookingHistory.WithStatus([b], COMPLETED) == [];
    assert BookingHistory.WithStatus([b], UPCOMING) == [b];
  }

  // ---------------------------------------------------------------------------
  // The application state

  /** The services the app starts with (src/App.jsx lines 17-23). */
  function DefaultServices(): seq<Service> {
    [ Service(1, "Bridal Makeup", 3500, "Complete bridal transformation with HD makeup \U{2728}"),
      Service(2, "Non-Bridal Makeup", 2000, "Beautiful makeup for parties and events \U{1F484}"),
      Service(3, "Pre-Wedding Makeup", 2800, "Perfect look for engagement and pre-wedding shoots \U{1F4F8}"),
      Service(4, "Simple Makeup", 1800, "Elegant everyday makeup for any occasion \U{2728}"),
      Service(5, "Saree Draping", 1200, "Traditional saree draping with styling \U{1F97B}") ]
  }

  /** The workers the app starts with: the owner and one paid assistant. */
  function DefaultWorkers(): seq<Worker> {
    [ Worker(1, "Ruchika Bhansali", "Certified Makeup Artist", 0, true),
      Worker(2, "Assistant", "Makeup Assistant", 800, false) ]
  }

  class AppState {
    var bookings: seq<Booking>
    var services: seq<Service>
    var workers: seq<Worker>
    var isLoading: bool

    constructor ()
      ensures bookings == [] && services == DefaultServices() && workers == DefaultWorkers()
      ensures isLoading
    {
      bookings := [];
      services := DefaultServices();
      workers := DefaultWorkers();
      isLoading := true;
    }

    /** `loadData`: each query result is `Some(rows)` when it succeeded. Services are
        loaded first so that the bookings can look their primary service up by name. */
    method LoadData(servicesResult: Option<seq<ServiceRow>>, workersResult: Option<seq<WorkerRow>>,
                    bookingsResult: Option<seq<BookingRow>>)
      modifies this
      ensures services == if servicesResult.Some? then ServicesFromRows(servicesResult.value) else old(services)
      ensures workers == if workersResult.Some? then WorkersFromRows(workersResult.value) else old(workers)
      ensures bookings == if bookingsResult.Some? then BookingsFromRows(services, bookingsResult.value) else old(bookings)
      ensures !isLoading
    {
      isLoading := true;
      var loadedServices := services;
      if servicesResult.Some? {
        var formattedServices := ServicesFromRows(servicesResult.value);
        services := formattedServices;
        loadedServices := formattedServices;
      }
      if workersResult.Some? {
        workers := WorkersFromRows(workersResult.value);
      }
      if bookingsResult.Some? {
        bookings := BookingsFromRows(loadedServices, bookingsResult.value);
      }
      isLoading := false;
    }

    /** One run of `updateStatuses` at the instant `now`. */
    method UpdateStatuses(now: int, at: InstantOf)
      modifies this`bookings
      ensures bookings == Sweep(now, at, old(bookings))
    {
      bookings := Sweep(now, at, bookings);
    }

    /** `onBookingCreate`: the new booking goes at the end. */
    method CreateBooking(b: Booking)
      modifies this`bookings
      ensures bookings == old(bookings) + [b]
    {
      bookings := bookings + [b];
    }
  }
}
