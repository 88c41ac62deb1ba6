/** The records that the components of the booking app pass to each other,
    and the JavaScript defaulting rules they use. Ids are integers, money is an
    integer number of rupees, and status, filter and sort keys stay strings,
    as the components compare them as strings. */
module Records {

  datatype Option<T> = None | Some(value: T)

  /** The value of an HTML number or select input: empty, or the text of an integer.
      `!field` in a handler is true exactly for `Empty`. */
  datatype NumberInput = Empty | Number(value: int)

  /** One person served within a booking, as the history view reads it. */
  datatype Member = Member(name: string, serviceId: int, workerId: int, occasion: string, cost: Option<int>)

  datatype Booking = Booking(
    id: int,
    clientName: string,
    clientPhone: string,
    date: string,
    time: string,
    primaryService: int,
    estimatedPeople: int,
    notes: string,
    status: string,
    createdAt: string,
    members: seq<Member>,
    totalAmount: Option<int>)

  datatype Service = Service(id: int, name: string, clientPrice: int, description: string)

  datatype Worker = Worker(id: int, name: string, role: string, paymentRate: int, isOwner: bool)

  const UPCOMING: string := "upcoming"
  const COMPLETED: string := "completed"

  /** The instant `new Date(`${date}T${time}`)` in milliseconds. The parsing of
      the date and time text is not modelled: every caller passes it in. */
  type InstantOf = (string, string) -> int

  function Instant(at: InstantOf, b: Booking): int {
    at(b.date, b.time)
  }

  /** JavaScript's `x || d` on a number that may be missing: null, undefined and 0
      are all falsy and give `d`. */
  function OrDefault(x: Option<int>, d: int): int {
    match x
    case None => d
    case Some(n) => if n == 0 then d else n
  }

  /** `s || ''` on a text that may be missing. */
  function TextOrEmpty(s: Option<string>): string {
    match s
    case None => ""
    case Some(t) => t
  }

  /** `booking.totalAmount || 0` */
  function AmountOr0(b: Booking): int {
    OrDefault(b.totalAmount, 0)
  }

  /** `workers.find(w => w.id == id)`: the first worker with that id. */
  function FindWorker(ws: seq<Worker>, id: int): (r: Option<Worker>)
    ensures r.None? <==> forall i :: 0 <= i < |ws| ==> ws[i].id != id
    ensures r.Some? ==> exists i :: 0 <= i < |ws| && ws[i] == r.value && r.value.id == id
                                  && forall k :: 0 <= k < i ==> ws[k].id != id
  {
    if ws == [] then None
    else if ws[0].id == id then Some(ws[0])
    else
      var r := FindWorker(ws[1..], id);
      assert forall i :: 1 <= i < |ws| ==> ws[i] == ws[1..][i - 1];
      r
  }
}
