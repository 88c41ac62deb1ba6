/** The booking form (src/components/NewBooking.jsx): building the new booking
    record from the form and putting the form back to its initial state. */
module NewBooking {
  import opened Records

  datatype BookingForm = BookingForm(
    clientName: string,
    clientPhone: string,
    date: string,
    time: string,
    primaryService: NumberInput,
    estimatedPeople: NumberInput,
    notes: string)

  /** The form as the component first shows it. */
  const InitialForm: BookingForm := BookingForm("", "", "", "", Empty, Number(1), "")

  /** The booking `handleSubmit` hands on: the form's text fields copied, the two
      number fields converted, status upcoming, no members and an amount of 0. */
  function BuildBooking(f: BookingForm, id: int, createdAt: string): (b: Booking)
    requires f.primaryService.Number? && f.estimatedPeople.Number?
    ensures b.status == UPCOMING && b.members == [] && b.totalAmount == Some(0)
    ensures b.clientName == f.clientName && b.clientPhone == f.clientPhone
    ensures b.date == f.date && b.time == f.time && b.notes == f.notes
    ensures b.primaryService == f.primaryService.value && b.estimatedPeople == f.estimatedPeople.value
    ensures b.id == id && b.createdAt == createdAt
  {
    Booking(id, f.clientName, f.clientPhone, f.date, f.time, f.primaryService.value,
            f.estimatedPeople.value, f.notes, UPCOMING, createdAt, [], Some(0))
  }

  class Component {
    var formData: BookingForm

    constructor ()
      ensures formData == InitialForm
    {
      formData := InitialForm;
    }

    /** `handleSubmit`. The browser submits only when the required service and
        people inputs are filled in. `id` and `createdAt` stand for `Date.now()`
        and the current time. */
    method Submit(id: int, createdAt: string) returns (booking: Booking)
      requires formData.primaryService.Number? && formData.estimatedPeople.Number?
      modifies this
      ensures booking == BuildBooking(old(formData), id, createdAt)
      ensures formData == InitialForm
    {
      booking := BuildBooking(formData, id, createdAt);
      formData := InitialForm;
    }
  }
}
