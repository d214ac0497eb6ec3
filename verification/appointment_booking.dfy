/** The booking page (src/pages/AppointmentBooking.js): which screen is shown,
    the page's own copy of the twelve-slot schedule, and the submit guard. */
module AppointmentBooking {
  import opened Common
  import AppointmentRescheduleModal

  const LoginRedirectFrom: string := "/services/book-appointment"
  const MissingFieldsMessage: string := "Required Fields Missing"
  const AfterBooking: string := "/profile/appointments"

  /** What the page renders. */
  datatype Screen = RedirectToLogin(from: string) | NoDoctorSelected | BookingForm

  /** The route guards: authentication first, then the doctor from navigation state. */
  function Route(isAuthenticated: bool, hasDoctor: bool): (s: Screen)
    ensures !isAuthenticated <==> s == RedirectToLogin(LoginRedirectFrom)
    ensures s == NoDoctorSelected <==> isAuthenticated && !hasDoctor
    ensures s == BookingForm <==> isAuthenticated && hasDoctor
  {
    if !isAuthenticated then RedirectToLogin(LoginRedirectFrom)
    else if !hasDoctor then NoDoctorSelected
    else BookingForm
  }

  const PageSlots: seq<string> := [
    "09:00 AM", "09:30 AM", "10:00 AM", "10:30 AM", "11:00 AM", "11:30 AM",
    "02:00 PM", "02:30 PM", "03:00 PM", "03:30 PM", "04:00 PM", "04:30 PM"
  ]

  /** The page's `getAvailableSlots`, the same rule over its own copy of the list. */
  function GetAvailableSlots(isToday: bool, currentHour: int): seq<string>
  {
    if isToday then Filter(s => AppointmentRescheduleModal.LaterHour(s, currentHour), PageSlots) else PageSlots
  }

  /** For the same day and clock the page and the reschedule dialog offer the same list. */
  lemma SameSlotsAsReschedule(isToday: bool, currentHour: int)
    ensures GetAvailableSlots(isToday, currentHour) == AppointmentRescheduleModal.GetAvailableSlots(isToday, currentHour)
    ensures isToday ==> GetAvailableSlots(isToday, currentHour) == AppointmentRescheduleModal.HoursAfter(currentHour, 0)
  {
    assert PageSlots == AppointmentRescheduleModal.BaseSlots12;
    AppointmentRescheduleModal.AvailableSlotsSpec(isToday, currentHour);
  }

  /** The booking form's fields. */
  class BookingPage {
    var date: string
    var timeSlot: string
    var notes: string

    constructor ()
      ensures date == "" && timeSlot == "" && notes == ""
    {
      date := "";
      timeSlot := "";
      notes := "";
    }

    /** The date input: only the date changes; the chosen slot is kept. */
    method SetDate(newDate: string)
      modifies this
      ensures date == newDate && timeSlot == old(timeSlot) && notes == old(notes)
    {
      date := newDate;
    }

    /** The slot select's `onChange`: only the slot changes. */
    method SetTimeSlot(slot: string)
      modifies this
      ensures timeSlot == slot && date == old(date) && notes == old(notes)
    {
      timeSlot := slot;
    }

    /** `handleSubmit`: the page navigated to after booking, or the
        missing-fields error when the date or the slot is empty. */
    method Submit() returns (r: Result<string>)
      ensures date == "" || timeSlot == "" ==> r == Err(MissingFieldsMessage)
      ensures date != "" && timeSlot != "" ==> r == Ok(AfterBooking)
    {
      if date == "" || timeSlot == "" {
        r := Err(MissingFieldsMessage);
      } else {
        r := Ok(AfterBooking);
      }
    }
  }
}
