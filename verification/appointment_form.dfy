/** The booking form of the services page
    (src/components/services/BookAppointment/AppointmentForm.js): a date, a
    slot chosen through the time-slot picker, and notes, submitted as one
    payload after a guard. */
module AppointmentForm {
  import opened Common
  import opened BookingContext

  const MissingFieldsMessage: string := "Please select both date and time slot"

  /** The submit guard, which is also the button's disabled condition. */
  predicate Incomplete(date: string, timeSlot: string)
  {
    date == "" || timeSlot == ""
  }

  /** The payload: the patient and doctor fields, then the form fields spread last. */
  function Payload(user: Person, doctor: Person, date: string, timeSlot: string, notes: string): (r: map<string, string>)
    ensures r.Keys == {"patientName", "patientId", "doctorId", "doctorName", "date", "timeSlot", "notes"}
    ensures r["patientName"] == user.name && r["patientId"] == user.id
    ensures r["doctorId"] == doctor.id && r["doctorName"] == doctor.name
    ensures r["date"] == date && r["timeSlot"] == timeSlot && r["notes"] == notes
  {
    Spread(map["patientName" := user.name, "patientId" := user.id, "doctorId" := doctor.id, "doctorName" := doctor.name],
           map["date" := date, "timeSlot" := timeSlot, "notes" := notes])
  }

  class FormState {
    const user: Person
    const doctor: Person
    var date: string
    var timeSlot: string
    var notes: string
    var loading: bool

    constructor (user: Person, doctor: Person)
      ensures this.user == user && this.doctor == doctor
      ensures date == "" && timeSlot == "" && notes == "" && !loading
    {
      this.user := user;
      this.doctor := doctor;
      date := "";
      timeSlot := "";
      notes := "";
      loading := false;
    }

    /** The date input followed by the effect on `formData.date`: a changed
        date clears a chosen slot. */
    method SetDate(newDate: string)
      modifies this
      ensures date == newDate && notes == old(notes) && loading == old(loading)
      ensures newDate != old(date) ==> timeSlot == ""
      ensures newDate == old(date) ==> timeSlot == old(timeSlot)
    {
      var previous := date;
      date := newDate;
      if date != previous && timeSlot != "" {
        timeSlot := "";
      }
    }

    /** The picker's `onSelectSlot`. */
    method SelectSlot(slot: string)
      modifies this
      ensures timeSlot == slot && date == old(date) && notes == old(notes) && loading == old(loading)
    {
      timeSlot := slot;
    }

    /** `handleSubmit`: the payload handed to `onSubmit`, or the guard's
        message when the date or slot is empty (and `onSubmit` is not called).
        Whether `onSubmit` then throws does not change the form. */
    method Submit() returns (r: Result<map<string, string>>)
      modifies this
      ensures Incomplete(old(date), old(timeSlot)) ==> r == Err(MissingFieldsMessage) && loading == old(loading)
      ensures !Incomplete(old(date), old(timeSlot)) ==> r == Ok(Payload(user, doctor, date, timeSlot, notes)) && !loading
      ensures date == old(date) && timeSlot == old(timeSlot) && notes == old(notes)
    {
      if date == "" || timeSlot == "" {
        r := Err(MissingFieldsMessage);
        return;
      }
      loading := true;
      r := Ok(Payload(user, doctor, date, timeSlot, notes));
      loading := false;
    }
  }
}
