/** The booking draft (src/context/BookingContext.js): the selected doctor,
    date, time slot and booking type, checked in a fixed order before a booking
    record is built from them.

    A JavaScript booking object is a map from field name to text; spreading
    `bookingData` last is a map union in which the right-hand side wins. The
    booking id is the decimal text of the current time, which is a parameter. */
module BookingContext {
  import opened Common
  import AppointmentRescheduleModal
  import ProfileRescheduleModal

  /** The fields of the signed-in user and of a doctor that a booking uses. */
  datatype Person = Person(id: string, name: string)

  const LoginMessage: string := "Please log in to book an appointment"
  const DoctorMessage: string := "Please select a doctor"
  const DateMessage: string := "Please select a date"
  const SlotMessage: string := "Please select a time slot"
  const TypeMessage: string := "Please select booking type"

  /** A text selection is truthy when it is set and not empty. */
  predicate Chosen(s: Option<string>)
  {
    s.Some? && s.value != ""
  }

  /** `validateBookingData`: `None` when the draft is complete, otherwise the
      message of the first missing piece, in the order user, doctor, date,
      time slot, booking type. */
  function ValidateBookingData(user: Option<Person>, doctor: Option<Person>, date: Option<string>,
                               slot: Option<string>, kind: Option<string>): (r: Option<string>)
  {
    if user.None? then Some(LoginMessage)
    else if doctor.None? then Some(DoctorMessage)
    else if !Chosen(date) then Some(DateMessage)
    else if !Chosen(slot) then Some(SlotMessage)
    else if !Chosen(kind) then Some(TypeMessage)
    else None
  }

  /** The first message whose check failed, scanning the checks in order:
      none when every check passed, otherwise the message of a failed check
      that every earlier check passed. */
  function FirstFailure(passed: seq<bool>, messages: seq<string>): (r: Option<string>)
    requires |passed| == |messages|
    ensures r.None? <==> forall i :: 0 <= i < |passed| ==> passed[i]
    ensures r.Some? ==> exists i :: 0 <= i < |passed| && !passed[i] && r.value == messages[i]
                                    && forall k :: 0 <= k < i ==> passed[k]
  {
    if passed == [] then None
    else if !passed[0] then Some(messages[0])
    else FirstFailure(passed[1..], messages[1..])
  }

  /** The checks of the draft, in the order they are made. */
  function Checks(user: Option<Person>, doctor: Option<Person>, date: Option<string>,
                  slot: Option<string>, kind: Option<string>): seq<bool>
  {
    [user.Some?, doctor.Some?, Chosen(date), Chosen(slot), Chosen(kind)]
  }

  const Messages: seq<string> := [LoginMessage, DoctorMessage, DateMessage, SlotMessage, TypeMessage]

  /** Validation reports exactly the first failed check of the list. */
  lemma ValidationIsFirstFailure(user: Option<Person>, doctor: Option<Person>, date: Option<string>,
                                 slot: Option<string>, kind: Option<string>)
    ensures ValidateBookingData(user, doctor, date, slot, kind) == FirstFailure(Checks(user, doctor, date, slot, kind), Messages)
  {
    var c0, m0 := Checks(user, doctor, date, slot, kind), Messages;
    var c1, m1 := [doctor.Some?, Chosen(date), Chosen(slot), Chosen(kind)], [DoctorMessage, DateMessage, SlotMessage, TypeMessage];
    var c2, m2 := [Chosen(date), Chosen(slot), Chosen(kind)], [DateMessage, SlotMessage, TypeMessage];
    var c3, m3 := [Chosen(slot), Chosen(kind)], [SlotMessage, TypeMessage];
    var c4, m4 := [Chosen(kind)], [TypeMessage];
    assert c0[1..] == c1 && m0[1..] == m1 && c1[1..] == c2 && m1[1..] == m2;
    assert c2[1..] == c3 && m2[1..] == m3 && c3[1..] == c4 && m3[1..] == m4;
    assert FirstFailure(c0, m0) == if !c0[0] then Some(LoginMessage) else FirstFailure(c1, m1);
    assert FirstFailure(c1, m1) == if !c1[0] then Some(DoctorMessage) else FirstFailure(c2, m2);
    assert FirstFailure(c2, m2) == if !c2[0] then Some(DateMessage) else FirstFailure(c3, m3);
    assert FirstFailure(c3, m3) == if !c3[0] then Some(SlotMessage) else FirstFailure(c4, m4);
    assert FirstFailure(c4, m4) == if !c4[0] then Some(TypeMessage) else FirstFailure(c4[1..], m4[1..]);
  }

  /** The draft passes exactly when all five pieces are present. */
  lemma ValidationPassesIffComplete(user: Option<Person>, doctor: Option<Person>, date: Option<string>,
                                    slot: Option<string>, kind: Option<string>)
    ensures ValidateBookingData(user, doctor, date, slot, kind).None? <==>
      user.Some? && doctor.Some? && Chosen(date) && Chosen(slot) && Chosen(kind)
  {
    ValidationIsFirstFailure(user, doctor, date, slot, kind);
    var c := Checks(user, doctor, date, slot, kind);
    assert c[0] == user.Some? && c[1] == doctor.Some? && c[2] == Chosen(date) && c[3] == Chosen(slot) && c[4] == Chosen(kind);
  }

  /** The fields a booking computes before `bookingData` is spread over them:
      a fresh id from the clock, the doctor's and the patient's id and name,
      the draft's date, slot and type, and the status 'confirmed'. */
  function BaseBooking(now: nat, user: Person, doctor: Person, date: string, slot: string, kind: string): (r: map<string, string>)
    ensures r.Keys == {"id", "doctorId", "doctorName", "patientId", "patientName", "date", "timeSlot", "type", "status"}
    ensures r["id"] == DecimalText(now) && r["status"] == "confirmed"
    ensures r["doctorId"] == doctor.id && r["doctorName"] == doctor.name
    ensures r["patientId"] == user.id && r["patientName"] == user.name
    ensures r["date"] == date && r["timeSlot"] == slot && r["type"] == kind
  {
    map["id" := DecimalText(now), "doctorId" := doctor.id, "doctorName" := doctor.name,
        "patientId" := user.id, "patientName" := user.name, "date" := date,
        "timeSlot" := slot, "type" := kind, "status" := "confirmed"]
  }

  /** The booking holds the nine computed fields and every field of
      `bookingData`; a field of `bookingData` wins, and every computed field it
      does not override keeps the draft's value. */
  lemma BookingFields(now: nat, user: Person, doctor: Person, date: string, slot: string, kind: string, extra: map<string, string>)
    ensures var b := Spread(BaseBooking(now, user, doctor, date, slot, kind), extra);
      && b.Keys == {"id", "doctorId", "doctorName", "patientId", "patientName", "date", "timeSlot", "type", "status"} + extra.Keys
      && (forall k :: k in extra ==> b[k] == extra[k])
      && ("id" !in extra ==> b["id"] == DecimalText(now))
      && ("doctorId" !in extra ==> b["doctorId"] == doctor.id)
      && ("doctorName" !in extra ==> b["doctorName"] == doctor.name)
      && ("patientId" !in extra ==> b["patientId"] == user.id)
      && ("patientName" !in extra ==> b["patientName"] == user.name)
      && ("date" !in extra ==> b["date"] == date)
      && ("timeSlot" !in extra ==> b["timeSlot"] == slot)
      && ("type" !in extra ==> b["type"] == kind)
      && ("status" !in extra ==> b["status"] == "confirmed")
  {
  }

  /** The booking provider's state. */
  class BookingSession {
    var user: Option<Person>
    var selectedDoctor: Option<Person>
    var selectedDate: Option<string>
    var selectedTimeSlot: Option<string>
    var bookingType: Option<string>
    var loading: bool
    var error: Option<string>

    constructor (user: Option<Person>)
      ensures this.user == user && selectedDoctor == None && selectedDate == None
      ensures selectedTimeSlot == None && bookingType == None && !loading && error == None
    {
      this.user := user;
      selectedDoctor := None;
      selectedDate := None;
      selectedTimeSlot := None;
      bookingType := None;
      loading := false;
      error := None;
    }

    /** `clearBookingData`: every selection and the error become null. The new
        state does not depend on the old one, so clearing twice is clearing once. */
    method ClearBookingData()
      modifies this
      ensures selectedDoctor == None && selectedDate == None && selectedTimeSlot == None
      ensures bookingType == None && error == None
      ensures user == old(user) && loading == old(loading)
    {
      selectedDoctor := None;
      selectedDate := None;
      selectedTimeSlot := None;
      bookingType := None;
      error := None;
    }

    /** `createBooking(bookingData)` at time `now`: the booking when the draft is
        complete (and the draft is then cleared), otherwise the first
        validation message, which is also stored as the error. */
    method CreateBooking(extra: map<string, string>, now: nat) returns (r: Result<map<string, string>>)
      modifies this
      ensures !loading && user == old(user)
      ensures var v := ValidateBookingData(old(user), old(selectedDoctor), old(selectedDate), old(selectedTimeSlot), old(bookingType));
        && (v.None? ==> r == Ok(Spread(BaseBooking(now, old(user).value, old(selectedDoctor).value, old(selectedDate).value,
                                                   old(selectedTimeSlot).value, old(bookingType).value), extra)))
        && (v.None? ==> selectedDoctor == None && selectedDate == None && selectedTimeSlot == None && bookingType == None && error == None)
        && (v.Some? ==> r == Err(v.value) && error == v)
        && (v.Some? ==> selectedDoctor == old(selectedDoctor) && selectedDate == old(selectedDate)
                        && selectedTimeSlot == old(selectedTimeSlot) && bookingType == old(bookingType))
    {
      loading := true;
      error := None;
      var v := ValidateBookingData(user, selectedDoctor, selectedDate, selectedTimeSlot, bookingType);
      if v.Some? {
        error := v;
        r := Err(v.value);
      } else {
        var booking := Spread(BaseBooking(now, user.value, selectedDoctor.value, selectedDate.value,
                                          selectedTimeSlot.value, bookingType.value), extra);
        ClearBookingData();
        r := Ok(booking);
      }
      loading := false;
    }
  }

  /** `getAvailableTimeSlots`: the same six slots whatever the doctor and date. */
  const OfferedTimeSlots: seq<string> := ["09:00 AM", "10:00 AM", "11:00 AM", "02:00 PM", "03:00 PM", "04:00 PM"]

  /** Six distinct on-the-hour slots, in the order of the twelve-slot schedule:
      the very slots the profile's reschedule dialog offers. */
  function GetAvailableTimeSlots(doctorId: string, date: string): (r: seq<string>)
    ensures |r| == 6
    ensures forall i, j :: 0 <= i < j < |r| ==> r[i] != r[j]
    ensures forall i :: 0 <= i < |r| ==> ProfileRescheduleModal.OnTheHour(r[i])
    ensures IsSubsequence(r, AppointmentRescheduleModal.BaseSlots12)
    ensures r == ProfileRescheduleModal.AvailableSlots(date)
  {
    ProfileRescheduleModal.FixedSlotsShape();
    ProfileRescheduleModal.FixedSlotsOnTheHour();
    OfferedTimeSlots
  }

  /** The offered slots depend on neither the doctor nor the date. */
  lemma SlotsIgnoreDoctorAndDate(d1: string, t1: string, d2: string, t2: string)
    ensures GetAvailableTimeSlots(d1, t1) == GetAvailableTimeSlots(d2, t2)
  {
  }
}
