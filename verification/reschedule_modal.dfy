/** The reschedule dialog (src/components/appointments/AppointmentRescheduleModal.js):
    a twelve-slot "hh:mm AM/PM" schedule that drops past hours for today, and a
    submit that checks the date, then the slot, before handing back the
    rescheduled appointment.

    Whether the chosen date is today, the current hour, the chosen date in
    milliseconds (`None` for an invalid date) and today's midnight are
    parameters. */
module AppointmentRescheduleModal {
  import opened Common
  import opened Appointments

  const BaseSlots12: seq<string> := [
    "09:00 AM", "09:30 AM", "10:00 AM", "10:30 AM", "11:00 AM", "11:30 AM",
    "02:00 PM", "02:30 PM", "03:00 PM", "03:30 PM", "04:00 PM", "04:30 PM"
  ]

  const PastDateMessage: string := "Please select a future date"
  const SlotGoneMessage: string := "Selected time slot is no longer available"

  /** A parsed date lies before the start of today; a date that did not
      parse is never earlier than anything. */
  predicate IsPast(dateMs: Option<int>, todayMidnight: int)
  {
    dateMs.Some? && dateMs.value < todayMidnight
  }

  /** The hour a slot is compared by: `parseInt(hours)` plus 12 when the
      period is 'PM' and the hour text is not '12'. Minutes play no part;
      `None` is `NaN`. */
  function SlotHour(slot: string): Option<int>
  {
    var parts := Split(slot, ' ');
    var hours := Split(parts[0], ':')[0];
    var afternoon := |parts| > 1 && parts[1] == "PM" && hours != "12";
    match ParseInt(hours)
    case None => None
    case Some(h) => Some(if afternoon then h + 12 else h)
  }

  /** The today-filter: the slot's hour is after the current hour (false for `NaN`). */
  predicate LaterHour(slot: string, currentHour: int)
  {
    SlotHour(slot).Some? && SlotHour(slot).value > currentHour
  }

  /** `getAvailableSlots`. */
  function GetAvailableSlots(isToday: bool, currentHour: int): seq<string>
  {
    if isToday then Filter(s => LaterHour(s, currentHour), BaseSlots12) else BaseSlots12
  }

  /** The 24-hour hour base slot `i` stands for, written independently of the strings. */
  function BaseHour(i: nat): int
    requires i < 12
  {
    if i < 6 then 9 + i / 2 else 14 + (i - 6) / 2
  }

  /** "hh:mm AM" and "hh:mm PM" with an hour other than 12. */
  lemma TwelveHourParse(a: char, b: char, c: char, d: char, p: char)
    requires IsDigit(a) && IsDigit(b) && IsDigit(c) && IsDigit(d)
    requires p == 'A' || p == 'P'
    requires [a, b] != "12"
    ensures SlotHour([a, b, ':', c, d, ' ', p, 'M']) ==
      Some(10 * (a as int - '0' as int) + (b as int - '0' as int) + (if p == 'P' then 12 else 0))
  {
    var clock := [a, b, ':', c, d];
    assert [a, b, ':', c, d, ' ', p, 'M'] == clock + [' '] + [p, 'M'];
    SplitAtFirst(clock, [p, 'M'], ' ');
    SplitNoSeparator([p, 'M'], ' ');
    assert clock == [a, b] + [':'] + [c, d];
    SplitAtFirst([a, b], [c, d], ':');
    TwoDigitParseInt(a, b);
  }

  /** The characters of base slot `i`. */
  function BaseChars(i: nat): (r: (char, char, char, char, char))
    requires i < 12
    ensures IsDigit(r.0) && IsDigit(r.1) && IsDigit(r.2) && IsDigit(r.3)
    ensures (r.4 == 'A' || r.4 == 'P') && [r.0, r.1] != "12"
    ensures BaseSlots12[i] == [r.0, r.1, ':', r.2, r.3, ' ', r.4, 'M']
    ensures BaseHour(i) == 10 * (r.0 as int - '0' as int) + (r.1 as int - '0' as int) + (if r.4 == 'P' then 12 else 0)
  {
    if i == 0 then ('0', '9', '0', '0', 'A')
    else if i == 1 then ('0', '9', '3', '0', 'A')
    else if i == 2 then ('1', '0', '0', '0', 'A')
    else if i == 3 then ('1', '0', '3', '0', 'A')
    else if i == 4 then ('1', '1', '0', '0', 'A')
    else if i == 5 then ('1', '1', '3', '0', 'A')
    else if i == 6 then ('0', '2', '0', '0', 'P')
    else if i == 7 then ('0', '2', '3', '0', 'P')
    else if i == 8 then ('0', '3', '0', '0', 'P')
    else if i == 9 then ('0', '3', '3', '0', 'P')
    else if i == 10 then ('0', '4', '0', '0', 'P')
    else ('0', '4', '3', '0', 'P')
  }

  /** Base slot `i` is compared by the 24-hour hour it stands for. */
  lemma BaseSlotHour(i: nat)
    requires i < 12
    ensures SlotHour(BaseSlots12[i]) == Some(BaseHour(i))
  {
    var (a, b, c, d, p) := BaseChars(i);
    TwelveHourParse(a, b, c, d, p);
  }

  /** The base slots from index `i` on whose hour is after `currentHour`. */
  function HoursAfter(currentHour: int, i: nat): seq<string>
    requires i <= 12
    decreases 12 - i
  {
    if i == 12 then []
    else if BaseHour(i) > currentHour then [BaseSlots12[i]] + HoursAfter(currentHour, i + 1)
    else HoursAfter(currentHour, i + 1)
  }

  lemma {:induction false} TodayFromIndex(currentHour: int, i: nat)
    requires i <= 12
    ensures Filter(s => LaterHour(s, currentHour), BaseSlots12[i..]) == HoursAfter(currentHour, i)
    decreases 12 - i
  {
    if i < 12 {
      TodayFromIndex(currentHour, i + 1);
      BaseSlotHour(i);
      assert BaseSlots12[i..][1..] == BaseSlots12[i + 1..];
    }
  }

  /** For today the list is the base slots whose 24-hour hour is after the
      current hour, in base order; for any other day it is the whole list. */
  lemma AvailableSlotsSpec(isToday: bool, currentHour: int)
    ensures isToday ==> GetAvailableSlots(isToday, currentHour) == HoursAfter(currentHour, 0)
    ensures !isToday ==> GetAvailableSlots(isToday, currentHour) == BaseSlots12
  {
    TodayFromIndex(currentHour, 0);
    assert BaseSlots12[0..] == BaseSlots12;
  }

  /** For today, base slot `i` is offered exactly when its hour is after the current hour. */
  lemma TodaySlotMembership(currentHour: int, i: nat)
    requires i < 12
    ensures BaseSlots12[i] in GetAvailableSlots(true, currentHour) <==> BaseHour(i) > currentHour
  {
    FilterMembership(s => LaterHour(s, currentHour), BaseSlots12, BaseSlots12[i]);
    BaseSlotHour(i);
  }

  /** Minutes are ignored: at 10:05 the 10:30 slot is already gone, while 11:00 remains. */
  lemma MinutesIgnored()
    ensures "10:30 AM" !in GetAvailableSlots(true, 10)
    ensures "11:00 AM" in GetAvailableSlots(true, 10)
  {
    TodaySlotMembership(10, 3);
    TodaySlotMembership(10, 4);
  }

  /** The dialog's state for one appointment. */
  class RescheduleForm {
    const appointment: Appointment
    var date: string
    var timeSlot: string
    var loading: bool
    var availableSlots: seq<string>

    constructor (appointment: Appointment)
      ensures this.appointment == appointment
      ensures date == "" && timeSlot == "" && !loading && availableSlots == []
    {
      this.appointment := appointment;
      date := "";
      timeSlot := "";
      loading := false;
      availableSlots := [];
    }

    /** The effect on `formData.date`: a new non-empty date recomputes the list. */
    method DateEffect(previousDate: string, isToday: bool, currentHour: int)
      modifies this
      ensures date != previousDate && date != "" ==> availableSlots == GetAvailableSlots(isToday, currentHour)
      ensures !(date != previousDate && date != "") ==> availableSlots == old(availableSlots)
      ensures date == old(date) && timeSlot == old(timeSlot) && loading == old(loading)
    {
      if date != previousDate && date != "" {
        availableSlots := GetAvailableSlots(isToday, currentHour);
      }
    }

    /** Opening the dialog: the form takes the appointment's date (as the
        caller-formatted `isoDate`) and its time, then the date effect runs. */
    method Open(isoDate: string, isToday: bool, currentHour: int)
      modifies this
      ensures date == isoDate && timeSlot == appointment.time
      ensures isoDate != old(date) && isoDate != "" ==> availableSlots == GetAvailableSlots(isToday, currentHour)
      ensures loading == old(loading)
    {
      var previous := date;
      date := isoDate;
      timeSlot := appointment.time;
      DateEffect(previous, isToday, currentHour);
    }

    /** `handleDateChange`: the new date, an empty slot, then the date effect. */
    method DateChange(newDate: string, isToday: bool, currentHour: int)
      modifies this
      ensures date == newDate && timeSlot == "" && loading == old(loading)
      ensures newDate != old(date) && newDate != "" ==> availableSlots == GetAvailableSlots(isToday, currentHour)
      ensures !(newDate != old(date) && newDate != "") ==> availableSlots == old(availableSlots)
    {
      var previous := date;
      date := newDate;
      timeSlot := "";
      DateEffect(previous, isToday, currentHour);
    }

    /** `handleSubmit`: the appointment with the new date and time, or the
        message of the first failed check. `parse` reads the form's date as
        milliseconds (`None` for text that is no date, which never compares
        as earlier); `todayMidnight` is the start of the current day. */
    method Submit(parse: string -> Option<int>, todayMidnight: int) returns (r: Result<Appointment>)
      modifies this
      ensures !loading
      ensures date == old(date) && timeSlot == old(timeSlot) && availableSlots == old(availableSlots)
      ensures IsPast(parse(date), todayMidnight) ==> r == Err(PastDateMessage)
      ensures !IsPast(parse(date), todayMidnight) && timeSlot !in availableSlots ==> r == Err(SlotGoneMessage)
      ensures !IsPast(parse(date), todayMidnight) && timeSlot in availableSlots ==>
        r == Ok(appointment.(date := date, time := timeSlot))
    {
      loading := true;
      if IsPast(parse(date), todayMidnight) {
        r := Err(PastDateMessage);
      } else if timeSlot !in availableSlots {
        r := Err(SlotGoneMessage);
      } else {
        r := Ok(appointment.(date := date, time := timeSlot));
      }
      loading := false;
    }
  }
}
