/** The profile's reschedule dialog (src/components/profile/RescheduleModal.js):
    a fixed list of six slots and a submit that checks only the date. */
module ProfileRescheduleModal {
  import opened Common
  import opened Appointments
  import AppointmentRescheduleModal

  const FixedSlots: seq<string> := ["09:00 AM", "10:00 AM", "11:00 AM", "02:00 PM", "03:00 PM", "04:00 PM"]

  /** The offered slots do not depend on the chosen date. */
  function AvailableSlots(date: string): (r: seq<string>)
    ensures IsSubsequence(r, AppointmentRescheduleModal.BaseSlots12)
    ensures |r| == 6 && forall i :: 0 <= i < |r| ==> OnTheHour(r[i])
  {
    FixedSlotsOnTheHour();
    FixedSlotsShape();
    FixedSlots
  }

  /** An "hh:00 AM" or "hh:00 PM" label. */
  predicate OnTheHour(slot: string)
  {
    |slot| == 8 && slot[3..5] == "00"
  }

  lemma FixedSlotsShape()
    ensures |FixedSlots| == 6 && forall i :: 0 <= i < |FixedSlots| ==> OnTheHour(FixedSlots[i])
  {
    forall i | 0 <= i < |FixedSlots| ensures OnTheHour(FixedSlots[i]) {
      var s := FixedSlots[i];
      assert s[3] == '0' && s[4] == '0';
      assert s[3..5] == [s[3], s[4]];
    }
  }

  /** Whatever two dates are chosen, the same slots are offered. */
  lemma SlotsIgnoreDate(d1: string, d2: string)
    ensures AvailableSlots(d1) == AvailableSlots(d2)
  {
  }

  /** The six fixed slots are the on-the-hour entries of the twelve-slot schedule. */
  lemma FixedSlotsOnTheHour()
    ensures IsSubsequence(FixedSlots, AppointmentRescheduleModal.BaseSlots12)
  {
    var b := AppointmentRescheduleModal.BaseSlots12;
    var f := FixedSlots;
    assert IsSubsequence(f[6..], b[11..]);
    assert IsSubsequence(f[5..], b[10..]) by { assert f[5..][1..] == f[6..] && b[10..][1..] == b[11..]; }
    assert IsSubsequence(f[5..], b[9..]) by { assert b[9..][1..] == b[10..]; }
    assert IsSubsequence(f[4..], b[8..]) by { assert f[4..][1..] == f[5..] && b[8..][1..] == b[9..]; }
    assert IsSubsequence(f[4..], b[7..]) by { assert b[7..][1..] == b[8..]; }
    assert IsSubsequence(f[3..], b[6..]) by { assert f[3..][1..] == f[4..] && b[6..][1..] == b[7..]; }
    assert IsSubsequence(f[3..], b[5..]) by { assert b[5..][1..] == b[6..]; }
    assert IsSubsequence(f[2..], b[4..]) by { assert f[2..][1..] == f[3..] && b[4..][1..] == b[5..]; }
    assert IsSubsequence(f[2..], b[3..]) by { assert b[3..][1..] == b[4..]; }
    assert IsSubsequence(f[1..], b[2..]) by { assert f[1..][1..] == f[2..] && b[2..][1..] == b[3..]; }
    assert IsSubsequence(f[1..], b[1..]) by { assert b[1..][1..] == b[2..]; }
    assert IsSubsequence(f[0..], b[0..]) by { assert f[0..][1..] == f[1..] && b[0..][1..] == b[1..]; }
    assert f[0..] == f && b[0..] == b;
  }

  /** The dialog's state for one appointment. */
  class RescheduleForm {
    const appointment: Appointment
    var date: string
    var timeSlot: string
    var loading: bool

    constructor (appointment: Appointment)
      ensures this.appointment == appointment && date == "" && timeSlot == "" && !loading
    {
      this.appointment := appointment;
      date := "";
      timeSlot := "";
      loading := false;
    }

    /** `handleDateChange`: the new date and an empty slot. */
    method DateChange(newDate: string)
      modifies this
      ensures date == newDate && timeSlot == "" && loading == old(loading)
    {
      date := newDate;
      timeSlot := "";
    }

    /** Choosing a slot from the offered list: only the slot changes. */
    method SelectSlot(slot: string)
      modifies this
      ensures timeSlot == slot && date == old(date) && loading == old(loading)
    {
      timeSlot := slot;
    }

    /** `handleSubmit`: only a date before today's midnight is refused; any
        slot, offered or not, goes through. `parse` reads the form's date as
        milliseconds, `None` for text that is no date. */
    method Submit(parse: string -> Option<int>, todayMidnight: int) returns (r: Result<Appointment>)
      modifies this
      ensures !loading && date == old(date) && timeSlot == old(timeSlot)
      ensures AppointmentRescheduleModal.IsPast(parse(date), todayMidnight) ==>
        r == Err(AppointmentRescheduleModal.PastDateMessage)
      ensures !AppointmentRescheduleModal.IsPast(parse(date), todayMidnight) ==>
        r == Ok(appointment.(date := date, time := timeSlot))
    {
      loading := true;
      if AppointmentRescheduleModal.IsPast(parse(date), todayMidnight) {
        r := Err(AppointmentRescheduleModal.PastDateMessage);
      } else {
        r := Ok(appointment.(date := date, time := timeSlot));
      }
      loading := false;
    }
  }
}
