/** The appointment lists (src/components/appointments/AppointmentsList.js and
    src/components/profile/ProfileAppointmentsList.js, which share their list
    logic): cancel by id, reschedule by id, and the upcoming/past filter.

    `new Date(text)` is a caller-supplied `parse` giving milliseconds, `None`
    for an invalid date; a comparison with an invalid date is false. */
module Appointments {
  import opened Common

  datatype Appointment = Appointment(id: int, doctorName: string, date: string, time: string, kind: string)

  /** `new Date(a.date) > now`. */
  predicate IsUpcoming(a: Appointment, parse: string -> Option<int>, now: int)
  {
    parse(a.date).Some? && parse(a.date).value > now
  }

  /** `appointments.filter(app => app.id !== id)`. */
  function CancelById(apps: seq<Appointment>, id: int): (r: seq<Appointment>)
  {
    Filter((a: Appointment) => a.id != id, apps)
  }

  /** `prev.map(app => app.id === updated.id ? updated : app)`. */
  function ReplaceById(apps: seq<Appointment>, updated: Appointment): (r: seq<Appointment>)
    ensures |r| == |apps|
    ensures forall i :: 0 <= i < |apps| ==> r[i] == (if apps[i].id == updated.id then updated else apps[i])
  {
    seq(|apps|, i requires 0 <= i < |apps| => if apps[i].id == updated.id then updated else apps[i])
  }

  /** Whether the list filter keeps `a`: 'upcoming', 'past', anything else keeps all. */
  predicate Keeps(filter: string, parse: string -> Option<int>, now: int, a: Appointment)
  {
    if filter == "upcoming" then IsUpcoming(a, parse, now)
    else if filter == "past" then !IsUpcoming(a, parse, now)
    else true
  }

  function KeepFn(filter: string, parse: string -> Option<int>, now: int): Appointment -> bool
  {
    a => Keeps(filter, parse, now, a)
  }

  /** `filteredAppointments`. */
  function FilterAppointments(apps: seq<Appointment>, filter: string, parse: string -> Option<int>, now: int): (r: seq<Appointment>)
  {
    Filter(KeepFn(filter, parse, now), apps)
  }

  /** Cancelling drops every appointment with that id and keeps the rest in order. */
  lemma CancelSpec(apps: seq<Appointment>, id: int, a: Appointment)
    ensures forall x :: x in CancelById(apps, id) ==> x.id != id
    ensures a.id != id ==> (a in CancelById(apps, id) <==> a in apps)
    ensures IsSubsequence(CancelById(apps, id), apps)
  {
    FilterMembership((x: Appointment) => x.id != id, apps, a);
    FilterIsSubsequence((x: Appointment) => x.id != id, apps);
  }

  /** Cancelling an id nobody has changes nothing. */
  lemma CancelUnknownId(apps: seq<Appointment>, id: int)
    requires forall i :: 0 <= i < |apps| ==> apps[i].id != id
    ensures CancelById(apps, id) == apps
  {
    FilterAllKept((x: Appointment) => x.id != id, apps);
  }

  /** Rescheduling an id nobody has changes nothing. */
  lemma ReplaceUnknownId(apps: seq<Appointment>, updated: Appointment)
    requires forall i :: 0 <= i < |apps| ==> apps[i].id != updated.id
    ensures ReplaceById(apps, updated) == apps
  {
  }

  /** With distinct ids, rescheduling puts the update in place of the one
      matching entry and the list still holds every other appointment. */
  lemma ReplaceSpec(apps: seq<Appointment>, updated: Appointment, k: nat)
    requires k < |apps| && apps[k].id == updated.id
    requires forall i, j :: 0 <= i < j < |apps| ==> apps[i].id != apps[j].id
    ensures ReplaceById(apps, updated) == apps[k := updated]
  {
  }

  /** The upcoming and past lists split the whole list between them, and 'all'
      keeps everything. */
  lemma UpcomingPastPartition(apps: seq<Appointment>, parse: string -> Option<int>, now: int)
    ensures multiset(FilterAppointments(apps, "upcoming", parse, now)) + multiset(FilterAppointments(apps, "past", parse, now)) == multiset(apps)
    ensures |FilterAppointments(apps, "upcoming", parse, now)| + |FilterAppointments(apps, "past", parse, now)| == |apps|
    ensures FilterAppointments(apps, "all", parse, now) == apps
  {
    FilterPartition(KeepFn("upcoming", parse, now), KeepFn("past", parse, now), apps);
    FilterAllKept(KeepFn("all", parse, now), apps);
  }

  /** Each filter keeps its appointments in list order and adds nothing. */
  lemma FilterIsOrderedSelection(apps: seq<Appointment>, filter: string, parse: string -> Option<int>, now: int, a: Appointment)
    ensures IsSubsequence(FilterAppointments(apps, filter, parse, now), apps)
    ensures filter == "upcoming" ==> (a in FilterAppointments(apps, filter, parse, now) <==> a in apps && IsUpcoming(a, parse, now))
    ensures filter == "past" ==> (a in FilterAppointments(apps, filter, parse, now) <==> a in apps && !IsUpcoming(a, parse, now))
  {
    FilterIsSubsequence(KeepFn(filter, parse, now), apps);
    FilterMembership(KeepFn(filter, parse, now), apps, a);
  }

  /** The list state of either appointments page. */
  class AppointmentList {
    var appointments: seq<Appointment>
    var filter: string

    constructor (apps: seq<Appointment>)
      ensures appointments == apps && filter == "all"
    {
      appointments := apps;
      filter := "all";
    }

    /** `handleCancelAppointment`. */
    method Cancel(id: int)
      modifies this
      ensures appointments == CancelById(old(appointments), id) && filter == old(filter)
    {
      appointments := CancelById(appointments, id);
    }

    /** `handleRescheduleAppointment`. */
    method Reschedule(updated: Appointment)
      modifies this
      ensures appointments == ReplaceById(old(appointments), updated) && filter == old(filter)
    {
      appointments := ReplaceById(appointments, updated);
    }

    /** The card's cancel in src/components/appointments/AppointmentsList.js
        passes the card's own id. */
    method CardCancel(card: Appointment)
      modifies this
      ensures appointments == CancelById(old(appointments), card.id)
      ensures card !in appointments
    {
      Cancel(card.id);
      CancelSpec(old(appointments), card.id, card);
    }

    /** The card's Cancel button in src/components/profile/ProfileAppointmentsList.js
        only closes the dialog: no cancel is issued. */
    method ProfileCardCancel(card: Appointment)
      ensures appointments == old(appointments)
    {
    }

    /** `filteredAppointments` at time `now`. */
    function Visible(parse: string -> Option<int>, now: int): (r: seq<Appointment>)
      reads this
      ensures IsSubsequence(r, appointments)
    {
      FilterIsOrderedSelection(appointments, filter, parse, now, Appointment(0, "", "", "", ""));
      FilterAppointments(appointments, filter, parse, now)
    }
  }
}
