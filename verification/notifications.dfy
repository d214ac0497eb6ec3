/** The notification store (src/context/NotificationContext.js): newest first,
    removal and read marks by id, the unread count, and the toast rule.

    A stored notification is a JavaScript object built by spreading the
    caller's `options` over computed fields, so it is modelled as a map from
    field name to value in which `options` wins. The current time
    (`Date.now()`) and its ISO text are parameters, and so is the locale text
    of an appointment's date. */
module Notifications {
  import opened Common

  /** A JavaScript value stored in a notification field. */
  datatype Field = Undefined | Str(s: string) | Bool(b: bool) | Num(n: int)

  type Record = map<string, Field>

  predicate Truthy(v: Field)
  {
    match v
    case Undefined => false
    case Str(s) => s != ""
    case Bool(b) => b
    case Num(n) => n != 0
  }

  /** `record[key]`: `undefined` when the key is absent. */
  function Get(r: Record, key: string): Field
  {
    if key in r then r[key] else Undefined
  }

  /** A destructuring default `{ key = fallback } = options`: the fallback
      applies when the option is absent or `undefined`. */
  function OptionOr(options: Record, key: string, fallback: Field): (v: Field)
    ensures Get(options, key) != Undefined ==> v == options[key]
    ensures Get(options, key) == Undefined ==> v == fallback
  {
    if Get(options, key) != Undefined then options[key] else fallback
  }

  /** The record `addNotification` stores. */
  function NewRecord(id: string, kind: string, message: string, timestamp: string, options: Record): (r: Record)
    ensures r.Keys == {"id", "type", "message", "timestamp", "isRead", "priority"} + options.Keys
    ensures forall k :: k in options ==> r[k] == options[k]
    ensures Get(r, "isRead") == (if "isRead" in options then options["isRead"] else Bool(false))
    ensures Get(r, "id") == (if "id" in options then options["id"] else Str(id))
    ensures Get(r, "priority") == (if "priority" in options then options["priority"] else Str("low"))
  {
    map["id" := Str(id), "type" := Str(kind), "message" := Str(message), "timestamp" := Str(timestamp),
        "isRead" := Bool(false), "priority" := OptionOr(options, "priority", Str("low"))] + options
  }

  /** Whether `addNotification` shows a toast: `isToast` (default true) or a
      'high' priority (default 'low'). */
  predicate ShowsToast(options: Record)
  {
    Truthy(OptionOr(options, "isToast", Bool(true))) || OptionOr(options, "priority", Str("low")) == Str("high")
  }

  predicate Unread(r: Record)
  {
    !Truthy(Get(r, "isRead"))
  }

  /** `{ ...n, isRead: true }`. */
  function MarkedRead(r: Record): (m: Record)
    ensures !Unread(m)
    ensures forall k :: k in r && k != "isRead" ==> k in m && m[k] == r[k]
  {
    r["isRead" := Bool(true)]
  }

  function UnreadFn(): Record -> bool
  {
    r => Unread(r)
  }

  function OtherIdFn(id: Field): Record -> bool
  {
    r => Get(r, "id") != id
  }

  /** `prev.map(n => n.id === id ? { ...n, isRead: true } : n)`. */
  function MarkById(list: seq<Record>, id: Field): (r: seq<Record>)
    ensures |r| == |list|
    ensures forall i :: 0 <= i < |list| ==> r[i] == (if Get(list[i], "id") == id then MarkedRead(list[i]) else list[i])
  {
    seq(|list|, i requires 0 <= i < |list| => if Get(list[i], "id") == id then MarkedRead(list[i]) else list[i])
  }

  /** `prev.map(n => ({ ...n, isRead: true }))`. */
  function MarkAll(list: seq<Record>): (r: seq<Record>)
    ensures |r| == |list|
    ensures forall i :: 0 <= i < |list| ==> r[i] == MarkedRead(list[i])
  {
    seq(|list|, i requires 0 <= i < |list| => MarkedRead(list[i]))
  }

  /** After marking all as read nothing is unread. */
  lemma MarkAllLeavesNoneUnread(list: seq<Record>)
    ensures Count(UnreadFn(), MarkAll(list)) == 0
  {
    CountNone(UnreadFn(), MarkAll(list));
  }

  /** Marking one id read never raises the unread count, and lowers it by
      exactly the unread entries carrying that id. */
  lemma {:induction false} MarkByIdCount(list: seq<Record>, id: Field)
    ensures Count(UnreadFn(), MarkById(list, id)) ==
      Count(UnreadFn(), list) - Count((r: Record) => Unread(r) && Get(r, "id") == id, list)
  {
    if list != [] {
      MarkByIdCount(list[1..], id);
      assert MarkById(list, id)[1..] == MarkById(list[1..], id);
    }
  }

  /** Removing an id drops exactly the entries with it and keeps the rest in order. */
  lemma RemoveSpec(list: seq<Record>, id: Field, r: Record)
    ensures r in Filter(OtherIdFn(id), list) <==> r in list && Get(r, "id") != id
    ensures IsSubsequence(Filter(OtherIdFn(id), list), list)
  {
    FilterMembership(OtherIdFn(id), list, r);
    FilterIsSubsequence(OtherIdFn(id), list);
  }

  const AppointmentKind: string := "appointment"
  const ReminderKind: string := "reminder"

  /** The options of `addAppointmentReminder`. */
  function AppointmentReminderOptions(appointmentId: Field): Record
  {
    map["priority" := Str("high"), "appointmentId" := appointmentId,
        "title" := Str("Upcoming Appointment"), "isToast" := Bool(false)]
  }

  /** The options of `addMedicationReminder`. */
  function MedicationReminderOptions(medicationId: Field): Record
  {
    map["priority" := Str("medium"), "medicationId" := medicationId,
        "title" := Str("Medication Reminder"), "isToast" := Bool(false)]
  }

  /** The options of `success`/`error`/`warning`/`info`: `duration` may be `undefined`. */
  function QuickOptions(duration: Field): Record
  {
    map["duration" := duration, "isToast" := Bool(true)]
  }

  /** An appointment reminder toasts on priority alone; a medication reminder
      does not toast; the quick helpers always toast. */
  lemma ReminderToasts(appointmentId: Field, medicationId: Field, duration: Field)
    ensures ShowsToast(AppointmentReminderOptions(appointmentId))
    ensures !ShowsToast(MedicationReminderOptions(medicationId))
    ensures ShowsToast(QuickOptions(duration))
  {
    assert Get(AppointmentReminderOptions(appointmentId), "priority") == Str("high");
    assert Get(MedicationReminderOptions(medicationId), "isToast") == Bool(false);
    assert Get(MedicationReminderOptions(medicationId), "priority") == Str("medium");
    assert Get(QuickOptions(duration), "isToast") == Bool(true);
  }

  class NotificationStore {
    var notifications: seq<Record>

    constructor ()
      ensures notifications == []
    {
      notifications := [];
    }

    /** `unreadCount`. */
    function UnreadCount(): (n: nat)
      reads this
      ensures n <= |notifications|
      ensures n == |Filter(UnreadFn(), notifications)|
    {
      FilterCountsMatches(UnreadFn(), notifications);
      Count(UnreadFn(), notifications)
    }

    /** `addNotification(type, message, options)` at time `now`: the new record
        goes in front and its id (the time as text) is returned; `toast` says
        whether a toast is shown. */
    method Add(kind: string, message: string, options: Record, now: nat, timestamp: string)
      returns (id: string, toast: bool)
      modifies this
      ensures id == DecimalText(now)
      ensures notifications == [NewRecord(id, kind, message, timestamp, options)] + old(notifications)
      ensures toast <==> ShowsToast(options)
      ensures !Truthy(Get(options, "isRead")) ==> UnreadCount() == old(UnreadCount()) + 1
    {
      id := DecimalText(now);
      var record := NewRecord(id, kind, message, timestamp, options);
      notifications := [record] + notifications;
      toast := ShowsToast(options);
      assert notifications[1..] == old(notifications);
      if !Truthy(Get(options, "isRead")) {
        assert Unread(record);
      }
    }

    /** `removeNotification(id)`. */
    method Remove(id: Field)
      modifies this
      ensures notifications == Filter(OtherIdFn(id), old(notifications))
    {
      notifications := Filter(OtherIdFn(id), notifications);
    }

    /** `clearAll`. */
    method ClearAll()
      modifies this
      ensures notifications == [] && UnreadCount() == 0
    {
      notifications := [];
    }

    /** `markAsRead(id)`. */
    method MarkAsRead(id: Field)
      modifies this
      ensures notifications == MarkById(old(notifications), id)
      ensures UnreadCount() <= old(UnreadCount())
    {
      MarkByIdCount(notifications, id);
      notifications := MarkById(notifications, id);
    }

    /** `markAllAsRead`. */
    method MarkAllAsRead()
      modifies this
      ensures notifications == MarkAll(old(notifications))
      ensures UnreadCount() == 0
    {
      notifications := MarkAll(notifications);
      MarkAllLeavesNoneUnread(old(notifications));
    }

    /** `addAppointmentReminder(appointment)`; `dateText` is the appointment
        date as `toLocaleDateString` writes it. */
    method AddAppointmentReminder(appointmentId: Field, doctorName: string, dateText: string, time: string,
                                  now: nat, timestamp: string)
      returns (id: string, toast: bool)
      modifies this
      ensures id == DecimalText(now) && toast
      ensures notifications == [NewRecord(id, AppointmentKind,
                                          "Appointment with " + doctorName + " on " + dateText + " at " + time,
                                          timestamp, AppointmentReminderOptions(appointmentId))] + old(notifications)
    {
      ReminderToasts(appointmentId, Undefined, Undefined);
      id, toast := Add(AppointmentKind, "Appointment with " + doctorName + " on " + dateText + " at " + time,
                       AppointmentReminderOptions(appointmentId), now, timestamp);
    }

    /** `addMedicationReminder(medication)`. */
    method AddMedicationReminder(medicationId: Field, name: string, now: nat, timestamp: string)
      returns (id: string, toast: bool)
      modifies this
      ensures id == DecimalText(now) && !toast
      ensures notifications == [NewRecord(id, ReminderKind, "Time to take " + name, timestamp,
                                          MedicationReminderOptions(medicationId))] + old(notifications)
    {
      ReminderToasts(Undefined, medicationId, Undefined);
      id, toast := Add(ReminderKind, "Time to take " + name, MedicationReminderOptions(medicationId), now, timestamp);
    }
  }
}
