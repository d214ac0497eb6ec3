/** The availability store (src/context/AvailabilityContext.js): a per-doctor,
    per-date cache of generated time slots, a slot re-check before a booking is
    confirmed, and a per-doctor registry of subscribers told about each change.

    The clock and `Math.random` are parameters: a fetch receives a `FetchEnv`
    saying whether the date is today, the current hour and minute, which base
    slots the random draw keeps, and whether the simulated request fails; a
    re-check receives a flag saying whether the simulated loss of the slot
    happens. Subscriber callbacks are identities; notifying them is modelled as
    the list of deliveries (callback, update) made, in subscription order. */
module Availability {
  import opened Common

  type DoctorId = string
  type Date = string
  /** A time of day written "HH:MM". */
  type Slot = string
  /** The identity of a subscriber callback; JavaScript compares functions by identity. */
  type Callback = nat

  const FetchError: string := "Failed to fetch availability"

  /** The fixed 24-hour schedule every generated list is drawn from. */
  const BaseSlots: seq<Slot> := [
    "09:00", "09:30", "10:00", "10:30", "11:00", "11:30",
    "14:00", "14:30", "15:00", "15:30", "16:00", "16:30"
  ]

  // ------------------------------------------------------------------
  // Slot generator
  // ------------------------------------------------------------------

  /** `const [hours, minutes] = slot.split(':').map(Number)`; `None` is `NaN`
      or a missing piece. */
  function SlotClock(slot: Slot): (Option<int>, Option<int>)
  {
    var pieces := Split(slot, ':');
    (ToNumber(pieces[0]), if |pieces| > 1 then ToNumber(pieces[1]) else None)
  }

  /** The today-filter: the slot's (hour, minute) is strictly after the clock's.
      A comparison with `NaN` is false. */
  predicate IsLaterThan(slot: Slot, hour: int, minute: int)
  {
    var (h, m) := SlotClock(slot);
    h.Some? && (h.value > hour || (h.value == hour && m.Some? && m.value > minute))
  }

  /** What a fetch needs from the environment: whether the requested date is
      the current calendar day, the current hour and minute, the slots the
      random draw keeps (`Math.random() > 0.3`), and whether the request fails. */
  datatype FetchEnv = FetchEnv(isToday: bool, hour: int, minute: int, keep: Slot -> bool, fails: bool)

  /** `generateMockTimeSlots`: today keeps the slots after the current time;
      any other day keeps the slots the random draw keeps. */
  function GenerateMockTimeSlots(isToday: bool, hour: int, minute: int, keep: Slot -> bool): seq<Slot>
  {
    if isToday then Filter(s => IsLaterThan(s, hour, minute), BaseSlots)
    else Filter(keep, BaseSlots)
  }

  /** The list a fetch returns: the generated one, or the empty list on failure. */
  function FetchResult(env: FetchEnv): seq<Slot>
  {
    if env.fails then [] else GenerateMockTimeSlots(env.isToday, env.hour, env.minute, env.keep)
  }

  /** The clock time base slot `i` stands for, written independently of the strings. */
  function BaseTime(i: nat): (int, int)
    requires i < 12
  {
    if i < 6 then (9 + i / 2, 30 * (i % 2)) else (14 + (i - 6) / 2, 30 * (i % 2))
  }

  predicate TimeAfter(t: (int, int), hour: int, minute: int)
  {
    t.0 > hour || (t.0 == hour && t.1 > minute)
  }

  lemma SplitCons(x: char, s: string, sep: char)
    requires x != sep
    ensures Split([x] + s, sep) == [[x] + Split(s, sep)[0]] + Split(s, sep)[1..]
  {
    assert ([x] + s)[1..] == s;
  }

  /** "HH:MM" written with four digits parses to its two two-digit numbers. */
  lemma ParseFourDigitClock(a: char, b: char, c: char, d: char)
    requires IsDigit(a) && IsDigit(b) && IsDigit(c) && IsDigit(d)
    ensures SlotClock([a, b, ':', c, d]) ==
      (Some(10 * (a as int - '0' as int) + (b as int - '0' as int)),
       Some(10 * (c as int - '0' as int) + (d as int - '0' as int)))
  {
    SplitCons(d, [], ':');
    assert [d] == [d] + [];
    SplitCons(c, [d], ':');
    assert [c, d] == [c] + [d];
    assert Split([c, d], ':') == [[c, d]];
    assert [':', c, d][1..] == [c, d];
    assert Split([':', c, d], ':') == ["", [c, d]];
    SplitCons(b, [':', c, d], ':');
    assert [b, ':', c, d] == [b] + [':', c, d];
    assert [b] + Split([':', c, d], ':')[0] == [b];
    assert Split([':', c, d], ':')[1..] == [[c, d]];
    assert Split([b, ':', c, d], ':') == [[b], [c, d]];
    SplitCons(a, [b, ':', c, d], ':');
    assert [a, b, ':', c, d] == [a] + [b, ':', c, d];
    assert [a] + Split([b, ':', c, d], ':')[0] == [a, b];
    assert Split([b, ':', c, d], ':')[1..] == [[c, d]];
    assert Split([a, b, ':', c, d], ':') == [[a, b], [c, d]];
    TwoDigitNumber(a, b);
    TwoDigitNumber(c, d);
  }

  lemma TwoDigitNumber(a: char, b: char)
    requires IsDigit(a) && IsDigit(b)
    ensures ToNumber([a, b]) == Some(10 * (a as int - '0' as int) + (b as int - '0' as int))
  {
    assert TrimStart([a, b]) == [a, b];
    assert TrimEnd([a, b]) == [a, b];
    assert [a, b][..1] == [a];
    assert DecimalValue([a]) == a as int - '0' as int by {
      assert [a][..0] == [];
    }
  }

  /** Parsing base slot `i` gives the clock time it is meant to stand for. */
  lemma BaseSlotClock(i: nat)
    requires i < 12
    ensures SlotClock(BaseSlots[i]) == (Some(BaseTime(i).0), Some(BaseTime(i).1))
  {
    var (a, b, c, d) := BaseDigits(i);
    ParseFourDigitClock(a, b, c, d);
  }

  /** The four digits of base slot `i`. */
  function BaseDigits(i: nat): (r: (char, char, char, char))
    requires i < 12
    ensures IsDigit(r.0) && IsDigit(r.1) && IsDigit(r.2) && IsDigit(r.3)
    ensures BaseSlots[i] == [r.0, r.1, ':', r.2, r.3]
    ensures BaseTime(i) == (10 * (r.0 as int - '0' as int) + (r.1 as int - '0' as int),
                            10 * (r.2 as int - '0' as int) + (r.3 as int - '0' as int))
  {
    if i == 0 then ('0', '9', '0', '0')
    else if i == 1 then ('0', '9', '3', '0')
    else if i == 2 then ('1', '0', '0', '0')
    else if i == 3 then ('1', '0', '3', '0')
    else if i == 4 then ('1', '1', '0', '0')
    else if i == 5 then ('1', '1', '3', '0')
    else if i == 6 then ('1', '4', '0', '0')
    else if i == 7 then ('1', '4', '3', '0')
    else if i == 8 then ('1', '5', '0', '0')
    else if i == 9 then ('1', '5', '3', '0')
    else if i == 10 then ('1', '6', '0', '0')
    else ('1', '6', '3', '0')
  }

  /** The base slots from index `i` on whose clock time is strictly after
      (`hour`, `minute`): the today rule, written over `BaseTime`. */
  function SlotsAfter(hour: int, minute: int, i: nat): (r: seq<Slot>)
    requires i <= 12
    decreases 12 - i
  {
    if i == 12 then []
    else if TimeAfter(BaseTime(i), hour, minute) then [BaseSlots[i]] + SlotsAfter(hour, minute, i + 1)
    else SlotsAfter(hour, minute, i + 1)
  }

  lemma {:induction false} TodayFromIndex(hour: int, minute: int, i: nat)
    requires i <= 12
    ensures Filter(s => IsLaterThan(s, hour, minute), BaseSlots[i..]) == SlotsAfter(hour, minute, i)
    decreases 12 - i
  {
    if i < 12 {
      TodayFromIndex(hour, minute, i + 1);
      BaseSlotClock(i);
      assert BaseSlots[i..][1..] == BaseSlots[i + 1..];
    }
  }

  /** For today, the generated list is exactly the base slots later than the
      current clock time, in base order. */
  lemma TodaySlotsAreLaterSlots(hour: int, minute: int, keep: Slot -> bool)
    ensures GenerateMockTimeSlots(true, hour, minute, keep) == SlotsAfter(hour, minute, 0)
  {
    TodayFromIndex(hour, minute, 0);
    assert BaseSlots[0..] == BaseSlots;
  }

  /** For today, base slot `i` is offered exactly when its time is later than now. */
  lemma TodaySlotMembership(hour: int, minute: int, keep: Slot -> bool, i: nat)
    requires i < 12
    ensures BaseSlots[i] in GenerateMockTimeSlots(true, hour, minute, keep) <==> TimeAfter(BaseTime(i), hour, minute)
  {
    FilterMembership(s => IsLaterThan(s, hour, minute), BaseSlots, BaseSlots[i]);
    BaseSlotClock(i);
  }

  /** When every base slot from `i` on is later than now, all of them are kept. */
  lemma {:induction false} SlotsAfterAllLater(hour: int, minute: int, i: nat)
    requires i <= 12
    requires forall j :: i <= j < 12 ==> TimeAfter(BaseTime(j), hour, minute)
    ensures SlotsAfter(hour, minute, i) == BaseSlots[i..]
    decreases 12 - i
  {
    if i < 12 {
      SlotsAfterAllLater(hour, minute, i + 1);
      assert BaseSlots[i..] == [BaseSlots[i]] + BaseSlots[i + 1..];
    }
  }

  /** At 10:15 the slots up to 10:00 are gone and 10:30 onwards remain. */
  lemma TodayAtQuarterPastTen(keep: Slot -> bool)
    ensures GenerateMockTimeSlots(true, 10, 15, keep) ==
      ["10:30", "11:00", "11:30", "14:00", "14:30", "15:00", "15:30", "16:00", "16:30"]
  {
    TodaySlotsAreLaterSlots(10, 15, keep);
    assert SlotsAfter(10, 15, 0) == SlotsAfter(10, 15, 1) == SlotsAfter(10, 15, 2) == SlotsAfter(10, 15, 3);
    SlotsAfterAllLater(10, 15, 3);
  }

  lemma EarlySlotsAfter(hour: int, minute: int)
    requires hour < 9
    ensures SlotsAfter(hour, minute, 0) == BaseSlots
  {
    forall j | 0 <= j < 12 ensures TimeAfter(BaseTime(j), hour, minute) {
      assert BaseTime(j).0 >= 9;
    }
    SlotsAfterAllLater(hour, minute, 0);
    assert BaseSlots[0..] == BaseSlots;
  }

  /** Before nine o'clock the whole schedule is offered. */
  lemma TodayBeforeOpening(hour: int, minute: int, keep: Slot -> bool)
    requires hour < 9
    ensures GenerateMockTimeSlots(true, hour, minute, keep) == BaseSlots
  {
    TodaySlotsAreLaterSlots(hour, minute, keep);
    EarlySlotsAfter(hour, minute);
  }

  /** Every generated list keeps base slots in their order and adds nothing. */
  lemma GeneratedIsSubsequenceOfBase(env: FetchEnv)
    ensures IsSubsequence(FetchResult(env), BaseSlots)
  {
    if !env.fails {
      if env.isToday {
        FilterIsSubsequence(s => IsLaterThan(s, env.hour, env.minute), BaseSlots);
      } else {
        FilterIsSubsequence(env.keep, BaseSlots);
      }
    }
  }

  // ------------------------------------------------------------------
  // The cache and the subscriber registry
  // ------------------------------------------------------------------

  /** `availabilityData`: doctor id to date to slot list. */
  type Snapshot = map<DoctorId, map<Date, seq<Slot>>>

  /** `availabilityData[doctorId]?.[date] || []`. */
  function Lookup(data: Snapshot, d: DoctorId, t: Date): seq<Slot>
  {
    if d in data && t in data[d] then data[d][t] else []
  }

  /** `{...prev, [d]: {...prev[d], [t]: slots}}`: one (doctor, date) entry replaced. */
  function Store(data: Snapshot, d: DoctorId, t: Date, slots: seq<Slot>): (r: Snapshot)
    ensures Lookup(r, d, t) == slots
    ensures r.Keys == data.Keys + {d}
    ensures forall d2 :: d2 in data && d2 != d ==> r[d2] == data[d2]
    ensures d in data ==> r[d].Keys == data[d].Keys + {t}
    ensures forall t2 :: d in data && t2 in data[d] && t2 != t ==> r[d][t2] == data[d][t2]
  {
    data[d := (if d in data then data[d] else map[])[t := slots]]
  }

  /** Storing touches no other (doctor, date) pair. */
  lemma StoreLeavesOthers(data: Snapshot, d: DoctorId, t: Date, slots: seq<Slot>, d2: DoctorId, t2: Date)
    requires d2 != d || t2 != t
    ensures Lookup(Store(data, d, t, slots), d2, t2) == Lookup(data, d2, t2)
  {
  }

  /** The message a subscriber receives. */
  datatype Update = Update(doctorId: DoctorId, date: Date, slots: seq<Slot>, timestamp: int)

  /** One call `callback(update)`. */
  datatype Delivery = Delivery(callback: Callback, update: Update)

  function SubscribersOf(subs: map<DoctorId, seq<Callback>>, d: DoctorId): seq<Callback>
  {
    if d in subs then subs[d] else []
  }

  /** `notifySubscribers`: every callback registered for `d`, in order, receives `u`. */
  function Notify(subs: map<DoctorId, seq<Callback>>, d: DoctorId, u: Update): (r: seq<Delivery>)
    ensures |r| == |SubscribersOf(subs, d)|
    ensures forall i :: 0 <= i < |r| ==> r[i].callback == SubscribersOf(subs, d)[i] && r[i].update == u
  {
    var cbs := SubscribersOf(subs, d);
    seq(|cbs|, i requires 0 <= i < |cbs| => Delivery(cbs[i], u))
  }

  /** A callback registered only for other doctors receives nothing. */
  lemma NotifyReachesOnlyThatDoctor(subs: map<DoctorId, seq<Callback>>, d: DoctorId, u: Update, cb: Callback)
    requires cb !in SubscribersOf(subs, d)
    ensures forall x :: x in Notify(subs, d, u) ==> x.callback != cb
  {
  }

  /** `slots.filter(s => s !== slot)`. */
  function RemoveSlot(slots: seq<Slot>, slot: Slot): (r: seq<Slot>)
  {
    Filter(s => s != slot, slots)
  }

  lemma RemoveSlotSpec(slots: seq<Slot>, slot: Slot, x: Slot)
    ensures slot !in RemoveSlot(slots, slot)
    ensures x != slot ==> (x in RemoveSlot(slots, slot) <==> x in slots)
    ensures IsSubsequence(RemoveSlot(slots, slot), slots)
  {
    FilterMembership(s => s != slot, slots, slot);
    FilterMembership(s => s != slot, slots, x);
    FilterIsSubsequence(s => s != slot, slots);
  }

  /** `callbacks.filter(cb => cb !== callback)`; `None` is a call made without a
      callback, which compares unequal to every registered function. */
  function RemoveCallback(cbs: seq<Callback>, cb: Option<Callback>): (r: seq<Callback>)
  {
    Filter(c => Some(c) != cb, cbs)
  }

  /** Removing a callback drops every copy of it and keeps the others in order. */
  lemma RemoveCallbackSpec(cbs: seq<Callback>, cb: Callback, x: Callback)
    ensures cb !in RemoveCallback(cbs, Some(cb))
    ensures x != cb ==> (x in RemoveCallback(cbs, Some(cb)) <==> x in cbs)
    ensures IsSubsequence(RemoveCallback(cbs, Some(cb)), cbs)
  {
    FilterMembership(c => Some(c) != Some(cb), cbs, cb);
    FilterMembership(c => Some(c) != Some(cb), cbs, x);
    FilterIsSubsequence(c => Some(c) != Some(cb), cbs);
  }

  /** Unsubscribing without naming a callback removes nothing. */
  lemma RemoveNoCallbackKeepsAll(cbs: seq<Callback>)
    ensures RemoveCallback(cbs, None) == cbs
  {
    FilterAllKept(c => Some(c) != None, cbs);
  }

  /** The availability provider's state. */
  class AvailabilityStore {
    var data: Snapshot
    var loading: bool
    var error: Option<string>
    var subscribers: map<DoctorId, seq<Callback>>

    constructor ()
      ensures data == map[] && !loading && error == None && subscribers == map[]
    {
      data := map[];
      loading := false;
      error := None;
      subscribers := map[];
    }

    /** `subscribeToAvailability`: append `cb` to the doctor's list. The returned
        unsubscribe function is `Unsubscribe(d, Some(cb))`. */
    method Subscribe(d: DoctorId, cb: Callback)
      modifies this
      ensures subscribers == old(subscribers)[d := SubscribersOf(old(subscribers), d) + [cb]]
      ensures data == old(data) && loading == old(loading) && error == old(error)
    {
      subscribers := subscribers[d := SubscribersOf(subscribers, d) + [cb]];
    }

    /** `unsubscribeFromAvailability`: the doctor's list loses every copy of
        `cb`; the key is set even when it was absent. */
    method Unsubscribe(d: DoctorId, cb: Option<Callback>)
      modifies this
      ensures subscribers == old(subscribers)[d := RemoveCallback(SubscribersOf(old(subscribers), d), cb)]
      ensures data == old(data) && loading == old(loading) && error == old(error)
    {
      subscribers := subscribers[d := RemoveCallback(SubscribersOf(subscribers, d), cb)];
    }

    /** `fetchDoctorAvailability` at time `now`: returns the list it stored under
        (`d`, `t`) and the deliveries made, or the empty list with the error set
        when the request fails. */
    method Fetch(d: DoctorId, t: Date, env: FetchEnv, now: int) returns (slots: seq<Slot>, delivered: seq<Delivery>)
      modifies this
      ensures slots == FetchResult(env)
      ensures !loading && subscribers == old(subscribers)
      ensures env.fails ==> data == old(data) && error == Some(FetchError) && delivered == []
      ensures !env.fails ==> data == Store(old(data), d, t, slots) && error == None
      ensures !env.fails ==> delivered == Notify(subscribers, d, Update(d, t, slots, now))
    {
      loading := true;
      error := None;
      if env.fails {
        error := Some(FetchError);
        slots := [];
        delivered := [];
      } else {
        slots := GenerateMockTimeSlots(env.isToday, env.hour, env.minute, env.keep);
        data := Store(data, d, t, slots);
        delivered := Notify(subscribers, d, Update(d, t, slots, now));
      }
      loading := false;
    }

    /** `checkSlotAvailability`: `lose` says whether the simulated loss (the
        10% draw) happens for a slot that is available. */
    method CheckSlot(d: DoctorId, t: Date, slot: Slot, lose: bool, now: int) returns (available: bool, delivered: seq<Delivery>)
      modifies this
      ensures available <==> slot in Lookup(old(data), d, t) && !lose
      ensures subscribers == old(subscribers) && loading == old(loading) && error == old(error)
      ensures slot in Lookup(old(data), d, t) && lose ==>
        var rest := RemoveSlot(Lookup(old(data), d, t), slot);
        data == Store(old(data), d, t, rest) && delivered == Notify(subscribers, d, Update(d, t, rest, now))
      ensures !(slot in Lookup(old(data), d, t) && lose) ==> data == old(data) && delivered == []
    {
      var current := Lookup(data, d, t);
      var isAvailable := slot in current;
      if isAvailable && lose {
        var rest := RemoveSlot(current, slot);
        data := Store(data, d, t, rest);
        delivered := Notify(subscribers, d, Update(d, t, rest, now));
        available := false;
      } else {
        delivered := [];
        available := isAvailable;
      }
    }
  }
}
