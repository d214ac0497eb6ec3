/** The time-slot picker (src/components/booking/TimeSlotPicker.js): shows the
    store's slots for one doctor and date, applies pushed updates, re-checks a
    slot before committing it, and marks its list stale after a minute.

    The selection is owned by the parent (`selectedSlot` / `onSelectSlot`); it
    is modelled as a field of the picker. Timers become explicit tick methods
    taking the current time. */
module TimeSlotPicker {
  import opened Common
  import opened Availability

  const RefreshInterval: int := 30000
  const StaleThreshold: int := 60000

  /** A selection is acted on only when it is truthy: present and non-empty. */
  predicate Truthy(sel: Option<Slot>)
  {
    sel.Some? && sel.value != ""
  }

  /** The selection after an update with `slots`: a truthy selection missing
      from the new list becomes null; any other selection is kept. So the
      result is the old selection or null, and a truthy result is offered. */
  function SelectionAfterUpdate(sel: Option<Slot>, slots: seq<Slot>): (r: Option<Slot>)
    ensures r == sel || r == None
    ensures Truthy(r) ==> r.value in slots
    ensures Truthy(sel) && sel.value in slots ==> r == sel
    ensures Truthy(sel) && sel.value !in slots ==> r == None
    ensures !Truthy(sel) ==> r == sel
  {
    if Truthy(sel) && sel.value !in slots then None else sel
  }

  /** The staleness rule: more than a minute since the last update. */
  predicate IsStaleAt(lastUpdate: int, now: int)
  {
    now - lastUpdate > StaleThreshold
  }

  /** What an update can change in a picker: the shown list, the time of the
      last update and the parent's selection. */
  datatype PickerView = PickerView(slots: seq<Slot>, lastUpdate: int, selected: Option<Slot>)

  /** `handleAvailabilityUpdate(u)` at time `now`, for the picker showing
      doctor `d` on date `t`. */
  function Handle(v: PickerView, u: Update, d: DoctorId, t: Date, now: int): (r: PickerView)
    ensures u.doctorId == d && u.date == t ==> r.slots == u.slots && r.lastUpdate == now
    ensures !(u.doctorId == d && u.date == t) ==> r == v
  {
    if u.doctorId == d && u.date == t then PickerView(u.slots, now, SelectionAfterUpdate(v.selected, u.slots)) else v
  }

  /** The deliveries addressed to `cb`, handled one after another; the others
      go to other pickers. */
  function Replay(v: PickerView, ds: seq<Delivery>, cb: Callback, d: DoctorId, t: Date, now: int): PickerView
    decreases |ds|
  {
    if ds == [] then v
    else
      var before := Replay(v, ds[..|ds| - 1], cb, d, t, now);
      var x := ds[|ds| - 1];
      if x.callback == cb then Handle(before, x.update, d, t, now) else before
  }

  /** Handling deliveries never selects anything new: the selection is kept or becomes null. */
  lemma {:induction false} ReplaySelection(v: PickerView, ds: seq<Delivery>, cb: Callback, d: DoctorId, t: Date, now: int)
    ensures Replay(v, ds, cb, d, t, now).selected == v.selected || Replay(v, ds, cb, d, t, now).selected == None
    decreases |ds|
  {
    if ds != [] {
      ReplaySelection(v, ds[..|ds| - 1], cb, d, t, now);
    }
  }

  /** Once null, the selection stays null whatever is delivered. */
  lemma {:induction false} ReplayKeepsNone(v: PickerView, ds: seq<Delivery>, cb: Callback, d: DoctorId, t: Date, now: int)
    requires v.selected == None
    ensures Replay(v, ds, cb, d, t, now).selected == None
    decreases |ds|
  {
    if ds != [] {
      ReplayKeepsNone(v, ds[..|ds| - 1], cb, d, t, now);
    }
  }

  /** Handling two batches one after the other is handling them together. */
  lemma {:induction false} ReplayAppend(v: PickerView, a: seq<Delivery>, b: seq<Delivery>, cb: Callback, d: DoctorId, t: Date, now: int)
    ensures Replay(v, a + b, cb, d, t, now) == Replay(Replay(v, a, cb, d, t, now), b, cb, d, t, now)
    decreases |b|
  {
    if b == [] {
      assert a + b == a;
    } else {
      assert (a + b)[..|a + b| - 1] == a + b[..|b| - 1];
      ReplayAppend(v, a, b[..|b| - 1], cb, d, t, now);
    }
  }

  /** A delivery to this picker, for its doctor and date, whose list lacks a
      truthy selection clears that selection for good. */
  lemma {:induction false} ReplayClears(v: PickerView, ds: seq<Delivery>, cb: Callback, d: DoctorId, t: Date, now: int, k: nat)
    requires k < |ds| && ds[k].callback == cb && ds[k].update.doctorId == d && ds[k].update.date == t
    requires Truthy(v.selected) && v.selected.value !in ds[k].update.slots
    ensures Replay(v, ds, cb, d, t, now).selected == None
    decreases |ds|
  {
    var init := ds[..|ds| - 1];
    var before := Replay(v, init, cb, d, t, now);
    if k == |ds| - 1 {
      ReplaySelection(v, init, cb, d, t, now);
    } else {
      assert init[k] == ds[k];
      ReplayClears(v, init, cb, d, t, now, k);
      ReplayKeepsNone(before, [ds[|ds| - 1]], cb, d, t, now);
      assert Replay(before, [ds[|ds| - 1]], cb, d, t, now) == Replay(v, ds, cb, d, t, now) by {
        assert [ds[|ds| - 1]][..0] == [];
      }
    }
  }

  /** When `cb` is registered for `d`, a notification about (`d`, `t`) whose
      list lacks the truthy selection clears it. */
  lemma NotifyClears(v: PickerView, subs: map<DoctorId, seq<Callback>>, cb: Callback, d: DoctorId, t: Date, u: Update, now: int)
    requires cb in SubscribersOf(subs, d) && u.doctorId == d && u.date == t
    requires Truthy(v.selected) && v.selected.value !in u.slots
    ensures Replay(v, Notify(subs, d, u), cb, d, t, now).selected == None
  {
    var k :| 0 <= k < |SubscribersOf(subs, d)| && SubscribersOf(subs, d)[k] == cb;
    ReplayClears(v, Notify(subs, d, u), cb, d, t, now, k);
  }

  class Picker {
    const doctorId: DoctorId
    const selectedDate: Date
    /** The identity of this picker's update handler in the store's registry. */
    const callback: Callback
    var availableSlots: seq<Slot>
    var checking: bool
    var lastUpdate: int
    var isStale: bool
    var selectedSlot: Option<Slot>

    constructor (doctorId: DoctorId, selectedDate: Date, callback: Callback, selectedSlot: Option<Slot>, now: int)
      ensures this.doctorId == doctorId && this.selectedDate == selectedDate && this.callback == callback
      ensures availableSlots == [] && !checking && lastUpdate == now && !isStale
      ensures this.selectedSlot == selectedSlot
    {
      this.doctorId := doctorId;
      this.selectedDate := selectedDate;
      this.callback := callback;
      availableSlots := [];
      checking := false;
      lastUpdate := now;
      isStale := false;
      this.selectedSlot := selectedSlot;
    }

    /** The part of the picker an update can change. */
    function Current(): PickerView
      reads this
    {
      PickerView(availableSlots, lastUpdate, selectedSlot)
    }

    /** `handleAvailabilityUpdate`: an update for this doctor and date replaces
        the list and drops a selection that is no longer offered; any other
        update is ignored. */
    method HandleAvailabilityUpdate(u: Update, now: int)
      modifies this
      ensures Current() == Handle(old(Current()), u, doctorId, selectedDate, now)
      ensures u.doctorId == doctorId && u.date == selectedDate ==>
        availableSlots == u.slots && lastUpdate == now
        && selectedSlot == SelectionAfterUpdate(old(selectedSlot), u.slots)
      ensures !(u.doctorId == doctorId && u.date == selectedDate) ==>
        availableSlots == old(availableSlots) && lastUpdate == old(lastUpdate) && selectedSlot == old(selectedSlot)
      ensures checking == old(checking) && isStale == old(isStale)
    {
      if u.doctorId == doctorId && u.date == selectedDate {
        availableSlots := u.slots;
        lastUpdate := now;
        if Truthy(selectedSlot) && selectedSlot.value !in u.slots {
          selectedSlot := None;
        }
      }
    }

    /** The provider's `forEach` as seen by this picker: every delivery made
        to its own handler is handled, in order. */
    method Receive(ds: seq<Delivery>, now: int)
      modifies this
      ensures Current() == Replay(old(Current()), ds, callback, doctorId, selectedDate, now)
      ensures checking == old(checking) && isStale == old(isStale)
    {
      ghost var v0 := Current();
      var i := 0;
      while i < |ds|
        invariant 0 <= i <= |ds|
        invariant Current() == Replay(v0, ds[..i], callback, doctorId, selectedDate, now)
        invariant checking == old(checking) && isStale == old(isStale)
      {
        assert ds[..i + 1][..i] == ds[..i];
        if ds[i].callback == callback {
          HandleAvailabilityUpdate(ds[i].update, now);
        }
        i := i + 1;
      }
      assert ds[..i] == ds;
    }

    /** `loadAvailability`: the fetch's notification reaches this picker's
        handler first (which may drop a vanished selection); then the shown
        list becomes whatever the fetch returned (the empty list when it
        failed, since the fetch reports failure by returning `[]`), and the
        list is fresh again. All deliveries made are returned. */
    method LoadAvailability(store: AvailabilityStore, env: FetchEnv, now: int) returns (delivered: seq<Delivery>)
      modifies this, store
      ensures availableSlots == FetchResult(env) && lastUpdate == now && !isStale
      ensures selectedSlot == Replay(old(Current()), delivered, callback, doctorId, selectedDate, now).selected
      ensures selectedSlot == old(selectedSlot) || selectedSlot == None
      ensures (!env.fails && callback in SubscribersOf(old(store.subscribers), doctorId)
               && Truthy(old(selectedSlot)) && old(selectedSlot).value !in FetchResult(env)) ==> selectedSlot == None
      ensures checking == old(checking)
      ensures store.subscribers == old(store.subscribers) && !store.loading
      ensures env.fails ==> store.data == old(store.data) && delivered == [] && selectedSlot == old(selectedSlot)
      ensures !env.fails ==> store.data == Store(old(store.data), doctorId, selectedDate, FetchResult(env))
      ensures !env.fails ==> delivered == Notify(store.subscribers, doctorId, Update(doctorId, selectedDate, FetchResult(env), now))
    {
      var slots;
      slots, delivered := store.Fetch(doctorId, selectedDate, env, now);
      ghost var v0 := Current();
      Receive(delivered, now);
      ReplaySelection(v0, delivered, callback, doctorId, selectedDate, now);
      if !env.fails && callback in SubscribersOf(store.subscribers, doctorId)
         && Truthy(v0.selected) && v0.selected.value !in slots {
        NotifyClears(v0, store.subscribers, callback, doctorId, selectedDate, Update(doctorId, selectedDate, slots, now), now);
      }
      availableSlots := slots;
      lastUpdate := now;
      isStale := false;
    }

    /** `handleSlotSelect`: the store checks the clicked slot; a simulated loss
        (`lose`, the 10% draw) is notified first, then an available slot is
        committed and any other answer reloads the slots (`env` is the
        reload's environment). Every delivery made to this picker is handled
        on the way; all deliveries made are returned. */
    method HandleSlotSelect(store: AvailabilityStore, slot: Slot, lose: bool, env: FetchEnv, now: int)
      returns (available: bool, delivered: seq<Delivery>)
      modifies this, store
      ensures available <==> slot in Lookup(old(store.data), doctorId, selectedDate) && !lose
      ensures !checking && store.subscribers == old(store.subscribers)
      ensures available ==> selectedSlot == Some(slot) && delivered == [] && store.data == old(store.data)
                            && availableSlots == old(availableSlots) && lastUpdate == old(lastUpdate) && isStale == old(isStale)
      ensures !available ==> availableSlots == FetchResult(env) && lastUpdate == now && !isStale
      ensures !available ==> selectedSlot == Replay(old(Current()), delivered, callback, doctorId, selectedDate, now).selected
      ensures var lostIt := slot in Lookup(old(store.data), doctorId, selectedDate) && lose;
        var rest := RemoveSlot(Lookup(old(store.data), doctorId, selectedDate), slot);
        var checked := if lostIt then Store(old(store.data), doctorId, selectedDate, rest) else old(store.data);
        var lossDeliveries := if lostIt then Notify(old(store.subscribers), doctorId, Update(doctorId, selectedDate, rest, now)) else [];
        && (!available && env.fails ==> store.data == checked && delivered == lossDeliveries)
        && (!available && !env.fails ==>
              store.data == Store(checked, doctorId, selectedDate, FetchResult(env))
              && delivered == lossDeliveries + Notify(old(store.subscribers), doctorId, Update(doctorId, selectedDate, FetchResult(env), now)))
        && ((lostIt && old(selectedSlot) == Some(slot) && slot != "" && callback in SubscribersOf(old(store.subscribers), doctorId))
              ==> selectedSlot == None)
    {
      ghost var v0 := Current();
      checking := true;
      var lost;
      available, lost := store.CheckSlot(doctorId, selectedDate, slot, lose, now);
      Receive(lost, now);
      if available {
        selectedSlot := Some(slot);
        delivered := [];
      } else {
        ghost var v1 := Current();
        var reloaded := LoadAvailability(store, env, now);
        delivered := lost + reloaded;
        ReplayAppend(v0, lost, reloaded, callback, doctorId, selectedDate, now);
        if lost != [] && v0.selected == Some(slot) && slot != "" && callback in SubscribersOf(store.subscribers, doctorId) {
          var rest := RemoveSlot(Lookup(old(store.data), doctorId, selectedDate), slot);
          RemoveSlotSpec(Lookup(old(store.data), doctorId, selectedDate), slot, slot);
          NotifyClears(v0, store.subscribers, callback, doctorId, selectedDate, Update(doctorId, selectedDate, rest, now), now);
          ReplayKeepsNone(v1, reloaded, callback, doctorId, selectedDate, now);
        }
      }
      checking := false;
    }

    /** The five-second staleness checker. */
    method StalenessTick(now: int)
      modifies this
      ensures isStale <==> IsStaleAt(lastUpdate, now)
      ensures availableSlots == old(availableSlots) && lastUpdate == old(lastUpdate)
      ensures selectedSlot == old(selectedSlot) && checking == old(checking)
    {
      isStale := now - lastUpdate > StaleThreshold;
    }

    /** The thirty-second refresh: mark stale, then reload (which clears it). */
    method RefreshTick(store: AvailabilityStore, env: FetchEnv, now: int) returns (delivered: seq<Delivery>)
      modifies this, store
      ensures availableSlots == FetchResult(env) && lastUpdate == now && !isStale
      ensures selectedSlot == Replay(old(Current()), delivered, callback, doctorId, selectedDate, now).selected
      ensures checking == old(checking)
      ensures store.subscribers == old(store.subscribers) && !store.loading
      ensures env.fails ==> store.data == old(store.data) && delivered == [] && selectedSlot == old(selectedSlot)
      ensures !env.fails ==> store.data == Store(old(store.data), doctorId, selectedDate, FetchResult(env))
      ensures !env.fails ==> delivered == Notify(store.subscribers, doctorId, Update(doctorId, selectedDate, FetchResult(env), now))
    {
      isStale := true;
      delivered := LoadAvailability(store, env, now);
    }

    /** The mount effect: with a doctor and a date, load, then subscribe. The
        load's notification goes to the registry as it was when the effect
        ran, so it does not reach the handler being registered. */
    method Mount(store: AvailabilityStore, env: FetchEnv, now: int) returns (delivered: seq<Delivery>)
      modifies this, store
      ensures doctorId != "" && selectedDate != "" ==>
        store.subscribers == old(store.subscribers)[doctorId := SubscribersOf(old(store.subscribers), doctorId) + [callback]]
        && availableSlots == FetchResult(env) && lastUpdate == now && !isStale
        && selectedSlot == Replay(old(Current()), delivered, callback, doctorId, selectedDate, now).selected
        && (env.fails ==> store.data == old(store.data) && delivered == [])
        && (!env.fails ==> store.data == Store(old(store.data), doctorId, selectedDate, FetchResult(env))
                           && delivered == Notify(old(store.subscribers), doctorId, Update(doctorId, selectedDate, FetchResult(env), now)))
      ensures !(doctorId != "" && selectedDate != "") ==>
        store.subscribers == old(store.subscribers) && store.data == old(store.data) && delivered == []
        && Current() == old(Current()) && isStale == old(isStale)
      ensures checking == old(checking)
    {
      if doctorId != "" && selectedDate != "" {
        delivered := LoadAvailability(store, env, now);
        store.Subscribe(doctorId, callback);
      } else {
        delivered := [];
      }
    }

    /** The effect's cleanup as written: `unsubscribeFromAvailability(doctorId)`
        passes no callback. */
    method Teardown(store: AvailabilityStore)
      modifies store
      ensures store.subscribers == old(store.subscribers)[doctorId := RemoveCallback(SubscribersOf(old(store.subscribers), doctorId), None)]
      ensures store.data == old(store.data)
    {
      store.Unsubscribe(doctorId, None);
    }

    /** The cleanup as evidently intended: remove this picker's own handler,
        keeping the doctor's other handlers in their order. */
    method TeardownOwnCallback(store: AvailabilityStore)
      modifies store
      ensures SubscribersOf(store.subscribers, doctorId) == RemoveCallback(SubscribersOf(old(store.subscribers), doctorId), Some(callback))
      ensures callback !in SubscribersOf(store.subscribers, doctorId)
      ensures IsSubsequence(SubscribersOf(store.subscribers, doctorId), SubscribersOf(old(store.subscribers), doctorId))
      ensures forall c :: c != callback ==>
        (c in SubscribersOf(store.subscribers, doctorId) <==> c in SubscribersOf(old(store.subscribers), doctorId))
      ensures forall d :: d != doctorId ==> SubscribersOf(store.subscribers, d) == SubscribersOf(old(store.subscribers), d)
      ensures store.data == old(store.data)
    {
      store.Unsubscribe(doctorId, Some(callback));
      forall c | c != callback
        ensures c in SubscribersOf(store.subscribers, doctorId) <==> c in SubscribersOf(old(store.subscribers), doctorId)
      {
        RemoveCallbackSpec(SubscribersOf(old(store.subscribers), doctorId), callback, c);
      }
      RemoveCallbackSpec(SubscribersOf(old(store.subscribers), doctorId), callback, callback);
    }
  }

  /** As written, the cleanup leaves the registry exactly as it was. */
  lemma TeardownRemovesNothing(subs: map<DoctorId, seq<Callback>>, d: DoctorId)
    ensures SubscribersOf(subs[d := RemoveCallback(SubscribersOf(subs, d), None)], d) == SubscribersOf(subs, d)
  {
    RemoveNoCallbackKeepsAll(SubscribersOf(subs, d));
  }

  /** A mount, cleanup and remount with the cleanup as written registers the
      handler twice, so the next update reaches it twice. */
  lemma RemountDeliversTwice(d: DoctorId, cb: Callback, u: Update)
    ensures var afterMount := map[d := [cb]];
            var afterTeardown := afterMount[d := RemoveCallback(SubscribersOf(afterMount, d), None)];
            var afterRemount := afterTeardown[d := SubscribersOf(afterTeardown, d) + [cb]];
            Notify(afterRemount, d, u) == [Delivery(cb, u), Delivery(cb, u)]
  {
    RemoveNoCallbackKeepsAll([cb]);
  }

  /** With the intended cleanup the remount registers the handler once. */
  lemma RemountWithOwnCallbackDeliversOnce(d: DoctorId, cb: Callback, u: Update)
    ensures var afterMount := map[d := [cb]];
            var afterTeardown := afterMount[d := RemoveCallback(SubscribersOf(afterMount, d), Some(cb))];
            var afterRemount := afterTeardown[d := SubscribersOf(afterTeardown, d) + [cb]];
            Notify(afterRemount, d, u) == [Delivery(cb, u)]
  {
    assert RemoveCallback([cb], Some(cb)) == [];
  }
}
