/** A doctor's card (src/components/doctors/DoctorCard.js): a search for
    today's or the next free day over at most eight store fetches, the badge
    it shows, and when its book button is disabled.

    Day 0 is today and days 1 to 7 follow; their date strings and the
    environment of each fetch are parameters. */
module DoctorCard {
  import opened Common
  import opened Availability

  /** What each fetch comes back with: `None` when it fails, otherwise the
      list it returns. */
  function Outcomes(envs: seq<FetchEnv>): seq<Option<seq<Slot>>>
  {
    seq(|envs|, i requires 0 <= i < |envs| => if envs[i].fails then None else Some(FetchResult(envs[i])))
  }

  /** Which of the eight days are open: a day is open when its fetch comes
      back with at least one slot. */
  function OpenDays(outcomes: seq<Option<seq<Slot>>>): (r: seq<bool>)
    ensures |r| == |outcomes|
    ensures forall j :: 0 <= j < |outcomes| ==> (r[j] <==> outcomes[j].Some? && outcomes[j].value != [])
  {
    if outcomes == [] then [] else [outcomes[0].Some? && outcomes[0].value != []] + OpenDays(outcomes[1..])
  }

  /** A day is open exactly when its fetch returns a slot: a failed fetch
      returns the empty list. */
  lemma OpenIffSlots(envs: seq<FetchEnv>, j: nat)
    requires j < |envs|
    ensures OpenDays(Outcomes(envs))[j] <==> FetchResult(envs[j]) != []
  {
  }

  /** The first open day from `i` on, if any. */
  function FirstOpenDay(open: seq<bool>, i: nat): (r: Option<nat>)
    requires i <= |open|
    ensures r.Some? ==> i <= r.value < |open| && open[r.value]
    ensures r.Some? ==> forall j :: i <= j < r.value ==> !open[j]
    ensures r.None? ==> forall j :: i <= j < |open| ==> !open[j]
    decreases |open| - i
  {
    if i == |open| then None
    else if open[i] then Some(i)
    else FirstOpenDay(open, i + 1)
  }

  /** What the availability area shows. */
  datatype Badge = Loading | AvailableToday | NextAvailable(date: Date) | Unavailable

  predicate TruthyFlag(b: Option<bool>) { b == Some(true) }
  predicate TruthyDate(d: Option<Date>) { d.Some? && d.value != "" }

  /** `getAvailabilityDisplay`: loading, then today, then the next date, then unavailable. */
  function AvailabilityDisplay(loading: bool, availableToday: Option<bool>, nextAvailable: Option<Date>): (r: Badge)
    ensures r == Loading <==> loading
    ensures r == AvailableToday <==> !loading && availableToday == Some(true)
    ensures r.NextAvailable? <==> !loading && availableToday != Some(true) && nextAvailable.Some? && nextAvailable.value != ""
    ensures r.NextAvailable? ==> nextAvailable == Some(r.date)
  {
    if loading then Loading
    else if TruthyFlag(availableToday) then AvailableToday
    else if TruthyDate(nextAvailable) then NextAvailable(nextAvailable.value)
    else Unavailable
  }

  /** The book button's `isDisabled`. */
  predicate BookDisabled(showAvailability: bool, availableToday: Option<bool>, nextAvailable: Option<Date>)
  {
    showAvailability && !TruthyFlag(availableToday) && !TruthyDate(nextAvailable)
  }

  /** When the badge is shown and not loading, the button is disabled exactly
      when the badge reads 'Unavailable'. */
  lemma DisabledIffUnavailable(loading: bool, availableToday: Option<bool>, nextAvailable: Option<Date>)
    requires !loading
    ensures BookDisabled(true, availableToday, nextAvailable) <==> AvailabilityDisplay(loading, availableToday, nextAvailable) == Unavailable
  {
  }

  /** The store's data after the card's first `n` fetches for doctor `d`:
      a successful fetch writes its list under its date, a failed one
      writes nothing. */
  function DataAfterFetches(data: Snapshot, d: DoctorId, dates: seq<Date>, outcomes: seq<Option<seq<Slot>>>, n: nat): Snapshot
    requires n <= |dates| && n <= |outcomes|
  {
    if n == 0 then data
    else
      var prev := DataAfterFetches(data, d, dates, outcomes, n - 1);
      match outcomes[n - 1]
      case None => prev
      case Some(slots) => Store(prev, d, dates[n - 1], slots)
  }

  /** What the card's first `n` fetches deliver, in order: each successful
      fetch notifies every subscriber of `d`; a failed one notifies no one. */
  function FetchDeliveries(subs: map<DoctorId, seq<Callback>>, d: DoctorId, dates: seq<Date>, outcomes: seq<Option<seq<Slot>>>, now: int, n: nat): seq<Delivery>
    requires n <= |dates| && n <= |outcomes|
  {
    if n == 0 then []
    else
      FetchDeliveries(subs, d, dates, outcomes, now, n - 1)
      + match outcomes[n - 1]
        case None => []
        case Some(slots) => Notify(subs, d, Update(d, dates[n - 1], slots, now))
  }

  /** One more fetch: a failed fetch changes nothing, a successful one
      stores its list and notifies the doctor's subscribers. */
  lemma FetchStep(data: Snapshot, subs: map<DoctorId, seq<Callback>>, d: DoctorId, dates: seq<Date>, outcomes: seq<Option<seq<Slot>>>, now: int, i: nat)
    requires i < |dates| && i < |outcomes|
    ensures outcomes[i].None? ==>
      && DataAfterFetches(data, d, dates, outcomes, i + 1) == DataAfterFetches(data, d, dates, outcomes, i)
      && FetchDeliveries(subs, d, dates, outcomes, now, i + 1) == FetchDeliveries(subs, d, dates, outcomes, now, i)
    ensures outcomes[i].Some? ==>
      && DataAfterFetches(data, d, dates, outcomes, i + 1)
         == Store(DataAfterFetches(data, d, dates, outcomes, i), d, dates[i], outcomes[i].value)
      && FetchDeliveries(subs, d, dates, outcomes, now, i + 1)
         == FetchDeliveries(subs, d, dates, outcomes, now, i) + Notify(subs, d, Update(d, dates[i], outcomes[i].value, now))
  {
  }

  /** A successful fetch whose date is not fetched again leaves its list in
      the store. */
  lemma {:induction false} FetchedDateHoldsResult(data: Snapshot, d: DoctorId, dates: seq<Date>, outcomes: seq<Option<seq<Slot>>>, n: nat, k: nat)
    requires n <= |dates| && n <= |outcomes| && k < n
    requires outcomes[k].Some?
    requires forall j :: k < j < n ==> dates[j] != dates[k]
    ensures Lookup(DataAfterFetches(data, d, dates, outcomes, n), d, dates[k]) == outcomes[k].value
  {
    if n - 1 != k {
      FetchedDateHoldsResult(data, d, dates, outcomes, n - 1, k);
      if outcomes[n - 1].Some? {
        StoreLeavesOthers(DataAfterFetches(data, d, dates, outcomes, n - 1), d, dates[n - 1], outcomes[n - 1].value, d, dates[k]);
      }
    }
  }

  /** The fetches touch no other doctor and no date they did not fetch. */
  lemma {:induction false} FetchesLeaveOthers(data: Snapshot, d: DoctorId, dates: seq<Date>, outcomes: seq<Option<seq<Slot>>>, n: nat, d2: DoctorId, t2: Date)
    requires n <= |dates| && n <= |outcomes|
    requires d2 != d || forall j :: 0 <= j < n ==> dates[j] != t2
    ensures Lookup(DataAfterFetches(data, d, dates, outcomes, n), d2, t2) == Lookup(data, d2, t2)
  {
    if n > 0 {
      FetchesLeaveOthers(data, d, dates, outcomes, n - 1, d2, t2);
      if outcomes[n - 1].Some? {
        StoreLeavesOthers(DataAfterFetches(data, d, dates, outcomes, n - 1), d, dates[n - 1], outcomes[n - 1].value, d2, t2);
      }
    }
  }

  /** Every delivery goes to a subscriber of the card's doctor and carries
      the list of one successful fetch, under that fetch's date. */
  lemma {:induction false} FetchDeliveriesReachOnlyThatDoctor(subs: map<DoctorId, seq<Callback>>, d: DoctorId, dates: seq<Date>, outcomes: seq<Option<seq<Slot>>>, now: int, n: nat)
    requires n <= |dates| && n <= |outcomes|
    ensures forall x :: x in FetchDeliveries(subs, d, dates, outcomes, now, n) ==>
      && x.callback in SubscribersOf(subs, d)
      && x.update.doctorId == d
      && x.update.timestamp == now
      && exists j :: 0 <= j < n && outcomes[j] == Some(x.update.slots) && x.update.date == dates[j]
  {
    if n > 0 {
      FetchDeliveriesReachOnlyThatDoctor(subs, d, dates, outcomes, now, n - 1);
      forall x | x in FetchDeliveries(subs, d, dates, outcomes, now, n)
        ensures x.callback in SubscribersOf(subs, d) && x.update.doctorId == d && x.update.timestamp == now
        ensures exists j :: 0 <= j < n && outcomes[j] == Some(x.update.slots) && x.update.date == dates[j]
      {
        if x !in FetchDeliveries(subs, d, dates, outcomes, now, n - 1) {
          var u := Update(d, dates[n - 1], outcomes[n - 1].value, now);
          var i :| 0 <= i < |Notify(subs, d, u)| && Notify(subs, d, u)[i] == x;
          assert x.update == u;
        }
      }
    }
  }

  class Card {
    const doctorId: DoctorId
    const showAvailability: bool
    var availableToday: Option<bool>
    var nextAvailable: Option<Date>

    constructor (doctorId: DoctorId, showAvailability: bool)
      ensures this.doctorId == doctorId && this.showAvailability == showAvailability
      ensures availableToday == None && nextAvailable == None
    {
      this.doctorId := doctorId;
      this.showAvailability := showAvailability;
      availableToday := None;
      nextAvailable := None;
    }

    /** The store after the card's first `n` fetches, from the data `data0`
        and the subscribers `subs0` it had before them, with `sent` what
        those fetches delivered. After a fetch `loading` is false and
        `error` is set exactly when that fetch failed. */
    ghost predicate AfterFetches(store: AvailabilityStore, dates: seq<Date>, envs: seq<FetchEnv>, now: int, n: nat,
                                 data0: Snapshot, subs0: map<DoctorId, seq<Callback>>, sent: seq<Delivery>)
      reads store
      requires n <= |dates| && n <= |envs|
    {
      && store.subscribers == subs0
      && store.data == DataAfterFetches(data0, doctorId, dates, Outcomes(envs), n)
      && sent == FetchDeliveries(subs0, doctorId, dates, Outcomes(envs), now, n)
      && (n > 0 ==> !store.loading && (store.error.Some? <==> envs[n - 1].fails))
      && (n > 0 ==> store.error.Some? ==> store.error == Some(FetchError))
    }

    /** One `await fetchDoctorAvailability(doctor.id, dateStr)` of the card,
        the `i`-th of its search: the store and the deliveries move on by
        exactly one fetch. */
    method FetchDay(store: AvailabilityStore, dates: seq<Date>, envs: seq<FetchEnv>, now: int, i: nat,
                    ghost data0: Snapshot, ghost subs0: map<DoctorId, seq<Callback>>, sent: seq<Delivery>)
      returns (slots: seq<Slot>, delivered: seq<Delivery>)
      requires i < |dates| && i < |envs|
      requires AfterFetches(store, dates, envs, now, i, data0, subs0, sent)
      modifies store
      ensures slots == FetchResult(envs[i])
      ensures |slots| > 0 <==> OpenDays(Outcomes(envs))[i]
      ensures AfterFetches(store, dates, envs, now, i + 1, data0, subs0, delivered)
    {
      ghost var outs := Outcomes(envs);
      var more;
      slots, more := store.Fetch(doctorId, dates[i], envs[i], now);
      assert outs[i] == if envs[i].fails then None else Some(slots);
      FetchStep(data0, subs0, doctorId, dates, outs, now, i);
      delivered := sent + more;
    }

    /** `checkAvailability`: returns the number of fetches made and the
        deliveries those fetches sent to the doctor's subscribers. */
    method CheckAvailability(store: AvailabilityStore, dates: seq<Date>, envs: seq<FetchEnv>, now: int)
      returns (fetches: nat, delivered: seq<Delivery>)
      requires |dates| == 8 && |envs| == 8
      modifies this, store
      ensures !showAvailability ==> fetches == 0 && availableToday == old(availableToday) && nextAvailable == old(nextAvailable)
      ensures !showAvailability ==> store.data == old(store.data)
      ensures !showAvailability ==> store.loading == old(store.loading) && store.error == old(store.error)
      ensures showAvailability ==> availableToday == Some(FetchResult(envs[0]) != [])
      ensures showAvailability && FetchResult(envs[0]) != [] ==> fetches == 1 && nextAvailable == old(nextAvailable)
      ensures showAvailability && FetchResult(envs[0]) == [] ==>
        match FirstOpenDay(OpenDays(Outcomes(envs)), 1)
        case Some(j) => nextAvailable == Some(dates[j]) && fetches == j + 1
        case None => nextAvailable == old(nextAvailable) && fetches == 8
      ensures fetches <= 8
      ensures showAvailability ==> 1 <= fetches
      ensures AfterFetches(store, dates, envs, now, fetches, old(store.data), old(store.subscribers), delivered)
      ensures store.subscribers == old(store.subscribers)
      ensures store.data == DataAfterFetches(old(store.data), doctorId, dates, Outcomes(envs), fetches)
      ensures delivered == FetchDeliveries(old(store.subscribers), doctorId, dates, Outcomes(envs), now, fetches)
    {
      fetches := 0;
      delivered := [];
      if !showAvailability {
        return;
      }
      var todaySlots;
      todaySlots, delivered := FetchDay(store, dates, envs, now, 0, old(store.data), old(store.subscribers), delivered);
      fetches := 1;
      availableToday := Some(|todaySlots| > 0);
      if |todaySlots| == 0 {
        var i := 1;
        while i <= 7
          invariant 1 <= i <= 8 && fetches == i
          invariant FirstOpenDay(OpenDays(Outcomes(envs)), 1) == FirstOpenDay(OpenDays(Outcomes(envs)), i)
          invariant nextAvailable == old(nextAvailable)
          invariant availableToday == Some(FetchResult(envs[0]) != [])
          invariant AfterFetches(store, dates, envs, now, i, old(store.data), old(store.subscribers), delivered)
        {
          var slots;
          slots, delivered := FetchDay(store, dates, envs, now, i, old(store.data), old(store.subscribers), delivered);
          fetches := fetches + 1;
          if |slots| > 0 {
            nextAvailable := Some(dates[i]);
            break;
          }
          i := i + 1;
        }
      }
    }

    /** The badge the card shows (DoctorCard.js renders it only when
        `showAvailability` holds): it reads 'loading' exactly while the store
        loads, and once loaded it reads 'Unavailable' exactly when the book
        button is disabled. */
    function Display(loading: bool): (r: Badge)
      reads this
      ensures r == Loading <==> loading
      ensures showAvailability && !loading ==>
        (r == Unavailable <==> BookDisabled(showAvailability, availableToday, nextAvailable))
      ensures r.NextAvailable? ==> nextAvailable == Some(r.date)
    {
      AvailabilityDisplay(loading, availableToday, nextAvailable)
    }
  }
}
