/** The notification drawer (src/components/notifications/NotificationCenter.js):
    its filter tabs, the bell's unread badge, and where each action leads.
    The drawer works on its own fixed sample list; navigation is returned as
    a value. */
module NotificationCenter {
  import opened Common

  datatype Notice = Notice(id: int, kind: string, isRead: bool)

  /** The sample list the drawer shows (titles, messages and times left out). */
  const Sample: seq<Notice> := [Notice(1, "appointment", false), Notice(2, "reminder", true), Notice(3, "alert", false)]

  /** Whether the tab `filter` shows `n`. */
  predicate Shows(filter: string, n: Notice)
  {
    if filter == "unread" then !n.isRead
    else if filter == "appointments" then n.kind == "appointment"
    else if filter == "reminders" then n.kind == "reminder"
    else true
  }

  function ShowsFn(filter: string): Notice -> bool
  {
    n => Shows(filter, n)
  }

  /** `filteredNotifications`. */
  function Filtered(list: seq<Notice>, filter: string): seq<Notice>
  {
    Filter(ShowsFn(filter), list)
  }

  /** Each tab keeps the list's order, adds nothing, and keeps exactly the
      notices its rule accepts; any other tab keeps everything. */
  lemma FilterTabs(list: seq<Notice>, filter: string, n: Notice)
    ensures IsSubsequence(Filtered(list, filter), list)
    ensures filter == "unread" ==> (n in Filtered(list, filter) <==> n in list && !n.isRead)
    ensures filter == "appointments" ==> (n in Filtered(list, filter) <==> n in list && n.kind == "appointment")
    ensures filter == "reminders" ==> (n in Filtered(list, filter) <==> n in list && n.kind == "reminder")
    ensures filter !in {"unread", "appointments", "reminders"} ==> Filtered(list, filter) == list
  {
    FilterIsSubsequence(ShowsFn(filter), list);
    FilterMembership(ShowsFn(filter), list, n);
    if filter !in {"unread", "appointments", "reminders"} {
      FilterAllKept(ShowsFn(filter), list);
    }
  }

  function UnreadFn(): Notice -> bool
  {
    (n: Notice) => !n.isRead
  }

  /** The bell badge: the unread count, drawn only when it is above zero. */
  function Badge(list: seq<Notice>): (b: Option<nat>)
    ensures b.Some? ==> b.value > 0 && b.value == |Filtered(list, "unread")|
    ensures b.None? <==> forall i :: 0 <= i < |list| ==> list[i].isRead
  {
    var unread := Count(UnreadFn(), list);
    FilterCountsMatches(ShowsFn("unread"), list);
    CountMatchesUnread(list);
    if unread > 0 then Some(unread) else None
  }

  lemma {:induction false} CountMatchesUnread(list: seq<Notice>)
    ensures Count(UnreadFn(), list) == Count(ShowsFn("unread"), list)
    ensures Count(UnreadFn(), list) == 0 <==> forall i :: 0 <= i < |list| ==> list[i].isRead
  {
    if list != [] {
      CountMatchesUnread(list[1..]);
      assert forall i :: 0 < i < |list| ==> list[i] == list[1..][i - 1];
    }
  }

  /** The sample list shows a badge of two. */
  lemma SampleBadge()
    ensures Badge(Sample) == Some(2)
  {
    assert Sample[1..][1..][1..] == [];
    assert Count(UnreadFn(), Sample[1..][1..]) == 1;
    assert Count(UnreadFn(), Sample[1..]) == 1;
  }

  /** A navigation: the path and, for a reschedule, the notice id passed in state. */
  datatype Navigation = Navigation(path: string, reschedule: Option<int>)

  const AppointmentsPath: string := "/profile/appointments"

  /** `handleAction(notification, action)`: where it navigates (if anywhere);
      the drawer closes after every action. */
  function HandleAction(n: Notice, action: string): (r: (Option<Navigation>, bool))
    ensures !r.1
    ensures r.0.Some? <==> (action == "view" && n.kind == "appointment") || action == "reschedule"
    ensures action == "reschedule" ==> r.0 == Some(Navigation(AppointmentsPath, Some(n.id)))
    ensures action == "view" && n.kind == "appointment" ==> r.0 == Some(Navigation(AppointmentsPath, None))
  {
    var nav :=
      if action == "view" then (if n.kind == "appointment" then Some(Navigation(AppointmentsPath, None)) else None)
      else if action == "reschedule" then Some(Navigation(AppointmentsPath, Some(n.id)))
      else None;
    (nav, false)
  }

  /** `handleDismiss`: only logs, so the list is what it was. */
  function HandleDismiss(list: seq<Notice>, id: int): (r: seq<Notice>)
    ensures r == list
  {
    list
  }
}
