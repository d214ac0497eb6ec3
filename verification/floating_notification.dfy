/** The floating appointment button (src/components/notifications/FloatingNotification.js):
    a click toggles the details panel and, with a single appointment, selects
    it; the overlay closes and clears; a list item selects its appointment. */
module FloatingNotification {
  import opened Common

  /** The noun after the count: singular exactly for one appointment. */
  function Noun(count: nat): (r: string)
    ensures r == "appointment" <==> count == 1
    ensures r == "appointment" || r == "appointments"
  {
    "appointment" + (if count != 1 then "s" else "")
  }

  /** What a click on the button does to the open flag and the selection:
      the flag flips, and a lone appointment becomes the selection. */
  function Clicked<A>(appointments: seq<A>, isOpen: bool, selected: Option<A>): (r: (bool, Option<A>))
    ensures r.0 == !isOpen
    ensures |appointments| == 1 ==> r.1 == Some(appointments[0])
    ensures |appointments| != 1 ==> r.1 == selected
  {
    (!isOpen, if |appointments| == 1 then Some(appointments[0]) else selected)
  }

  /** Two clicks leave the panel as open or closed as it was, and the
      selection as the first click left it. */
  lemma ClickTwice<A>(appointments: seq<A>, isOpen: bool, selected: Option<A>)
    ensures var once := Clicked(appointments, isOpen, selected);
      var twice := Clicked(appointments, once.0, once.1);
      twice.0 == isOpen && twice.1 == once.1
  {
  }

  class Panel<A> {
    const appointments: seq<A>
    var isOpen: bool
    var selected: Option<A>

    constructor (appointments: seq<A>)
      ensures this.appointments == appointments && !isOpen && selected == None
    {
      this.appointments := appointments;
      isOpen := false;
      selected := None;
    }

    /** `handleNotificationClick`. */
    method Click()
      modifies this
      ensures (isOpen, selected) == Clicked(appointments, old(isOpen), old(selected))
    {
      if |appointments| == 1 {
        selected := Some(appointments[0]);
      }
      isOpen := !isOpen;
    }

    /** Clicking the overlay. */
    method OverlayClick()
      modifies this
      ensures !isOpen && selected == None
    {
      isOpen := false;
      selected := None;
    }

    /** Clicking list item `index`. */
    method SelectItem(index: nat)
      requires index < |appointments|
      modifies this
      ensures selected == Some(appointments[index]) && isOpen == old(isOpen)
    {
      selected := Some(appointments[index]);
    }
  }
}
