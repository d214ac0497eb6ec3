/** The self-checkup guide (src/pages/SelfCheckup.js): each topic's "read
    more" toggle, kept in a map from topic id to a flag. A missing id reads
    as `undefined`, which is falsy. */
module SelfCheckup {

  /** `!!expandedItems[id]`: whether the topic's full content and tips show. */
  function Expanded(items: map<int, bool>, id: int): bool
  {
    id in items && items[id]
  }

  /** `{ ...prev, [id]: !prev[id] }`. */
  function Toggled(items: map<int, bool>, id: int): (r: map<int, bool>)
    ensures Expanded(r, id) == !Expanded(items, id)
    ensures forall k :: k != id ==> (k in r <==> k in items) && (k in items ==> r[k] == items[k])
  {
    items[id := !Expanded(items, id)]
  }

  /** Toggling twice shows the same content as before, for every topic. */
  lemma ToggleTwice(items: map<int, bool>, id: int)
    ensures forall k :: Expanded(Toggled(Toggled(items, id), id), k) == Expanded(items, k)
  {
  }

  class Guide {
    var expandedItems: map<int, bool>

    constructor ()
      ensures expandedItems == map[]
    {
      expandedItems := map[];
    }

    /** `toggleContent(id)`. */
    method ToggleContent(id: int)
      modifies this
      ensures expandedItems == Toggled(old(expandedItems), id)
      ensures Expanded(expandedItems, id) == !Expanded(old(expandedItems), id)
      ensures forall k :: k != id ==> Expanded(expandedItems, k) == Expanded(old(expandedItems), k)
    {
      expandedItems := Toggled(expandedItems, id);
    }
  }
}
