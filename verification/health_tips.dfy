/** The health tips page (src/pages/HealthTips.js): search over title,
    description and category, and the tip opened by a click. */
module HealthTips {
  import opened Common

  datatype Tip = Tip(id: int, title: string, description: string, category: string)

  predicate Matches(term: string, t: Tip)
  {
    ContainsIgnoringCase(t.title, term) || ContainsIgnoringCase(t.description, term)
    || ContainsIgnoringCase(t.category, term)
  }

  function MatchFn(term: string): Tip -> bool
  {
    t => Matches(term, t)
  }

  /** `filteredTips`. */
  function FilteredTips(tips: seq<Tip>, term: string): seq<Tip>
  {
    Filter(MatchFn(term), tips)
  }

  /** The result keeps the tips' order and holds exactly the matching tips;
      the empty search keeps them all. */
  lemma FilteredTipsSpec(tips: seq<Tip>, term: string, t: Tip)
    ensures IsSubsequence(FilteredTips(tips, term), tips)
    ensures t in FilteredTips(tips, term) <==> t in tips && Matches(term, t)
    ensures FilteredTips(tips, "") == tips
  {
    FilterIsSubsequence(MatchFn(term), tips);
    FilterMembership(MatchFn(term), tips, t);
    forall i | 0 <= i < |tips| ensures Matches("", tips[i]) {
      ContainsEmpty(tips[i].title);
    }
    FilterAllKept(MatchFn(""), tips);
  }

  class Page {
    var selectedTip: Option<Tip>
    var isOpen: bool

    constructor ()
      ensures selectedTip == None && !isOpen
    {
      selectedTip := None;
      isOpen := false;
    }

    /** `handleTipClick(tip)`: the tip is selected and the dialog opens. */
    method TipClick(tip: Tip)
      modifies this
      ensures selectedTip == Some(tip) && isOpen
    {
      selectedTip := Some(tip);
      isOpen := true;
    }
  }
}
