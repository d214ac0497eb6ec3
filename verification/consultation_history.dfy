/** The consultation history (src/components/profile/ConsultationHistoryView.js):
    search over doctor, specialty and diagnosis, a status filter, and a sort by
    date or by doctor. `new Date(text)` is the caller-supplied `parse`;
    `localeCompare` is approximated by code-point order. */
module ConsultationHistory {
  import opened Common
  import opened Sorting

  datatype Consultation = Consultation(id: int, doctorName: string, doctorSpecialty: string,
                                       date: string, status: string, diagnosis: Option<string>)

  /** The search: name, specialty, or a diagnosis that is present, ignoring case. */
  predicate MatchesSearch(term: string, c: Consultation)
  {
    || ContainsIgnoringCase(c.doctorName, term)
    || ContainsIgnoringCase(c.doctorSpecialty, term)
    || (c.diagnosis.Some? && ContainsIgnoringCase(c.diagnosis.value, term))
  }

  /** The status tabs. */
  predicate MatchesFilter(filter: string, c: Consultation)
  {
    || filter == "all"
    || (filter == "upcoming" && c.status == "scheduled")
    || (filter == "completed" && c.status == "completed")
  }

  function KeepFn(term: string, filter: string): Consultation -> bool
  {
    c => MatchesSearch(term, c) && MatchesFilter(filter, c)
  }

  function DateKeyFn(parse: string -> Option<int>): Consultation -> Option<int>
  {
    (c: Consultation) => parse(c.date)
  }

  function NameOf(c: Consultation): string { c.doctorName }

  /** The sort step; any other `sortBy` compares everything equal, which a
      stable `Array.prototype.sort` leaves in place. */
  function Ordered(kept: seq<Consultation>, sortBy: string, parse: string -> Option<int>): (r: seq<Consultation>)
    ensures multiset(r) == multiset(kept)
  {
    if sortBy == "date" then Sort(kept, DateKeyFn(parse), NewestFirst)
    else if sortBy == "doctor" then Sort(kept, NameOf, LexLe)
    else kept
  }

  /** `filteredConsultations`: filter, then sort. */
  function FilteredConsultations(all: seq<Consultation>, term: string, filter: string, sortBy: string,
                                 parse: string -> Option<int>): (r: seq<Consultation>)
    ensures multiset(r) <= multiset(all)
  {
    FilterSubMultiset(KeepFn(term, filter), all);
    Ordered(Filter(KeepFn(term, filter), all), sortBy, parse)
  }

  /** A consultation is listed exactly when it matches the search and the tab;
      the listing is a permutation of those consultations. */
  lemma ListingSpec(all: seq<Consultation>, term: string, filter: string, sortBy: string,
                    parse: string -> Option<int>, c: Consultation)
    ensures multiset(FilteredConsultations(all, term, filter, sortBy, parse)) == multiset(Filter(KeepFn(term, filter), all))
    ensures c in FilteredConsultations(all, term, filter, sortBy, parse) <==>
      c in all && MatchesSearch(term, c) && MatchesFilter(filter, c)
  {
    var kept := Filter(KeepFn(term, filter), all);
    FilterMembership(KeepFn(term, filter), all, c);
    var r := FilteredConsultations(all, term, filter, sortBy, parse);
    assert multiset(r) == multiset(kept);
    assert c in r <==> c in multiset(r);
  }

  /** A missing diagnosis never makes a consultation match by itself, and the
      empty search matches everything. */
  lemma DiagnosisRule(term: string, c: Consultation)
    ensures c.diagnosis.None? ==>
      (MatchesSearch(term, c) <==> ContainsIgnoringCase(c.doctorName, term) || ContainsIgnoringCase(c.doctorSpecialty, term))
    ensures MatchesSearch("", c)
  {
    ContainsEmpty(c.doctorName);
  }

  /** 'doctor' lists names in ascending order. */
  lemma DoctorOrder(all: seq<Consultation>, term: string, filter: string, parse: string -> Option<int>)
    ensures var r := FilteredConsultations(all, term, filter, "doctor", parse);
      forall i, j :: 0 <= i < j < |r| ==> LexLe(r[i].doctorName, r[j].doctorName)
  {
    LexIsTotalPreorder();
    SortSorted(Filter(KeepFn(term, filter), all), NameOf, LexLe);
  }

  /** An order on the date keys is the same order on the parsed dates. */
  lemma DatesFromKeys(r: seq<Consultation>, parse: string -> Option<int>)
    requires forall i, j :: 0 <= i < j < |r| ==> NotOlder(DateKeyFn(parse)(r[i]), DateKeyFn(parse)(r[j]))
    ensures forall i, j :: 0 <= i < j < |r| ==> NotOlder(parse(r[i].date), parse(r[j].date))
  {
    forall i, j | 0 <= i < j < |r|
      ensures NotOlder(parse(r[i].date), parse(r[j].date))
    {
      assert NotOlder(DateKeyFn(parse)(r[i]), DateKeyFn(parse)(r[j]));
    }
  }

  /** 'date' is the newest-first sort of the kept consultations. */
  lemma DateIsSort(all: seq<Consultation>, term: string, filter: string, parse: string -> Option<int>)
    ensures FilteredConsultations(all, term, filter, "date", parse)
         == Sort(Filter(KeepFn(term, filter), all), DateKeyFn(parse), NewestFirst)
  {
  }

  /** When every date parses, 'date' lists the newest first. */
  lemma DateOrder(all: seq<Consultation>, term: string, filter: string, parse: string -> Option<int>)
    requires forall c :: c in all ==> parse(c.date).Some?
    ensures var r := FilteredConsultations(all, term, filter, "date", parse);
      forall i, j :: 0 <= i < j < |r| ==> NotOlder(parse(r[i].date), parse(r[j].date))
  {
    var kept := Filter(KeepFn(term, filter), all);
    var r := FilteredConsultations(all, term, filter, "date", parse);
    forall c | c in kept ensures DateKeyFn(parse)(c).Some? {
      FilterMembership(KeepFn(term, filter), all, c);
    }
    DateIsSort(all, term, filter, parse);
    NewestFirstOrder(kept, DateKeyFn(parse), r);
    DatesFromKeys(r, parse);
  }

  /** The card's "upcoming" look. */
  predicate CardIsUpcoming(c: Consultation)
  {
    c.status == "scheduled"
  }

  /** The 'upcoming' tab lists exactly the matching consultations whose cards look upcoming. */
  lemma UpcomingTabMatchesCards(all: seq<Consultation>, term: string, sortBy: string, parse: string -> Option<int>, c: Consultation)
    ensures c in FilteredConsultations(all, term, "upcoming", sortBy, parse) <==>
      c in all && MatchesSearch(term, c) && CardIsUpcoming(c)
  {
    ListingSpec(all, term, "upcoming", sortBy, parse, c);
  }
}
