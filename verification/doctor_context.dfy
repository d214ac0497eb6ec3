/** The doctor directory's filters (src/context/DoctorContext.js): a filter
    object merged key by key, and the filter over the loaded doctors by
    specialization, search text and availability. Loading the doctors reads
    a file and is not part of this model. */
module DoctorContext {
  import opened Common

  datatype Doctor = Doctor(id: int, name: string, specialization: string, availableSlots: seq<string>)

  type Filters = map<string, string>

  const InitialFilters: Filters := map["specialization" := "all", "searchQuery" := "", "availability" := "all"]

  /** The three rules of `getFilteredDoctors`. */
  predicate Keeps(specialization: string, searchQuery: string, availability: string, d: Doctor)
  {
    && (specialization == "all" || Lower(d.specialization) == Lower(specialization))
    && (searchQuery == "" || ContainsIgnoringCase(d.name, searchQuery) || ContainsIgnoringCase(d.specialization, searchQuery))
    && (availability != "available" || |d.availableSlots| != 0)
  }

  function KeepFn(specialization: string, searchQuery: string, availability: string): Doctor -> bool
  {
    d => Keeps(specialization, searchQuery, availability, d)
  }

  /** `getFilteredDoctors`. */
  function FilterDoctors(doctors: seq<Doctor>, specialization: string, searchQuery: string, availability: string): seq<Doctor>
  {
    Filter(KeepFn(specialization, searchQuery, availability), doctors)
  }

  /** The result keeps the doctors' order, and a doctor is in it exactly when
      it passes all three rules. */
  lemma FilterDoctorsSpec(doctors: seq<Doctor>, specialization: string, searchQuery: string, availability: string, d: Doctor)
    ensures IsSubsequence(FilterDoctors(doctors, specialization, searchQuery, availability), doctors)
    ensures d in FilterDoctors(doctors, specialization, searchQuery, availability) <==>
      d in doctors
      && (specialization == "all" || Lower(d.specialization) == Lower(specialization))
      && (searchQuery == "" || ContainsIgnoringCase(d.name, searchQuery) || ContainsIgnoringCase(d.specialization, searchQuery))
      && (availability != "available" || |d.availableSlots| != 0)
  {
    FilterIsSubsequence(KeepFn(specialization, searchQuery, availability), doctors);
    FilterMembership(KeepFn(specialization, searchQuery, availability), doctors, d);
  }

  /** Under the initial filters every doctor is shown. */
  lemma InitialFiltersKeepAll(doctors: seq<Doctor>)
    ensures FilterDoctors(doctors, InitialFilters["specialization"], InitialFilters["searchQuery"],
                          InitialFilters["availability"]) == doctors
  {
    FilterAllKept(KeepFn("all", "", "all"), doctors);
  }

  class Directory {
    var doctors: seq<Doctor>
    var filters: Filters

    /** The three filter keys are always present. */
    predicate Valid()
      reads this
    {
      InitialFilters.Keys <= filters.Keys
    }

    constructor (doctors: seq<Doctor>)
      ensures Valid() && this.doctors == doctors && filters == InitialFilters
    {
      this.doctors := doctors;
      filters := InitialFilters;
    }

    /** `updateFilters(newFilters)`. */
    method UpdateFilters(newFilters: Filters)
      requires Valid()
      modifies this
      ensures Valid()
      ensures filters == Spread(old(filters), newFilters) && doctors == old(doctors)
    {
      filters := Spread(filters, newFilters);
    }

    /** `getFilteredDoctors()`. */
    function Filtered(): (r: seq<Doctor>)
      requires Valid()
      reads this
      ensures IsSubsequence(r, doctors)
    {
      FilterDoctorsSpec(doctors, filters["specialization"], filters["searchQuery"], filters["availability"], Doctor(0, "", "", []));
      FilterDoctors(doctors, filters["specialization"], filters["searchQuery"], filters["availability"])
    }
  }
}
