/** The medical reports list (src/components/profile/MedicalReportsList.js):
    search over title and doctor name, and a status filter. */
module MedicalReports {
  import opened Common

  datatype Report = Report(id: int, title: string, date: string, doctorName: string, status: string)

  predicate Keeps(term: string, filter: string, r: Report)
  {
    (ContainsIgnoringCase(r.title, term) || ContainsIgnoringCase(r.doctorName, term))
    && (filter == "all" || r.status == filter)
  }

  function KeepFn(term: string, filter: string): Report -> bool
  {
    r => Keeps(term, filter, r)
  }

  /** `filteredReports`. */
  function FilteredReports(reports: seq<Report>, term: string, filter: string): seq<Report>
  {
    Filter(KeepFn(term, filter), reports)
  }

  /** The result keeps the reports' order and holds exactly the reports whose
      title or doctor matches and whose status passes the filter. */
  lemma FilteredReportsSpec(reports: seq<Report>, term: string, filter: string, r: Report)
    ensures IsSubsequence(FilteredReports(reports, term, filter), reports)
    ensures r in FilteredReports(reports, term, filter) <==>
      r in reports && (ContainsIgnoringCase(r.title, term) || ContainsIgnoringCase(r.doctorName, term))
      && (filter == "all" || r.status == filter)
  {
    FilterIsSubsequence(KeepFn(term, filter), reports);
    FilterMembership(KeepFn(term, filter), reports, r);
  }

  /** An empty search on 'all' lists every report. */
  lemma EmptySearchKeepsAll(reports: seq<Report>)
    ensures FilteredReports(reports, "", "all") == reports
  {
    forall i | 0 <= i < |reports| ensures Keeps("", "all", reports[i]) {
      ContainsEmpty(reports[i].title);
    }
    FilterAllKept(KeepFn("", "all"), reports);
  }
}
