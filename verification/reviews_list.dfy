/** The review list (src/components/reviews/ReviewsList.js): search, rating
    filter and sort, six reviews per page, a clamped page change, the page
    buttons around the current page, and new reviews put in front.

    `new Date(text)` is the caller-supplied `parse` (`None` for an invalid
    date); the current time and its ISO text are parameters. */
module ReviewsList {
  import opened Common
  import opened Sorting
  import ReviewForm

  const ItemsPerPage: nat := 6

  datatype Review = Review(id: int, patientName: string, rating: int, comment: string,
                           date: string, appointmentId: Option<int>)

  // ------------------------------------------------------------------
  // getFilteredAndSortedReviews
  // ------------------------------------------------------------------

  /** The search: the comment or the patient's name contains the term, ignoring case. */
  predicate MatchesSearch(term: string, r: Review)
  {
    ContainsIgnoringCase(r.comment, term) || ContainsIgnoringCase(r.patientName, term)
  }

  function SearchFn(term: string): Review -> bool
  {
    r => MatchesSearch(term, r)
  }

  /** `review.rating === parseInt(filterRating)`; `NaN` equals nothing. */
  predicate HasRating(wanted: Option<int>, r: Review)
  {
    wanted.Some? && r.rating == wanted.value
  }

  function RatingFn(wanted: Option<int>): Review -> bool
  {
    r => HasRating(wanted, r)
  }

  function RatingOf(r: Review): int { r.rating }

  function DateKeyFn(parse: string -> Option<int>): Review -> Option<int>
  {
    (r: Review) => parse(r.date)
  }

  /** The search step: a non-empty term filters, the empty term keeps all. */
  function Searched(reviews: seq<Review>, term: string): seq<Review>
  {
    if term != "" then Filter(SearchFn(term), reviews) else reviews
  }

  /** The rating step: anything but 'all' filters by the parsed number. */
  function Rated(reviews: seq<Review>, filterRating: string): seq<Review>
  {
    if filterRating != "all" then Filter(RatingFn(ParseInt(filterRating)), reviews) else reviews
  }

  /** The sort step; an unknown `sortBy` leaves the order alone. */
  function Sorted(reviews: seq<Review>, sortBy: string, parse: string -> Option<int>): seq<Review>
  {
    if sortBy == "recent" then Sort(reviews, DateKeyFn(parse), NewestFirst)
    else if sortBy == "rating-high" then Sort(reviews, RatingOf, Descending)
    else if sortBy == "rating-low" then Sort(reviews, RatingOf, Ascending)
    else reviews
  }

  /** `getFilteredAndSortedReviews`. */
  function FilterAndSort(reviews: seq<Review>, term: string, filterRating: string, sortBy: string,
                         parse: string -> Option<int>): (r: seq<Review>)
    ensures multiset(r) <= multiset(reviews)
  {
    var searched := Searched(reviews, term);
    var rated := Rated(searched, filterRating);
    FilterSubMultiset(SearchFn(term), reviews);
    FilterSubMultiset(RatingFn(ParseInt(filterRating)), searched);
    Sorted(rated, sortBy, parse)
  }

  /** A review is in the result exactly when it is a review that passes the
      search (if any) and the rating filter (if any). */
  lemma FilterAndSortMembership(reviews: seq<Review>, term: string, filterRating: string, sortBy: string,
                                parse: string -> Option<int>, x: Review)
    ensures x in FilterAndSort(reviews, term, filterRating, sortBy, parse) <==>
      x in reviews
      && (term != "" ==> MatchesSearch(term, x))
      && (filterRating != "all" ==> HasRating(ParseInt(filterRating), x))
  {
    var searched := Searched(reviews, term);
    var rated := Rated(searched, filterRating);
    FilterMembership(SearchFn(term), reviews, x);
    FilterMembership(RatingFn(ParseInt(filterRating)), searched, x);
    var r := FilterAndSort(reviews, term, filterRating, sortBy, parse);
    assert multiset(r) == multiset(rated);
    assert x in r <==> x in multiset(r);
    assert x in rated <==> x in multiset(rated);
  }

  /** Each review occurs in the result exactly as often as in the list when
      it passes the search (if any) and the rating filter (if any), and not
      at all otherwise: the sort only reorders what the filters kept. */
  lemma FilterAndSortCount(reviews: seq<Review>, term: string, filterRating: string, sortBy: string,
                           parse: string -> Option<int>, x: Review)
    ensures multiset(FilterAndSort(reviews, term, filterRating, sortBy, parse))[x] ==
      if (term != "" ==> MatchesSearch(term, x)) && (filterRating != "all" ==> HasRating(ParseInt(filterRating), x))
      then multiset(reviews)[x] else 0
  {
    var searched := Searched(reviews, term);
    var rated := Rated(searched, filterRating);
    FilterCount(SearchFn(term), reviews, x);
    FilterCount(RatingFn(ParseInt(filterRating)), searched, x);
    assert multiset(FilterAndSort(reviews, term, filterRating, sortBy, parse)) == multiset(rated);
  }

  /** With no search and 'all' ratings, the result reorders every review. */
  lemma NoFiltersKeepsAll(reviews: seq<Review>, sortBy: string, parse: string -> Option<int>)
    ensures multiset(FilterAndSort(reviews, "", "all", sortBy, parse)) == multiset(reviews)
  {
  }

  /** 'rating-high' gives non-increasing ratings and 'rating-low' non-decreasing ones. */
  lemma RatingOrders(reviews: seq<Review>, term: string, filterRating: string, parse: string -> Option<int>)
    ensures var r := FilterAndSort(reviews, term, filterRating, "rating-high", parse);
      forall i, j :: 0 <= i < j < |r| ==> r[i].rating >= r[j].rating
    ensures var r := FilterAndSort(reviews, term, filterRating, "rating-low", parse);
      forall i, j :: 0 <= i < j < |r| ==> r[i].rating <= r[j].rating
  {
    var rated := Rated(Searched(reviews, term), filterRating);
    NumberOrders();
    SortSorted(rated, RatingOf, Descending);
    SortSorted(rated, RatingOf, Ascending);
  }

  /** Every review the two filters keep comes from the list. */
  lemma RatedFromList(reviews: seq<Review>, term: string, filterRating: string, x: Review)
    requires x in Rated(Searched(reviews, term), filterRating)
    ensures x in reviews
  {
    FilterMembership(SearchFn(term), reviews, x);
    FilterMembership(RatingFn(ParseInt(filterRating)), Searched(reviews, term), x);
  }

  /** An order on the date keys is the same order on the parsed dates. */
  lemma DatesFromKeys(r: seq<Review>, parse: string -> Option<int>)
    requires forall i, j :: 0 <= i < j < |r| ==> NotOlder(DateKeyFn(parse)(r[i]), DateKeyFn(parse)(r[j]))
    ensures forall i, j :: 0 <= i < j < |r| ==> NotOlder(parse(r[i].date), parse(r[j].date))
  {
    forall i, j | 0 <= i < j < |r|
      ensures NotOlder(parse(r[i].date), parse(r[j].date))
    {
      assert NotOlder(DateKeyFn(parse)(r[i]), DateKeyFn(parse)(r[j]));
    }
  }

  /** 'recent' is the newest-first sort of the filtered reviews. */
  lemma RecentIsSort(reviews: seq<Review>, term: string, filterRating: string, parse: string -> Option<int>)
    ensures FilterAndSort(reviews, term, filterRating, "recent", parse)
         == Sort(Rated(Searched(reviews, term), filterRating), DateKeyFn(parse), NewestFirst)
  {
  }

  /** When every date parses, 'recent' puts the newest review first. */
  lemma RecentOrder(reviews: seq<Review>, term: string, filterRating: string, parse: string -> Option<int>)
    requires forall x :: x in reviews ==> parse(x.date).Some?
    ensures var r := FilterAndSort(reviews, term, filterRating, "recent", parse);
      forall i, j :: 0 <= i < j < |r| ==> NotOlder(parse(r[i].date), parse(r[j].date))
  {
    var rated := Rated(Searched(reviews, term), filterRating);
    var r := FilterAndSort(reviews, term, filterRating, "recent", parse);
    forall x | x in rated ensures DateKeyFn(parse)(x).Some? {
      RatedFromList(reviews, term, filterRating, x);
    }
    RecentIsSort(reviews, term, filterRating, parse);
    NewestFirstOrder(rated, DateKeyFn(parse), r);
    DatesFromKeys(r, parse);
  }

  // ------------------------------------------------------------------
  // Pagination
  // ------------------------------------------------------------------

  /** `Math.ceil(n / ITEMS_PER_PAGE)`. */
  function TotalPages(n: nat): (pages: nat)
    ensures pages == 0 <==> n == 0
    ensures n > 0 ==> (pages - 1) * ItemsPerPage < n <= pages * ItemsPerPage
  {
    (n + ItemsPerPage - 1) / ItemsPerPage
  }

  /** `Array.prototype.slice(start, end)`: a negative bound counts from the
      end, and bounds are clamped to the list. */
  function JsSlice<T>(s: seq<T>, start: int, end: int): (r: seq<T>)
    ensures |r| <= |s|
  {
    var from := if start < 0 then (if |s| + start < 0 then 0 else |s| + start) else (if start > |s| then |s| else start);
    var to := if end < 0 then (if |s| + end < 0 then 0 else |s| + end) else (if end > |s| then |s| else end);
    if from < to then s[from..to] else []
  }

  /** `paginatedReviews`. */
  function PageOf<T>(s: seq<T>, page: int): seq<T>
  {
    JsSlice(s, (page - 1) * ItemsPerPage, page * ItemsPerPage)
  }

  /** Page `p` (from 1) shows the items at positions (p-1)·6 up to p·6, never
      more than six; page 0 (no reviews at all) shows nothing. */
  lemma PageContents<T>(s: seq<T>, page: int)
    requires page >= 0
    ensures |PageOf(s, page)| <= ItemsPerPage
    ensures page == 0 ==> PageOf(s, page) == []
    ensures page >= 1 && (page - 1) * ItemsPerPage < |s| ==>
      PageOf(s, page) == s[(page - 1) * ItemsPerPage .. if page * ItemsPerPage < |s| then page * ItemsPerPage else |s|]
    ensures page >= 1 && (page - 1) * ItemsPerPage >= |s| ==> PageOf(s, page) == []
  {
  }

  /** The pages of the whole list are its items in order. */
  lemma {:induction false} PagesCoverList<T>(s: seq<T>, page: nat)
    requires 1 <= page
    requires (page - 1) * ItemsPerPage <= |s|
    ensures s[..(page - 1) * ItemsPerPage] + Concat(s, page, TotalPages(|s|)) == s
    decreases TotalPages(|s|) + 1 - page
  {
    if page <= TotalPages(|s|) {
      var lo := (page - 1) * ItemsPerPage;
      var hi := if page * ItemsPerPage < |s| then page * ItemsPerPage else |s|;
      PageContents(s, page);
      if hi == |s| {
        assert page * ItemsPerPage >= |s|;
        assert TotalPages(|s|) == page;
        assert Concat(s, page + 1, TotalPages(|s|)) == [];
      } else {
        PagesCoverList(s, page + 1);
      }
      assert s[..lo] + s[lo..hi] == s[..hi];
    } else {
      assert (page - 1) * ItemsPerPage >= |s|;
    }
  }

  /** Pages `page` to `last`, one after another. */
  function Concat<T>(s: seq<T>, page: nat, last: nat): seq<T>
    decreases last + 1 - page
  {
    if page == 0 || page > last then [] else PageOf(s, page) + Concat(s, page + 1, last)
  }

  /** `handlePageChange`: `Math.min(Math.max(1, newPage), totalPages)`. */
  function ClampPage(newPage: int, totalPages: nat): (page: int)
    ensures totalPages == 0 ==> page == 0
    ensures totalPages >= 1 ==> 1 <= page <= totalPages
    ensures 1 <= newPage <= totalPages ==> page == newPage
    ensures totalPages >= 1 && newPage < 1 ==> page == 1
    ensures totalPages >= 1 && newPage > totalPages ==> page == totalPages
  {
    var atLeastOne := if newPage > 1 then newPage else 1;
    if atLeastOne < totalPages then atLeastOne else totalPages
  }

  /** What the page strip shows for page `p`. */
  datatype PageMark = Numbered | Ellipsis | Hidden

  function Mark(p: int, current: int, totalPages: int): PageMark
  {
    if p == 1 || p == totalPages || (p - current <= 1 && current - p <= 1) then Numbered
    else if p == current - 2 || p == current + 2 then Ellipsis
    else Hidden
  }

  /** The numbered pages are the first, the last, the current and its two
      neighbours; an ellipsis stands exactly two away from the current page. */
  lemma MarkRule(p: int, current: int, totalPages: int)
    ensures Mark(p, current, totalPages) == Numbered <==> p in {1, totalPages, current - 1, current, current + 1}
    ensures Mark(p, current, totalPages) == Ellipsis <==>
      p !in {1, totalPages} && (p == current - 2 || p == current + 2)
  {
  }

  /** Whatever the page count, at most five pages are numbered and at most two ellipses drawn. */
  lemma StripIsBounded(current: int, totalPages: nat)
    ensures |set p | 1 <= p <= totalPages && Mark(p, current, totalPages) == Numbered| <= 5
    ensures |set p | 1 <= p <= totalPages && Mark(p, current, totalPages) == Ellipsis| <= 2
  {
    var numbered := set p | 1 <= p <= totalPages && Mark(p, current, totalPages) == Numbered;
    var ellipses := set p | 1 <= p <= totalPages && Mark(p, current, totalPages) == Ellipsis;
    var five := {1, totalPages, current - 1, current, current + 1};
    var two := {current - 2, current + 2};
    forall p | p in numbered ensures p in five { MarkRule(p, current, totalPages); }
    forall p | p in ellipses ensures p in two { MarkRule(p, current, totalPages); }
    SubsetCard(numbered, five);
    SubsetCard(ellipses, two);
    assert |{1, totalPages} + {current - 1, current}| <= 4;
    assert |five| <= 5 by { assert five == ({1, totalPages} + {current - 1, current}) + {current + 1}; }
  }

  lemma SubsetCard(a: set<int>, b: set<int>)
    requires a <= b
    ensures |a| <= |b|
  {
    assert b == a + (b - a);
  }

  // ------------------------------------------------------------------
  // The list's state
  // ------------------------------------------------------------------

  class Page {
    var reviews: seq<Review>
    var sortBy: string
    var filterRating: string
    var searchTerm: string
    var currentPage: int

    constructor (reviews: seq<Review>)
      ensures this.reviews == reviews && sortBy == "recent" && filterRating == "all"
      ensures searchTerm == "" && currentPage == 1
    {
      this.reviews := reviews;
      sortBy := "recent";
      filterRating := "all";
      searchTerm := "";
      currentPage := 1;
    }

    /** `filteredReviews`. */
    function Visible(parse: string -> Option<int>): (r: seq<Review>)
      reads this
      ensures multiset(r) <= multiset(reviews)
    {
      FilterAndSort(reviews, searchTerm, filterRating, sortBy, parse)
    }

    /** `handleSubmitReview`: the new review goes in front and the first page is shown. */
    method SubmitReview(data: ReviewForm.ReviewPayload, now: int, isoNow: string)
      modifies this
      ensures reviews == [Review(now, "Current User", data.rating, data.comment, isoNow, data.appointmentId)] + old(reviews)
      ensures currentPage == 1
      ensures sortBy == old(sortBy) && filterRating == old(filterRating) && searchTerm == old(searchTerm)
    {
      var newReview := Review(now, "Current User", data.rating, data.comment, isoNow, data.appointmentId);
      reviews := [newReview] + reviews;
      currentPage := 1;
    }

    /** `handlePageChange`. */
    method PageChange(newPage: int, parse: string -> Option<int>)
      modifies this
      ensures currentPage == ClampPage(newPage, TotalPages(|old(Visible(parse))|))
      ensures reviews == old(reviews) && sortBy == old(sortBy) && filterRating == old(filterRating)
      ensures searchTerm == old(searchTerm)
    {
      currentPage := ClampPage(newPage, TotalPages(|Visible(parse)|));
    }

    /** Setting the search, rating filter and sort: the reset effect runs,
        returning to the first page, only when one of them actually changed. */
    method SetFilters(term: string, rating: string, sort: string)
      modifies this
      ensures searchTerm == term && filterRating == rating && sortBy == sort
      ensures reviews == old(reviews)
      ensures term != old(searchTerm) || rating != old(filterRating) || sort != old(sortBy) ==> currentPage == 1
      ensures term == old(searchTerm) && rating == old(filterRating) && sort == old(sortBy) ==> currentPage == old(currentPage)
    {
      if term != searchTerm || rating != filterRating || sort != sortBy {
        currentPage := 1;
      }
      searchTerm := term;
      filterRating := rating;
      sortBy := sort;
    }
  }
}
