/** The dashboard's search state in `src/app.tsx`: one `loading` flag, one
    error message and one "has searched" flag shared by the scholarship and
    the course search, and one result per search. A search first clears its
    own result and the error, then records how the request settled. The
    network call itself is not modelled: how it settled is an input. */
module AppDashboard {
  import opened Common
  import opened JsText
  import opened Types
  import opened AppProfile

  datatype DashboardState = DashboardState(
    loading: bool,
    error: Option<string>,
    searched: bool,
    scholarshipResult: Option<SearchResult>,
    courseResult: Option<CourseSearchResult>)

  /** The dashboard before any search. */
  const Idle := DashboardState(false, None, false, None, None)

  const DefaultError := "An error occurred."

  /** `err.message || 'An error occurred.'`: never empty. */
  function ErrorText(message: string): (r: string)
    ensures r != ""
    ensures message != "" ==> r == message
    ensures message == "" ==> r == DefaultError
  {
    OrElse(message, DefaultError)
  }

  /** The synchronous part of `handleScholarshipSearch`, before the request
      settles. */
  function BeginScholarships(s: DashboardState): (t: DashboardState)
    ensures t.loading && t.error.None? && t.searched && t.scholarshipResult.None?
    ensures t.courseResult == s.courseResult
  {
    s.(loading := true, error := None, searched := true, scholarshipResult := None)
  }

  /** The part of `handleScholarshipSearch` after the request settled: the
      data on success, the error text on failure, and loading over. */
  function SettleScholarships(s: DashboardState, outcome: Settled<SearchResult>): (t: DashboardState)
    ensures !t.loading && t.searched == s.searched && t.courseResult == s.courseResult
    ensures outcome.Resolved? ==> t.scholarshipResult == Some(outcome.data) && t.error == s.error
    ensures outcome.Rejected? ==>
      t.error == Some(ErrorText(outcome.message)) && t.scholarshipResult == s.scholarshipResult
  {
    match outcome
    case Resolved(data) => s.(scholarshipResult := Some(data), loading := false)
    case Rejected(message) => s.(error := Some(ErrorText(message)), loading := false)
  }

  /** The filters of the course tab. */
  datatype CourseFilters = CourseFilters(subject: string, level: string, platform: string)

  /** A course filter value, or no key at all when it is "Any". */
  function FilterKey(value: string): (r: Option<string>)
    ensures r.None? <==> value == Any
    ensures r.Some? ==> r.value == value
  {
    if value == Any then None else Some(value)
  }

  /** The request `handleCourseSearch` sends: none when the query is empty
      after trimming, otherwise the trimmed query and the filters that are
      not "Any". */
  function CourseRequest(query: string, filters: CourseFilters): (r: Option<CourseSearchParams>)
    ensures r.None? <==> AllWhitespace(query)
    ensures r.Some? ==> r.value.query == Trim(query) && r.value.query != "" && IsTrimmed(r.value.query)
    ensures r.Some? ==> r.value.subject == FilterKey(filters.subject)
    ensures r.Some? ==> r.value.level == FilterKey(filters.level)
    ensures r.Some? ==> r.value.platform == FilterKey(filters.platform)
  {
    var q := Trim(query);
    TrimEmptyIffWhitespace(query);
    if q == "" then None
    else Some(CourseSearchParams(q, FilterKey(filters.subject), FilterKey(filters.level), FilterKey(filters.platform)))
  }

  /** The synchronous part of `handleCourseSearch` once the query passed. */
  function BeginCourses(s: DashboardState): (t: DashboardState)
    ensures t.loading && t.error.None? && t.searched && t.courseResult.None?
    ensures t.scholarshipResult == s.scholarshipResult
  {
    s.(loading := true, error := None, searched := true, courseResult := None)
  }

  /** The part of `handleCourseSearch` after the request settled. */
  function SettleCourses(s: DashboardState, outcome: Settled<CourseSearchResult>): (t: DashboardState)
    ensures !t.loading && t.searched == s.searched && t.scholarshipResult == s.scholarshipResult
    ensures outcome.Resolved? ==> t.courseResult == Some(outcome.data) && t.error == s.error
    ensures outcome.Rejected? ==>
      t.error == Some(ErrorText(outcome.message)) && t.courseResult == s.courseResult
  {
    match outcome
    case Resolved(data) => s.(courseResult := Some(data), loading := false)
    case Rejected(message) => s.(error := Some(ErrorText(message)), loading := false)
  }

  /** One whole scholarship search: afterwards nothing is loading, the
      dashboard counts as searched, and exactly one of result and error is
      set: the data with no error, or a non-empty message with no result. */
  lemma ScholarshipSearchSettles(s: DashboardState, outcome: Settled<SearchResult>)
    ensures var t := SettleScholarships(BeginScholarships(s), outcome);
      && !t.loading && t.searched && t.courseResult == s.courseResult
      && (t.scholarshipResult.Some? <==> t.error.None?)
      && (outcome.Resolved? ==> t.scholarshipResult == Some(outcome.data))
      && (outcome.Rejected? ==> t.error.Some? && t.error.value != "")
  {
  }

  /** One whole course search, likewise. */
  lemma CourseSearchSettles(s: DashboardState, outcome: Settled<CourseSearchResult>)
    ensures var t := SettleCourses(BeginCourses(s), outcome);
      && !t.loading && t.searched && t.scholarshipResult == s.scholarshipResult
      && (t.courseResult.Some? <==> t.error.None?)
      && (outcome.Resolved? ==> t.courseResult == Some(outcome.data))
      && (outcome.Rejected? ==> t.error.Some? && t.error.value != "")
  {
  }

  /** Nothing guards against out-of-order responses: when search A starts,
      then search B starts and settles, and A's response arrives last, the
      dashboard shows A's result and B's different result is lost. */
  lemma LateResponseOverwrites(s: DashboardState, a: SearchResult, b: Settled<SearchResult>)
    ensures var afterB := SettleScholarships(BeginScholarships(BeginScholarships(s)), b);
      SettleScholarships(afterB, Resolved(a)).scholarshipResult == Some(a)
    ensures var afterB := SettleScholarships(BeginScholarships(BeginScholarships(s)), b);
      b.Resolved? && b.data != a ==> SettleScholarships(afterB, Resolved(a)).scholarshipResult != Some(b.data)
  {
  }

  class Dashboard {
    var loading: bool
    var error: Option<string>
    var searched: bool
    var scholarshipResult: Option<SearchResult>
    var courseResult: Option<CourseSearchResult>

    function State(): DashboardState
      reads this
    {
      DashboardState(loading, error, searched, scholarshipResult, courseResult)
    }

    constructor ()
      ensures State() == Idle
    {
      loading, error, searched := false, None, false;
      scholarshipResult, courseResult := None, None;
    }

    /** `handleScholarshipSearch`, with the settled request as input. */
    method HandleScholarshipSearch(outcome: Settled<SearchResult>)
      modifies this
      ensures State() == SettleScholarships(BeginScholarships(old(State())), outcome)
    {
      loading := true;
      error := None;
      searched := true;
      scholarshipResult := None;
      match outcome {
        case Resolved(data) =>
          scholarshipResult := Some(data);
        case Rejected(message) =>
          error := Some(ErrorText(message));
      }
      loading := false;
    }

    /** `handleScholarshipFilterSearch`: resolve the parameters from the
        filters and the profile, then search with them. */
    method HandleScholarshipFilterSearch(filters: ScholarshipFilters, profile: UserProfile,
                                         outcome: Settled<SearchResult>) returns (params: SearchParams)
      modifies this
      ensures params == FilterSearchParams(filters, profile)
      ensures State() == SettleScholarships(BeginScholarships(old(State())), outcome)
    {
      params := FilterSearchParams(filters, profile);
      HandleScholarshipSearch(outcome);
    }

    /** `handleCourseSearch`: nothing happens for a blank query; otherwise
        the request is built and the course search runs. */
    method HandleCourseSearch(query: string, filters: CourseFilters, outcome: Settled<CourseSearchResult>)
      returns (request: Option<CourseSearchParams>)
      modifies this
      ensures request == CourseRequest(query, filters)
      ensures request.None? ==> State() == old(State())
      ensures request.Some? ==> State() == SettleCourses(BeginCourses(old(State())), outcome)
    {
      var q := Trim(query);
      if q == "" {
        request := None;
        return;
      }
      loading := true;
      error := None;
      searched := true;
      courseResult := None;
      request := Some(CourseSearchParams(q, FilterKey(filters.subject), FilterKey(filters.level),
                                         FilterKey(filters.platform)));
      match outcome {
        case Resolved(data) =>
          courseResult := Some(data);
        case Rejected(message) =>
          error := Some(ErrorText(message));
      }
      loading := false;
    }
  }
}
