/** The shared record shapes of `types.ts`. Fields marked optional there are
    `Option`s here; every other field is required, and a JavaScript number
    is carried as an `int`. */
module Types {
  import opened Common

  datatype Scholarship = Scholarship(
    name: string,
    provider: string,
    amount: string,
    deadline: string,
    description: string,
    eligibility: seq<string>,
    location: string,
    applicationUrl: Option<string>)

  datatype GroundingSource = GroundingSource(title: string, uri: string)

  /** The body of a scholarship search request. */
  datatype SearchParams = SearchParams(
    originCountry: string,
    studyLevel: string,
    fieldOfStudy: string,
    targetRegion: string,
    gpa: Option<string>,
    sat: Option<string>,
    ielts: Option<string>,
    toefl: Option<string>)

  /** What the scholarship endpoint returns; kept exactly as received. */
  datatype SearchResult = SearchResult(
    scholarships: seq<Scholarship>,
    rawText: Option<string>,
    sources: Option<seq<GroundingSource>>)

  datatype Course = Course(
    id: string,
    name: string,
    provider: string,
    subject: string,
    level: string,
    duration: string,
    cost: string,
    description: string,
    skills: seq<string>,
    tags: seq<string>,
    link: Option<string>)

  /** The argument of a course search. The dashboard also passes a
      `platform` key, which is carried here beside the declared ones. */
  datatype CourseSearchParams = CourseSearchParams(
    query: string,
    subject: Option<string>,
    level: Option<string>,
    platform: Option<string>)

  /** What the course endpoint returns; kept exactly as received. */
  datatype CourseSearchResult = CourseSearchResult(courses: seq<Course>, total: int)
}
