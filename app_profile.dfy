/** The pure logic of `src/app.tsx`: the profile kept in local storage, the
    completeness test that gates the dashboard, the scholarship filters
    derived from it, the merge of stored records over defaults, the search
    parameters built from profile and filters, and the page chosen from the
    location hash. */
module AppProfile {
  import opened Common
  import opened JsText
  import opened Types

  datatype UserProfile = UserProfile(
    fullName: string,
    originCountry: string,
    targetMajor: string,
    targetRegion: string,
    studyLevel: string,
    gpa: string,
    sat: string,
    interests: string,
    achievements: string)

  datatype ScholarshipFilters = ScholarshipFilters(
    originCountry: string,
    studyLevel: string,
    targetRegion: string,
    fieldOfStudy: string)

  datatype AppPage = DashboardPage | ConsultancyPage | ProfilePage

  const EmptyProfile := UserProfile("", "", "", "", "", "", "", "", "")

  /** The filter value that means "no restriction". */
  const Any := "Any"

  /** A profile is complete when name, origin country, target major and
      study level are all filled in. */
  predicate HasCompletedProfile(p: UserProfile) {
    p.fullName != "" && p.originCountry != "" && p.targetMajor != "" && p.studyLevel != ""
  }

  /** Only the four required fields decide completeness. */
  lemma CompletenessDependsOnRequiredFields(p: UserProfile, q: UserProfile)
    requires p.fullName == q.fullName && p.originCountry == q.originCountry
    requires p.targetMajor == q.targetMajor && p.studyLevel == q.studyLevel
    ensures HasCompletedProfile(p) <==> HasCompletedProfile(q)
  {
  }

  /** The empty profile is not complete, and emptying any one required
      field makes a profile incomplete. */
  lemma EmptyRequiredFieldIsIncomplete(p: UserProfile)
    ensures !HasCompletedProfile(EmptyProfile)
    ensures !HasCompletedProfile(p.(fullName := ""))
    ensures !HasCompletedProfile(p.(originCountry := ""))
    ensures !HasCompletedProfile(p.(targetMajor := ""))
    ensures !HasCompletedProfile(p.(studyLevel := ""))
  {
  }

  /** The filters a profile implies: origin country, study level and region
      copied, the field of study taken from the target major, and "Any" in
      place of each empty one. */
  function DefaultScholarshipFilters(p: UserProfile): (f: ScholarshipFilters)
    ensures p.originCountry != "" ==> f.originCountry == p.originCountry
    ensures p.studyLevel != "" ==> f.studyLevel == p.studyLevel
    ensures p.targetRegion != "" ==> f.targetRegion == p.targetRegion
    ensures p.targetMajor != "" ==> f.fieldOfStudy == p.targetMajor
    ensures p.originCountry == "" ==> f.originCountry == Any
    ensures p.studyLevel == "" ==> f.studyLevel == Any
    ensures p.targetRegion == "" ==> f.targetRegion == Any
    ensures p.targetMajor == "" ==> f.fieldOfStudy == Any
  {
    ScholarshipFilters(
      OrElse(p.originCountry, Any),
      OrElse(p.studyLevel, Any),
      OrElse(p.targetRegion, Any),
      OrElse(p.targetMajor, Any))
  }

  /** What a storage key holds when read: nothing (or an empty string), text
      that `JSON.parse` rejects, or a parsed record. */
  datatype StoredEntry<T> = NoEntry | Unparsable | Parsed(record: T)

  /** A parsed `Partial<UserProfile>`: `None` is a key the record lacks. */
  datatype PartialProfile = PartialProfile(
    fullName: Option<string>,
    originCountry: Option<string>,
    targetMajor: Option<string>,
    targetRegion: Option<string>,
    studyLevel: Option<string>,
    gpa: Option<string>,
    sat: Option<string>,
    interests: Option<string>,
    achievements: Option<string>)

  /** A parsed `Partial<ScholarshipFilters>`. */
  datatype PartialFilters = PartialFilters(
    originCountry: Option<string>,
    studyLevel: Option<string>,
    targetRegion: Option<string>,
    fieldOfStudy: Option<string>)

  /** `{ ...base, ...stored }` on profiles. */
  function MergeProfile(base: UserProfile, stored: PartialProfile): (r: UserProfile)
    ensures r.fullName == if stored.fullName.Some? then stored.fullName.value else base.fullName
    ensures r.originCountry == if stored.originCountry.Some? then stored.originCountry.value else base.originCountry
    ensures r.targetMajor == if stored.targetMajor.Some? then stored.targetMajor.value else base.targetMajor
    ensures r.targetRegion == if stored.targetRegion.Some? then stored.targetRegion.value else base.targetRegion
    ensures r.studyLevel == if stored.studyLevel.Some? then stored.studyLevel.value else base.studyLevel
    ensures r.gpa == if stored.gpa.Some? then stored.gpa.value else base.gpa
    ensures r.sat == if stored.sat.Some? then stored.sat.value else base.sat
    ensures r.interests == if stored.interests.Some? then stored.interests.value else base.interests
    ensures r.achievements == if stored.achievements.Some? then stored.achievements.value else base.achievements
  {
    UserProfile(
      stored.fullName.GetOr(base.fullName),
      stored.originCountry.GetOr(base.originCountry),
      stored.targetMajor.GetOr(base.targetMajor),
      stored.targetRegion.GetOr(base.targetRegion),
      stored.studyLevel.GetOr(base.studyLevel),
      stored.gpa.GetOr(base.gpa),
      stored.sat.GetOr(base.sat),
      stored.interests.GetOr(base.interests),
      stored.achievements.GetOr(base.achievements))
  }

  /** `{ ...base, ...stored }` on filters. */
  function MergeFilters(base: ScholarshipFilters, stored: PartialFilters): (r: ScholarshipFilters)
    ensures r.originCountry == if stored.originCountry.Some? then stored.originCountry.value else base.originCountry
    ensures r.studyLevel == if stored.studyLevel.Some? then stored.studyLevel.value else base.studyLevel
    ensures r.targetRegion == if stored.targetRegion.Some? then stored.targetRegion.value else base.targetRegion
    ensures r.fieldOfStudy == if stored.fieldOfStudy.Some? then stored.fieldOfStudy.value else base.fieldOfStudy
  {
    ScholarshipFilters(
      stored.originCountry.GetOr(base.originCountry),
      stored.studyLevel.GetOr(base.studyLevel),
      stored.targetRegion.GetOr(base.targetRegion),
      stored.fieldOfStudy.GetOr(base.fieldOfStudy))
  }

  /** What `JSON.stringify` of a whole profile parses back to. */
  function StoredProfile(p: UserProfile): PartialProfile {
    PartialProfile(
      Some(p.fullName), Some(p.originCountry), Some(p.targetMajor), Some(p.targetRegion),
      Some(p.studyLevel), Some(p.gpa), Some(p.sat), Some(p.interests), Some(p.achievements))
  }

  /** What `JSON.stringify` of whole filters parses back to. */
  function StoredFilters(f: ScholarshipFilters): PartialFilters {
    PartialFilters(Some(f.originCountry), Some(f.studyLevel), Some(f.targetRegion), Some(f.fieldOfStudy))
  }

  /** `readProfile`: no profile when nothing is stored or the text does not
      parse; otherwise the stored keys over the empty profile. */
  function ReadProfile(entry: StoredEntry<PartialProfile>): (r: Option<UserProfile>)
    ensures r.None? <==> !entry.Parsed?
    ensures entry.Parsed? ==> r == Some(MergeProfile(EmptyProfile, entry.record))
  {
    match entry
    case Parsed(stored) => Some(MergeProfile(EmptyProfile, stored))
    case _ => None
  }

  /** Field by field, a key the stored record carries wins and a missing key
      reads as the empty string. */
  lemma ReadProfileFields(stored: PartialProfile)
    ensures var p := ReadProfile(Parsed(stored)).value;
      && p.fullName == stored.fullName.GetOr("")
      && p.originCountry == stored.originCountry.GetOr("")
      && p.targetMajor == stored.targetMajor.GetOr("")
      && p.targetRegion == stored.targetRegion.GetOr("")
      && p.studyLevel == stored.studyLevel.GetOr("")
      && p.gpa == stored.gpa.GetOr("")
      && p.sat == stored.sat.GetOr("")
      && p.interests == stored.interests.GetOr("")
      && p.achievements == stored.achievements.GetOr("")
  {
  }

  /** A saved profile reads back as itself, and re-saving what was read is a
      fixed point. */
  lemma ReadSavedProfile(p: UserProfile, entry: StoredEntry<PartialProfile>)
    ensures ReadProfile(Parsed(StoredProfile(p))) == Some(p)
    ensures entry.Parsed? ==>
      ReadProfile(Parsed(StoredProfile(ReadProfile(entry).value))) == ReadProfile(entry)
  {
  }

  /** `readScholarshipFilters`: the profile's default filters when nothing
      is stored or the text does not parse; otherwise the stored keys over
      those defaults. */
  function ReadScholarshipFilters(profile: UserProfile, entry: StoredEntry<PartialFilters>): (f: ScholarshipFilters)
    ensures !entry.Parsed? ==> f == DefaultScholarshipFilters(profile)
    ensures entry.Parsed? ==> f == MergeFilters(DefaultScholarshipFilters(profile), entry.record)
  {
    match entry
    case Parsed(stored) => MergeFilters(DefaultScholarshipFilters(profile), stored)
    case _ => DefaultScholarshipFilters(profile)
  }

  /** Saved filters read back as themselves, whatever the profile. */
  lemma ReadSavedFilters(profile: UserProfile, f: ScholarshipFilters)
    ensures ReadScholarshipFilters(profile, Parsed(StoredFilters(f))) == f
  {
  }

  /** The dashboard's recommendation parameters: the profile's fields, with
      India, Bachelor, Computer Science and Global in place of empty ones,
      and the profile's GPA and SAT. The four required fields are never
      empty. */
  function RecommendationParams(p: UserProfile): (r: SearchParams)
    ensures r.originCountry == (if p.originCountry == "" then "India" else p.originCountry)
    ensures r.studyLevel == (if p.studyLevel == "" then "Bachelor" else p.studyLevel)
    ensures r.fieldOfStudy == (if p.targetMajor == "" then "Computer Science" else p.targetMajor)
    ensures r.targetRegion == (if p.targetRegion == "" then "Global" else p.targetRegion)
    ensures r.originCountry != "" && r.studyLevel != "" && r.fieldOfStudy != "" && r.targetRegion != ""
    ensures r.gpa == Some(p.gpa) && r.sat == Some(p.sat) && r.ielts.None? && r.toefl.None?
  {
    SearchParams(
      OrElse(p.originCountry, "India"),
      OrElse(p.studyLevel, "Bachelor"),
      OrElse(p.targetMajor, "Computer Science"),
      OrElse(p.targetRegion, "Global"),
      Some(p.gpa), Some(p.sat), None, None)
  }

  /** A filter value, or the recommendation value when the filter is "Any". */
  function Resolve(filter: string, recommended: string): (r: string)
    ensures filter == Any ==> r == recommended
    ensures filter != Any ==> r == filter
  {
    if filter == Any then recommended else filter
  }

  /** The parameters of a filter search: each filter that is "Any" replaced
      by the matching recommendation parameter, any other value used as it
      is, and the profile's GPA and SAT. */
  function FilterSearchParams(filters: ScholarshipFilters, p: UserProfile): (r: SearchParams)
    ensures r.originCountry == Resolve(filters.originCountry, RecommendationParams(p).originCountry)
    ensures r.studyLevel == Resolve(filters.studyLevel, RecommendationParams(p).studyLevel)
    ensures r.fieldOfStudy == Resolve(filters.fieldOfStudy, RecommendationParams(p).fieldOfStudy)
    ensures r.targetRegion == Resolve(filters.targetRegion, RecommendationParams(p).targetRegion)
    ensures r.gpa == Some(p.gpa) && r.sat == Some(p.sat) && r.ielts.None? && r.toefl.None?
  {
    var rec := RecommendationParams(p);
    SearchParams(
      Resolve(filters.originCountry, rec.originCountry),
      Resolve(filters.studyLevel, rec.studyLevel),
      Resolve(filters.fieldOfStudy, rec.fieldOfStudy),
      Resolve(filters.targetRegion, rec.targetRegion),
      Some(p.gpa), Some(p.sat), None, None)
  }

  /** Filters that are all "Any" search exactly with the recommendation
      parameters. */
  lemma AllAnyIsRecommendation(p: UserProfile)
    ensures FilterSearchParams(ScholarshipFilters(Any, Any, Any, Any), p) == RecommendationParams(p)
  {
  }

  /** Searching with the filters a profile implies is searching with the
      profile's recommendation parameters: resetting the filters from the
      profile and then searching by filter changes nothing. */
  lemma DefaultFiltersSearchAsRecommended(p: UserProfile)
    ensures FilterSearchParams(DefaultScholarshipFilters(p), p) == RecommendationParams(p)
  {
  }

  function PageName(page: AppPage): string {
    match page
    case DashboardPage => "dashboard"
    case ConsultancyPage => "consultancy"
    case ProfilePage => "profile"
  }

  /** `hash.replace('#', '').toLowerCase()`: the hash without its first
      '#', lower-cased. */
  function HashKey(hash: string): (k: string)
    ensures '#' !in hash ==> k == Lower(hash)
    ensures hash != "" && hash[0] == '#' ==> k == Lower(hash[1..])
    ensures |k| == |hash| - (if '#' in hash then 1 else 0)
  {
    Lower(RemoveFirst(hash, '#'))
  }

  /** `getInitialPage`: the profile page whenever there is no complete saved
      profile; otherwise the page the hash names (ignoring its first '#' and
      letter case) among consultancy and profile, and the dashboard for any
      other hash. */
  function InitialPage(saved: Option<UserProfile>, hash: string): (page: AppPage)
    ensures (saved.None? || !HasCompletedProfile(saved.value)) ==> page == ProfilePage
    ensures saved.Some? && HasCompletedProfile(saved.value) ==>
      (page == ConsultancyPage <==> HashKey(hash) == "consultancy")
      && (page == ProfilePage <==> HashKey(hash) == "profile")
  {
    if saved.None? || !HasCompletedProfile(saved.value) then ProfilePage
    else if HashKey(hash) == "consultancy" then ConsultancyPage
    else if HashKey(hash) == "profile" then ProfilePage
    else DashboardPage
  }

  /** The choice of page does not depend on the letter case of the hash. */
  lemma {:induction false} InitialPageIgnoresCase(saved: Option<UserProfile>, hash: string)
    ensures InitialPage(saved, Lower(hash)) == InitialPage(saved, hash)
  {
    RemoveFirstLower(hash, '#');
    LowerIdempotent(RemoveFirst(hash, '#'));
  }

  /** `window.location.hash` after assigning `fragment` to it: the setter
      drops one leading '#', and the getter reads "" for an empty fragment
      and the fragment after a '#' otherwise. */
  function LocationHash(fragment: string): (h: string)
    ensures h == "" || (h[0] == '#' && |h| >= 2)
    ensures fragment == "" || fragment == "#" ==> h == ""
    ensures fragment != "" && fragment[0] != '#' ==> h == "#" + fragment
    ensures |fragment| >= 2 && fragment[0] == '#' ==> h == fragment
  {
    if fragment == "" then ""
    else if fragment[0] == '#' then (if |fragment| == 1 then "" else fragment)
    else "#" + fragment
  }

  /** Assigning the hash read back leaves it as it is. */
  lemma LocationHashStable(fragment: string)
    ensures LocationHash(LocationHash(fragment)) == LocationHash(fragment)
  {
  }

  /** Where `navigate(next)` lands and what it assigns to the hash. */
  datatype Navigation = Navigation(page: AppPage, fragment: string)

  /** `navigate`: without a complete profile, always the profile page with
      hash "profile"; with one, the requested page, with an empty hash for
      the dashboard and the page's name otherwise. */
  function NavigateTarget(gate: UserProfile, next: AppPage): (n: Navigation)
    ensures !HasCompletedProfile(gate) ==> n == Navigation(ProfilePage, "profile")
    ensures HasCompletedProfile(gate) ==> n.page == next
    ensures HasCompletedProfile(gate) ==> (n.fragment == "" <==> next == DashboardPage)
    ensures n.fragment != "" ==> n.fragment == PageName(n.page)
  {
    if !HasCompletedProfile(gate) && next != ProfilePage then Navigation(ProfilePage, "profile")
    else if next == DashboardPage then Navigation(next, "")
    else Navigation(next, PageName(next))
  }

  /** A hash naming a page without upper-case letters leads back to it. */
  lemma HashKeyOfPageName(page: AppPage)
    ensures HashKey("#" + PageName(page)) == PageName(page)
  {
    var name := PageName(page);
    assert ("#" + name)[1..] == name;
    LowerOfNoUpper(name);
  }

  /** The hash that `navigate` writes leads `getInitialPage` back to the
      page `navigate` chose, for the profile it gated on. */
  lemma {:induction false} NavigateHashRoundTrip(p: UserProfile, next: AppPage)
    ensures InitialPage(Some(p), LocationHash(NavigateTarget(p, next).fragment)) == NavigateTarget(p, next).page
  {
    var n := NavigateTarget(p, next);
    if n.fragment != "" {
      assert LocationHash(n.fragment) == "#" + PageName(n.page);
      HashKeyOfPageName(n.page);
    } else {
      assert RemoveFirst("", '#') == "";
      assert HashKey("") == "";
    }
  }
}
