/** The top-level `App` component of `src/app.tsx`: the profile and the
    scholarship filters read from local storage, the page on show, the
    location hash, and the two storage keys. Local storage and the location
    hash are fields of the object; the `hashchange` event is a method the
    environment calls. */
module AppShell {
  import opened Common
  import opened AppProfile
  import opened AppDashboard
  import opened Types

  class App {
    var profile: UserProfile
    var scholarshipFilters: ScholarshipFilters
    var page: AppPage
    var locationHash: string
    var storedProfile: StoredEntry<PartialProfile>
    var storedFilters: StoredEntry<PartialFilters>

    /** Mounting: profile, filters and page all come from what storage holds
        and from the hash. */
    constructor (profileEntry: StoredEntry<PartialProfile>, filtersEntry: StoredEntry<PartialFilters>, hash: string)
      ensures storedProfile == profileEntry && storedFilters == filtersEntry && locationHash == hash
      ensures profile == ReadProfile(profileEntry).GetOr(EmptyProfile)
      ensures scholarshipFilters == ReadScholarshipFilters(profile, filtersEntry)
      ensures page == InitialPage(ReadProfile(profileEntry), hash)
    {
      storedProfile, storedFilters, locationHash := profileEntry, filtersEntry, hash;
      profile := ReadProfile(profileEntry).GetOr(EmptyProfile);
      scholarshipFilters := ReadScholarshipFilters(ReadProfile(profileEntry).GetOr(EmptyProfile), filtersEntry);
      page := InitialPage(ReadProfile(profileEntry), hash);
    }

    /** `navigate`: gated on the profile in memory. */
    method Navigate(next: AppPage)
      modifies this`page, this`locationHash
      ensures page == NavigateTarget(profile, next).page
      ensures locationHash == LocationHash(NavigateTarget(profile, next).fragment)
      ensures !HasCompletedProfile(profile) ==> page == ProfilePage
      ensures HasCompletedProfile(profile) ==> page == next
    {
      if !HasCompletedProfile(profile) && next != ProfilePage {
        locationHash := LocationHash("profile");
        page := ProfilePage;
        return;
      }
      if next == DashboardPage {
        locationHash := LocationHash("");
      } else {
        locationHash := LocationHash(PageName(next));
      }
      page := next;
    }

    /** `saveProfile` as written in `src/app.tsx`: `navigate` comes from the same
        render as `saveProfile`, so its completeness test still sees the
        profile from before the save. */
    method SaveProfileAsWritten(next: UserProfile)
      modifies this`storedProfile, this`profile, this`page, this`locationHash
      ensures storedProfile == Parsed(StoredProfile(next)) && profile == next
      ensures page == NavigateTarget(old(profile), DashboardPage).page
      ensures locationHash == LocationHash(NavigateTarget(old(profile), DashboardPage).fragment)
    {
      var gate := profile;
      storedProfile := Parsed(StoredProfile(next));
      profile := next;
      var n := NavigateTarget(gate, DashboardPage);
      locationHash := LocationHash(n.fragment);
      page := n.page;
    }

    /** `saveProfile` as intended: store the profile, keep it in memory and
        open the dashboard, gated on the profile just saved. */
    method SaveProfile(next: UserProfile)
      modifies this`storedProfile, this`profile, this`page, this`locationHash
      ensures storedProfile == Parsed(StoredProfile(next)) && profile == next
      ensures ReadProfile(storedProfile) == Some(next)
      ensures HasCompletedProfile(next) ==> page == DashboardPage && locationHash == ""
      ensures !HasCompletedProfile(next) ==> page == ProfilePage && locationHash == "#profile"
    {
      storedProfile := Parsed(StoredProfile(next));
      profile := next;
      ReadSavedProfile(next, storedProfile);
      Navigate(DashboardPage);
    }

    /** `saveScholarshipFilters`: store the filters and keep them in memory. */
    method SaveScholarshipFilters(next: ScholarshipFilters)
      modifies this`storedFilters, this`scholarshipFilters
      ensures storedFilters == Parsed(StoredFilters(next)) && scholarshipFilters == next
      ensures ReadScholarshipFilters(profile, storedFilters) == next
    {
      storedFilters := Parsed(StoredFilters(next));
      scholarshipFilters := next;
      ReadSavedFilters(profile, next);
    }

    /** The `hashchange` listener: re-read profile and filters from storage
        and choose the page again from the hash. */
    method OnHashChange()
      modifies this`profile, this`scholarshipFilters, this`page
      ensures profile == ReadProfile(storedProfile).GetOr(EmptyProfile)
      ensures scholarshipFilters == ReadScholarshipFilters(profile, storedFilters)
      ensures page == InitialPage(ReadProfile(storedProfile), locationHash)
    {
      var latest := ReadProfile(storedProfile);
      profile := latest.GetOr(EmptyProfile);
      scholarshipFilters := ReadScholarshipFilters(profile, storedFilters);
      page := InitialPage(latest, locationHash);
    }

    /** `refreshScholarshipsFromProfile`: reset the filters in memory (not in
        storage) to the profile's defaults and search with the profile's
        recommendation parameters. */
    method RefreshScholarshipsFromProfile(d: Dashboard, outcome: Settled<SearchResult>)
      returns (params: SearchParams)
      modifies this`scholarshipFilters, d
      ensures scholarshipFilters == DefaultScholarshipFilters(profile)
      ensures params == RecommendationParams(profile)
      ensures params == FilterSearchParams(scholarshipFilters, profile)
      ensures d.State() == SettleScholarships(BeginScholarships(old(d.State())), outcome)
    {
      scholarshipFilters := DefaultScholarshipFilters(profile);
      params := RecommendationParams(profile);
      DefaultFiltersSearchAsRecommended(profile);
      d.HandleScholarshipSearch(outcome);
    }
  }

  /** The save of a first complete profile, as `saveProfile` is written, stays on
      the profile page, and the `hashchange` that follows keeps it there;
      the intended save opens the dashboard. */
  lemma FirstSaveStaysOnProfile()
    ensures var next := UserProfile("Amina", "Kenya", "Law", "", "Master", "", "", "", "");
      && HasCompletedProfile(next)
      && NavigateTarget(EmptyProfile, DashboardPage) == Navigation(ProfilePage, "profile")
      && InitialPage(Some(next), LocationHash("profile")) == ProfilePage
      && NavigateTarget(next, DashboardPage) == Navigation(DashboardPage, "")
  {
    HashKeyOfPageName(ProfilePage);
  }
}
