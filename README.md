# Scholira client logic in Dafny

Scholira is a browser application in which a student keeps a profile, searches
for scholarships and online courses through remote endpoints, and talks to an
"AI consultancy" advisor. This project models the logic of its client that is
more than rendering:

- the top-level `App` component of `src/app.tsx`: the profile and scholarship
  filters kept in local storage and merged over defaults when read, the
  completeness test that gates every page but the profile page, the filters
  and search parameters derived from the profile, the page chosen from the
  location hash, `navigate`, `saveProfile` and the `hashchange` listener;
- the dashboard's search state (loading flag, error, "has searched" flag,
  scholarship and course results) and the consultancy transcript, both as
  classes whose methods follow the application's step-by-step state updates and
  are specified by pure step functions;
- the persisted store of `src/store/useStore.ts` (profile, tracked
  scholarships, chat history and its five actions) as a class;
- the profile form's submit handler in `src/pages/Profile.tsx`, which turns the
  comma-separated interests text into a list of trimmed entries.

The JavaScript string operations these rely on (`trim`, `split` on a comma,
`replace` of the first `#`, `toLowerCase`, `a || b`) are written out in
`js_text.dfy`. Network calls, local storage and the location hash are inputs:
a settled request is a `Settled` value (the data, or an error message), a
storage key holds `NoEntry`, `Unparsable` text or a `Parsed` partial record.

Files: `common.dfy` (Option, Settled), `js_text.dfy`, `types.dfy`,
`store.dfy`, `profile_form.dfy`, `app_profile.dfy` (pure logic of the app
shell), `app_dashboard.dfy`, `app_consultancy.dfy`, `app_shell.dfy`.

## Model

| member | source | states |
|---|---|---|
| `JsText.TrimStart` | src/pages/Profile.tsx:13 | the result is the longest suffix not starting with whitespace; everything removed is ECMAScript whitespace |
| `JsText.TrimEnd` | src/pages/Profile.tsx:13 | the result is the longest prefix not ending with whitespace; everything removed is whitespace |
| `JsText.Trim` | src/pages/Profile.tsx:13 | the input is whitespace, then the result, then whitespace; the result has no whitespace at either end |
| `JsText.TrimKeepsCharacters` | src/pages/Profile.tsx:13 | trimming introduces no character (so no comma) that the input lacks |
| `JsText.TrimEmptyIffWhitespace` | src/app.tsx:241 | a text trims to nothing exactly when it is all whitespace |
| `JsText.CountZero` | src/pages/Profile.tsx:13 | a character occurs zero times exactly when it is absent |
| `JsText.Split` | src/pages/Profile.tsx:13 | splitting on a separator gives one more piece than there are separators, and no piece contains the separator |
| `JsText.JoinSplit` | src/pages/Profile.tsx:13 | joining the pieces back with the separator restores the input |
| `JsText.SplitJoin` | src/pages/Profile.tsx:13 | splitting a join of separator-free pieces returns exactly those pieces |
| `JsText.Lower` | src/app.tsx:722 | lower-casing keeps the length and maps each character through ASCII lower-casing |
| `JsText.LowerIdempotent` | src/app.tsx:722 | lower-casing twice is lower-casing once |
| `JsText.RemoveFirst` | src/app.tsx:722 | `replace('#', '')` drops the first `#` and keeps every other character in order; a text without `#` is unchanged |
| `JsText.RemoveFirstLower` | src/app.tsx:722 | removing the first `#` and lower-casing can be done in either order |
| `JsText.OrElse` | src/app.tsx:131-134 | `a \|\| b` on strings is `a` unless `a` is empty, then `b`; it is empty only when both are |
| `Store.ApplyPatch` | src/store/useStore.ts:57-58 | each key present in the patch takes the patch's value; each absent key keeps the profile's value |
| `Store.EmptyPatchIsIdentity` | src/store/useStore.ts:57-58 | an empty patch leaves the profile unchanged |
| `Store.ApplyPatchIdempotent` | src/store/useStore.ts:57-58 | applying the same patch twice equals applying it once |
| `Store.ApplyPatchCompose` | src/store/useStore.ts:57-58 | two updates in a row equal one update in which the later patch wins key by key |
| `Store.WithStatus` | src/store/useStore.ts:65-70 | length and order kept; every entry with the id gets the new status with all else unchanged; every other entry is unchanged |
| `Store.WithStatusUnknownId` | src/store/useStore.ts:65-70 | an id that no entry carries leaves the list equal to the original |
| `Store.WithStatusIdempotent` | src/store/useStore.ts:65-70 | setting the same status twice equals setting it once |
| `Store.WithStatusKeepsIds` | src/store/useStore.ts:65-70 | every entry keeps its id and its scholarship data |
| `Store.AppStore.constructor` | src/store/useStore.ts:44-55 | the store starts with an all-empty profile, an empty interests list, no tracked scholarships and no chat |
| `Store.AppStore.UpdateProfile` | src/store/useStore.ts:57-58 | the profile becomes the patch merged over the old profile; the other two fields are untouched |
| `Store.AppStore.TrackScholarship` | src/store/useStore.ts:60-63 | the list grows by exactly the new entry at the end, with no de-duplication; the rest is untouched |
| `Store.AppStore.UpdateScholarshipStatus` | src/store/useStore.ts:65-70 | the list becomes the status-updated list; profile and chat untouched |
| `Store.AppStore.AddChatMessage` | src/store/useStore.ts:72-73 | the message is appended, the old transcript stays a prefix; the rest is untouched |
| `Store.AppStore.ClearChat` | src/store/useStore.ts:75 | the transcript becomes empty; profile and tracked scholarships untouched |
| `ProfileForm.SplitInterests` | src/pages/Profile.tsx:13 | one entry per comma plus one, none containing a comma or edge whitespace; a text without a comma gives the one trimmed text, so an empty text gives one empty entry |
| `ProfileForm.SplitInterestsPieces` | src/pages/Profile.tsx:13 | entry i is the trimmed i-th comma-separated piece, and the pieces rejoined give the text |
| `ProfileForm.NormalizeInterests` | src/pages/Profile.tsx:13 | a text becomes exactly `SplitInterests` of it (one trimmed, comma-free entry per comma-separated piece); a value that is not a string passes through unchanged |
| `ProfileForm.SubmittedPatch` | src/pages/Profile.tsx:11-15 | every submitted field except interests is forwarded unchanged; interests is the normalized list |
| `ProfileForm.SubmitReplacesProfile` | src/pages/Profile.tsx:11-15 | since the patch carries every key, the stored profile afterwards is exactly the submitted form |
| `ProfileForm.OnSubmit` | src/pages/Profile.tsx:11-15 | the store's profile becomes the submitted patch merged over it; the store's lists are untouched |
| `AppProfile.HasCompletedProfile` | src/app.tsx:127-128 | complete exactly when name, origin country, target major and study level are all non-empty strings |
| `AppProfile.CompletenessDependsOnRequiredFields` | src/app.tsx:127-128 | profiles that agree on name, origin country, target major and study level agree on completeness |
| `AppProfile.EmptyRequiredFieldIsIncomplete` | src/app.tsx:127-128 | the empty profile is incomplete, and emptying any required field makes a profile incomplete |
| `AppProfile.DefaultScholarshipFilters` | src/app.tsx:130-135 | origin country, study level and region are copied and the field of study is the target major, with "Any" exactly where the profile field is empty |
| `AppProfile.ReadProfile` | src/app.tsx:701-709 | no profile exactly when nothing is stored or the text does not parse; otherwise the stored record merged over the empty profile |
| `AppProfile.MergeProfile` | src/app.tsx:705 | each key the stored record has wins over the base profile; each missing key keeps the base value |
| `AppProfile.ReadProfileFields` | src/app.tsx:97-107 | a stored key wins, and a missing key reads as the empty string |
| `AppProfile.ReadSavedProfile` | src/app.tsx:768-769 | a saved profile reads back as itself; re-saving what was read is a fixed point |
| `AppProfile.ReadScholarshipFilters` | src/app.tsx:711-719 | the profile's default filters when nothing is stored or parsing fails; otherwise stored keys override those defaults |
| `AppProfile.MergeFilters` | src/app.tsx:715 | each key the stored filters have wins over the default filters; each missing key keeps the default |
| `AppProfile.ReadSavedFilters` | src/app.tsx:774-775 | saved filters read back as themselves, whatever the profile |
| `AppProfile.RecommendationParams` | src/app.tsx:193-203 | the profile's fields with India, Bachelor, Computer Science and Global in place of empty ones (so never empty), plus GPA and SAT |
| `AppProfile.FilterSearchParams` | src/app.tsx:226-234 | each of the four filters resolved against the recommendation parameters; GPA and SAT from the profile |
| `AppProfile.AllAnyIsRecommendation` | src/app.tsx:226-234 | filters that are all "Any" give exactly the recommendation parameters |
| `AppProfile.DefaultFiltersSearchAsRecommended` | src/app.tsx:221-234 | searching with the profile's default filters is searching with its recommendation parameters |
| `AppProfile.HashKey` | src/app.tsx:722 | the hash without its first `#`, lower-cased: one character shorter when it has a `#`, and the lower-cased rest for a hash that starts with `#` |
| `AppProfile.InitialPage` | src/app.tsx:721-731 | the profile page when the saved profile is missing or incomplete; otherwise consultancy or profile exactly when the hash (first `#` dropped, lower-cased) names it, else the dashboard |
| `AppProfile.InitialPageIgnoresCase` | src/app.tsx:722 | the chosen page does not depend on the letter case of the hash |
| `AppProfile.LocationHash` | src/app.tsx:755-763 | reading the hash after assigning a fragment: the setter drops one leading `#`, so "" and "#" read as "", a fragment starting with `#` reads as itself and any other as `#` plus the fragment |
| `AppProfile.LocationHashStable` | src/app.tsx:755-763 | assigning the hash that was read back leaves it unchanged |
| `AppProfile.NavigateTarget` | src/app.tsx:753-766 | an incomplete profile always lands on the profile page with hash "profile"; a complete one on the requested page, with an empty hash exactly for the dashboard and the page name otherwise |
| `AppProfile.HashKeyOfPageName` | src/app.tsx:722 | a hash written as `#` plus a page name reads back as that page name |
| `AppProfile.NavigateHashRoundTrip` | src/app.tsx:721-766 | the hash `navigate` writes leads `getInitialPage` back to the page `navigate` chose |
| `AppDashboard.ErrorText` | src/app.tsx:215 | the error message, or "An error occurred." when it is empty; never empty |
| `AppDashboard.BeginScholarships` | src/app.tsx:205-209 | before any outcome: loading, no error, searched, no scholarship result; the course result untouched |
| `AppDashboard.SettleScholarships` | src/app.tsx:211-218 | success stores the data, failure stores the error text; loading is over; the course result untouched |
| `AppDashboard.FilterKey` | src/app.tsx:249-251 | a course filter of "Any" sends no key; any other value is sent as it is |
| `AppDashboard.CourseRequest` | src/app.tsx:239-252 | no request exactly when the query is all whitespace; otherwise the trimmed query and the non-"Any" filters |
| `AppDashboard.BeginCourses` | src/app.tsx:242-245 | before any outcome: loading, no error, searched, no course result; the scholarship result untouched |
| `AppDashboard.SettleCourses` | src/app.tsx:246-258 | success stores the data, failure stores the error text; loading is over; the scholarship result untouched |
| `AppDashboard.ScholarshipSearchSettles` | src/app.tsx:205-219 | after a whole search nothing is loading, the dashboard counts as searched, and exactly one of result and non-empty error is set |
| `AppDashboard.CourseSearchSettles` | src/app.tsx:239-259 | the same for a whole course search |
| `AppDashboard.LateResponseOverwrites` | src/app.tsx:205-219 | a response that arrives after a newer search settled still overwrites the result, and the newer search's different result is no longer shown |
| `AppDashboard.Dashboard.constructor` | src/app.tsx:151-155 | the dashboard starts idle: not loading, no error, not searched, no results |
| `AppDashboard.Dashboard.HandleScholarshipSearch` | src/app.tsx:205-219 | the new state is the begin step followed by the settle step for the outcome |
| `AppDashboard.Dashboard.HandleScholarshipFilterSearch` | src/app.tsx:226-237 | it sends the filter-resolved parameters and runs a scholarship search |
| `AppDashboard.Dashboard.HandleCourseSearch` | src/app.tsx:239-259 | a blank query changes nothing; otherwise it sends the built request and runs a course search |
| `AppConsultancy.Opened` | src/app.tsx:526-533 | an empty box, not loading, and only the advisor's greeting |
| `AppConsultancy.Role` | src/app.tsx:547 | the role is "user" exactly for the user's turns and "assistant" exactly for the advisor's |
| `AppConsultancy.ApiMessages` | src/app.tsx:546-549 | one request message per transcript entry, in order, with role "user" or "assistant" and the text unchanged |
| `AppConsultancy.RoleDistinguishesSpeakers` | src/app.tsx:547 | the two roles differ, so the request keeps who said what |
| `AppConsultancy.CanSend` | src/app.tsx:538 | sending goes ahead exactly when the trimmed message is non-empty and no reply is pending |
| `AppConsultancy.Submit` | src/app.tsx:537-543 | a blank box or a pending reply changes nothing; otherwise exactly one user entry, the non-empty trimmed message, is appended after the kept transcript, the box is emptied and loading set |
| `AppConsultancy.AdvisorText` | src/app.tsx:561-565 | the cleaned reply (a missing reply cleaned as "") when that is non-empty, and the parse fallback exactly otherwise; never empty |
| `AppConsultancy.Receive` | src/app.tsx:561-570 | one advisor message appended after the kept transcript, loading off: on success the advisor text of the reply, on failure the connection apology |
| `AppConsultancy.ExchangeAppendsTwo` | src/app.tsx:535-572 | a whole exchange appends exactly the user's trimmed message and then the advisor text of the reply, or the apology on failure, and leaves the box empty and loading off |
| `AppConsultancy.NoSecondSendWhileLoading` | src/app.tsx:538 | while a reply is pending, sending again changes nothing |
| `AppConsultancy.ConsultancyPage.constructor` | src/app.tsx:525-533 | the page keeps the profile it is rendered with and opens in the `Opened` state greeting that profile's name |
| `AppConsultancy.ConsultancyPage.SetMessage` | src/app.tsx:591 | only the message box changes |
| `AppConsultancy.ConsultancyPage.SendMessage` | src/app.tsx:535-554 | the state moves by `Submit`; a request is returned exactly when sending goes ahead, holding the new transcript as request messages and the page's profile |
| `AppConsultancy.ConsultancyPage.ReceiveReply` | src/app.tsx:561-571 | the state moves by `Receive` |
| `AppShell.App.constructor` | src/app.tsx:733-739 | profile, filters and page all come from storage and the hash |
| `AppShell.App.Navigate` | src/app.tsx:753-766 | page and hash move as `NavigateTarget` says for the profile in memory |
| `AppShell.App.SaveProfileAsWritten` | src/app.tsx:768-772 | stores and keeps the profile, but lands where navigation gated on the previous profile lands |
| `AppShell.App.SaveProfile` | src/app.tsx:768-772 | stores the profile so that it reads back as itself; a complete profile opens the dashboard with an empty hash |
| `AppShell.App.SaveScholarshipFilters` | src/app.tsx:774-777 | stores the filters so that they read back as themselves and keeps them in memory |
| `AppShell.App.OnHashChange` | src/app.tsx:742-748 | profile, filters and page are re-read from storage and the current hash |
| `AppShell.App.RefreshScholarshipsFromProfile` | src/app.tsx:221-224 | filters in memory reset to the profile's defaults, and the search sent with parameters equal to both the recommendation parameters and those filters resolved |
| `AppShell.FirstSaveStaysOnProfile` | src/app.tsx:753-772 | a first complete profile saved as written lands on the profile page and a following hash change keeps it there; gated on the new profile it opens the dashboard |

## Findings

| source | as written | input that shows it | evidently intended | confidence | as-written member | corrected member |
|---|---|---|---|---|---|---|
| src/app.tsx:768-772 | `saveProfile` calls `navigate` from the same render, whose completeness test reads the profile from before `setProfile` takes effect | a first save: stored profile empty, saved profile `{fullName: "Amina", originCountry: "Kenya", targetMajor: "Law", studyLevel: "Master"}`; the page stays on "profile" with hash `#profile` | the button "Save Profile & Open Dashboard" opens the dashboard once the saved profile is complete | medium, not executed | `AppShell.App.SaveProfileAsWritten`, `AppShell.FirstSaveStaysOnProfile` | `AppShell.App.SaveProfile` |

## Left out

- Network I/O: the scholarship, course and consultancy requests are inputs (`Settled` values); the arguments passed to `findScholarships` and `findCourses` and the consultancy request body are returned, never sent.
- `AppDashboard.Dashboard.HandleCourseSearch`: returns the argument passed to `findCourses`; the request body that function builds from it adds `type: 'courses'` (services/gemini.ts:34), which is not modelled.
- `Types.CourseSearchResult`: `total` is a JavaScript number carried as an integer and never interpreted.
- The concurrent fan-out of the automatic recommendations (src/app.tsx:261-284): its point is two concurrent requests.
- Interleavings of two in-flight searches are not a method of the `Dashboard` class; `LateResponseOverwrites` states the one that matters on the step functions. The application has no guard against stale responses, and none is modelled.
- `sanitizeConsultancyReply` (src/app.tsx:86-92): regular-expression clean-up, taken as the function parameter `sanitize`.
- Local storage, `JSON.parse` and `JSON.stringify`: a storage entry is `NoEntry` (also for an empty string), `Unparsable`, or a parsed record whose present keys hold strings. Stored values of other JSON types are not modelled.
- The zustand `persist` middleware (src/store/useStore.ts:41-42, 77-79).
- `Store.ProfilePatch`: a key that is present with the value `undefined` is not modelled; `None` stands for an absent key.
- `ProfileForm.FormData`: the form always submits every key of the stored profile (its default values are that profile), so a submission without some key is not modelled.
- `JsText.Lower`: lower-cases ASCII letters only; non-ASCII case mapping is not modelled. `location.hash` reads back with every non-ASCII character percent-encoded (the fragment percent-encode set of the WHATWG URL Standard), so on real hash values ASCII lower-casing is exact.
- `AppProfile.LocationHash`: percent-encoding of the fragment by the browser is not modelled; the app only assigns page names and "".
- `Store.TrackedScholarship`: `matchScore` is a JavaScript number carried as an integer and never interpreted.
- `Store.ChatMessage`: `timestamp` is a JavaScript number (milliseconds) carried as an integer and never interpreted.
- The profile page's local edit state, deadline sorting and days-left arithmetic (Date parsing and floating point), the statistics tiles and all rendering.
- `src/pages/Chat.tsx` (timers and random ids), the root `App.tsx`, `CoursePage.tsx`, the components and `vite.config.ts`.
- The response normaliser, synthetic course ids and source filtering: the services return the parsed response unchanged, and results are kept as received.
