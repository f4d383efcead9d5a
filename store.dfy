/** The persisted application store of `src/store/useStore.ts`: a profile
    record, the list of tracked scholarships and the chat transcript, each
    replaced by one of five actions. */
module Store {
  import opened Common
  import opened Types

  /** The store's own profile shape (distinct from the one the app shell
      keeps in local storage). */
  datatype StoreProfile = StoreProfile(
    name: string,
    gpa: string,
    satScore: string,
    actScore: string,
    interests: seq<string>,
    major: string,
    demographics: string,
    achievements: string)

  /** A `Partial<UserProfile>`: `None` is a key the patch does not carry. */
  datatype ProfilePatch = ProfilePatch(
    name: Option<string>,
    gpa: Option<string>,
    satScore: Option<string>,
    actScore: Option<string>,
    interests: Option<seq<string>>,
    major: Option<string>,
    demographics: Option<string>,
    achievements: Option<string>)

  datatype Status = Saved | Applied | Ignored | New

  /** A scholarship the user keeps track of. `matchScore` is carried, never
      interpreted. */
  datatype TrackedScholarship = TrackedScholarship(
    scholarship: Scholarship,
    id: string,
    status: Status,
    matchScore: Option<int>)

  datatype ChatRole = User | Model

  datatype ChatMessage = ChatMessage(id: string, role: ChatRole, content: string, timestamp: int)

  /** The profile the store starts with: every text empty, no interests. */
  const InitialProfile := StoreProfile("", "", "", "", [], "", "", "")

  const EmptyPatch := ProfilePatch(None, None, None, None, None, None, None, None)

  /** `{ ...profile, ...patch }`: a key the patch carries takes the patch's
      value, every other key keeps the profile's. */
  function ApplyPatch(p: StoreProfile, patch: ProfilePatch): (r: StoreProfile)
    ensures r.name == if patch.name.Some? then patch.name.value else p.name
    ensures r.gpa == if patch.gpa.Some? then patch.gpa.value else p.gpa
    ensures r.satScore == if patch.satScore.Some? then patch.satScore.value else p.satScore
    ensures r.actScore == if patch.actScore.Some? then patch.actScore.value else p.actScore
    ensures r.interests == if patch.interests.Some? then patch.interests.value else p.interests
    ensures r.major == if patch.major.Some? then patch.major.value else p.major
    ensures r.demographics == if patch.demographics.Some? then patch.demographics.value else p.demographics
    ensures r.achievements == if patch.achievements.Some? then patch.achievements.value else p.achievements
  {
    StoreProfile(
      patch.name.GetOr(p.name),
      patch.gpa.GetOr(p.gpa),
      patch.satScore.GetOr(p.satScore),
      patch.actScore.GetOr(p.actScore),
      patch.interests.GetOr(p.interests),
      patch.major.GetOr(p.major),
      patch.demographics.GetOr(p.demographics),
      patch.achievements.GetOr(p.achievements))
  }

  /** The patch that results from spreading `b` over `a`. */
  function ThenPatch(a: ProfilePatch, b: ProfilePatch): ProfilePatch {
    ProfilePatch(
      if b.name.Some? then b.name else a.name,
      if b.gpa.Some? then b.gpa else a.gpa,
      if b.satScore.Some? then b.satScore else a.satScore,
      if b.actScore.Some? then b.actScore else a.actScore,
      if b.interests.Some? then b.interests else a.interests,
      if b.major.Some? then b.major else a.major,
      if b.demographics.Some? then b.demographics else a.demographics,
      if b.achievements.Some? then b.achievements else a.achievements)
  }

  /** The empty patch changes nothing. */
  lemma EmptyPatchIsIdentity(p: StoreProfile)
    ensures ApplyPatch(p, EmptyPatch) == p
  {
  }

  /** Applying the same patch twice is applying it once. */
  lemma ApplyPatchIdempotent(p: StoreProfile, patch: ProfilePatch)
    ensures ApplyPatch(ApplyPatch(p, patch), patch) == ApplyPatch(p, patch)
  {
  }

  /** Two updates in a row are one update with the later patch winning. */
  lemma ApplyPatchCompose(p: StoreProfile, a: ProfilePatch, b: ProfilePatch)
    ensures ApplyPatch(ApplyPatch(p, a), b) == ApplyPatch(p, ThenPatch(a, b))
  {
  }

  /** `list.map(s => s.id === id ? { ...s, status } : s)`. */
  function WithStatus(list: seq<TrackedScholarship>, id: string, status: Status): (r: seq<TrackedScholarship>)
    ensures |r| == |list|
    ensures forall i :: 0 <= i < |list| && list[i].id == id ==> r[i] == list[i].(status := status)
    ensures forall i :: 0 <= i < |list| && list[i].id != id ==> r[i] == list[i]
  {
    if list == [] then []
    else [if list[0].id == id then list[0].(status := status) else list[0]] + WithStatus(list[1..], id, status)
  }

  /** An id no entry carries leaves the list as it was. */
  lemma WithStatusUnknownId(list: seq<TrackedScholarship>, id: string, status: Status)
    requires forall i :: 0 <= i < |list| ==> list[i].id != id
    ensures WithStatus(list, id, status) == list
  {
  }

  /** Setting the same status twice is setting it once. */
  lemma WithStatusIdempotent(list: seq<TrackedScholarship>, id: string, status: Status)
    ensures WithStatus(WithStatus(list, id, status), id, status) == WithStatus(list, id, status)
  {
  }

  /** Setting a status keeps the ids, and so the order, of the entries. */
  lemma WithStatusKeepsIds(list: seq<TrackedScholarship>, id: string, status: Status, i: int)
    requires 0 <= i < |list|
    ensures WithStatus(list, id, status)[i].id == list[i].id
    ensures WithStatus(list, id, status)[i].scholarship == list[i].scholarship
  {
  }

  class AppStore {
    var userProfile: StoreProfile
    var trackedScholarships: seq<TrackedScholarship>
    var chatHistory: seq<ChatMessage>

    constructor ()
      ensures userProfile == InitialProfile
      ensures trackedScholarships == [] && chatHistory == []
    {
      userProfile := InitialProfile;
      trackedScholarships := [];
      chatHistory := [];
    }

    /** `updateProfile`: shallow-merge the patch into the profile. */
    method UpdateProfile(patch: ProfilePatch)
      modifies this`userProfile
      ensures userProfile == ApplyPatch(old(userProfile), patch)
      ensures trackedScholarships == old(trackedScholarships) && chatHistory == old(chatHistory)
    {
      userProfile := ApplyPatch(userProfile, patch);
    }

    /** `trackScholarship`: append, with no de-duplication by id. */
    method TrackScholarship(s: TrackedScholarship)
      modifies this`trackedScholarships
      ensures trackedScholarships == old(trackedScholarships) + [s]
      ensures userProfile == old(userProfile) && chatHistory == old(chatHistory)
    {
      trackedScholarships := trackedScholarships + [s];
    }

    /** `updateScholarshipStatus`: every entry with this id gets the status. */
    method UpdateScholarshipStatus(id: string, status: Status)
      modifies this`trackedScholarships
      ensures trackedScholarships == WithStatus(old(trackedScholarships), id, status)
      ensures userProfile == old(userProfile) && chatHistory == old(chatHistory)
    {
      trackedScholarships := WithStatus(trackedScholarships, id, status);
    }

    /** `addChatMessage`: append to the transcript. */
    method AddChatMessage(m: ChatMessage)
      modifies this`chatHistory
      ensures chatHistory == old(chatHistory) + [m]
      ensures userProfile == old(userProfile) && trackedScholarships == old(trackedScholarships)
    {
      chatHistory := chatHistory + [m];
    }

    /** `clearChat`: empty the transcript. */
    method ClearChat()
      modifies this`chatHistory
      ensures chatHistory == []
      ensures userProfile == old(userProfile) && trackedScholarships == old(trackedScholarships)
    {
      chatHistory := [];
    }
  }
}
