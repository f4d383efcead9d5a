/** The submit handler of the profile form in `src/pages/Profile.tsx`: the
    comma-separated interests text becomes a list of trimmed entries, every
    other submitted field is forwarded as it is, and the result is merged
    into the store. */
module ProfileForm {
  import opened Common
  import opened JsText
  import opened Store

  /** The `interests` value the form hands over: the text of the input, or
      (when the input was never edited) the list held in the store. */
  datatype InterestsValue = Text(text: string) | List(items: seq<string>)

  /** What the form submits: every key of the stored profile, since the
      form's default values are the stored profile. */
  datatype FormData = FormData(
    name: string,
    gpa: string,
    satScore: string,
    actScore: string,
    interests: InterestsValue,
    major: string,
    demographics: string,
    achievements: string)

  /** `text.split(',').map(i => i.trim())`. */
  function SplitInterests(text: string): (r: seq<string>)
    ensures |r| == Count(text, ',') + 1
    ensures forall i :: 0 <= i < |r| ==> ',' !in r[i] && IsTrimmed(r[i])
    ensures text == "" ==> r == [""]
    ensures ',' !in text ==> r == [Trim(text)]
  {
    var parts := Split(text, ',');
    assert ',' !in text ==> parts == [text] by {
      if ',' !in text {
        CountZero(text, ',');
        JoinSplit(text, ',');
      }
    }
    var r := seq(|parts|, i requires 0 <= i < |parts| => Trim(parts[i]));
    assert forall i :: 0 <= i < |r| ==> ',' !in r[i] by {
      forall i | 0 <= i < |r| ensures ',' !in r[i] {
        if ',' in r[i] { TrimKeepsCharacters(parts[i], ','); }
      }
    }
    r
  }

  /** Each entry is one comma-separated piece of the text, trimmed: the
      pieces joined back with commas give the text. */
  lemma SplitInterestsPieces(text: string)
    ensures var parts := Split(text, ',');
      |SplitInterests(text)| == |parts| && Join(parts, ',') == text
      && forall i :: 0 <= i < |parts| ==> SplitInterests(text)[i] == Trim(parts[i])
  {
    JoinSplit(text, ',');
  }

  /** The interests list sent to the store: a text is split and trimmed, a
      value that is not a string goes through unchanged. */
  function NormalizeInterests(v: InterestsValue): (r: seq<string>)
    ensures v.List? ==> r == v.items
    ensures v.Text? ==> r == SplitInterests(v.text)
    ensures v.Text? ==> |r| == Count(v.text, ',') + 1
    ensures v.Text? ==> forall i :: 0 <= i < |r| ==> ',' !in r[i] && IsTrimmed(r[i])
  {
    match v
    case Text(text) => SplitInterests(text)
    case List(items) => items
  }

  /** `{ ...data, interests: … }`: a patch carrying every key. */
  function SubmittedPatch(data: FormData): (patch: ProfilePatch)
    ensures patch.interests == Some(NormalizeInterests(data.interests))
    ensures patch.name == Some(data.name) && patch.major == Some(data.major)
    ensures patch.gpa == Some(data.gpa) && patch.satScore == Some(data.satScore)
    ensures patch.actScore == Some(data.actScore) && patch.demographics == Some(data.demographics)
    ensures patch.achievements == Some(data.achievements)
  {
    ProfilePatch(
      Some(data.name), Some(data.gpa), Some(data.satScore), Some(data.actScore),
      Some(NormalizeInterests(data.interests)), Some(data.major),
      Some(data.demographics), Some(data.achievements))
  }

  /** Because the patch carries every key, the stored profile afterwards is
      the submitted form, whatever the profile was before. */
  lemma SubmitReplacesProfile(before: StoreProfile, data: FormData)
    ensures ApplyPatch(before, SubmittedPatch(data)) == StoreProfile(
      data.name, data.gpa, data.satScore, data.actScore,
      NormalizeInterests(data.interests), data.major, data.demographics, data.achievements)
  {
  }

  /** `onSubmit`: merge the submitted form into the store (the confirmation
      `alert` is not modelled). */
  method OnSubmit(store: AppStore, data: FormData)
    modifies store`userProfile
    ensures store.userProfile == ApplyPatch(old(store.userProfile), SubmittedPatch(data))
    ensures store.trackedScholarships == old(store.trackedScholarships)
    ensures store.chatHistory == old(store.chatHistory)
  {
    store.UpdateProfile(SubmittedPatch(data));
  }
}
