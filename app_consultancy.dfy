/** The consultancy transcript of `src/app.tsx`: a message box, a loading
    flag and the list of messages exchanged with the advisor. Sending runs
    in two steps around the network call: the user's message is appended
    and the request built, then the advisor's reply (or an apology) is
    appended once the request settles. The reply clean-up is a parameter. */
module AppConsultancy {
  import opened Common
  import opened JsText
  import AppProfile

  datatype Speaker = You | Advisor

  datatype ConsultancyMessage = ConsultancyMessage(from: Speaker, text: string)

  /** One message of the request body. */
  datatype ApiMessage = ApiMessage(role: string, content: string)

  /** The request body: the transcript and the profile the page was opened
      with. */
  datatype ConsultancyRequest = ConsultancyRequest(messages: seq<ApiMessage>, userProfile: AppProfile.UserProfile)

  datatype ConsultancyState = ConsultancyState(
    message: string,
    loading: bool,
    history: seq<ConsultancyMessage>)

  const ParseFallback := "I could not parse the response. Please try rephrasing your question."
  const ConnectFailure := "Sorry, I could not connect. Please try again."

  /** What follows the name in the advisor's greeting. */
  const WelcomeTail := "! I am your Scholira AI consultancy assistant. Share your target countries and deadlines to get a strategy."

  function WelcomeText(fullName: string): string {
    "Welcome " + fullName + WelcomeTail
  }

  /** A fresh page: an empty box and the advisor's greeting. */
  function Opened(fullName: string): (s: ConsultancyState)
    ensures s.message == "" && !s.loading
    ensures s.history == [ConsultancyMessage(Advisor, WelcomeText(fullName))]
  {
    ConsultancyState("", false, [ConsultancyMessage(Advisor, WelcomeText(fullName))])
  }

  /** The request role of a speaker: 'user' for the user, 'assistant'
      for anyone else. */
  function Role(from: Speaker): (r: string)
    ensures r == "user" <==> from == You
    ensures r == "assistant" <==> from == Advisor
  {
    match from
    case You => "user"
    case Advisor => "assistant"
  }

  /** The transcript as request messages: 'user' for the user's turns,
      'assistant' for the advisor's, texts unchanged. */
  function ApiMessages(history: seq<ConsultancyMessage>): (r: seq<ApiMessage>)
    ensures |r| == |history|
    ensures forall i :: 0 <= i < |history| ==> r[i] == ApiMessage(Role(history[i].from), history[i].text)
  {
    if history == [] then []
    else [ApiMessage(Role(history[0].from), history[0].text)] + ApiMessages(history[1..])
  }

  /** Roles tell the speakers apart. */
  lemma RoleDistinguishesSpeakers(a: Speaker, b: Speaker)
    ensures Role(a) == Role(b) <==> a == b
  {
    assert |Role(You)| == 4 && |Role(Advisor)| == 9;
  }

  /** Whether `sendMessage` goes ahead: a non-blank message and no reply
      pending. */
  predicate CanSend(s: ConsultancyState) {
    Trim(s.message) != "" && !s.loading
  }

  /** The part of `sendMessage` before the request: the trimmed message
      appended as the user's turn, the box emptied, loading on. A blank box
      or a pending reply changes nothing. */
  function Submit(s: ConsultancyState): (t: ConsultancyState)
    ensures !CanSend(s) ==> t == s
    ensures CanSend(s) ==> t.message == "" && t.loading
    ensures CanSend(s) ==> |t.history| == |s.history| + 1 && t.history[..|s.history|] == s.history
    ensures CanSend(s) ==> t.history[|s.history|] == ConsultancyMessage(You, Trim(s.message))
    ensures CanSend(s) ==> Trim(s.message) != "" && IsTrimmed(Trim(s.message))
  {
    if !CanSend(s) then s
    else ConsultancyState("", true, s.history + [ConsultancyMessage(You, Trim(s.message))])
  }

  /** The advisor's text for a reply: the cleaned reply, or a fallback when
      the reply is missing or cleans to nothing. */
  function AdvisorText(reply: Option<string>, sanitize: string -> string): (r: string)
    ensures r != ""
    ensures sanitize(reply.GetOr("")) != "" ==> r == sanitize(reply.GetOr(""))
    ensures sanitize(reply.GetOr("")) == "" ==> r == ParseFallback
  {
    OrElse(sanitize(reply.GetOr("")), ParseFallback)
  }

  /** The part of `sendMessage` after the request settled: the advisor's
      text, or the connection apology, appended; loading off. */
  function Receive(s: ConsultancyState, outcome: Settled<Option<string>>, sanitize: string -> string): (t: ConsultancyState)
    ensures !t.loading && t.message == s.message
    ensures |t.history| == |s.history| + 1 && t.history[..|s.history|] == s.history
    ensures t.history[|s.history|].from == Advisor && t.history[|s.history|].text != ""
    ensures outcome.Resolved? ==> t.history[|s.history|] == ConsultancyMessage(Advisor, AdvisorText(outcome.data, sanitize))
    ensures outcome.Rejected? ==> t.history[|s.history|] == ConsultancyMessage(Advisor, ConnectFailure)
  {
    var text := match outcome
      case Resolved(reply) => AdvisorText(reply, sanitize)
      case Rejected(_) => ConnectFailure;
    s.(history := s.history + [ConsultancyMessage(Advisor, text)], loading := false)
  }

  /** A whole exchange adds exactly the user's trimmed message and the
      advisor's text (the cleaned reply, its fallback or the apology), and
      keeps everything before. */
  lemma ExchangeAppendsTwo(s: ConsultancyState, outcome: Settled<Option<string>>, sanitize: string -> string)
    requires CanSend(s)
    ensures var t := Receive(Submit(s), outcome, sanitize);
      && |t.history| == |s.history| + 2
      && t.history[..|s.history|] == s.history
      && t.history[|s.history|] == ConsultancyMessage(You, Trim(s.message))
      && t.history[|s.history| + 1] == ConsultancyMessage(Advisor,
           if outcome.Resolved? then AdvisorText(outcome.data, sanitize) else ConnectFailure)
      && t.history[|s.history| + 1].text != ""
      && t.message == "" && !t.loading
  {
    var u := Submit(s);
    var t := Receive(u, outcome, sanitize);
    assert t.history[..|s.history|] == u.history[..|u.history|][..|s.history|];
  }

  /** While a reply is pending, sending again changes nothing. */
  lemma NoSecondSendWhileLoading(s: ConsultancyState, typed: string)
    requires Submit(s) != s
    ensures Submit(Submit(s).(message := typed)) == Submit(s).(message := typed)
  {
  }

  class ConsultancyPage {
    /** The profile the page was rendered with; it goes with every request. */
    const profile: AppProfile.UserProfile
    var message: string
    var loading: bool
    var history: seq<ConsultancyMessage>

    function State(): ConsultancyState
      reads this
    {
      ConsultancyState(message, loading, history)
    }

    constructor (profile: AppProfile.UserProfile)
      ensures this.profile == profile
      ensures State() == Opened(profile.fullName)
    {
      this.profile := profile;
      var start := Opened(profile.fullName);
      message := start.message;
      loading := start.loading;
      history := start.history;
    }

    /** Typing into the message box. */
    method SetMessage(text: string)
      modifies this`message
      ensures State() == old(State()).(message := text)
    {
      message := text;
    }

    /** `sendMessage` up to the request: returns the request body when it
        goes ahead. */
    method SendMessage() returns (request: Option<ConsultancyRequest>)
      modifies this
      ensures State() == Submit(old(State()))
      ensures request.Some? <==> CanSend(old(State()))
      ensures request.Some? ==> request.value == ConsultancyRequest(ApiMessages(history), profile)
    {
      var trimmed := Trim(message);
      if trimmed == "" || loading {
        request := None;
        return;
      }
      history := history + [ConsultancyMessage(You, trimmed)];
      message := "";
      loading := true;
      request := Some(ConsultancyRequest(ApiMessages(history), profile));
    }

    /** `sendMessage` after the request settled. */
    method ReceiveReply(outcome: Settled<Option<string>>, sanitize: string -> string)
      modifies this`history, this`loading
      ensures State() == Receive(old(State()), outcome, sanitize)
    {
      match outcome {
        case Resolved(reply) =>
          history := history + [ConsultancyMessage(Advisor, AdvisorText(reply, sanitize))];
        case Rejected(_) =>
          history := history + [ConsultancyMessage(Advisor, ConnectFailure)];
      }
      loading := false;
    }
  }
}
