/** The home page (src/pages/index.tsx): one input field per tab, the
    submit-disabled rule, and `handleSubmit` — the session check, the
    session key, per-tab validation, the API calls (two in sequence on the
    YouTube tab) and the decision between navigating to `/quiz` and showing
    an error. The API's answers are an oracle from the call's position and
    the call to its outcome; navigation is a returned flag. */
module Home {
  import opened Js
  import opened JsonData
  import opened ApiClient
  import Session

  datatype Tab = TopicTab | YoutubeTab | UrlTab

  /** The three input cells. */
  datatype Fields = Fields(topic: string, youtubeURL: string, url: string)

  const SessionNotInitialized := "Session not initialized. Please refresh the page."
  const TranscriptFailed := "Failed to get YouTube transcript. Please check the URL and try again."

  /** The message for a blank input on each tab. */
  function BlankMessage(tab: Tab): string
  {
    match tab
    case TopicTab => "Please enter a topic"
    case YoutubeTab => "Please enter a YouTube URL"
    case UrlTab => "Please enter a URL"
  }

  /** The message when the generation step returns no questions, on each tab. */
  function NoQuestionsMessage(tab: Tab): string
  {
    match tab
    case TopicTab => "Failed to generate questions. Please try again."
    case YoutubeTab => "Failed to generate questions from YouTube transcript."
    case UrlTab => "Failed to generate questions from URL content."
  }

  /** `getInputValue`: the active tab's field. */
  function InputValue(f: Fields, tab: Tab): string
  {
    match tab
    case TopicTab => f.topic
    case YoutubeTab => f.youtubeURL
    case UrlTab => f.url
  }

  /** `setInputValue`: writes the active tab's field and no other, so that
      `getInputValue` reads back what was written. */
  function SetInput(f: Fields, tab: Tab, value: string): (r: Fields)
    ensures InputValue(r, tab) == value
    ensures forall t :: t != tab ==> InputValue(r, t) == InputValue(f, t)
  {
    match tab
    case TopicTab => f.(topic := value)
    case YoutubeTab => f.(youtubeURL := value)
    case UrlTab => f.(url := value)
  }

  /** `disabled={isLoading || !getInputValue().trim()}`: the button is
      disabled while loading, or when the active field is nothing but
      whitespace. */
  predicate SubmitDisabled(isLoading: bool, f: Fields, tab: Tab)
  {
    isLoading || Trim(InputValue(f, tab)) == ""
  }

  lemma SubmitDisabledMeaning(isLoading: bool, f: Fields, tab: Tab)
    ensures SubmitDisabled(isLoading, f, tab) <==> isLoading || AllSpace(InputValue(f, tab))
  {
  }

  /** The check after a generation call: `None` to navigate, or the message
      shown. A rejected call shows its message; a `null` body throws on
      reading `questions`; otherwise `questions` must be truthy with a
      positive `length`. */
  function QuestionsCheck(reply: ApiResult, failMessage: string): (r: Option<string>)
    ensures r.None? <==> reply.Success? && TruthyAccess(Member(reply.value, "questions"))
                         && NonEmptyLength(Member(reply.value, "questions").value)
    ensures reply.Failure? ==> r == Some(reply.error.message)
  {
    match reply
    case Failure(e) => Some(e.message)
    case Success(data) =>
      var q := Member(data, "questions");
      if q.TypeError? then Some(q.message)
      else if TruthyAccess(q) && NonEmptyLength(q.value) then None
      else Some(failMessage)
  }

  /** The check after the transcript call: `None` to go on, or the message shown. */
  function TranscriptCheck(reply: ApiResult): (r: Option<string>)
    ensures r.None? <==> reply.Success? && TruthyAccess(Member(reply.value, "success"))
    ensures reply.Failure? ==> r == Some(reply.error.message)
  {
    match reply
    case Failure(e) => Some(e.message)
    case Success(data) =>
      var s := Member(data, "success");
      if s.TypeError? then Some(s.message)
      else if TruthyAccess(s) then None
      else Some(TranscriptFailed)
  }

  /** What a submit does once the session key exists. */
  datatype Outcome = Outcome(error: Option<string>, calls: seq<Call>, navigated: bool)

  /** The first call a tab makes, with the trimmed input. */
  function FirstCall(tab: Tab, input: string, sessionId: string): Call
  {
    match tab
    case TopicTab => GenerateQuestions(input, sessionId)
    case YoutubeTab => GetYoutubeTranscript(input, sessionId)
    case UrlTab => GenerateUrlQuestions(input, sessionId)
  }

  /** The `try` block of `handleSubmit` for the trimmed input `input` and the
      session key `sessionId`; `respond(i, c)` is the outcome of the `i`-th
      call made. */
  function Attempt(tab: Tab, input: string, sessionId: string, respond: (nat, Call) -> ApiResult): Outcome
  {
    if input == "" then Outcome(Some(BlankMessage(tab)), [], false)
    else
      var first := FirstCall(tab, input, sessionId);
      if tab != YoutubeTab then
        var check := QuestionsCheck(respond(0, first), NoQuestionsMessage(tab));
        Outcome(check, [first], check.None?)
      else
        match TranscriptCheck(respond(0, first))
        case Some(m) => Outcome(Some(m), [first], false)
        case None =>
          var second := GenerateYoutubeQuestions(sessionId);
          var check := QuestionsCheck(respond(1, second), NoQuestionsMessage(tab));
          Outcome(check, [first, second], check.None?)
  }

  /** The `try` block on the fields as they are. */
  function Flow(tab: Tab, f: Fields, sessionId: string, respond: (nat, Call) -> ApiResult): Outcome
  {
    Attempt(tab, Trim(InputValue(f, tab)), sessionId, respond)
  }

  /** A blank input gives its tab's message and makes no call; any other
      input makes a first call carrying the trimmed input and the session key. */
  lemma FlowValidation(tab: Tab, f: Fields, sessionId: string, respond: (nat, Call) -> ApiResult)
    ensures var r := Flow(tab, f, sessionId, respond);
      && (Trim(InputValue(f, tab)) == "" <==> r.calls == [])
      && (r.calls == [] ==> r == Outcome(Some(BlankMessage(tab)), [], false))
      && (r.calls != [] ==> r.calls[0] == FirstCall(tab, Trim(InputValue(f, tab)), sessionId))
  {
  }

  /** Navigation happens exactly when no error is shown, and then the last
      call returned a truthy `questions` with a positive `length`. */
  lemma FlowNavigation(tab: Tab, f: Fields, sessionId: string, respond: (nat, Call) -> ApiResult)
    ensures var r := Flow(tab, f, sessionId, respond);
      && (r.navigated <==> r.error.None?)
      && (r.navigated ==>
            r.calls != [] && QuestionsCheck(respond(|r.calls| - 1, r.calls[|r.calls| - 1]), NoQuestionsMessage(tab)).None?)
  {
    var r := Flow(tab, f, sessionId, respond);
    if Trim(InputValue(f, tab)) != "" {
      var first := FirstCall(tab, Trim(InputValue(f, tab)), sessionId);
      if tab != YoutubeTab {
        assert r.calls == [first];
      } else if TranscriptCheck(respond(0, first)).None? {
        assert r.calls == [first, GenerateYoutubeQuestions(sessionId)];
      }
    }
  }

  /** A second call is made only on the YouTube tab, only after a transcript
      step whose `success` is truthy, and with the same session key. */
  lemma FlowSecondCall(tab: Tab, f: Fields, sessionId: string, respond: (nat, Call) -> ApiResult)
    ensures var r := Flow(tab, f, sessionId, respond);
      && |r.calls| <= 2
      && (|r.calls| == 2 <==> tab == YoutubeTab && Trim(f.youtubeURL) != ""
                               && TranscriptCheck(respond(0, FirstCall(tab, Trim(InputValue(f, tab)), sessionId))).None?)
      && (|r.calls| == 2 ==> r.calls[1] == GenerateYoutubeQuestions(sessionId))
  {
  }

  /** The topic sent is the trimmed topic, which `Trim` guarantees is not
      empty and has no surrounding whitespace. */
  lemma TopicIsTrimmed(f: Fields, sessionId: string, respond: (nat, Call) -> ApiResult)
    requires Flow(TopicTab, f, sessionId, respond).calls != []
    ensures Flow(TopicTab, f, sessionId, respond).calls[0].options.body
         == Some(JObj(map["topic" := JStr(Trim(f.topic)), "uuid" := JStr(sessionId)]))
  {
    assert Flow(TopicTab, f, sessionId, respond).calls == [GenerateQuestions(Trim(f.topic), sessionId)];
  }

  /** The page instance, with the session hook it uses. */
  class HomePage {
    var fields: Fields
    var tab: Tab
    var isLoading: bool
    var error: Option<string>
    const session: Session.SessionHook

    /** The first render: empty fields, the topic tab, not loading, no error. */
    constructor (session: Session.SessionHook)
      ensures fields == Fields("", "", "") && tab == TopicTab && !isLoading && error == None
      ensures this.session == session
    {
      fields := Fields("", "", "");
      tab := TopicTab;
      isLoading := false;
      error := None;
      this.session := session;
    }

    /** The input's `value`. */
    function GetInputValue(): string
      reads this
    {
      InputValue(fields, tab)
    }

    /** The input's `onChange`. */
    method SetInputValue(value: string)
      modifies this
      ensures fields == SetInput(old(fields), tab, value)
      ensures tab == old(tab) && isLoading == old(isLoading) && error == old(error)
    {
      match tab
      case TopicTab => fields := fields.(topic := value);
      case YoutubeTab => fields := fields.(youtubeURL := value);
      case UrlTab => fields := fields.(url := value);
    }

    /** The `try` block of `handleSubmit` for the trimmed input `input` under
        the session key `sessionId`: the tab's validation, its calls in order
        and the check of each reply. */
    method SubmitInput(input: string, sessionId: string, respond: (nat, Call) -> ApiResult) returns (calls: seq<Call>, navigated: bool)
      modifies this
      ensures fields == old(fields) && tab == old(tab) && isLoading == old(isLoading)
      ensures Outcome(error, calls, navigated) == Attempt(tab, input, sessionId, respond)
    {
      var t := tab;
      calls := [];
      navigated := false;
      if input == "" {
        error := Some(BlankMessage(t));
        return;
      }
      var first := FirstCall(t, input, sessionId);
      calls := [first];
      var check: Option<string>;
      if t != YoutubeTab {
        check := QuestionsCheck(respond(0, first), NoQuestionsMessage(t));
      } else {
        check := TranscriptCheck(respond(0, first));
        if check.None? {
          var second := GenerateYoutubeQuestions(sessionId);
          calls := calls + [second];
          check := QuestionsCheck(respond(1, second), NoQuestionsMessage(t));
        }
      }
      assert Attempt(t, input, sessionId, respond) == Outcome(check, calls, check.None?);
      if check.None? {
        navigated := true;
        error := None;
      } else {
        error := check;
      }
    }

    /** `handleSubmit` at time `now`. Without an identifier no session key is
        made and nothing is called; otherwise the session key is made first —
        so even a blank input rewrites `sessionTimestamp` — and the `try`
        block runs. Loading always ends. */
    method HandleSubmit(now: nat, respond: (nat, Call) -> ApiResult) returns (calls: seq<Call>, navigated: bool)
      modifies this, session
      ensures fields == old(fields) && tab == old(tab) && !isLoading
      ensures old(session.userUUID) == "" ==>
                error == Some(SessionNotInitialized) && calls == [] && !navigated
                && session.State() == old(session.State())
      ensures old(session.userUUID) != "" ==>
                var sessionId := Session.SessionId(old(session.userUUID), now);
                && session.State() == Session.SessionStart(old(session.State()), now).1
                && Outcome(error, calls, navigated) == Flow(tab, fields, sessionId, respond)
    {
      isLoading := true;
      error := None;
      if session.userUUID == "" {
        error := Some(SessionNotInitialized);
        isLoading := false;
        return [], false;
      }
      var sessionId := session.CreateSessionId(now);
      calls, navigated := SubmitInput(Trim(InputValue(fields, tab)), sessionId, respond);
      isLoading := false;
    }
  }
}
