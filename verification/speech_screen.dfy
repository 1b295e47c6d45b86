/**
 * `SpeechToTextScreen`: microphone permission and recognizer start, the answer-correlation
 * turn with its in-flight latch and tolerant response decoding, and the display policy.
 */
module SpeechScreen {
  import opened Wrappers
  import opened JsText
  import opened Json

  /** `Platform.OS`, as far as the screen distinguishes it. */
  datatype Platform = Android | OtherPlatform

  /** `PermissionsAndroid.request(RECORD_AUDIO)`'s answer. */
  datatype PermissionAnswer = Granted | Denied | NeverAskAgain

  /** What `requestMicrophonePermission` decided and which dialogs it opened. */
  datatype PermissionDecision = PermissionDecision(granted: bool, requested: bool, alerted: bool)

  /**
   * `requestMicrophonePermission()`: granted off Android; on Android granted when already
   * granted, else asked for, granted only on GRANTED, with the settings alert on NEVER_ASK_AGAIN.
   */
  function RequestMicrophonePermission(platform: Platform, alreadyGranted: bool, answer: PermissionAnswer): (d: PermissionDecision)
    ensures platform == OtherPlatform ==> d == PermissionDecision(true, false, false)
    ensures platform == Android ==> (d.granted <==> alreadyGranted || answer == Granted)
    ensures d.requested <==> platform == Android && !alreadyGranted
    ensures d.alerted <==> d.requested && answer == NeverAskAgain
    ensures d.alerted ==> !d.granted
  {
    if platform == Android then
      if alreadyGranted then PermissionDecision(true, false, false)
      else if answer == Granted then PermissionDecision(true, true, false)
      else PermissionDecision(false, true, answer == NeverAskAgain)
    else PermissionDecision(true, false, false)
  }

  /** Calls the screen makes on the recognizer. */
  datatype VoiceCall = VoiceStop | VoiceCancel | VoiceStart(locale: string)

  const Locale := "ko-KR"

  /** Number of `Voice.start` calls in a sequence of recognizer calls. */
  function StartCount(calls: seq<VoiceCall>): nat {
    if |calls| == 0 then 0
    else (if calls[0].VoiceStart? then 1 else 0) + StartCount(calls[1..])
  }

  /**
   * `startListening()`: with permission, stop and cancel any session, then `Voice.start`,
   * and once more only if that first start throws (the second failure is swallowed). The
   * oracles `firstStartOk`/`secondStartOk` say whether each start resolves.
   */
  function StartListening(platform: Platform, alreadyGranted: bool, answer: PermissionAnswer,
                          firstStartOk: bool, secondStartOk: bool): (calls: seq<VoiceCall>)
    ensures !RequestMicrophonePermission(platform, alreadyGranted, answer).granted ==> calls == []
    ensures RequestMicrophonePermission(platform, alreadyGranted, answer).granted ==>
              |calls| >= 3 && calls[..3] == [VoiceStop, VoiceCancel, VoiceStart(Locale)]
    ensures |calls| > 0 ==> calls[|calls| - 1] == VoiceStart(Locale)
    ensures forall i :: 2 <= i < |calls| ==> calls[i] == VoiceStart(Locale)
    ensures StartCount(calls) <= 2
    ensures StartCount(calls) == 2 <==> RequestMicrophonePermission(platform, alreadyGranted, answer).granted && !firstStartOk
  {
    if !RequestMicrophonePermission(platform, alreadyGranted, answer).granted then []
    else
      var reset := [VoiceStop, VoiceCancel];
      var starts := if firstStartOk then [VoiceStart(Locale)] else [VoiceStart(Locale), VoiceStart(Locale)];
      StartCountAppend(reset, starts);
      StartCountSmall(reset, starts);
      reset + starts
  }

  /** The call counts of the two pieces `StartListening` is made of. */
  lemma StartCountSmall(reset: seq<VoiceCall>, starts: seq<VoiceCall>)
    requires reset == [VoiceStop, VoiceCancel]
    requires starts == [VoiceStart(Locale)] || starts == [VoiceStart(Locale), VoiceStart(Locale)]
    ensures StartCount(reset) == 0
    ensures StartCount(starts) == |starts|
  {
    assert reset[1..][1..] == [];
    assert StartCount(reset[1..]) == 0;
    if |starts| == 2 {
      assert starts[1..] == [VoiceStart(Locale)];
      assert starts[1..][1..] == [];
    } else {
      assert starts[1..] == [];
    }
  }

  /** `StartCount` distributes over concatenation. */
  lemma {:induction false} StartCountAppend(a: seq<VoiceCall>, b: seq<VoiceCall>)
    ensures StartCount(a + b) == StartCount(a) + StartCount(b)
  {
    if |a| == 0 {
      assert a + b == b;
    } else {
      assert (a + b)[1..] == a[1..] + b;
      StartCountAppend(a[1..], b);
    }
  }

  /** The screen's state; `inFlight` is `inFlightRef.current`. */
  datatype ScreenState = ScreenState(
    recognizedText: string,
    isListening: bool,
    apiResponse: Json,
    loading: bool,
    sources: seq<Json>,
    inFlight: bool)

  const Initial := ScreenState("", false, Str(""), false, [], false)

  /** Requests a turn issues. */
  datatype Request =
    | ChatAsk(message: string)
    | NewsQuery(question: string, days: int, maxLinks: int)

  const NewsDays := 7
  const NewsMaxLinks := 5

  /** `e.value?.[0] || ''`: the first alternative, `''` when there is none or it is falsy. */
  function FirstAlternative(value: Option<seq<string>>): (text: string)
    ensures value.Some? && |value.value| > 0 ==> text == value.value[0]
    ensures value.None? || |value.value| == 0 ==> text == ""
  {
    if value.Some? && |value.value| > 0 then value.value[0] else ""
  }

  /**
   * The synchronous part of `onSpeechResults`: the text is always shown; with no turn in
   * flight the latch is taken, the answer and sources are cleared, loading is set, and the
   * two requests go out. No utterance is filtered out, the empty one included.
   */
  function BeginTurn(s: ScreenState, value: Option<seq<string>>): (r: (ScreenState, seq<Request>))
    ensures r.0.recognizedText == FirstAlternative(value)
    ensures s.inFlight ==> r.0 == s.(recognizedText := FirstAlternative(value)) && r.1 == []
    ensures !s.inFlight ==> && r.0.inFlight && r.0.loading && r.0.apiResponse == Str("") && r.0.sources == []
                            && r.0.isListening == s.isListening
                            && r.1 == [ChatAsk(r.0.recognizedText), NewsQuery(r.0.recognizedText, 7, 5)]
  {
    var text := FirstAlternative(value);
    var shown := s.(recognizedText := text);
    if s.inFlight then (shown, [])
    else (shown.(inFlight := true, loading := true, apiResponse := Str(""), sources := []),
          [ChatAsk(text), NewsQuery(text, NewsDays, NewsMaxLinks)])
  }

  /** How the chat request ended: the response body, or a rejection with the HTTP status if any. */
  datatype ChatOutcome = ChatReplied(body: Json) | ChatFailed(status: Option<int>)

  /** How the news request ended. */
  datatype NewsOutcome = NewsReplied(body: Json) | NewsFailed(status: Option<int>)

  const NoAnswer := Str("(응답 없음)")
  const GenericFailure := Str("(오류 발생)")
  const WaitingText := Str("응답을 기다리는 중...")

  /** A status is truthy when present and non-zero. */
  predicate StatusTruthy(status: Option<int>) {
    status.Some? && status.value != 0
  }

  /** `(오류 <status>)`. */
  function StatusFailure(status: int): Json {
    Str("(오류 " + IntToDecimal(status) + ")")
  }

  /**
   * The chat answer: `data?.data?.answer ?? data?.answer ?? data?.message ?? '(응답 없음)'`, whatever
   * the winner's type; on failure `(오류 <status>)` for a truthy status, `(오류 발생)` otherwise.
   */
  function DecodeChat(outcome: ChatOutcome): (answer: Json)
    ensures outcome.ChatReplied? ==>
              var nested := Path(outcome.body, ["data", "answer"]);
              var top := Field(outcome.body, "answer");
              var message := Field(outcome.body, "message");
              answer == if nested != Null then nested else if top != Null then top
                        else if message != Null then message else NoAnswer
    ensures outcome.ChatFailed? ==> answer == (if StatusTruthy(outcome.status) then StatusFailure(outcome.status.value) else GenericFailure)
    ensures answer != Null
  {
    match outcome
    case ChatReplied(data) =>
      var cands := [Path(data, ["data", "answer"]), Field(data, "answer"), Field(data, "message")];
      assert cands[1] == Field(data, "answer") && cands[2] == Field(data, "message");
      Coalesce(cands, NoAnswer)
    case ChatFailed(status) =>
      if StatusTruthy(status) then StatusFailure(status.value) else GenericFailure
  }

  /**
   * `fetchNewsUrls`: the first non-nullish of `data.data.urls`, `data.data.links`, `data.urls`,
   * `data.links`; that value when it is an array, `[]` otherwise and on any failure.
   */
  function DecodeNews(outcome: NewsOutcome): (urls: seq<Json>)
    ensures outcome.NewsFailed? ==> urls == []
    ensures outcome.NewsReplied? ==>
              var winner := Coalesce([Path(outcome.body, ["data", "urls"]), Path(outcome.body, ["data", "links"]),
                                      Field(outcome.body, "urls"), Field(outcome.body, "links")], Arr([]));
              urls == (if winner.Arr? then winner.items else [])
  {
    match outcome
    case NewsFailed(_) => []
    case NewsReplied(data) =>
      var urls := Coalesce([Path(data, ["data", "urls"]), Path(data, ["data", "links"]),
                            Field(data, "urls"), Field(data, "links")], Arr([]));
      if urls.Arr? then urls.items else []
  }

  /**
   * Both sub-requests have settled: answer and sources are committed together, then the
   * `finally` clears loading and releases the latch.
   */
  function SettleTurn(s: ScreenState, chat: ChatOutcome, news: NewsOutcome): (r: ScreenState)
    ensures !r.inFlight && !r.loading
    ensures r.apiResponse == DecodeChat(chat) && r.sources == DecodeNews(news)
    ensures r.recognizedText == s.recognizedText && r.isListening == s.isListening
  {
    s.(apiResponse := DecodeChat(chat), sources := DecodeNews(news), loading := false, inFlight := false)
  }

  /** What the lower half of the screen shows. */
  datatype Display =
    | NewsCards(urls: seq<Json>, question: string)
    | SpokenAnswer(text: Json)

  /** The news card when there are sources, otherwise the answer bubble (`apiResponse || '응답을 기다리는 중...'`). */
  function Render(s: ScreenState): (d: Display)
    ensures d.NewsCards? <==> |s.sources| > 0
    ensures d.NewsCards? ==> d.urls == s.sources && d.question == s.recognizedText
    ensures d.SpokenAnswer? && Truthy(s.apiResponse) ==> d.text == s.apiResponse
    ensures d.SpokenAnswer? && !Truthy(s.apiResponse) ==> d.text == WaitingText
  {
    if |s.sources| > 0 then NewsCards(s.sources, s.recognizedText)
    else SpokenAnswer(if Truthy(s.apiResponse) then s.apiResponse else WaitingText)
  }

  /** `onSpeechStart` and `onSpeechEnd`/`onSpeechError` only toggle the listening indicator. */
  function OnSpeechStart(s: ScreenState): (r: ScreenState)
    ensures r.isListening && r.(isListening := s.isListening) == s
  {
    s.(isListening := true)
  }

  function OnSpeechEnd(s: ScreenState): (r: ScreenState)
    ensures !r.isListening && r.(isListening := s.isListening) == s
  {
    s.(isListening := false)
  }

  function OnSpeechError(s: ScreenState): (r: ScreenState)
    ensures !r.isListening && r.(isListening := s.isListening) == s
  {
    s.(isListening := false)
  }

  /**
   * A whole turn: a result arrives, and if it opened a turn, both answers arrive. The rendered
   * result pairs the answer and the news list of this utterance, the latch is free again, and a
   * result arriving mid-turn issues nothing.
   */
  lemma TurnEndsReleased(s: ScreenState, value: Option<seq<string>>, chat: ChatOutcome, news: NewsOutcome)
    requires !s.inFlight
    ensures var (mid, reqs) := BeginTurn(s, value);
            var after := SettleTurn(mid, chat, news);
            && |reqs| == 2
            && !after.inFlight && !after.loading
            && (Render(after).NewsCards? <==> |DecodeNews(news)| > 0)
            && (Render(after).SpokenAnswer? ==>
                  Render(after).text == if Truthy(DecodeChat(chat)) then DecodeChat(chat) else WaitingText)
  {
  }

  /** While a turn is in flight any number of further results only change the shown text. */
  lemma {:induction false} ResultsDuringTurnIssueNothing(s: ScreenState, values: seq<Option<seq<string>>>)
    requires s.inFlight
    decreases |values|
    ensures var r := Feed(s, values);
            && r.1 == []
            && r.0.(recognizedText := s.recognizedText) == s
  {
    if |values| > 0 {
      ResultsDuringTurnIssueNothing(BeginTurn(s, values[0]).0, values[1..]);
    }
  }

  /** Delivering several recognition results in a row, collecting the requests issued. */
  function Feed(s: ScreenState, values: seq<Option<seq<string>>>): (ScreenState, seq<Request>)
    decreases |values|
  {
    if |values| == 0 then (s, [])
    else
      var (s1, reqs1) := BeginTurn(s, values[0]);
      var (s2, reqs2) := Feed(s1, values[1..]);
      (s2, reqs1 + reqs2)
  }

  /** Different statuses give different failure texts. */
  lemma StatusFailureInjective(a: int, b: int)
    requires StatusFailure(a) == StatusFailure(b)
    ensures a == b
  {
    var prefix := "(오류 ";
    var ta := IntToDecimal(a);
    var tb := IntToDecimal(b);
    assert prefix + ta + ")" == prefix + tb + ")";
    assert ta == (prefix + ta + ")")[|prefix|..|prefix| + |ta|];
    assert |ta| == |tb|;
    assert tb == (prefix + tb + ")")[|prefix|..|prefix| + |tb|];
    IntToDecimalRoundTrip(a);
    IntToDecimalRoundTrip(b);
  }

  /**
   * `??` picks the first non-nullish value even when it is not an array: a string under
   * `data.data.urls` hides the array under `data.urls`, and the list is empty.
   */
  lemma NonArrayWinnerYieldsEmpty()
    ensures DecodeNews(NewsReplied(Obj(map["data" := Obj(map["urls" := Str("x")]),
                                           "urls" := Arr([Str("https://b.com/1")])]))) == []
  {
    var body := Obj(map["data" := Obj(map["urls" := Str("x")]), "urls" := Arr([Str("https://b.com/1")])]);
    assert Path(body, ["data", "urls"]) == Str("x");
  }

  /** The news list is not filtered: a string that is not a URL is kept, in order. */
  lemma NewsUrlsAreNotFiltered()
    ensures DecodeNews(NewsReplied(Obj(map["data" := Obj(map["urls" := Arr([Str("https://b.com/1"), Str("not a url")])])])))
            == [Str("https://b.com/1"), Str("not a url")]
  {
    var body := Obj(map["data" := Obj(map["urls" := Arr([Str("https://b.com/1"), Str("not a url")])])]);
    assert Path(body, ["data", "urls"]) == Arr([Str("https://b.com/1"), Str("not a url")]);
  }

  /**
   * `??` keeps a falsy answer such as `0`, and the bubble's `||` then shows the waiting text
   * instead of it.
   */
  lemma FalsyAnswerShowsWaitingText(s: ScreenState)
    requires !s.inFlight
    ensures var body := Obj(map["answer" := Num(0), "message" := Str("hi")]);
            var after := SettleTurn(BeginTurn(s, Some(["q"])).0, ChatReplied(body), NewsFailed(Some(500)));
            after.apiResponse == Num(0) && Render(after) == SpokenAnswer(WaitingText)
  {
    var body := Obj(map["answer" := Num(0), "message" := Str("hi")]);
    assert Path(body, ["data", "answer"]) == Null;
  }
}
