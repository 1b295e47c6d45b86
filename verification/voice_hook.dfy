/**
 * `useVoiceInput`: the recognizer hook as a state machine. `startListening` suspends twice,
 * on `ensurePermission()` and on `Voice.start`, so it is split at both: `BeginStart` takes the
 * latch, `PermissionSettled` acts on the permission answer, and `RecognizerSettled` on the
 * recognizer's. Other events may arrive between any two of them.
 */
module VoiceHook {
  import opened Wrappers
  import SpeechScreen

  /** The hook's state; `inFlight` is `inFlightRef.current`. */
  datatype VoiceState = VoiceState(isListening: bool, recognizedText: string, inFlight: bool)

  const Idle := VoiceState(false, "", false)

  /** Side effects of a transition. */
  datatype Effect =
    | CheckPermission          // ensurePermission() begins
    | PermissionAlert          // Alert.alert('권한 필요', ...)
    | StartRecognizer(language: string)
    | StopRecognizer
    | ForwardText(text: string) // onResultText?.(text)

  datatype Step = Step(state: VoiceState, effects: seq<Effect>)

  /**
   * `ensurePermission()`: true off Android; on Android true when already granted, else true
   * exactly when the request answers GRANTED (NEVER_ASK_AGAIN is just a denial here).
   */
  function EnsurePermission(platform: SpeechScreen.Platform, alreadyGranted: bool, answer: SpeechScreen.PermissionAnswer): (ok: bool)
    ensures platform == SpeechScreen.OtherPlatform ==> ok
    ensures platform == SpeechScreen.Android ==> (ok <==> alreadyGranted || answer == SpeechScreen.Granted)
  {
    platform != SpeechScreen.Android || alreadyGranted || answer == SpeechScreen.Granted
  }

  /** The hook and the screen grant the microphone in exactly the same cases. */
  lemma PermissionAgreesWithScreen(platform: SpeechScreen.Platform, alreadyGranted: bool, answer: SpeechScreen.PermissionAnswer)
    ensures EnsurePermission(platform, alreadyGranted, answer)
            == SpeechScreen.RequestMicrophonePermission(platform, alreadyGranted, answer).granted
  {
  }

  /** `startListening()` up to its first `await`: a no-op while the latch is held, else takes it. */
  function BeginStart(s: VoiceState): (r: Step)
    ensures s.inFlight ==> r == Step(s, [])
    ensures !s.inFlight ==> r == Step(s.(inFlight := true), [CheckPermission])
  {
    if s.inFlight then Step(s, []) else Step(s.(inFlight := true), [CheckPermission])
  }

  /** How `await ensurePermission()` settles: true, false, or a rejected promise. */
  datatype PermissionOutcome = Allowed | Refused | Threw

  /**
   * `startListening()` between its two `await`s, as written. Refused: an alert and the latch
   * released (useVoiceInput.ts:66-69). Allowed: the text is cleared and the recognizer asked
   * to start, the latch still held. Threw: the rejection escapes before the `try` whose
   * `finally` would release the latch, so the state stays exactly as it was, latch held.
   */
  function PermissionSettledAsWritten(s: VoiceState, language: string, p: PermissionOutcome): (r: Step)
    ensures p == Refused ==> r == Step(s.(inFlight := false), [PermissionAlert])
    ensures p == Allowed ==> r == Step(s.(recognizedText := ""), [StartRecognizer(language)])
    ensures p == Threw ==> r == Step(s, [])
  {
    match p
    case Refused => Step(s.(inFlight := false), [PermissionAlert])
    case Allowed => Step(s.(recognizedText := ""), [StartRecognizer(language)])
    case Threw => Step(s, [])
  }

  /**
   * `startListening()` between its two `await`s with the latch released on every exit, which
   * is what the denial branch and the `finally` block show is intended. It differs from
   * `PermissionSettledAsWritten` only when the permission call rejects.
   */
  function PermissionSettled(s: VoiceState, language: string, p: PermissionOutcome): (r: Step)
    ensures p != Threw ==> r == PermissionSettledAsWritten(s, language, p)
    ensures p == Threw ==> r == Step(s.(inFlight := false), [])
    ensures p != Allowed ==> !r.state.inFlight && r.state.recognizedText == s.recognizedText
    ensures r.state.isListening == s.isListening
    ensures StartRecognizer(language) in r.effects <==> p == Allowed
  {
    match p
    case Refused => Step(s.(inFlight := false), [PermissionAlert])
    case Allowed => Step(s.(recognizedText := ""), [StartRecognizer(language)])
    case Threw => Step(s.(inFlight := false), [])
  }

  /**
   * `await Voice.start(language)` settles: `isListening` records whether it started, and the
   * `finally` block releases the latch. The text is left alone: it was cleared before the
   * `await`, and a result that arrived since is kept.
   */
  function RecognizerSettled(s: VoiceState, started: bool): (r: VoiceState)
    ensures r.isListening == started && !r.inFlight
    ensures r.recognizedText == s.recognizedText
  {
    s.(isListening := started, inFlight := false)
  }

  /**
   * `onSpeechResults`: `e.value?.[0] ?? ''` becomes the text and is forwarded as it is. For a
   * string array this is the screen's `e.value?.[0] || ''`, since `''` is the only falsy string.
   */
  function OnResults(s: VoiceState, value: Option<seq<string>>): (r: Step)
    ensures r.state == s.(recognizedText := r.state.recognizedText)
    ensures r.effects == [ForwardText(r.state.recognizedText)]
    ensures value.Some? && |value.value| > 0 ==> r.state.recognizedText == value.value[0]
    ensures value.None? || |value.value| == 0 ==> r.state.recognizedText == ""
  {
    var text := SpeechScreen.FirstAlternative(value);
    Step(s.(recognizedText := text), [ForwardText(text)])
  }

  /** `onSpeechError`: not listening, latch released, text kept. */
  function OnError(s: VoiceState): (r: VoiceState)
    ensures !r.isListening && !r.inFlight && r.recognizedText == s.recognizedText
  {
    s.(isListening := false, inFlight := false)
  }

  /** `stopListening()`: whether `Voice.stop` throws (`stopThrew`) makes no difference. */
  function StopListening(s: VoiceState, stopThrew: bool): (r: Step)
    ensures !r.state.isListening
    ensures r.state.recognizedText == s.recognizedText && r.state.inFlight == s.inFlight
    ensures r.effects == [StopRecognizer]
  {
    Step(s.(isListening := false), [StopRecognizer])
  }

  /** `resetText()`: empties the text and changes nothing else. */
  function ResetText(s: VoiceState): (r: VoiceState)
    ensures r.recognizedText == ""
    ensures r.isListening == s.isListening && r.inFlight == s.inFlight
  {
    s.(recognizedText := "")
  }

  /** The hook's events, with the outcomes of its awaited calls. */
  datatype Event =
    | Start
    | PermissionAnswered(outcome: PermissionOutcome)
    | RecognizerAnswered(started: bool)
    | Results(value: Option<seq<string>>)
    | Error
    | Stop(stopThrew: bool)
    | Reset

  /**
   * One event. The two answers only have meaning for a start that took the latch; see `Run`.
   * Only a start takes the latch, only the recognizer's answer, an error or a stop change the
   * listening flag, and only a result, a reset or a granted permission change the text.
   */
  function Apply(s: VoiceState, language: string, e: Event): (r: Step)
    ensures |r.effects| <= 1
    ensures !s.inFlight && r.state.inFlight ==> e.Start?
    ensures r.state.isListening != s.isListening ==> e.RecognizerAnswered? || e.Error? || e.Stop?
    ensures r.state.recognizedText != s.recognizedText ==> e.Results? || e.Reset? || e == PermissionAnswered(Allowed)
  {
    match e
    case Start => BeginStart(s)
    case PermissionAnswered(p) => PermissionSettled(s, language, p)
    case RecognizerAnswered(started) => Step(RecognizerSettled(s, started), [])
    case Results(value) => OnResults(s, value)
    case Error => Step(OnError(s), [])
    case Stop(stopThrew) => StopListening(s, stopThrew)
    case Reset => Step(ResetText(s), [])
  }

  /** Events in order, collecting effects: at most one per event, and no latch without a start. */
  function Run(s: VoiceState, language: string, events: seq<Event>): (r: Step)
    decreases |events|
    ensures |r.effects| <= |events|
    ensures !s.inFlight && (forall i :: 0 <= i < |events| ==> !events[i].Start?) ==> !r.state.inFlight
  {
    if |events| == 0 then Step(s, [])
    else
      var first := Apply(s, language, events[0]);
      var rest := Run(first.state, language, events[1..]);
      assert forall i :: 1 <= i < |events| ==> events[1..][i - 1] == events[i];
      Step(rest.state, first.effects + rest.effects)
  }

  /**
   * The latch: once a start has taken it, further starts do nothing — they neither check
   * permission nor start the recognizer — until a settled start or an error releases it.
   */
  lemma {:induction false} StartsWhileLatchedDoNothing(s: VoiceState, language: string, n: nat)
    requires s.inFlight
    ensures Run(s, language, seq(n, _ => Start)) == Step(s, [])
    decreases n
  {
    if n > 0 {
      var events := seq(n, _ => Start);
      assert events[0] == Start;
      assert events[1..] == seq(n - 1, _ => Start);
      StartsWhileLatchedDoNothing(s, language, n - 1);
    }
  }

  /** A failed start also clears the text: `setRecognizedText('')` runs before `Voice.start`. */
  lemma FailedStartClearsText(s: VoiceState, language: string)
    requires !s.inFlight
    ensures var r := Run(s, language, [Start, PermissionAnswered(Allowed), RecognizerAnswered(false)]);
            r.state == VoiceState(false, "", false)
            && r.effects == [CheckPermission, StartRecognizer(language)]
  {
    var events := [Start, PermissionAnswered(Allowed), RecognizerAnswered(false)];
    assert events[1..] == [PermissionAnswered(Allowed), RecognizerAnswered(false)];
    assert events[1..][1..] == [RecognizerAnswered(false)];
    assert events[1..][1..][1..] == [];
  }

  /**
   * A result that arrives while `Voice.start` is pending is kept: the text was cleared before
   * the recognizer was asked to start, not when it answered.
   */
  lemma ResultDuringStartIsKept(s: VoiceState, language: string, t: string)
    requires !s.inFlight
    ensures var r := Run(s, language, [Start, PermissionAnswered(Allowed), Results(Some([t])), RecognizerAnswered(true)]);
            r.state == VoiceState(true, t, false)
            && r.effects == [CheckPermission, StartRecognizer(language), ForwardText(t)]
  {
    var events := [Start, PermissionAnswered(Allowed), Results(Some([t])), RecognizerAnswered(true)];
    assert events[1..] == [PermissionAnswered(Allowed), Results(Some([t])), RecognizerAnswered(true)];
    assert events[1..][1..] == [Results(Some([t])), RecognizerAnswered(true)];
    assert events[1..][1..][1..] == [RecognizerAnswered(true)];
    assert events[1..][1..][1..][1..] == [];
    var s1 := s.(inFlight := true);
    var s2 := s1.(recognizedText := "");
    var s3 := s2.(recognizedText := t);
    assert Run(s3, language, events[1..][1..][1..]) == Step(VoiceState(true, t, false), []);
    assert Run(s2, language, events[1..][1..]) == Step(VoiceState(true, t, false), [ForwardText(t)]);
    assert Run(s1, language, events[1..]) == Step(VoiceState(true, t, false), [StartRecognizer(language), ForwardText(t)]);
  }

  /**
   * As written, a rejected permission call leaves the latch held, and then no number of
   * further starts does anything: the microphone can no longer be started.
   */
  lemma RejectedPermissionWedgesStarts(s: VoiceState, language: string, n: nat)
    requires !s.inFlight
    ensures var held := PermissionSettledAsWritten(BeginStart(s).state, language, Threw).state;
            && held.inFlight
            && Run(held, language, seq(n, _ => Start)) == Step(held, [])
  {
    StartsWhileLatchedDoNothing(PermissionSettledAsWritten(BeginStart(s).state, language, Threw).state, language, n);
  }

  /** With the latch released on a rejection, the next start checks permission again. */
  lemma RejectedPermissionAllowsRetry(s: VoiceState, language: string)
    requires !s.inFlight
    ensures Run(s, language, [Start, PermissionAnswered(Threw), Start]).effects == [CheckPermission, CheckPermission]
  {
    var events := [Start, PermissionAnswered(Threw), Start];
    assert events[1..] == [PermissionAnswered(Threw), Start];
    assert events[1..][1..] == [Start];
    assert events[1..][1..][1..] == [];
  }
}
