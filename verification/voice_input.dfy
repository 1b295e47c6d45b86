/** The `VoiceInput` component: a simpler recognizer wrapper with no latch and no permission check. */
module VoiceInput {
  import opened Wrappers
  import SpeechScreen

  datatype InputState = InputState(recognizedText: string, isListening: bool)

  /**
   * `startListening()`: the text is cleared and `isListening` set BEFORE `Voice.start` is
   * awaited; a start failure is only logged, so `startOk` changes nothing.
   */
  function StartListening(s: InputState, startOk: bool): (r: InputState)
    ensures r == InputState("", true)
  {
    InputState("", true)
  }

  /**
   * `onSpeechResults`: a truthy first alternative is passed to `onResult`, stored, and ends
   * listening; an absent or empty one is ignored entirely. The second component is the
   * argument of the `onResult` call, if one is made.
   */
  function OnResults(s: InputState, value: Option<seq<string>>): (r: (InputState, Option<string>))
    ensures (value.None? || |value.value| == 0 || value.value[0] == "") ==> r == (s, None)
    ensures value.Some? && |value.value| > 0 && value.value[0] != "" ==>
              r == (InputState(value.value[0], false), Some(value.value[0]))
  {
    var text := SpeechScreen.FirstAlternative(value);
    if text == "" then (s, None) else (InputState(text, false), Some(text))
  }

  /** `onSpeechError`: listening ends; the text stays. */
  function OnError(s: InputState): (r: InputState)
    ensures !r.isListening && r.recognizedText == s.recognizedText
  {
    s.(isListening := false)
  }

  /** The callback and the stored text always agree: whatever is reported is what is shown. */
  lemma ReportedIsShown(s: InputState, value: Option<seq<string>>)
    ensures var (r, reported) := OnResults(s, value);
            reported.Some? ==> reported.value == r.recognizedText && reported.value != "" && !r.isListening
  {
  }

  /** A start whose `Voice.start` failed, then the error event: nothing shown, not listening. */
  lemma StartThenErrorClears(s: InputState, startOk: bool)
    ensures OnError(StartListening(s, startOk)) == InputState("", false)
  {
  }

  /** What the component reacts to: the button press and the two recognizer callbacks. */
  datatype Event = Start(startOk: bool) | Results(value: Option<seq<string>>) | Error

  /** One event: the new state and the `onResult` argument, if it is called. */
  function Apply(s: InputState, e: Event): (r: (InputState, Option<string>))
    ensures r.1.Some? ==> e.Results? && r.1.value != "" && r.0.recognizedText == r.1.value
    ensures r.0.recognizedText in {"", s.recognizedText} || r.1 == Some(r.0.recognizedText)
  {
    match e
    case Start(ok) => (StartListening(s, ok), None)
    case Results(value) => OnResults(s, value)
    case Error => (OnError(s), None)
  }

  /** A sequence of events: the final state and every `onResult` argument, in order. */
  function Run(s: InputState, events: seq<Event>): (r: (InputState, seq<string>))
    decreases |events|
    ensures |r.1| <= |events|
    ensures forall i :: 0 <= i < |r.1| ==> r.1[i] != ""
  {
    if |events| == 0 then (s, [])
    else
      var (s1, reported) := Apply(s, events[0]);
      var (sN, rest) := Run(s1, events[1..]);
      (sN, (if reported.Some? then [reported.value] else []) + rest)
  }

  /**
   * Whatever the component shows after any sequence of events is empty, the text it started
   * with, or a value it has already passed to `onResult`.
   */
  lemma {:induction false} ShownWasReported(s: InputState, events: seq<Event>)
    decreases |events|
    ensures var (sN, reports) := Run(s, events);
            sN.recognizedText == "" || sN.recognizedText == s.recognizedText || sN.recognizedText in reports
  {
    if |events| > 0 {
      var (s1, reported) := Apply(s, events[0]);
      ShownWasReported(s1, events[1..]);
    }
  }
}
