/**
 * `PreferenceModal`: a two-step spoken questionnaire. Step 1 asks for the investment style,
 * step 2 for favourite companies; recognised speech fills the current step's field, and
 * "next" only proceeds when that field is non-blank after trimming.
 */
module PreferenceWizard {
  import opened Wrappers
  import opened JsText
  import VoiceHook

  datatype WizardStep = One | Two

  datatype WizardState = WizardState(
    step: WizardStep,
    investmentStyle: string,
    favoriteCompanies: string,
    voice: VoiceHook.VoiceState)

  const Initial := WizardState(One, "", "", VoiceHook.Idle)

  /** What `onComplete` receives. */
  datatype Answers = Answers(investmentStyle: string, favoriteCompanies: string)

  /** The field the current step edits. */
  function CurrentField(w: WizardState): string {
    if w.step == One then w.investmentStyle else w.favoriteCompanies
  }

  /** `canNext`: the trimmed current field is non-empty, that is, it has a non-blank character. */
  function CanNext(w: WizardState): (r: bool)
    ensures r <==> exists i :: 0 <= i < |CurrentField(w)| && !IsJsSpace(CurrentField(w)[i])
  {
    TrimEmptyIffAllSpace(CurrentField(w));
    |Trim(CurrentField(w))| > 0
  }

  /**
   * The hook's result handler followed by `onResultText`: the recognised text goes to
   * `investmentStyle` in step 1 and to `favoriteCompanies` in step 2; the other field and
   * the step stay as they were.
   */
  function OnSpeechResults(w: WizardState, value: Option<seq<string>>): (r: WizardState)
    ensures r.step == w.step
    ensures r.voice == VoiceHook.OnResults(w.voice, value).state
    ensures w.step == One ==> r.investmentStyle == r.voice.recognizedText && r.favoriteCompanies == w.favoriteCompanies
    ensures w.step == Two ==> r.favoriteCompanies == r.voice.recognizedText && r.investmentStyle == w.investmentStyle
  {
    var voice := VoiceHook.OnResults(w.voice, value).state;
    var text := voice.recognizedText;
    if w.step == One then w.(voice := voice, investmentStyle := text)
    else w.(voice := voice, favoriteCompanies := text)
  }

  /** The outcome of pressing next/complete. */
  datatype NextOutcome = Alerted | Advanced(next: WizardState) | Completed(answers: Answers)

  /**
   * `handleNext()`: without `canNext` only an alert; in step 1 move to step 2 (whose entry
   * effect resets the recognised text); in step 2 hand both trimmed answers to `onComplete`.
   */
  function HandleNext(w: WizardState): (r: NextOutcome)
    ensures r.Alerted? <==> !CanNext(w)
    ensures r.Advanced? ==>
              && w.step == One && r.next.step == Two
              && r.next.investmentStyle == w.investmentStyle
              && r.next.favoriteCompanies == w.favoriteCompanies
              && r.next.voice == VoiceHook.ResetText(w.voice)
    ensures r.Completed? ==>
              && w.step == Two
              && r.answers == Answers(Trim(w.investmentStyle), Trim(w.favoriteCompanies))
  {
    if !CanNext(w) then Alerted
    else if w.step == One then Advanced(w.(step := Two, voice := VoiceHook.ResetText(w.voice)))
    else Completed(Answers(Trim(w.investmentStyle), Trim(w.favoriteCompanies)))
  }

  /** The clear button: empties the current step's field only, and the recognised text. */
  function Clear(w: WizardState): (r: WizardState)
    ensures r.step == w.step && CurrentField(r) == ""
    ensures r.voice == VoiceHook.ResetText(w.voice)
    ensures w.step == One ==> r.favoriteCompanies == w.favoriteCompanies
    ensures w.step == Two ==> r.investmentStyle == w.investmentStyle
  {
    var voice := VoiceHook.ResetText(w.voice);
    if w.step == One then w.(investmentStyle := "", voice := voice)
    else w.(favoriteCompanies := "", voice := voice)
  }

  /** The mic button: stop when listening, otherwise begin a start. */
  function ToggleMic(w: WizardState, stopThrew: bool): (r: (WizardState, seq<VoiceHook.Effect>))
    ensures w.voice.isListening ==> r.0.voice == VoiceHook.StopListening(w.voice, stopThrew).state
    ensures !w.voice.isListening ==> r.0.voice == VoiceHook.BeginStart(w.voice).state
    ensures r.0.(voice := w.voice) == w
  {
    var step := if w.voice.isListening then VoiceHook.StopListening(w.voice, stopThrew)
                else VoiceHook.BeginStart(w.voice);
    (w.(voice := step.state), step.effects)
  }

  /** Everything the user or the recognizer can do to the wizard. */
  datatype Event =
    | Speech(value: Option<seq<string>>)
    | SpeechError
    | PermissionAnswered(outcome: VoiceHook.PermissionOutcome)
    | RecognizerAnswered(started: bool)
    | Toggle(stopThrew: bool)
    | ClearField
    | Next

  /**
   * One event; the second component is the `onComplete` payload, if the event completed. Only
   * "next" with `canNext` changes the step or completes, and completing leaves the state alone.
   */
  function Apply(w: WizardState, e: Event): (r: (WizardState, Option<Answers>))
    ensures r.0.step != w.step ==> e.Next? && CanNext(w) && w.step == One && r.0.step == Two
    ensures r.1.Some? ==> e.Next? && CanNext(w) && w.step == Two && r.0 == w
  {
    match e
    case Speech(value) => (OnSpeechResults(w, value), None)
    case SpeechError => (w.(voice := VoiceHook.OnError(w.voice)), None)
    case PermissionAnswered(p) => (w.(voice := VoiceHook.PermissionSettled(w.voice, "ko-KR", p).state), None)
    case RecognizerAnswered(started) => (w.(voice := VoiceHook.RecognizerSettled(w.voice, started)), None)
    case Toggle(stopThrew) => (ToggleMic(w, stopThrew).0, None)
    case ClearField => (Clear(w), None)
    case Next =>
      match HandleNext(w)
      case Alerted => (w, None)
      case Advanced(next) => (next, None)
      case Completed(answers) => (w, Some(answers))
  }

  /**
   * The wizard's invariant: step 2 is only ever reached with a non-blank investment style,
   * and nothing in step 2 writes that field.
   */
  predicate Inv(w: WizardState) {
    w.step == Two ==> |Trim(w.investmentStyle)| > 0
  }

  /** Every event keeps the invariant, never moves back from step 2, and completes only with two non-blank answers. */
  lemma ApplyPreservesInv(w: WizardState, e: Event)
    requires Inv(w)
    ensures Inv(Apply(w, e).0)
    ensures w.step == Two ==> Apply(w, e).0.step == Two
    ensures Apply(w, e).1.Some? ==> |Apply(w, e).1.value.investmentStyle| > 0 && |Apply(w, e).1.value.favoriteCompanies| > 0
  {
  }

  /** Events in order; the payloads of every completion, in order. */
  function Run(w: WizardState, events: seq<Event>): (r: (WizardState, seq<Answers>))
    decreases |events|
    ensures |r.1| <= |events|
    ensures (forall i :: 0 <= i < |events| ==> !events[i].Next?) ==> r.0.step == w.step && r.1 == []
  {
    if |events| == 0 then (w, [])
    else
      var (w1, done) := Apply(w, events[0]);
      var (w2, rest) := Run(w1, events[1..]);
      assert forall i :: 1 <= i < |events| ==> events[1..][i - 1] == events[i];
      (w2, (if done.Some? then [done.value] else []) + rest)
  }

  /**
   * From the initial state, whatever happens: the invariant holds, and every `onComplete` call
   * delivers a non-empty investment style and non-empty favourite companies.
   */
  lemma {:induction false} RunDeliversNonEmptyAnswers(w: WizardState, events: seq<Event>)
    requires Inv(w)
    decreases |events|
    ensures Inv(Run(w, events).0)
    ensures forall i :: 0 <= i < |Run(w, events).1| ==>
              |Run(w, events).1[i].investmentStyle| > 0 && |Run(w, events).1[i].favoriteCompanies| > 0
  {
    if |events| > 0 {
      ApplyPreservesInv(w, events[0]);
      RunDeliversNonEmptyAnswers(Apply(w, events[0]).0, events[1..]);
    }
  }

  /** Step 2 is never left: once there, no sequence of events returns to step 1. */
  lemma {:induction false} StepNeverGoesBack(w: WizardState, events: seq<Event>)
    requires w.step == Two && Inv(w)
    decreases |events|
    ensures Run(w, events).0.step == Two
  {
    if |events| > 0 {
      ApplyPreservesInv(w, events[0]);
      StepNeverGoesBack(Apply(w, events[0]).0, events[1..]);
    }
  }

  /** The initial state satisfies the invariant, so the two lemmas above cover every session. */
  lemma InitialSatisfiesInv()
    ensures Inv(Initial) && Initial.step == One
  {
  }
}
