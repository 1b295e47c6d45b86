# EyeStock client — decision logic in Dafny

This project models the decision procedures of the EyeStock React Native voice-assistant
client. The app records speech, sends the recognised text to a chat API and a news API, and
shows either a news link preview or the spoken answer. It also has a two-step spoken
preference questionnaire and a biometric login. Everything here is a pure function over
immutable datatypes. The events a component reacts to are per-event transition functions.
The network, the device and the platform are oracle parameters.

Modules, one per source component:

- `Wrappers`: `Option` (`undefined`) and `Result` (a throw).
- `JsText`: `String.prototype.trim`, ASCII case folding for the regex `i` flag, `startsWith`, truthiness and `||` of a `string | undefined`, and integer formatting for template literals.
- `Json`: response bodies. It gives `?.` (`Field`, `Path`), `??` (`Coalesce`) and JavaScript truthiness.
- `Urls`: the `www.` strip, `getDomain` and `abs` of `src/hooks/useLinkPreview.tsx`. WHATWG URL parsing is an oracle (`UrlOps`).
- `Html`: a page as a pre-tokenised tag list. A selector returns the capture of the first matching tag, as `RegExp.exec` does.
- `LinkPreview`: `pickMeta`, the `MOCK` table, `resolveMeta` with its cache and one meta-refresh hop, and the `useLinkPreview` state updates.
- `NewsCard`: the view `LinkPreviewCard` selects.
- `SpeechScreen`: `SpeechToTextScreen`. It covers permission, start with one retry, the in-flight turn latch, decoding of both response shapes, and the render choice.
- `VoiceHook`: `useVoiceInput` as a state machine. `startListening` is split at both of its `await`s: `BeginStart` takes the latch, `PermissionSettled` acts on the answer of `ensurePermission()`, and `RecognizerSettled` on the answer of `Voice.start`. Other events may arrive between them.
- `VoiceInput`: the `VoiceInput` component.
- `PreferenceWizard`: `PreferenceModal`'s steps, `canNext`, `handleNext`, the clear button and the mic toggle. It also proves an invariant over every event sequence.
- `BiometricLogin`: `useBiometricAuth().login` with attempt-indexed oracles, a call trace and fuel.

Behaviour of the code that a reader might not expect, each stated by a member:

- News URLs reach the card unfiltered and in order; see `SpeechScreen.NewsUrlsAreNotFiltered`.
- An empty recognition result (`''`) still opens a turn and sends both requests; see `SpeechScreen.BeginTurn`.
- A result that arrives while a turn is in flight sends nothing but still replaces the shown text; see `SpeechScreen.ResultsDuringTurnIssueNothing`.
- Biometric login re-enters itself after every 404 with no retry limit; see `BiometricLogin.RetriesAreUncapped`.
- The card renders one preview for one URL.

## Model

| member | source | states |
|---|---|---|
| JsText.TrimEmptyIffAllSpace | src/components/PreferenceModal.tsx:56-60 | `s.trim().length > 0` holds exactly when `s` contains a character that is not ECMAScript white space |
| JsText.Trim | src/components/PreferenceModal.tsx:73-74 | the trimmed string is a slice of the input with only white space removed at both ends, and it neither starts nor ends with white space |
| JsText.TrimIdempotent | src/components/PreferenceModal.tsx:73-74 | trimming an answer that is already trimmed changes nothing |
| JsText.IntToDecimal | src/pages/SpeechToTextScreen.tsx:158 | `${status}` of an integer status: non-empty, with a leading `-` exactly for a negative one |
| JsText.EqualsIgnoreCase | src/hooks/useLinkPreview.tsx:50-54 | the `i` flag on an ASCII key: same length and the same characters after ASCII lower-casing; equal strings always match |
| JsText.JsOr | src/hooks/useLinkPreview.tsx:56-66 | JavaScript's logical or on a possibly undefined string: the left operand when it is a non-empty string, else the right one |
| JsText.IntToDecimalRoundTrip | src/pages/SpeechToTextScreen.tsx:158 | the decimal text of a status inside `(오류 <status>)` reads back as that status |
| Json.Field | src/pages/SpeechToTextScreen.tsx:148-153 | `data?.key`: the field of an object, and undefined for a missing key or a non-object |
| Json.Path | src/pages/SpeechToTextScreen.tsx:119-124 | `data?.k0?.k1`: a defined result needs an object with the first key, and undefined stays undefined; the empty path is the value itself and a one-key path is that field's value, or undefined when the field is missing or the value is not an object |
| Json.PathAppend | src/pages/SpeechToTextScreen.tsx:119-124 | following a path in two pieces is following it at once: `(data?.data)?.urls` is `data?.data?.urls` |
| Json.Truthy | src/pages/SpeechToTextScreen.tsx:190-191 | the test of the answer bubble's fallback: null and undefined are falsy, a boolean is itself, a number is truthy iff non-zero, a string is truthy iff non-empty, and every array and object is truthy, even an empty one |
| Json.Coalesce | src/pages/SpeechToTextScreen.tsx:149-153 | a `??` chain yields the first candidate that is neither null nor undefined, whatever its type, and the fallback only when all are nullish |
| Urls.StripWww | src/hooks/useLinkPreview.tsx:33 | a leading `www.` is removed and the rest kept; a host without it is unchanged |
| Urls.StripWwwOnce | src/hooks/useLinkPreview.tsx:33 | exactly one `www.` is stripped (`www.www.a` gives `www.a`) |
| Urls.GetDomain | src/hooks/useLinkPreview.tsx:31-37 | an unparseable URL gives `''`; otherwise the host with one leading `www.` removed if it has one, and the host unchanged if it has none |
| Urls.Abs | src/hooks/useLinkPreview.tsx:38-47 | absent or empty gives absent; an `http://`/`https://` value is returned unchanged; anything else is resolved against the base, and a failed resolution gives absent rather than an error |
| Urls.AbsIgnoresBaseForAbsolute | src/hooks/useLinkPreview.tsx:41-42 | an absolute value comes out the same whatever page it was found on |
| Urls.AbsIdempotent | src/hooks/useLinkPreview.tsx:38-47 | if the parser serialises to `http(s)` URLs, resolving an already resolved value again changes nothing |
| Html.FirstMatch | src/hooks/useLinkPreview.tsx:50-54 | the index of the first tag a selector captures from: none before it matches, and it matches |
| Html.FindIsFirstCapture | src/hooks/useLinkPreview.tsx:50-54 | `rx(attr,key)` is absent exactly when no tag matches, and otherwise it is the content of the earliest matching tag |
| Html.Capture | src/hooks/useLinkPreview.tsx:50-54 | one tag against one expression: a capture is never `''`, and a tag none of the expressions looks for captures nothing |
| Html.CaptureRule | src/hooks/useLinkPreview.tsx:50-75 | each expression's matching rule, both directions: `rx(attr, key)` captures a meta tag iff its attribute name and key equal the expression's after ASCII lower-casing; the title expression captures a title; the favicon expression captures a link whose `rel` lower-cases to `icon` or `shortcut icon`; the refresh expression of line 113 captures a refresh tag. Each requires a non-empty value, and the capture is that content, text, `href` or target |
| Html.CaptureIgnoresCase | src/hooks/useLinkPreview.tsx:50-54 | two meta expressions whose attribute names and keys differ only in ASCII case capture the same thing from every tag |
| Html.Find | src/hooks/useLinkPreview.tsx:50-54 | `rx(attr, key)`: absent or a non-empty capture |
| Html.FirstOf | src/hooks/useLinkPreview.tsx:55-66 | a priority list of selectors yields the value of the earliest selector that finds something; it finds nothing exactly when every selector finds nothing, and never yields `''` |
| Html.FindAppend | src/hooks/useLinkPreview.tsx:50-54 | first match wins: tags after a match never change what is found, and with no match in the prefix the lookup behaves as on the rest |
| LinkPreview.PickMeta | src/hooks/useLinkPreview.tsx:77-84 | the record's `url` is the input URL, and `title` and `siteName` are always present |
| LinkPreview.PickMetaPriorities | src/hooks/useLinkPreview.tsx:49-85 | title: og:title, then twitter:title, then `<title>`, then the domain. Description: og:description, then name=description, then twitter:description. Image: the three og keys, then the two twitter keys, through `abs`. Favicon through `abs`. siteName: og:site_name, then the domain |
| LinkPreview.OgTitleWins | src/hooks/useLinkPreview.tsx:55-71 | a present `og:title` is the title, whatever other title tags the page has |
| LinkPreview.TitleFallsBackToDomain | src/hooks/useLinkPreview.tsx:68-80 | with no meta or title tags the title is the domain, which is `''` (present) for an unparseable URL |
| LinkPreview.DescriptionComesFromPage | src/hooks/useLinkPreview.tsx:56-64 | a present description is the content of a tag on the page, captured by one of its three selectors |
| LinkPreview.ExampleExtraction | src/hooks/useLinkPreview.tsx:49-85 | on a page with an upper-case `OG:Title` after a `<title>`, the og title wins, the site name is the domain and the relative image is made absolute |
| LinkPreview.ExampleTitle | src/hooks/useLinkPreview.tsx:50-55 | the match on attribute and key ignores case, as the regex `i` flag makes it |
| LinkPreview.ExampleDescription | src/hooks/useLinkPreview.tsx:56-57 | a key that differs from the wanted one does not match, so the later description tag is found |
| LinkPreview.ExampleImage | src/hooks/useLinkPreview.tsx:59-62 | `og:image` is found in the example despite earlier Open Graph tags with other keys |
| LinkPreview.ExampleAbsent | src/hooks/useLinkPreview.tsx:58-75 | without an `og:site_name` tag or an icon link, neither is found |
| LinkPreview.ResolveMeta | src/hooks/useLinkPreview.tsx:105-132 | a cached URL returns its entry with no fetch and no change. A mock URL is cached and returned verbatim with no fetch. At most two fetches, the first of the input URL. A failure leaves the cache as it was. A success stores the record under the input URL and changes no other entry. A refresh hop never pre-warms |
| LinkPreview.RefreshHop | src/hooks/useLinkPreview.tsx:112-122 | with a meta-refresh exactly one more fetch is made, of the resolved target. The record is extracted from the second page, so its `url` is the target. It is stored under the original URL, and no image is pre-warmed |
| LinkPreview.PlainFetch | src/hooks/useLinkPreview.tsx:123-131 | without a refresh one fetch is made, the record describes that page, and its image is pre-warmed only when truthy |
| LinkPreview.SecondResolveHitsCache | src/hooks/useLinkPreview.tsx:106 | after a successful resolution, resolving the same URL again is served from the cache with no fetch, whatever the network would do |
| LinkPreview.EntriesNeverOverwritten | src/hooks/useLinkPreview.tsx:105-132 | a resolution never changes or drops an existing cache entry |
| LinkPreview.OnUrl | src/hooks/useLinkPreview.tsx:139-149 | no URL clears data and error but leaves `loading` alone; a URL sets loading, clears the error and keeps the old data |
| LinkPreview.PreviewShowsResolution | src/hooks/useLinkPreview.tsx:139-160 | with a URL the hook ends not loading and shows what `resolveMeta` settled on: the cached entry, the demo record, or the extracted one, with no error; a failure shows no data and its error. Without a URL data and error are cleared whatever the cache holds |
| LinkPreview.OnResolved | src/hooks/useLinkPreview.tsx:150-160 | after settling nothing is loading; there is data exactly on success, and on failure the error is recorded |
| NewsCard.CardDomain | src/components/NewsComponent.tsx:16-22 | the card's domain is the host minus `www.`, and the raw URL itself when the URL does not parse |
| NewsCard.CardDomainDiffersFromGetDomain | src/components/NewsComponent.tsx:16-22 | for an unparseable URL the card shows the URL where the extractor uses `''` |
| NewsCard.HeroOf | src/components/NewsComponent.tsx:50 | a picture is shown exactly when `data.image` is truthy, otherwise the placeholder box |
| NewsCard.ShownDescription | src/components/NewsComponent.tsx:64-66 | the description line is rendered exactly when the description is truthy |
| NewsCard.SelectView | src/components/NewsComponent.tsx:24-91 | loading gives the skeleton (64 or 88 wide) whatever the data. No data gives the fallback card with the domain and the "preview unavailable, tap to open" note. Data gives the compact or full card according to `compact` |
| NewsCard.CardTextFallbacks | src/components/NewsComponent.tsx:50-91 | site is `siteName ?? domain`, so `''` is shown as is. Title is `title ?? domain`. The description appears iff truthy, and a picture iff `image` is truthy |
| NewsCard.ExtractedTitleIsShown | src/components/NewsComponent.tsx:63 | a card over an extracted record shows the record's own title |
| SpeechScreen.RequestMicrophonePermission | src/pages/SpeechToTextScreen.tsx:29-63 | granted off Android. On Android, granted iff already granted or the request answers GRANTED. The request is made only when not already granted, and the alert only on NEVER_ASK_AGAIN |
| SpeechScreen.StartListening | src/pages/SpeechToTextScreen.tsx:65-85 | when denied the recognizer is never touched. Otherwise stop, cancel, start, with every later call a start and a start the last call; `Voice.start` runs twice exactly when the first start throws, never more |
| SpeechScreen.FirstAlternative | src/pages/SpeechToTextScreen.tsx:134 | the text is the first alternative, `''` when there is none |
| SpeechScreen.BeginTurn | src/pages/SpeechToTextScreen.tsx:133-143 | the text is always shown. While in flight nothing else changes and no request is issued. Otherwise the latch is taken, answer and sources are cleared, loading is set, and the chat and news requests (days 7, max_links 5) carry the text, even `''` |
| SpeechScreen.DecodeChat | src/pages/SpeechToTextScreen.tsx:144-160 | the answer is `data.data.answer`, `data.answer`, `data.message` (first non-nullish), else `(응답 없음)`. On failure it is `(오류 <status>)` for a truthy status, else `(오류 발생)`. Never nullish |
| SpeechScreen.DecodeNews | src/pages/SpeechToTextScreen.tsx:111-131 | the list is the first non-nullish of the four fields when that is an array, `[]` for a non-array winner, and `[]` on any failure |
| SpeechScreen.SettleTurn | src/pages/SpeechToTextScreen.tsx:164-169 | answer and sources are committed together from this turn's outcomes; loading and the latch are cleared; text and listening state are untouched |
| SpeechScreen.Render | src/pages/SpeechToTextScreen.tsx:187-193 | the news card iff sources are non-empty, with the sources and the recognised text. Otherwise the answer when truthy, else `응답을 기다리는 중...` |
| SpeechScreen.OnSpeechStart | src/pages/SpeechToTextScreen.tsx:88-90 | speech start sets the listening flag and nothing else |
| SpeechScreen.OnSpeechEnd | src/pages/SpeechToTextScreen.tsx:91-93 | speech end clears the listening flag and nothing else |
| SpeechScreen.OnSpeechError | src/pages/SpeechToTextScreen.tsx:172-175 | a recognizer error clears the listening flag and nothing else |
| SpeechScreen.TurnEndsReleased | src/pages/SpeechToTextScreen.tsx:133-170 | a whole turn issues two requests and ends with the latch released and loading off. The news card is shown iff this turn's news list is non-empty, and otherwise this turn's answer (or the waiting text) |
| SpeechScreen.ResultsDuringTurnIssueNothing | src/pages/SpeechToTextScreen.tsx:134-137 | any number of results during a turn issue no request and change only the shown text |
| SpeechScreen.StatusFailureInjective | src/pages/SpeechToTextScreen.tsx:158 | different statuses give different failure texts |
| SpeechScreen.NonArrayWinnerYieldsEmpty | src/pages/SpeechToTextScreen.tsx:119-125 | a non-array `data.data.urls` wins the `??` chain over an array `data.urls`, and the list is `[]` |
| SpeechScreen.NewsUrlsAreNotFiltered | src/pages/SpeechToTextScreen.tsx:119-125 | a string that is not a URL is kept in the list, in order |
| SpeechScreen.FalsyAnswerShowsWaitingText | src/pages/SpeechToTextScreen.tsx:149-191 | `??` keeps an answer of `0`, and the bubble's `||` then shows the waiting text |
| VoiceHook.EnsurePermission | src/hooks/useVoiceInput.ts:43-59 | true off Android; on Android true iff already granted or the request answers GRANTED |
| VoiceHook.PermissionAgreesWithScreen | src/hooks/useVoiceInput.ts:43-59 | the hook grants the microphone in exactly the cases the screen does |
| VoiceHook.BeginStart | src/hooks/useVoiceInput.ts:61-63 | while the latch is held a start does nothing; otherwise it takes the latch and checks permission |
| VoiceHook.PermissionSettledAsWritten | src/hooks/useVoiceInput.ts:65-73 | refused: an alert and the latch released. Allowed: the text cleared and the recognizer asked to start, the latch still held. A rejected permission call leaves the state as it was, latch held |
| VoiceHook.PermissionSettled | src/hooks/useVoiceInput.ts:65-80 | as written for a refusal or a grant; a rejected permission call releases the latch and changes nothing else. Only a grant starts the recognizer, and listening is untouched |
| VoiceHook.RecognizerSettled | src/hooks/useVoiceInput.ts:73-80 | listening records whether `Voice.start` resolved, the `finally` block releases the latch, and the text is kept |
| VoiceHook.Apply | src/hooks/useVoiceInput.ts:21-92 | one event produces at most one effect; only a start takes the latch; only the recognizer's answer, an error or a stop change listening; only a result, a reset or a granted permission change the text |
| VoiceHook.Run | src/hooks/useVoiceInput.ts:21-92 | at most one effect per event, and with no start among the events a free latch stays free |
| VoiceHook.OnResults | src/hooks/useVoiceInput.ts:22-26 | the text becomes the first alternative (or `''`) and exactly that text is forwarded; nothing else changes |
| VoiceHook.OnError | src/hooks/useVoiceInput.ts:27-32 | an error stops listening and releases the latch, keeping the text |
| VoiceHook.StopListening | src/hooks/useVoiceInput.ts:83-88 | stop always ends with listening false, whether or not `Voice.stop` throws; text and latch unchanged |
| VoiceHook.ResetText | src/hooks/useVoiceInput.ts:90-92 | the text becomes `''`; listening and latch unchanged |
| VoiceHook.StartsWhileLatchedDoNothing | src/hooks/useVoiceInput.ts:62-63 | any number of starts while the latch is held change nothing and have no effect |
| VoiceHook.FailedStartClearsText | src/hooks/useVoiceInput.ts:71-80 | a permitted start whose `Voice.start` throws still clears the text, ends not listening and releases the latch |
| VoiceHook.ResultDuringStartIsKept | src/hooks/useVoiceInput.ts:72-74 | a result that arrives while `Voice.start` is pending is kept and forwarded: the text is cleared before the `await`, not when the recognizer answers |
| VoiceHook.RejectedPermissionWedgesStarts | src/hooks/useVoiceInput.ts:61-65 | as written, after a rejected permission call the latch stays held and any number of further starts do nothing |
| VoiceHook.RejectedPermissionAllowsRetry | src/hooks/useVoiceInput.ts:61-80 | with the latch released on a rejection, the next start checks permission again |
| VoiceInput.StartListening | src/components/voiceInput.tsx:13-21 | start clears the text and sets listening before the recognizer runs, and a start failure leaves it so |
| VoiceInput.OnResults | src/components/voiceInput.tsx:24-31 | a truthy first alternative is reported, stored and ends listening; an absent or empty one changes nothing and reports nothing |
| VoiceInput.OnError | src/components/voiceInput.tsx:33-36 | an error stops listening and keeps the text |
| VoiceInput.ReportedIsShown | src/components/voiceInput.tsx:24-31 | a reported text is non-empty and is exactly the stored text |
| VoiceInput.StartThenErrorClears | src/components/voiceInput.tsx:13-36 | a start, whether or not `Voice.start` succeeds, followed by an error leaves nothing shown and not listening |
| VoiceInput.Apply | src/components/voiceInput.tsx:13-36 | only a result event calls `onResult`, with a non-empty text that becomes the shown text; otherwise the shown text is `''` or unchanged |
| VoiceInput.Run | src/components/voiceInput.tsx:13-36 | over any event sequence `onResult` is called at most once per event and never with `''` |
| VoiceInput.ShownWasReported | src/components/voiceInput.tsx:13-36 | after any event sequence the shown text is `''`, the initial text, or a value already passed to `onResult` |
| PreferenceWizard.CanNext | src/components/PreferenceModal.tsx:56-60 | `canNext` holds iff the current step's field has a non-white-space character |
| PreferenceWizard.OnSpeechResults | src/components/PreferenceModal.tsx:39-42 | recognised text goes to the investment style in step 1 and to the companies in step 2; the other field and the step stay |
| PreferenceWizard.HandleNext | src/components/PreferenceModal.tsx:62-77 | without `canNext` only an alert. In step 1 the wizard moves to step 2 with both fields kept and the recognised text reset. In step 2 both trimmed answers are delivered |
| PreferenceWizard.Clear | src/components/PreferenceModal.tsx:128-133 | the clear button empties only the current step's field, and applies `resetText` to the voice state: the text is emptied, listening and latch are kept |
| PreferenceWizard.Apply | src/components/PreferenceModal.tsx:39-133 | only "next" with `canNext` changes the step, and only from step 1 to step 2; only "next" with `canNext` in step 2 completes, and completing leaves the wizard's state as it was |
| PreferenceWizard.Run | src/components/PreferenceModal.tsx:39-133 | at most one completion per event, and without a "next" the step stays and nothing completes |
| PreferenceWizard.ToggleMic | src/components/PreferenceModal.tsx:79-85 | the mic button stops when listening and begins a start otherwise, touching nothing but the voice state |
| PreferenceWizard.ApplyPreservesInv | src/components/PreferenceModal.tsx:39-76 | every event keeps "step 2 implies a non-blank investment style". No event leaves step 2. A completion delivers two non-empty answers |
| PreferenceWizard.RunDeliversNonEmptyAnswers | src/components/PreferenceModal.tsx:56-76 | over any sequence of events, every `onComplete` call delivers a non-empty investment style and non-empty companies |
| PreferenceWizard.StepNeverGoesBack | src/components/PreferenceModal.tsx:27-70 | once in step 2, no sequence of events returns to step 1 |
| PreferenceWizard.InitialSatisfiesInv | src/components/PreferenceModal.tsx:27-29 | the wizard starts in step 1 with the invariant holding |
| BiometricLogin.Attempt | src/hooks/useBiometricAuth.ts:14-34 | an attempt starts with the device id; a second call is always the signature over the returned challenge; a verify can only be the third call, after a non-empty signature over exactly that challenge, with the same device id and challenge, and verify's answer is the attempt's result. The attempt stops after one call exactly when the start fails, rethrowing that error; after two calls it rethrows the signature step's error, or throws the missing-signature error when the signature was absent or `''`. No keys or signup inside an attempt |
| BiometricLogin.Login | src/hooks/useBiometricAuth.ts:10-48 | a login ends in success only with start, signature over the challenge, then verify, as its last three calls. Every signup immediately follows a key creation and carries the device id |
| BiometricLogin.HappyPath | src/hooks/useBiometricAuth.ts:12-34 | start, sign the challenge, verify with (deviceId, challenge, signature), and return verify's data |
| BiometricLogin.MissingSignatureIsRethrown | src/hooks/useBiometricAuth.ts:23-46 | a missing or empty signature aborts before verify and, having no 404 status, is rethrown with no signup |
| BiometricLogin.OtherErrorsRethrown | src/hooks/useBiometricAuth.ts:35-46 | an error without status 404 is rethrown unchanged, and no keys or signup are attempted |
| BiometricLogin.NotFoundRecovers | src/hooks/useBiometricAuth.ts:36-42 | a 404 leads to createKeys, then signup with the new key, then a complete new login. A failure of createKeys or signup, even a 404, goes to the caller |
| BiometricLogin.RetriesAreUncapped | src/hooks/useBiometricAuth.ts:36-42 | while the device keeps being reported unknown, each of `fuel` invocations signs up again; there is no one-retry bound |

## Findings

| source | as written | input that shows it | evidently intended | confidence | as-written member | corrected member |
|---|---|---|---|---|---|---|
| src/hooks/useVoiceInput.ts:61-80 | `await ensurePermission()` runs before the `try` whose `finally` releases `inFlightRef`, so a rejected `PermissionsAndroid.check` or `request` leaves the latch held | Android, `PermissionsAndroid.check` rejects during `startListening()`: every later `startListening()` returns at line 62 | the latch is released on every exit, as the denial branch (line 68) and the `finally` block (line 79) do | medium, not executed | VoiceHook.PermissionSettledAsWritten, VoiceHook.RejectedPermissionWedgesStarts | VoiceHook.PermissionSettled, VoiceHook.RejectedPermissionAllowsRetry |

## Left out

- Networking: `fetchHTML`'s headers, redirects and 6-second abort, the axios calls and the token interceptor. The network is an oracle returning a page or a failure. Chat, news and login outcomes are oracle values.
- Regular-expression matching and WHATWG URL parsing. HTML is a list of already tokenised tags. Attribute and key comparison is ASCII case-insensitive, and captures are non-empty. The tokenisation assumes what the expressions require: the attribute (`property=`, `name=`, `rel=`, `http-equiv=`) comes before `content=` or `href=` in the tag, so a tag with the order reversed is not matched; and a value is captured only up to its first quote character, so a content attribute containing `'` inside `"…"` yields only the part before it. Host extraction and relative resolution are the `UrlOps` oracle.
- `abs(url, metaRefresh)!` yielding `undefined`: `fetch` of that value rejects in React Native, so the model ends the resolution with an `UnresolvableRefresh` failure and caches nothing.
- `Image.prefetch`: its outcome is caught and discarded, so only the attempt is recorded.
- `MOCK[url]` on a plain object is also truthy for inherited keys such as `toString`. The table is modelled as a map with only its two entries.
- The `alive` guard of `useLinkPreview`, `Promise.all` interleaving, the 120/250 ms delays, the AppState foreground/background listener, and teardown. A turn receives both sub-results together. Duplicate concurrent resolutions of one URL are not modelled.
- Platform collaborators: `Voice`, `Tts`, `PermissionsAndroid`, `Alert`, `Linking`, `ReactNativeBiometrics`, `DeviceInfo`. Only their pass/fail outcomes are modelled, as booleans, answers or effects. The device id is a parameter.
- `Linking.openURL` failures in the card are swallowed and change no state, so the card's tap is not modelled.
- The card's `url` prop receives the `sources` array at `src/pages/SpeechToTextScreen.tsx:188`. The model treats the card as the single-URL component it is declared to be.
- `PreferenceModal`'s text-to-speech prompts and its `visible` prop. The step-change effect is modelled only by its `resetText`, folded into the move to step 2; the modal is taken to be visible, since the effect does nothing otherwise.
- BiometricLogin.Login: bounded by `fuel` login invocations. `OutOfFuel` stands for the further re-entries the unbounded source would make.
- BiometricLogin.Attempt: the start oracle returns the challenge directly. The `TypeError` of a response without `data` is not modelled; it would have no status and be rethrown like any non-404 error.
- VoiceHook.Apply: uses the corrected `PermissionSettled`, so after a rejected permission call the hook and the wizard release the latch; the code as written keeps it, which `PermissionSettledAsWritten` states.
- JSON numbers are integers. Status codes are integers, truthy when non-zero.
