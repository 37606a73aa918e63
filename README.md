# Sky Agent: speech turns, webview relay and credential gate

Sky Agent is a VS Code extension that lets the user talk to a Gemini model.
A webview captures speech, turns each utterance into one `sendToGemini`
message, and speaks the replies the extension sends back. This project
models the three pieces of sequential logic in that path and proves their
properties in Dafny:

- **The capture turn machine** (`capture.dfy`, module `Capture`, from
  `src/webview/main.js`). The class `Recognizer` holds `isRecording`, the
  turn accumulator `currentFinalTranscriptForTurn` (`acc`), and everything the
  script has written to the outside. That is the messages posted to the host
  (`outbox`), every status-line text, the calls on the recognition and
  synthesis engines, and the transcript paragraphs. There is one method per
  callback and per helper function of the script. `CollectTranscripts` is the
  `onresult` loop. `Activation` drives one whole activation in the order
  the browser fires its events, including the results the engine still
  delivers after an explicit stop or an error.
- **The relay** (`provider.dfy`, module `Provider`, from
  `src/webview/SkyWebViewProvider.ts`). `Route` is the `onDidReceiveMessage`
  switch. The class `SkyWebViewProvider` stores the resolved view and
  delivers posts only while a view is stored. `GetNonce` is the 32-step nonce
  loop, fed by an explicit sequence of random draws.
- **The credential gate** (`extension.dfy`, module `Extension`, from
  `src/extension.ts`). The class `ExtensionState` holds the module's globals.
  `InitialiseClient` runs the key check and the construction of the client
  and model, which may throw. `Initialised` states the outcome, including the
  invariant that both handles are set or both are null.

Supporting modules: `JsText` (ECMAScript `String.prototype.trim` and string
truthiness), `Protocol` (the `{ type, text?, ... }` envelope and its `type`
values), `Wrappers` (`Option`), and `Pipeline` (the webview and the provider
together).

Where the intended design and the code differ, the model follows the code:

- No history bound, single-flight guard, `submitUserTurn` or model round
  trip exists in the code. `src/extension.ts` ends at the comment
  "Register Commands" (line 88) with `conversationHistory` only declared
  empty. The model therefore states only that the history starts empty.
- A second start while recording does not report "busy". It only logs a
  warning and changes no state (`StartRecordingInternal`).
- The error taxonomy is written to the status line and then overwritten.
  `onerror` first writes "Status: Error - code". For a known code it
  replaces that with the specific text. Then `stopRecordingInternal`
  replaces it with "Status: Idle" (src/webview/main.js:107-110, then 181).
  `OnError` records every one of these writes in `statusHistory`, in order.
- An explicit stop or an engine error does not post the turn itself. Only
  `onend` posts it, and the engine fires `onend` after either. Results for
  audio already captured can still arrive between the stop and `onend`.
  `onresult` does not check `isRecording`, so their final text joins the
  turn that `onend` posts. `Finish` and `Activation` model all three
  endings that way.
- The provider never forgets its view. `SkyWebViewProvider.ts` has no
  dispose handler that clears `_view`, so a detached view is not dropped.
  The model has no detach operation either.
- The key is checked when the module loads, not in `activate`. As shipped
  the key is the placeholder, so the client is never built (`LoadAsShipped`).

## Model

| member | source | states |
|---|---|---|
| `Capture.Recognizer.constructor` | src/webview/main.js:31-67 | Once the listeners are attached, the webview is not recording, the turn is empty and nothing has been posted, spoken or shown. |
| `Capture.Recognizer.OnStart` | src/webview/main.js:69-77 | `onstart` sets `isRecording` to true, resets the turn to the empty string and shows "Listening...". |
| `Capture.CollectTranscripts` | src/webview/main.js:81-90 | The loop returns the in-order concatenation of the final transcripts from `resultIndex` on, and separately that of the interim ones. An index past the end yields two empty strings. |
| `Capture.Recognizer.OnResult` | src/webview/main.js:79-92 | `onresult` appends exactly the final pieces from `resultIndex` on to the turn. Interim text is never appended. |
| `Capture.PiecesAppend` | src/webview/main.js:84-92 | Collecting pieces commutes with concatenation, so results split across events accumulate in order. |
| `Capture.NoFinalPieces` | src/webview/main.js:84-90 | A result list with no final entry contributes nothing to the turn. |
| `Capture.InterimOnlyEmitsNothing` | src/webview/main.js:84-131 | An activation whose events hold only interim entries has an empty turn and posts nothing. |
| `Capture.ErrorStatus` | src/webview/main.js:106-111 | `no-speech`, `audio-capture` and `not-allowed` map to their own texts. Any other code maps to the generic "Error - code" text. Each case holds in both directions. |
| `Capture.Recognizer.OnError` | src/webview/main.js:104-113 | `onerror` writes "Error - code". For a known code it then writes the specific text. Finally it stops, writing "Idle". It ends not recording, calls `stop()` only if it was recording, and keeps the turn for `onend`. |
| `Capture.Emission` | src/webview/main.js:119-131 | `onend` posts at most one message. It posts one exactly when the trimmed turn is non-empty, and that message is a `sendToGemini` carrying the trimmed turn and nothing else. |
| `Capture.EmissionIffNotBlank` | src/webview/main.js:119-120 | Nothing is posted exactly when the turn is all white space. A posted text neither starts nor ends with white space and is unchanged by trimming. |
| `Capture.Recognizer.OnEnd` | src/webview/main.js:115-135 | `onend` posts `Emission(turn)` and shows the same text as a "You" paragraph. Afterwards the turn is empty and the webview is not recording. It keeps the invariant that everything posted is a submittable turn. |
| `Capture.Recognizer.StopRecordingInternal` | src/webview/main.js:166-185 | Calls `stop()` only if recording (an exception from it is caught), and always ends with `isRecording` false and "Idle" shown. |
| `Capture.StartFailureStatus` | src/webview/main.js:151-158 | A start that throws `InvalidStateError` shows "Listening (already)...". Any other exception shows "Error starting mic.". |
| `Capture.Recognizer.StartRecordingInternal` | src/webview/main.js:137-164 | While recording it changes nothing (a warning only). Otherwise it calls `start()`. If that throws, it shows the failure, then "Idle", and stays idle. A successful start leaves `isRecording` for `onstart` to set. |
| `Capture.Recognizer.Toggle` | src/webview/main.js:187-195 | The button stops when recording and starts otherwise, and in every case leaves `isRecording` false. |
| `Capture.Recognizer.OnMessage` | src/webview/main.js:201-215 | A `geminiResponse` with non-empty text is shown once as a "Sky" paragraph and spoken once. A reply without text, or any other type, changes nothing. |
| `Capture.Recognizer.SpeakText` | src/webview/main.js:227-253 | Any speech in progress is cancelled before the new text is spoken, so the latest reply wins. Nothing happens when synthesis is unavailable. |
| `Capture.Recognizer.OnSpeechEnd` | src/webview/main.js:241-244 | When an utterance ends, "Idle" is shown unless recording. |
| `Capture.Recognizer.OnSpeechError` | src/webview/main.js:245-248 | A synthesis error is reported on the status line only. |
| `Capture.Deliver` | src/webview/main.js:79-92 | A run of result events grows the turn by their final text, in order. Nothing else changes. |
| `Capture.Finish` | src/webview/main.js:79-135 | The activation can end naturally, by the button or by an engine error. In each case the results delivered before `end` join the turn, and `onend` posts the emission of the whole turn. The machine is left idle with "Idle" shown. |
| `Capture.UtteranceAppend` | src/webview/main.js:79-92 | The final text of two runs of result events is the final text of the first run followed by that of the second. |
| `Capture.Activation` | src/webview/main.js:69-135 | Take any result events before the ending, any ending and any results after it. The activation posts exactly `Emission` of the final text of all the events: at most one message. It ends idle. |
| `JsText.TrimStartSuffix` | src/webview/main.js:119-120 | Removing leading white space keeps the suffix that starts at the first character that is not white space. |
| `JsText.TrimEndPrefix` | src/webview/main.js:119-120 | Removing trailing white space keeps the prefix that ends at the last character that is not white space. |
| `JsText.TrimEnds` | src/webview/main.js:119-120 | `trim()` never returns a string that starts or ends with white space. |
| `JsText.TrimIsInfix` | src/webview/main.js:119-120 | `trim()` returns the infix of its argument between leading and trailing runs of white space. |
| `JsText.TrimEmptyIff` | src/webview/main.js:119 | `s.trim()` is falsy exactly when `s` is all white space. |
| `JsText.TrimIdempotent` | src/webview/main.js:120 | Trimming the already-trimmed text changes nothing. |
| `Provider.Route` | src/webview/SkyWebViewProvider.ts:66-78 | A message causes at most one command. It causes one exactly when its type is `sendToGemini` or `informExtension`, and that command is `skyAgent.internal.handleWebViewMessage` with the message unchanged. |
| `Provider.RouteAllIsFilter` | src/webview/SkyWebViewProvider.ts:57-80 | Over any stream of messages, the commands are the handler command applied, in order, to exactly the forwarded messages. No message is invented, repeated or altered. |
| `Provider.LogMessagesDropped` | src/webview/SkyWebViewProvider.ts:76-77 | The webview's own `webviewLog` messages never reach the handler command. |
| `Provider.SkyWebViewProvider.constructor` | src/webview/SkyWebViewProvider.ts:15-20 | A new provider has no view and has executed and delivered nothing. |
| `Provider.SkyWebViewProvider.ResolveWebviewView` | src/webview/SkyWebViewProvider.ts:27-35 | Resolving stores the given view. |
| `Provider.SkyWebViewProvider.OnDidReceiveMessage` | src/webview/SkyWebViewProvider.ts:57-80 | The listener executes exactly the commands `Route` gives for the message. |
| `Provider.SkyWebViewProvider.PostMessageToWebview` | src/webview/SkyWebViewProvider.ts:86-95 | With a view stored, the message is delivered to that view once, unchanged. Without one, nothing is delivered, nothing fails and nothing is kept. |
| `Provider.PostBeforeAndAfterResolve` | src/webview/SkyWebViewProvider.ts:86-95 | A message posted before a view is resolved is never delivered, even after a view arrives. Only the later message reaches the view. |
| `Provider.AlphabetLayout` | src/webview/SkyWebViewProvider.ts:209 | The alphabet holds the upper-case letters at indices 0-25, the lower-case letters at 26-51 and the digits at 52-61. |
| `Provider.AlphabetIndexOfChar` | src/webview/SkyWebViewProvider.ts:209-211 | Every draw picks a character in `[A-Za-z0-9]`, and the draw can be read back from it, so no two draws pick the same character. |
| `Provider.AlphabetCharOfIndex` | src/webview/SkyWebViewProvider.ts:209-211 | Every ASCII letter and digit is picked by some draw, the one `AlphabetIndex` gives. |
| `Provider.GetNonce` | src/webview/SkyWebViewProvider.ts:207-213 | The nonce has 32 characters. Character i is the alphabet character of draw i and lies in `[A-Za-z0-9]`. The draws can be read back from it, so distinct draws give distinct nonces. |
| `Pipeline.SubmissionsAreForwarded` | src/webview/SkyWebViewProvider.ts:66-70 | Every message the capture machine can post is forwarded to the handler command once, unchanged and in order. |
| `Pipeline.SpokenTurn` | src/webview/SkyWebViewProvider.ts:67-70 | From speech to command: an activation, late results included, leads to at most one handler command. It leads to one exactly when its trimmed final text is non-empty, and that command carries that text. |
| `Extension.ExtensionState.constructor` | src/extension.ts:8-22 | At load, the key is the placeholder, both handles are null and the conversation history is empty. |
| `Extension.Initialised` | src/extension.ts:35-74 | A missing, empty or placeholder key leaves the handles untouched. Otherwise both are set, from a client built on that key, exactly when both construction steps succeed, and both are null if either throws. Both-set-or-both-null is preserved. |
| `Extension.InitNotices` | src/extension.ts:35-73 | A refused key shows exactly the key warning. A construction failure shows the thrown message. Success shows nothing. |
| `Extension.ExtensionState.InitialiseClient` | src/extension.ts:35-74 | The handles become `Initialised` of the previous handles and the current key, and the notices grow by `InitNotices`. |
| `Extension.LoadAsShipped` | src/extension.ts:8-38 | With the shipped placeholder key, loading leaves both handles null and the history empty, and shows the key warning, whatever the library would do. |

## Left out

- HTML and Content-Security-Policy generation in `_getHtmlForWebview` and the
  webview options (src/webview/SkyWebViewProvider.ts:37-53, 98-201). This is
  static text rendering with no logic.
- DOM work in `main.js`: element lookups and their null checks, `innerHTML`,
  scrolling and colours. The model assumes the status line, button and
  transcript container exist.
- `logToExtension`. Its `webviewLog` posts and console output carry no state,
  so `outbox` holds only the `sendToGemini` messages. The router's handling of
  `webviewLog` is modelled (`Provider.LogMessagesDropped`).
- The unsupported-browser return and the failed recognizer construction
  (src/webview/main.js:36-61). The model starts once the listeners are
  attached. `synthAvailable` stands for whether `speechSynthesis` exists.
- The speech engines themselves: audio, recognition and synthesis. They are
  seen only through the calls made on them and the events they fire.
- Capture.Recognizer.StopRecordingInternal: an exception thrown by `stop()` is
  not a parameter. The source catches it and only logs it, so nothing in the
  state depends on it.
- Capture.Recognizer.SpeakText: exceptions thrown inside `speakText` are not
  modelled. The source catches them and only logs them. The utterance's
  language, rate and pitch are not modelled either.
- Message fields other than `type` and `text` are opaque strings (`extra`).
  The `payload?: any` of the listener's type is not given a structure.
- `resolveWebviewView` attaches a new listener to each view it is given. The
  model has one listener per provider, which routes the same way.
- The Gemini library: the model name, the safety settings and what the
  client does. `Client` and `Model` record only the key and the client they
  come from. A thrown error's text stands for `error.message` or
  `String(error)`.
- `activate` (it only logs) and the provider and command registration
  (src/extension.ts:29-31, 76-88). The registration is host plumbing. It also
  uses `context` outside `activate`, where that name is not in scope.
- `Math.random` and `Math.floor` in `getNonce`. Floating point is replaced by
  a sequence of draws, each an index in `[0, 62)`.
- `Provider.NonceAlphabet` is written as the concatenation of its three runs,
  which is the source's 62-character literal character for character.
- History bounding, single-flight submission and the model round trip. They
  are not in the code, so there is nothing to model.
