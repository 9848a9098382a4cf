# live-audio conversation controller, in Dafny

This project models the conversation controller of the `gdm-live-audio` web
component (`GdmLiveAudio` in `index.tsx`). The component is a voice front-end.
It captures the microphone, lets the browser's speech recognition transcribe
what the user says, sends the final text to a Gemini chat session, and speaks
the reply with the browser's speech synthesis. The controller is a small
event-driven state machine over five observed fields: `isRecording`,
`isThinking`, `isSpeaking`, `status` and `error`. It also owns the captured
media stream and the chat session.

The project has five modules:

- `Conversation` (conversation.dfy) holds the controller as a class
  `Controller`. Its fields are the element's fields, and each handler is a
  method that updates them in place:
  - `startRecording`, `stopRecording` and `reset`;
  - recognition `onstart`, `onresult`, `onend` and `onerror`;
  - `sendTextToGemini`, split at its `await` into `SendTextToGemini` and
    `OnChatResponse`;
  - `speakResponse` and the utterance `onstart`, `onend` and `onerror`.

  Each method's contract gives its whole new state as a function of the old
  one (`Snapshot()`, with the state functions `Stopped`, `Asked`, `Answered`
  and `Spoken`). Every handler, and the `updateStatus` and `updateError`
  setters, preserves the invariant `Valid()`:
  - the status is always one of the eight fixed status lines;
  - capture is flagged only when a recognition engine exists, and speaking
    only when a synthesiser exists;
  - thinking is flagged only while a chat call is pending;
  - no empty text is ever sent to the chat or spoken.

  The captured stream is an object whose tracks are an array of "stopped"
  flags. `stopRecording` stops them in a loop.
- `Transcript` (transcript.dfy) models the `onresult` loop. The
  `AssembleTranscript` method is proved equal to the recursive `Finals`. The
  lemmas show that `Finals` distributes over concatenation, and they
  characterise when the text is empty.
- `JsString` (jsstring.dfy) models ECMAScript's `String.prototype.trim`,
  including its Unicode white-space and line-terminator set. Trimming is
  defined for any notion of space (`TrimBy`), and `Trim` applies it to
  ECMAScript's white space. Its contract says exactly which slice of the input
  is kept. The trimmed text is empty exactly when the input is all white
  space.
- `View` (view.dfy) models what `render` derives from the fields: which buttons
  are hidden or disabled, and the one line of text shown.
- `Scenarios` (scenarios.dfy) holds whole interactions proved from the
  contracts alone:
  - a refused microphone;
  - a full turn ("Olá" → "Oi, como você está?");
  - whitespace-only speech;
  - a reset while speaking;
  - recognition ending while the stream is held.

External calls are modelled as follows:
- **Awaited outcomes become parameters of the handler:**
  - what `getUserMedia` gives back;
  - whether `recognition.start()` threw;
  - what `sendMessage` resolved to.
- **Calls the controller makes are recorded:**
  - `recognition.start()` and `recognition.stop()`, as counters;
  - `speechSynthesis.speak`, as a log of utterances;
  - `speechSynthesis.cancel()`, as a counter;
  - `sendMessage`, as a log of (session generation, text);
  - `initChat`, as a session-generation number.
- **Browser support is a constructor flag.** Whether `SpeechRecognition` and
  `speechSynthesis` exist is fixed per browser. The recognition handlers
  require a recognition engine, because they are only installed when one
  exists. The utterance handlers require a synthesiser.
- **Calling `start()` on a missing engine throws.** Without a recognition
  engine, `this.recognition` is undefined. So `StartRecording` takes a
  `start()` that threw, and the model reports that exception as a microphone
  error, as the code does.

The model follows the code as written, which guards less than a strict phase
machine would:
- `startRecording` checks only `isRecording`. It does not check whether the
  agent is busy: only the rendered start button is disabled then.
- `isRecording` becomes true only in recognition `onstart`.
- Recognition `onend` and `onerror` do not release the stream. The stream stays
  held with live tracks, and a later `stopRecording` does nothing
  (`Scenarios.StreamKeptWhenRecognitionStops`).
- `reset` clears neither `error` nor `isSpeaking`.
- Whitespace-only speech still stops recording, and leaves the status at
  "Processando...".
- After a reply is handed to the synthesiser, the status stays "Pensando..."
  until the utterance starts.

## Model

| member | source | states |
|---|---|---|
| `Transcript.AssembleTranscript` | index.tsx:141-146 | the loop's text is the in-order concatenation of the transcripts of the final results from `resultIndex` to the end (`Assembled`), and empty when `resultIndex` is past the end |
| `Transcript.FinalsAppend` | index.tsx:142-146 | the assembled text of two batches of results is the text of the first followed by that of the second |
| `Transcript.FinalsEmptyIff` | index.tsx:143-147 | the assembled text is empty exactly when every final result has an empty transcript, so interim results alone never trigger a send |
| `Transcript.FinalResultIsAssembled` | index.tsx:142-146 | every final result at or after `resultIndex` has its transcript contained in the assembled text |
| `JsString.LeadingSpaces` | index.tsx:149 | counts the leading run of white space: every character before the count is white space and the one at the count is not |
| `JsString.TrailingSpaces` | index.tsx:149 | counts the trailing run of white space: every character in it is white space and the one before it is not |
| `JsString.TrimBy` | index.tsx:149 | `trim` keeps the slice of the input between its leading and trailing white space; the result neither starts nor ends with white space, and it is empty exactly when the input is all white space, so whitespace-only speech is never sent |
| `JsString.TrimIdempotent` | index.tsx:149 | trimming an already trimmed text changes nothing |
| `JsString.TrimIgnoresPadding` | index.tsx:149 | white space added before or after a text does not change what it trims to |
| `JsString.TrimUnique` | index.tsx:149 | any non-empty slice with only white space around it and none at its ends is the trimmed text, so the contract of `TrimBy` determines `trim` |
| `View.Render` | index.tsx:267-317 | reset is disabled iff recording, thinking or speaking; start is hidden iff recording and disabled iff thinking or speaking; stop is hidden iff not recording; the error is shown when non-empty, else the status; the visualiser gets `isSpeaking` |
| `View.StartOrStopShown` | index.tsx:287-301 | exactly one of the start and stop buttons is shown |
| `View.ResetUsableIffStartUsable` | index.tsx:267-289 | reset is usable exactly when start is shown and enabled |
| `Conversation.MediaStream.StopTracks` | index.tsx:244 | every track of the stream ends stopped |
| `Conversation.SourceNode.Disconnect` | index.tsx:239-241 | the source node ends disconnected |
| `Conversation.Controller.constructor` | index.tsx:95-129 | starts idle with status "Conectado. Clique para falar.", no error (or the unsupported-recognition error when there is no engine), the first chat session and no stream |
| `Conversation.Controller.UpdateStatus` | index.tsx:257-259 | sets the status to one of the fixed status lines and nothing else, keeping the invariant |
| `Conversation.Controller.UpdateError` | index.tsx:261-264 | sets the error and nothing else, keeping the invariant |
| `Conversation.Controller.InitChat` | index.tsx:108-121 | replaces the chat session with a new generation and changes nothing else |
| `Conversation.Controller.OnRecognitionStart` | index.tsx:135-138 | flags capture and shows "Ouvindo..." |
| `Conversation.Controller.OnRecognitionResult` | index.tsx:140-151 | no final text changes nothing; otherwise recording is stopped (stream released if it was recording) and, only if the trimmed text is non-empty, exactly that text is sent to the current session with thinking flagged; whitespace-only text makes no chat call |
| `Conversation.Controller.OnRecognitionEnd` | index.tsx:153-158 | clears the capture flag and restores the welcome status only when neither thinking nor speaking; the stream is not released |
| `Conversation.Controller.OnRecognitionError` | index.tsx:160-163 | sets the error to "Erro no reconhecimento: " + code and clears the capture flag, leaving status and stream alone |
| `Conversation.Controller.SendTextToGemini` | index.tsx:166-171 | empty text changes nothing; otherwise thinking is flagged, the status is "Pensando..." and exactly one message goes to the current chat session |
| `Conversation.Controller.OnChatResponse` | index.tsx:171-178 | a settled call ends thinking; a reply goes to `speakResponse`, a failure sets the error to its message and the status to "Erro. Tente novamente." |
| `Conversation.Controller.SpeakResponse` | index.tsx:181-207 | empty text or no synthesiser sets "Pronto." and leaves speaking alone; otherwise exactly that text is queued for speaking |
| `Conversation.Controller.OnUtteranceStart` | index.tsx:190-193 | flags speaking and shows "Falando..." |
| `Conversation.Controller.OnUtteranceEnd` | index.tsx:195-198 | clears speaking and shows "Conectado. Clique para falar." |
| `Conversation.Controller.OnUtteranceError` | index.tsx:200-204 | clears speaking, sets the error to "Erro na fala: " + code and the status to "Erro. Tente novamente." |
| `Conversation.Controller.StartRecording` | index.tsx:209-232 | does nothing while capture is flagged; otherwise clears the error; on a refused microphone shows "Erro no microfone: " + message and changes nothing else; on a granted one keeps a fresh stream with live tracks and a connected source node, and either starts recognition or shows its exception as a microphone error; never flags capture itself |
| `Conversation.Controller.StopRecording` | index.tsx:234-248 | does nothing when capture is not flagged; otherwise capture ends, recognition is told to stop, the source node is disconnected, every track of the old stream is stopped, the stream is dropped and the status is "Processando..." |
| `Conversation.Controller.Render` | index.tsx:266-320 | in every state satisfying the invariant some text is shown, because every status line is non-empty; exactly one of start and stop is offered |
| `Conversation.Controller.Reset` | index.tsx:250-255 | stops recording if recording (releasing the stream), cancels speech only if speaking, always starts a new chat session, ends with "Sessão reiniciada." and leaves the error unchanged |
| `Scenarios.PermissionDenied` | index.tsx:209-231 | a refused microphone shows "Erro no microfone: " + message, leaves capture unflagged and start usable |
| `Scenarios.HappyTurn` | index.tsx:135-206 | "Olá" is sent once to the first session, the reply is spoken, "Pensando..." survives the end of recognition, and the turn ends at the welcome status with the track stopped and all flags clear |
| `Scenarios.WhitespaceOnlyUtterance` | index.tsx:140-151 | whitespace-only speech stops recording and releases the track without any chat call, leaving "Processando..." |
| `Scenarios.ResetWhileSpeaking` | index.tsx:250-255 | reset while speaking cancels speech once, starts session 2 and shows the restart status, while the speaking flag stays set; the reset button is disabled in that state |
| `Scenarios.StreamKeptWhenRecognitionStops` | index.tsx:153-163 | after recognition's `onend` or `onerror` the stream stays held with a live track, even after a later stop |

## Left out

- Lit rendering, the HTML template, the styles and the `gdm-live-audio-visuals-3d` element are presentation. Only the derived flags and text of `render` are kept.
- The Gemini client, the model name and the system instruction of the chat (index.tsx:101-121) belong to a remote service. A chat session is a generation number, and each call's outcome is a parameter.
- The browser's `SpeechRecognition`, `speechSynthesis`, `getUserMedia` and audio context are foreign APIs. They appear only as support flags, outcome parameters and recorded calls. `inputAudioContext.resume()` and the gain node are not modelled.
- The recognition engine's configuration (language, continuous mode, no interim results) and the utterance's language only set up external engines.
- Of each recognition result only the first alternative's transcript is kept, because only `results[i][0]` is read.
- An exception from `createMediaStreamSource` or `connect` is not modelled. Only `getUserMedia` and `recognition.start()` are given failure outcomes.
- A `sendMessage` reply without text is modelled as an empty reply text. A rejection whose message is `undefined` is modelled as `ChatFailed("")`: the element then stores `undefined` as its error, which `render` treats like an empty error and shows the status instead.
- ECMAScript strings are sequences of UTF-16 code units, while Dafny strings are sequences of Unicode scalar values, so a lone surrogate cannot be represented. This does not affect `trim`, because every white-space and line-terminator character is in the Basic Multilingual Plane.
- Timing is not modelled. Each handler, and each half of `sendTextToGemini` around its `await`, is one atomic event, delivered in any order the environment chooses. The only constraint is that a chat response needs a pending call.
- `console.error` logging has no effect on state and is left out.
