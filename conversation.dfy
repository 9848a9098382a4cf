/** The conversation controller of the `gdm-live-audio` element: five observed
    fields (`isRecording`, `isThinking`, `isSpeaking`, `status`, `error`) that
    the event handlers update in place, the microphone stream it owns while
    capturing, and the chat session it replaces on reset.

    Every browser or network call is modelled by its effect on the controller:
    the outcome of a call the controller awaits (microphone access, a chat
    reply, whether `recognition.start()` threw) is a parameter of the handler,
    and each call the controller makes is recorded (a counter, a log, the
    chat-session generation). Each handler runs as one atomic event; the
    environment may deliver the events in any order. */
module Conversation {
  import opened Transcript
  import JsString
  import View

  // Status lines (`updateStatus` is only ever called with one of these).
  const Connected := "Conectado. Clique para falar."
  const Listening := "Ouvindo..."
  const Processing := "Processando..."
  const ThinkingStatus := "Pensando..."
  const Ready := "Pronto."
  const SpeakingStatus := "Falando..."
  const TryAgain := "Erro. Tente novamente."
  const SessionRestarted := "Sessão reiniciada."

  const StatusMessages: set<string> :=
    {Connected, Listening, Processing, ThinkingStatus, Ready, SpeakingStatus, TryAgain, SessionRestarted}

  // Error lines.
  const RecognitionUnsupported := "API de Reconhecimento de Fala não suportada neste navegador."
  const MicErrorPrefix := "Erro no microfone: "
  const RecognitionErrorPrefix := "Erro no reconhecimento: "
  const SpeechErrorPrefix := "Erro na fala: "

  /** What `getUserMedia` gives back: a stream with some number of tracks, or
      a rejection with its message. */
  datatype MicOutcome = Granted(trackCount: nat) | Denied(message: string)

  /** Whether `recognition.start()` returned or threw (it throws when the
      recognition engine is missing or already started). */
  datatype CallOutcome = Returned | Threw(message: string)

  /** What `chat.sendMessage` resolves to: the reply's text (empty when the
      reply has none) or a rejection with its message. */
  datatype ChatOutcome = Replied(text: string) | ChatFailed(message: string)

  /** One `sendMessage` call: the chat-session generation it went to and its text. */
  datatype SentMessage = SentMessage(session: nat, text: string)

  /** A captured microphone stream; of each track only whether `stop()` has
      been called on it is modelled. */
  class MediaStream {
    const trackStopped: array<bool>

    constructor (trackCount: nat)
      ensures fresh(trackStopped) && trackStopped.Length == trackCount
      ensures forall i :: 0 <= i < trackCount ==> !trackStopped[i]
    {
      trackStopped := new bool[trackCount](_ => false);
    }

    predicate AllStopped()
      reads trackStopped
    {
      forall i :: 0 <= i < trackStopped.Length ==> trackStopped[i]
    }

    /** `getTracks().forEach(track => track.stop())`. */
    method StopTracks()
      modifies trackStopped
      ensures AllStopped()
    {
      var i := 0;
      while i < trackStopped.Length
        invariant 0 <= i <= trackStopped.Length
        invariant forall j :: 0 <= j < i ==> trackStopped[j]
      {
        trackStopped[i] := true;
        i := i + 1;
      }
    }
  }

  /** The audio source node fed by a captured stream. */
  class SourceNode {
    var connected: bool

    /** `createMediaStreamSource(stream)` followed by `connect(inputNode)`. */
    constructor ()
      ensures connected
    {
      connected := true;
    }

    method Disconnect()
      modifies this
      ensures !connected
    {
      connected := false;
    }
  }

  /** The controller's own fields, as one value. */
  datatype State = State(
    isRecording: bool,
    isThinking: bool,
    isSpeaking: bool,
    status: string,
    error: string,
    mediaStream: MediaStream?,
    sourceNode: SourceNode?,
    chatSession: nat,
    sentMessages: seq<SentMessage>,
    pendingChats: nat,
    spokenUtterances: seq<string>,
    recognitionStarts: nat,
    recognitionStops: nat,
    speechCancels: nat)

  /** `stopRecording` on the controller's fields: nothing when not recording;
      otherwise recognition is told to stop, capture ends, the stream is
      dropped and the status says the utterance is being processed. */
  ghost function Stopped(s: State): State
  {
    if !s.isRecording then s
    else s.(isRecording := false, mediaStream := null, status := Processing,
            recognitionStops := s.recognitionStops + 1)
  }

  /** `speakResponse` on the controller's fields: an empty reply, or no speech
      synthesis, only sets the status to "ready"; otherwise one utterance is
      handed to the synthesiser and the status is left for its events. */
  ghost function Spoken(s: State, text: string, synthesisSupported: bool): State
  {
    if text == "" || !synthesisSupported then s.(status := Ready)
    else s.(spokenUtterances := s.spokenUtterances + [text])
  }

  /** `sendTextToGemini` up to its `await` on the controller's fields: empty
      text changes nothing; otherwise thinking is flagged and exactly one
      message goes to the current chat session. */
  ghost function Asked(s: State, text: string): State
  {
    if text == "" then s
    else s.(isThinking := true, status := ThinkingStatus,
            sentMessages := s.sentMessages + [SentMessage(s.chatSession, text)],
            pendingChats := s.pendingChats + 1)
  }

  /** The rest of `sendTextToGemini`, once a chat call settles: thinking ends
      and the reply goes to `speakResponse`, or the failure is shown. */
  ghost function Answered(s: State, reply: ChatOutcome, synthesisSupported: bool): State
    requires s.pendingChats > 0
  {
    var settled := s.(isThinking := false, pendingChats := s.pendingChats - 1);
    match reply
    case Replied(answer) => Spoken(settled, answer, synthesisSupported)
    case ChatFailed(message) => settled.(error := message, status := TryAgain)
  }

  class Controller {
    /** Whether the browser has `SpeechRecognition`; the recognition handlers
        exist only when it does. */
    const recognitionSupported: bool
    /** Whether the browser has `speechSynthesis`. */
    const synthesisSupported: bool

    var isRecording: bool
    var isThinking: bool
    var isSpeaking: bool
    var status: string
    var error: string

    var mediaStream: MediaStream?
    var sourceNode: SourceNode?

    /** Generation of the current chat session; every `initChat` makes a new one. */
    var chatSession: nat
    /** Every `sendMessage` call, in order. */
    var sentMessages: seq<SentMessage>
    /** `sendMessage` calls whose promise has not settled yet. */
    var pendingChats: nat
    /** Every utterance handed to `speechSynthesis.speak`, in order. */
    var spokenUtterances: seq<string>
    /** Calls of `recognition.start()` that returned, and of `recognition.stop()`. */
    var recognitionStarts: nat
    var recognitionStops: nat
    /** Calls of `speechSynthesis.cancel()`. */
    var speechCancels: nat

    ghost function Snapshot(): State
      reads this
    {
      State(isRecording, isThinking, isSpeaking, status, error, mediaStream, sourceNode,
            chatSession, sentMessages, pendingChats, spokenUtterances,
            recognitionStarts, recognitionStops, speechCancels)
    }

    /** What every handler keeps: the status is one of the fixed status lines;
        capture is only ever flagged with a recognition engine and speech only
        with a synthesiser; thinking is only flagged while a chat call is
        pending, and no more calls are pending than were made; no empty text
        is ever sent to the chat or spoken; every message went to a chat
        session that existed. */
    ghost predicate Valid()
      reads this
    {
      status in StatusMessages &&
      (isRecording ==> recognitionSupported) &&
      (isSpeaking ==> synthesisSupported) &&
      1 <= chatSession &&
      (isThinking ==> pendingChats > 0) &&
      pendingChats <= |sentMessages| &&
      (forall k :: 0 <= k < |sentMessages| ==>
         sentMessages[k].text != "" && 1 <= sentMessages[k].session <= chatSession) &&
      (forall k :: 0 <= k < |spokenUtterances| ==> spokenUtterances[k] != "")
    }

    /** The objects `stopRecording` may update: the source node and the tracks
        of the current stream. */
    ghost function CaptureFrame(): set<object>
      reads this
    {
      (if sourceNode == null then {} else {sourceNode}) +
      (if mediaStream == null then {} else {mediaStream.trackStopped})
    }

    /** The element's construction: idle flags, the welcome status, a first
        chat session, and the standing error when speech recognition is
        missing. */
    constructor (recognitionSupported: bool, synthesisSupported: bool)
      ensures Valid()
      ensures this.recognitionSupported == recognitionSupported
      ensures this.synthesisSupported == synthesisSupported
      ensures Snapshot() == State(false, false, false, Connected,
                                  if recognitionSupported then "" else RecognitionUnsupported,
                                  null, null, 1, [], 0, [], 0, 0, 0)
    {
      this.recognitionSupported := recognitionSupported;
      this.synthesisSupported := synthesisSupported;
      isRecording, isThinking, isSpeaking := false, false, false;
      status, error := Connected, "";
      mediaStream, sourceNode := null, null;
      chatSession := 1;
      sentMessages, pendingChats, spokenUtterances := [], 0, [];
      recognitionStarts, recognitionStops, speechCancels := 0, 0, 0;
      new;
      if !recognitionSupported {
        UpdateError(RecognitionUnsupported);
      }
    }

    /** Sets the status line to one of the fixed status lines. */
    method UpdateStatus(message: string)
      requires Valid() && message in StatusMessages
      modifies this
      ensures Valid()
      ensures Snapshot() == old(Snapshot()).(status := message)
    {
      status := message;
    }

    /** Sets the error line (the console logging is not modelled). */
    method UpdateError(message: string)
      requires Valid()
      modifies this
      ensures Valid()
      ensures Snapshot() == old(Snapshot()).(error := message)
    {
      error := message;
    }

    /** `initChat`: replaces the chat session with a fresh one. */
    method InitChat()
      requires Valid()
      modifies this
      ensures Valid()
      ensures Snapshot() == old(Snapshot()).(chatSession := old(chatSession) + 1)
    {
      chatSession := chatSession + 1;
    }

    /** Recognition `onstart`: the only place capture is flagged as active. */
    method OnRecognitionStart()
      requires Valid() && recognitionSupported
      modifies this
      ensures Valid()
      ensures Snapshot() == old(Snapshot()).(isRecording := true, status := Listening)
    {
      isRecording := true;
      UpdateStatus(Listening);
    }

    /** Recognition `onresult`: assembles the final text; when there is any,
        stops recording and sends the trimmed text to the chat. */
    method OnRecognitionResult(results: seq<RecognitionResult>, resultIndex: nat)
      requires Valid() && recognitionSupported
      modifies this, CaptureFrame()
      ensures Valid()
      ensures var text := Assembled(results, resultIndex);
        Snapshot() == if text == "" then old(Snapshot())
                      else Asked(Stopped(old(Snapshot())), JsString.Trim(text))
      ensures Assembled(results, resultIndex) != "" ==> !isRecording
      ensures JsString.Trim(Assembled(results, resultIndex)) == "" ==>
        sentMessages == old(sentMessages) && isThinking == old(isThinking)
      ensures JsString.Trim(Assembled(results, resultIndex)) != "" ==>
        sentMessages == old(sentMessages) + [SentMessage(chatSession, JsString.Trim(Assembled(results, resultIndex)))] &&
        isThinking && status == ThinkingStatus
      ensures Assembled(results, resultIndex) != "" && old(isRecording) ==> StreamReleased(old(Snapshot()))
      ensures Assembled(results, resultIndex) == "" || !old(isRecording) ==> CaptureUntouched(old(Snapshot()))
    {
      var finalTranscript := AssembleTranscript(results, resultIndex);
      if finalTranscript != "" {
        StopRecording();
        SendTextToGemini(JsString.Trim(finalTranscript));
      }
    }

    /** After `stopRecording` took effect: the old source node is disconnected
        and every track of the old stream is stopped. */
    twostate predicate StreamReleased(s: State)
      reads this, (if s.sourceNode == null then {} else {s.sourceNode}),
            (if s.mediaStream == null then {} else {s.mediaStream.trackStopped})
    {
      (s.sourceNode != null ==> !s.sourceNode.connected) &&
      (s.mediaStream != null ==> s.mediaStream.AllStopped())
    }

    /** Neither the source node nor the stream's tracks were touched. */
    twostate predicate CaptureUntouched(s: State)
      reads (if s.sourceNode == null then {} else {s.sourceNode}),
            (if s.mediaStream == null then {} else {s.mediaStream.trackStopped})
    {
      (s.sourceNode != null ==> unchanged(s.sourceNode)) &&
      (s.mediaStream != null ==> unchanged(s.mediaStream.trackStopped))
    }

    /** Recognition `onend`: capture is over; the welcome status comes back
        only if no reply is awaited or spoken. The stream is not released. */
    method OnRecognitionEnd()
      requires Valid() && recognitionSupported
      modifies this
      ensures Valid()
      ensures Snapshot() == old(Snapshot()).(
        isRecording := false,
        status := if !old(isThinking) && !old(isSpeaking) then Connected else old(status))
    {
      isRecording := false;
      if !isThinking && !isSpeaking {
        UpdateStatus(Connected);
      }
    }

    /** Recognition `onerror`: shows the engine's error code and clears the
        capture flag; the status and the stream are left as they are. */
    method OnRecognitionError(code: string)
      requires Valid() && recognitionSupported
      modifies this
      ensures Valid()
      ensures Snapshot() == old(Snapshot()).(isRecording := false, error := RecognitionErrorPrefix + code)
    {
      UpdateError(RecognitionErrorPrefix + code);
      isRecording := false;
    }

    /** `sendTextToGemini` up to its `await`: nothing for empty text;
        otherwise thinking is flagged and one message goes to the current
        chat session. */
    method SendTextToGemini(text: string)
      requires Valid()
      modifies this
      ensures Valid()
      ensures Snapshot() == Asked(old(Snapshot()), text)
      ensures text == "" ==> sentMessages == old(sentMessages)
      ensures text != "" ==> sentMessages == old(sentMessages) + [SentMessage(chatSession, text)] && isThinking
    {
      if text == "" {
        return;
      }
      // The status is written before the flag here; within one event the two
      // writes are indistinguishable, and this keeps `Valid()` at the call.
      UpdateStatus(ThinkingStatus);
      isThinking := true;
      sentMessages := sentMessages + [SentMessage(chatSession, text)];
      pendingChats := pendingChats + 1;
    }

    /** The continuation of `sendTextToGemini` when a pending `sendMessage`
        settles: thinking ends; a reply goes to `speakResponse`, a failure is
        shown with the "try again" status. */
    method OnChatResponse(reply: ChatOutcome)
      requires Valid() && pendingChats > 0
      modifies this
      ensures Valid()
      ensures Snapshot() == Answered(old(Snapshot()), reply, synthesisSupported)
      ensures !isThinking && pendingChats == old(pendingChats) - 1
      ensures reply.ChatFailed? ==> error == reply.message && status == TryAgain
    {
      pendingChats := pendingChats - 1;
      match reply
      case Replied(answer) =>
        isThinking := false;
        SpeakResponse(answer);
      case ChatFailed(message) =>
        isThinking := false;
        UpdateError(message);
        UpdateStatus(TryAgain);
    }

    /** `speakResponse`: with nothing to say or no synthesiser the status
        becomes "ready"; otherwise one utterance is queued for speaking. */
    method SpeakResponse(text: string)
      requires Valid()
      modifies this
      ensures Valid()
      ensures Snapshot() == Spoken(old(Snapshot()), text, synthesisSupported)
      ensures isSpeaking == old(isSpeaking)
    {
      if text == "" || !synthesisSupported {
        UpdateStatus(Ready);
        return;
      }
      spokenUtterances := spokenUtterances + [text];
    }

    /** Utterance `onstart`. */
    method OnUtteranceStart()
      requires Valid() && synthesisSupported
      modifies this
      ensures Valid()
      ensures Snapshot() == old(Snapshot()).(isSpeaking := true, status := SpeakingStatus)
    {
      isSpeaking := true;
      UpdateStatus(SpeakingStatus);
    }

    /** Utterance `onend`. */
    method OnUtteranceEnd()
      requires Valid() && synthesisSupported
      modifies this
      ensures Valid()
      ensures Snapshot() == old(Snapshot()).(isSpeaking := false, status := Connected)
    {
      isSpeaking := false;
      UpdateStatus(Connected);
    }

    /** Utterance `onerror`. */
    method OnUtteranceError(code: string)
      requires Valid() && synthesisSupported
      modifies this
      ensures Valid()
      ensures Snapshot() == old(Snapshot()).(
        isSpeaking := false, error := SpeechErrorPrefix + code, status := TryAgain)
    {
      isSpeaking := false;
      UpdateError(SpeechErrorPrefix + code);
      UpdateStatus(TryAgain);
    }

    /** `startRecording`: nothing while capture is flagged; otherwise the error
        is cleared and the microphone requested. A granted stream is kept and
        wired to a new source node before recognition is started; a failure
        of either step is shown as a microphone error. Capture is not flagged
        here: that waits for recognition's `onstart`. */
    method StartRecording(mic: MicOutcome, recognitionStart: CallOutcome)
      requires Valid()
      requires !recognitionSupported ==> recognitionStart.Threw?
      modifies this
      ensures Valid()
      ensures old(isRecording) ==> Snapshot() == old(Snapshot())
      ensures !old(isRecording) && mic.Denied? ==>
        Snapshot() == old(Snapshot()).(error := MicErrorPrefix + mic.message)
      ensures !old(isRecording) && mic.Granted? ==>
        mediaStream != null && sourceNode != null &&
        fresh(mediaStream) && fresh(mediaStream.trackStopped) && fresh(sourceNode) &&
        mediaStream.trackStopped.Length == mic.trackCount &&
        (forall i :: 0 <= i < mic.trackCount ==> !mediaStream.trackStopped[i]) &&
        sourceNode.connected &&
        Snapshot() == old(Snapshot()).(
          mediaStream := mediaStream,
          sourceNode := sourceNode,
          error := if recognitionStart.Threw? then MicErrorPrefix + recognitionStart.message else "",
          recognitionStarts := old(recognitionStarts) + if recognitionStart.Returned? then 1 else 0)
    {
      if isRecording {
        return;
      }
      error := "";
      match mic
      case Denied(message) =>
        UpdateError(MicErrorPrefix + message);
      case Granted(trackCount) =>
        mediaStream := new MediaStream(trackCount);
        sourceNode := new SourceNode();
        match recognitionStart
        case Returned =>
          recognitionStarts := recognitionStarts + 1;
        case Threw(message) =>
          UpdateError(MicErrorPrefix + message);
    }

    /** `stopRecording`: nothing when capture is not flagged; otherwise
        recognition is told to stop, the source node is disconnected, every
        track of the stream is stopped and the stream dropped. */
    method StopRecording()
      requires Valid()
      modifies this, CaptureFrame()
      ensures Valid()
      ensures Snapshot() == Stopped(old(Snapshot()))
      ensures !isRecording
      ensures old(isRecording) ==> mediaStream == null && status == Processing && StreamReleased(old(Snapshot()))
      ensures !old(isRecording) ==> CaptureUntouched(old(Snapshot()))
    {
      if !isRecording {
        return;
      }
      recognitionStops := recognitionStops + 1;
      isRecording := false;
      if sourceNode != null {
        sourceNode.Disconnect();
      }
      if mediaStream != null {
        mediaStream.StopTracks();
        mediaStream := null;
      }
      UpdateStatus(Processing);
    }

    /** `reset`: stops recording if capture is flagged, cancels speech if an
        utterance is flagged as speaking, always starts a fresh chat session
        and shows the restart status. It clears neither the error nor the
        speaking flag. */
    method Reset()
      requires Valid()
      modifies this, CaptureFrame()
      ensures Valid()
      ensures Snapshot() == Stopped(old(Snapshot())).(
        chatSession := old(chatSession) + 1,
        speechCancels := old(speechCancels) + if old(isSpeaking) then 1 else 0,
        status := SessionRestarted)
      ensures !isRecording && status == SessionRestarted && error == old(error)
      ensures chatSession != old(chatSession)
      ensures old(isRecording) ==> mediaStream == null && StreamReleased(old(Snapshot()))
      ensures !old(isRecording) ==> CaptureUntouched(old(Snapshot()))
    {
      if isRecording {
        StopRecording();
      }
      if isSpeaking {
        speechCancels := speechCancels + 1;
      }
      InitChat();
      UpdateStatus(SessionRestarted);
    }

    /** What `render` shows for the current fields. In every reachable state
        some text is shown (every status line is non-empty), and exactly one
        of start and stop is offered. */
    function Render(): (v: View.Controls)
      reads this
      ensures Valid() ==> v.shownText != ""
      ensures v.startHidden != v.stopHidden
    {
      View.Render(isRecording, isThinking, isSpeaking, status, error)
    }
  }
}
