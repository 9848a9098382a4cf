/** Whole interactions with the controller, each proved from the handlers'
    contracts alone: the environment delivers the browser's events in the
    order a real session produces them. */
module Scenarios {
  import opened Conversation
  import opened Transcript
  import JsString

  /** Start is pressed and microphone access is refused: the microphone error
      is shown, capture is not flagged, and start stays usable. */
  method PermissionDenied(message: string)
    returns (shown: string, recording: bool, startUsable: bool)
    ensures shown == MicErrorPrefix + message
    ensures !recording && startUsable
  {
    var c := new Controller(true, true);
    c.StartRecording(Denied(message), Returned);
    var v := c.Render();
    shown, recording := v.shownText, c.isRecording;
    startUsable := !v.startHidden && !v.startDisabled;
  }

  /** One full turn: the user says "Olá", the chat answers, the answer is
      spoken and the controller is back at the welcome status with the
      microphone released. While the reply is awaited, the end of recognition
      does not overwrite the thinking status. */
  method HappyTurn()
    returns (sent: seq<SentMessage>, spoken: seq<string>, thinkingShown: string,
             shown: string, tracksStopped: bool, idle: bool)
    ensures sent == [SentMessage(1, "Olá")]
    ensures spoken == ["Oi, como você está?"]
    ensures thinkingShown == ThinkingStatus
    ensures shown == Connected
    ensures tracksStopped && idle
  {
    var c := new Controller(true, true);
    c.StartRecording(Granted(1), Returned);
    var stream := c.mediaStream;
    c.OnRecognitionStart();
    var results := [RecognitionResult(true, "Olá")];
    OlaIsSent(results);
    c.OnRecognitionResult(results, 0);
    assert c.isThinking && c.error == "" && c.sentMessages == [SentMessage(1, "Olá")];
    assert stream.trackStopped[0];
    c.OnRecognitionEnd();
    thinkingShown := c.Render().shownText;
    c.OnChatResponse(Replied("Oi, como você está?"));
    assert !c.isThinking && c.spokenUtterances == ["Oi, como você está?"];
    c.OnUtteranceStart();
    c.OnUtteranceEnd();
    sent, spoken, shown := c.sentMessages, c.spokenUtterances, c.Render().shownText;
    tracksStopped := stream.trackStopped[0];
    idle := !c.isRecording && !c.isThinking && !c.isSpeaking;
  }

  /** The text the recognition handler sends for one final "Olá" result. */
  lemma OlaIsSent(results: seq<RecognitionResult>)
    requires results == [RecognitionResult(true, "Olá")]
    ensures Assembled(results, 0) == "Olá"
    ensures JsString.Trim("Olá") == "Olá"
  {
    assert results[0..] == results && results[..0] == [];
    assert Finals(results) == Finals([]) + "Olá";
    var ola := "Olá";
    assert !JsString.IsJsWhitespace(ola[0]);
    assert JsString.LeadingSpaces(JsString.IsJsWhitespace, ola) == 0;
    assert !JsString.IsJsWhitespace(ola[|ola| - 1]);
    assert JsString.TrailingSpaces(JsString.IsJsWhitespace, ola) == 0;
    assert JsString.TrimBy(JsString.IsJsWhitespace, ola) == ola;
  }

  /** Speech that is only whitespace stops recording but makes no chat call;
      the status stays at "processing". */
  method WhitespaceOnlyUtterance()
    returns (chatCalls: nat, recording: bool, shown: string, tracksStopped: bool)
    ensures chatCalls == 0 && !recording && tracksStopped
    ensures shown == Processing
  {
    var c := new Controller(true, true);
    c.StartRecording(Granted(1), Returned);
    var stream := c.mediaStream;
    c.OnRecognitionStart();
    var results := [RecognitionResult(true, " \n ")];
    assert results[0..][..0] == [];
    assert Assembled(results, 0) == " \n ";
    assert JsString.IsJsWhitespace(' ') && JsString.IsJsWhitespace('\n');
    c.OnRecognitionResult(results, 0);
    chatCalls, recording, shown := |c.sentMessages|, c.isRecording, c.Render().shownText;
    tracksStopped := stream.trackStopped[0];
  }

  /** Reset while a reply is being spoken: speech is cancelled, a new chat
      session starts and the restart status shows, but the speaking flag stays
      set until the synthesiser reports back. The rendered reset button is
      disabled in that state, so only a direct call reaches this path. */
  method ResetWhileSpeaking()
    returns (resetDisabled: bool, cancels: nat, session: nat, status: string, speaking: bool)
    ensures resetDisabled
    ensures cancels == 1 && session == 2 && status == SessionRestarted && speaking
  {
    var c := new Controller(true, true);
    c.SendTextToGemini("Olá");
    c.OnChatResponse(Replied("Oi"));
    c.OnUtteranceStart();
    resetDisabled := c.Render().resetDisabled;
    c.Reset();
    cancels, session, status, speaking := c.speechCancels, c.chatSession, c.status, c.isSpeaking;
  }

  /** Recognition ends on its own (`onend`) or fails (`onerror`) while
      capturing: capture is no longer flagged, so a later stop does nothing,
      and the stream stays held with its track still live. */
  method StreamKeptWhenRecognitionStops(viaError: bool)
    returns (streamHeld: bool, trackLive: bool, shown: string)
    ensures streamHeld && trackLive
    ensures shown == if viaError then RecognitionErrorPrefix + "network" else Connected
  {
    var c := new Controller(true, true);
    c.StartRecording(Granted(1), Returned);
    var stream := c.mediaStream;
    c.OnRecognitionStart();
    if viaError {
      c.OnRecognitionError("network");
    } else {
      c.OnRecognitionEnd();
    }
    c.StopRecording();
    streamHeld := c.mediaStream == stream && stream != null;
    trackLive := !stream.trackStopped[0];
    shown := c.Render().shownText;
  }
}
