/** What `render` derives from the controller's fields: which of the three
    buttons is hidden or disabled, the one line of text shown, and the
    speaking flag handed to the visualiser. Layout, styling and the visualiser
    itself are presentation and are not modelled. */
module View {

  datatype Controls = Controls(
    resetDisabled: bool,
    startHidden: bool,
    startDisabled: bool,
    stopHidden: bool,
    shownText: string,
    visualsSpeaking: bool)

  /** The agent is busy while a chat reply is awaited or a reply is spoken. */
  predicate IsBusy(isThinking: bool, isSpeaking: bool) {
    isThinking || isSpeaking
  }

  function Render(isRecording: bool, isThinking: bool, isSpeaking: bool,
                  status: string, error: string): (v: Controls)
    ensures v.resetDisabled <==> isRecording || isThinking || isSpeaking
    ensures v.startHidden <==> isRecording
    ensures v.startDisabled <==> isThinking || isSpeaking
    ensures v.stopHidden <==> !isRecording
    ensures v.shownText == if error != "" then error else status
    ensures v.visualsSpeaking == isSpeaking
  {
    var busy := IsBusy(isThinking, isSpeaking);
    Controls(
      resetDisabled := isRecording || busy,
      startHidden := isRecording,
      startDisabled := busy,
      stopHidden := !isRecording,
      shownText := if error != "" then error else status,
      visualsSpeaking := isSpeaking)
  }

  /** Exactly one of the start and stop buttons is shown, whatever the flags. */
  lemma StartOrStopShown(isRecording: bool, isThinking: bool, isSpeaking: bool,
                         status: string, error: string)
    ensures var v := Render(isRecording, isThinking, isSpeaking, status, error);
      v.startHidden != v.stopHidden
  {
  }

  /** Reset is clickable only in the idle view, and then start is clickable
      too: reset can be clicked exactly when start is shown and enabled. */
  lemma ResetUsableIffStartUsable(isRecording: bool, isThinking: bool, isSpeaking: bool,
                                  status: string, error: string)
    ensures var v := Render(isRecording, isThinking, isSpeaking, status, error);
      !v.resetDisabled <==> !v.startHidden && !v.startDisabled
  {
  }
}
