/**
 * When the prompt area lets a message go out: the submit button's `disabled` flag, the busy flag
 * that guards the Enter key, and what a click on the submit/stop button does.
 */
module Gating {

  /** The session status of the chat store, as the prompt area reads it. */
  datatype Status = Idle | Loading | Streaming

  /** `isSubmitDisabled`: the button is disabled while loading, and while idle with an empty input. */
  predicate IsSubmitDisabled(input: string, status: Status)
    ensures IsSubmitDisabled(input, status) ==> input == "" || status == Loading
    ensures status == Streaming ==> !IsSubmitDisabled(input, status)
  {
    (input == "" && status == Idle) || status == Loading
  }

  /** `isBusy`: a request is outstanding. */
  predicate IsBusy(status: Status)
    ensures IsBusy(status) <==> status != Idle
  {
    status == Loading || status == Streaming
  }

  /** What a key press in the text area leads to. */
  datatype KeyOutcome =
    | Default       // the browser's own handling (Enter then inserts a newline)
    | SubmitForm    // the default is prevented and the form is submitted

  /** handleKeyDown: Enter without Shift submits the form unless busy; every other key keeps its default. */
  function OnKeyDown(key: string, shiftKey: bool, status: Status): (outcome: KeyOutcome)
    ensures outcome == SubmitForm ==> key == "Enter" && !shiftKey
  {
    if key == "Enter" && !shiftKey && !IsBusy(status) then SubmitForm else Default
  }

  /** What a click on the submit button does: `stop()` is called when streaming, and an enabled submit button also submits the form. */
  datatype ClickOutcome = ClickOutcome(callsStop: bool, submitsForm: bool)

  function OnSubmitButtonClick(input: string, status: Status): (outcome: ClickOutcome)
    ensures outcome.callsStop ==> outcome.submitsForm
    ensures outcome.callsStop <==> status == Streaming
    ensures outcome.submitsForm <==> !IsSubmitDisabled(input, status)
  {
    ClickOutcome(status == Streaming, !IsSubmitDisabled(input, status))
  }

  /** The button is enabled exactly while streaming (it is then the stop button) or while idle with some input. */
  lemma SubmitEnabledCases(input: string, status: Status)
    ensures !IsSubmitDisabled(input, status) <==> status == Streaming || (status == Idle && input != "")
  {
  }

  /** Enter submits exactly when it is an unshifted Enter and the session is idle. */
  lemma EnterSubmitsOnlyWhenIdle(key: string, shiftKey: bool, status: Status)
    ensures OnKeyDown(key, shiftKey, status) == SubmitForm <==> key == "Enter" && !shiftKey && status == Idle
  {
  }

  /** While loading, neither the button nor the Enter key can submit. */
  lemma NothingSubmitsWhileLoading(input: string, key: string, shiftKey: bool)
    ensures !OnSubmitButtonClick(input, Loading).submitsForm
    ensures OnKeyDown(key, shiftKey, Loading) == Default
  {
  }

  /**
   * While streaming, Enter does not submit but a click on the (stop) button both stops the stream and
   * submits the form, so whatever non-blank text the input holds at that moment is passed to the
   * store's `sendMessage`.
   */
  lemma StopClickAlsoSubmits(input: string, key: string, shiftKey: bool)
    ensures OnSubmitButtonClick(input, Streaming) == ClickOutcome(true, true)
    ensures OnKeyDown(key, shiftKey, Streaming) == Default
  {
  }
}
