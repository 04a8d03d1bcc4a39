/** The message box under a conversation: its text, its send guard and its disabled button. */
module MessageInput {
  import opened Records
  import opened Text

  class MessageInput {
    var message: string
    const disabled: bool

    constructor(disabled: bool)
      ensures message == "" && this.disabled == disabled
    {
      message := "";
      this.disabled := disabled;
    }

    method SetMessage(text: string)
      modifies this`message
      ensures message == text
    {
      message := text;
    }

    /** The send button is disabled exactly when the box is disabled or holds only whitespace. */
    function SubmitDisabled(): (r: bool)
      reads this
      ensures r <==> disabled || forall k :: 0 <= k < |message| ==> IsWhite(message[k])
    {
      BlankIff(message);
      IsBlank(message) || disabled
    }

    /**
     * `handleSubmit`: `sent` is the text passed to `onSendMessage`, if it is
     * called. It is called exactly when the button is enabled, with the
     * trimmed text, and the box is cleared afterwards.
     */
    method HandleSubmit() returns (sent: Option<string>)
      modifies this`message
      ensures sent.None? <==> old(SubmitDisabled())
      ensures sent.None? ==> message == old(message)
      ensures sent.Some? ==> sent.value == Trim(old(message)) && message == ""
      ensures sent.Some? ==> sent.value != [] && !IsWhite(sent.value[0]) && !IsWhite(sent.value[|sent.value| - 1])
      ensures sent.Some? ==> Trim(sent.value) == sent.value
    {
      if IsBlank(message) || disabled {
        return None;
      }
      TrimIdempotent(message);
      sent := Some(Trim(message));
      message := "";
    }
  }
}
