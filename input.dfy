/** The composer: a text buffer that is sent, trimmed, when it holds more
    than whitespace and the composer is not disabled, then cleared; Enter
    without Shift sends; and a voice button that toggles a recording flag.
    What would be handed to `onSendMessage` is returned instead. */
module Input {
  import opened Lists
  import opened Text

  class ChatInput {
    var message: string
    var isRecording: bool

    constructor ()
      ensures message == "" && !isRecording
    {
      message := "";
      isRecording := false;
    }

    /** The guard of `handleSend`: the trimmed buffer is not empty and the
        composer is not disabled. */
    predicate CanSend(disabled: bool)
      reads this
      ensures CanSend(disabled) <==>
        !disabled && exists i :: 0 <= i < |message| && !IsWhitespace(message[i])
    {
      Trim(message) != "" && !disabled
    }

    /** The send button is disabled exactly when the guard of `handleSend`
        fails: when the buffer holds only whitespace or the composer is
        disabled. */
    predicate SendButtonDisabled(disabled: bool)
      reads this
      ensures SendButtonDisabled(disabled) <==> !CanSend(disabled)
      ensures SendButtonDisabled(disabled) <==>
        (disabled || forall i :: 0 <= i < |message| ==> IsWhitespace(message[i]))
    {
      Trim(message) == "" || disabled
    }

    /** The text area's change handler overwrites the buffer. */
    method HandleChange(text: string)
      modifies this`message
      ensures message == text
    {
      message := text;
    }

    /** `handleSend`: when the guard holds, the trimmed buffer is sent and
        the buffer is cleared; otherwise nothing is sent and the buffer is
        kept. */
    method HandleSend(disabled: bool) returns (sent: Option<string>)
      modifies this`message
      ensures old(CanSend(disabled)) ==> sent == Some(Trim(old(message))) && message == ""
      ensures !old(CanSend(disabled)) ==> sent == None && message == old(message)
      ensures sent.Some? ==> sent.value != "" && !IsWhitespace(sent.value[0])
    {
      if Trim(message) != "" && !disabled {
        sent := Some(Trim(message));
        message := "";
      } else {
        sent := None;
      }
    }

    /** `handleKeyDown`: Enter without Shift suppresses the newline and
        takes the send path; any other key, or Shift+Enter, does neither. */
    method HandleKeyDown(key: string, shiftKey: bool, disabled: bool)
      returns (sent: Option<string>, preventDefault: bool)
      modifies this`message
      ensures preventDefault <==> key == "Enter" && !shiftKey
      ensures preventDefault && old(CanSend(disabled)) ==>
        sent == Some(Trim(old(message))) && message == ""
      ensures !(preventDefault && old(CanSend(disabled))) ==> sent == None && message == old(message)
    {
      if key == "Enter" && !shiftKey {
        preventDefault := true;
        sent := HandleSend(disabled);
      } else {
        preventDefault := false;
        sent := None;
      }
    }

    /** `handleVoiceToggle`: the recording flag flips and nothing else
        changes. */
    method HandleVoiceToggle()
      modifies this`isRecording
      ensures isRecording == !old(isRecording)
    {
      isRecording := !isRecording;
    }
  }

  /** Toggling the voice button twice leaves the recording flag as it was. */
  method ToggleTwice(input: ChatInput)
    modifies input`isRecording
    ensures input.isRecording == old(input.isRecording)
  {
    input.HandleVoiceToggle();
    input.HandleVoiceToggle();
  }
}
