/**
 * The message box (front-end/src/components/ChatInput.tsx): the draft, the
 * submit guard, and the Enter/Shift+Enter rule.
 */
module ChatInput {
  import opened Wrappers
  import opened Client
  import opened Text
  import ChatInterface

  /** `message.trim() && !isLoading`: the draft has text and no reply is pending. */
  predicate CanSubmit(draft: string, isLoading: bool) {
    Trim(draft) != "" && !isLoading
  }

  /** Enter without Shift submits. */
  predicate SubmitsOnKey(key: string, shiftKey: bool) {
    key == "Enter" && !shiftKey
  }

  class ChatInputState {
    /** The chat screen: its `handleSendMessage` is `onSend`, its loading flag is `isLoading`. */
    const chat: ChatInterface.ChatInterfaceState
    /** The draft. */
    var message: string

    constructor (chat: ChatInterface.ChatInterfaceState)
      ensures this.chat == chat && message == ""
    {
      this.chat := chat;
      message := "";
    }

    /** The textarea's `onChange`. */
    method Change(value: string)
      modifies this`message
      ensures message == value
    {
      message := value;
    }

    /**
     * `handleSubmit`: when the guard holds, send the trimmed draft and clear
     * it; otherwise send nothing and keep the draft.
     */
    method Submit(id: string, now: Instant) returns (sent: Option<string>)
      requires chat.Valid()
      modifies this`message, chat`messages, chat`isLoading
      ensures chat.Valid()
      ensures sent == if CanSubmit(old(message), old(chat.isLoading)) then Some(Trim(old(message))) else None
      ensures sent.Some? ==>
        && message == ""
        && chat.messages == old(chat.messages) + [ChatInterface.Message(id, User, sent.value, now)]
        && chat.isLoading
      ensures sent.None? ==>
        message == old(message) && chat.messages == old(chat.messages) && chat.isLoading == old(chat.isLoading)
    {
      var trimmed := Trim(message);
      if trimmed != "" && !chat.isLoading {
        chat.SendMessage(trimmed, id, now);
        sent := Some(trimmed);
        message := "";
      } else {
        sent := None;
      }
    }

    /** `handleKeyDown`: Enter without Shift submits; every other key leaves everything as it is. */
    method KeyDown(key: string, shiftKey: bool, id: string, now: Instant) returns (sent: Option<string>)
      requires chat.Valid()
      modifies this`message, chat`messages, chat`isLoading
      ensures chat.Valid()
      ensures !SubmitsOnKey(key, shiftKey) ==>
        sent.None? && message == old(message) && chat.messages == old(chat.messages)
        && chat.isLoading == old(chat.isLoading)
      ensures SubmitsOnKey(key, shiftKey) ==>
        sent == if CanSubmit(old(message), old(chat.isLoading)) then Some(Trim(old(message))) else None
      ensures sent.Some? ==>
        && message == ""
        && chat.messages == old(chat.messages) + [ChatInterface.Message(id, User, sent.value, now)]
        && chat.isLoading
      ensures sent.None? ==>
        message == old(message) && chat.messages == old(chat.messages) && chat.isLoading == old(chat.isLoading)
    {
      if key == "Enter" && !shiftKey {
        sent := Submit(id, now);
      } else {
        sent := None;
      }
    }

    /** The send button is disabled exactly when a submit would be refused. */
    function SendDisabled(): (disabled: bool)
      reads this, chat
      ensures disabled <==> !CanSubmit(message, chat.isLoading)
    {
      Trim(message) == "" || chat.isLoading
    }

    /** The textarea is disabled exactly while a reply is pending. */
    function TextareaDisabled(): (disabled: bool)
      reads this, chat
      ensures disabled <==> chat.isLoading
    {
      chat.isLoading
    }
  }

  /** A draft of blanks is never sent, even when no reply is pending. */
  lemma BlankDraftRefused(draft: string, isLoading: bool)
    requires AllWhitespace(draft)
    ensures !CanSubmit(draft, isLoading)
  {
    TrimEmpty(draft);
  }

  /** What is sent has no surrounding whitespace and is sent again unchanged if trimmed once more. */
  lemma SentTextIsTrimmed(draft: string)
    requires Trim(draft) != ""
    ensures var t := Trim(draft);
      !IsJsWhitespace(t[0]) && !IsJsWhitespace(t[|t| - 1]) && Trim(t) == t
  {
    TrimIdempotent(draft);
  }
}
