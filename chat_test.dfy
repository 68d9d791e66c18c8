/**
 * The test chat panel (front-end/src/components/ChatTest.tsx): a send that
 * records an exchange only when the back end answered with text, and a
 * clear button.
 */
module ChatTest {
  import opened Wrappers
  import opened Client
  import opened Text

  /** `ChatMessage` of the API client: a role and a text. */
  datatype ApiMessage = ApiMessage(role: Role, content: string)

  const TestSystemPrompt := "You are a helpful AI assistant."

  /** The arguments of `chatWithHistory`. */
  datatype ChatRequest = ChatRequest(systemPrompt: string, history: seq<ApiMessage>, newInput: string)

  /** How the call ended: a `ChatResponse`, or an exception. */
  datatype SendOutcome = Replied(success: bool, response: Option<string>) | Threw

  /** `response.success && response.response`: a successful reply with non-empty text. */
  predicate Answered(o: SendOutcome) {
    o.Replied? && o.success && o.response.Some? && o.response.value != ""
  }

  /** Every user message is followed by the assistant's answer. */
  ghost predicate Paired(messages: seq<ApiMessage>) {
    |messages| % 2 == 0
    && forall i :: 0 <= i < |messages| ==> messages[i].role == (if i % 2 == 0 then User else Assistant)
  }

  /** Appending one exchange keeps the list paired. */
  lemma PairedAppend(messages: seq<ApiMessage>, question: string, answer: string)
    requires Paired(messages)
    ensures Paired(messages + [ApiMessage(User, question), ApiMessage(Assistant, answer)])
  {
    var m := messages + [ApiMessage(User, question), ApiMessage(Assistant, answer)];
    forall i | 0 <= i < |m| ensures m[i].role == (if i % 2 == 0 then User else Assistant) {
      if i < |messages| {
        assert m[i] == messages[i];
      }
    }
  }

  class ChatTestState {
    var messages: seq<ApiMessage>
    var input: string
    var isLoading: bool

    constructor ()
      ensures messages == [] && input == "" && !isLoading && Paired(messages)
    {
      messages := [];
      input := "";
      isLoading := false;
    }

    /** The input's `onChange`. */
    method Change(value: string)
      modifies this`input
      ensures input == value
    {
      input := value;
    }

    /**
     * `handleSend` up to the call: a blank input does nothing; otherwise
     * loading starts and the current list and the raw input are sent.
     */
    method StartSend() returns (request: Option<ChatRequest>)
      modifies this`isLoading
      ensures Trim(input) == "" ==> request.None? && isLoading == old(isLoading)
      ensures Trim(input) != "" ==> request == Some(ChatRequest(TestSystemPrompt, messages, input)) && isLoading
    {
      if Trim(input) == "" {
        request := None;
        return;
      }
      isLoading := true;
      request := Some(ChatRequest(TestSystemPrompt, messages, input));
    }

    /** The input's `onKeyPress`: Enter starts a send (Shift is not looked at); other keys do nothing. */
    method KeyPress(key: string) returns (request: Option<ChatRequest>)
      modifies this`isLoading
      ensures key != "Enter" ==> request.None? && isLoading == old(isLoading)
      ensures key == "Enter" && Trim(input) == "" ==> request.None? && isLoading == old(isLoading)
      ensures key == "Enter" && Trim(input) != "" ==>
        request == Some(ChatRequest(TestSystemPrompt, messages, input)) && isLoading
    {
      if key == "Enter" {
        request := StartSend();
      } else {
        request := None;
      }
    }

    /**
     * `handleSend` after the call: an answered request appends the question
     * and the answer and clears the input; any other outcome changes neither.
     * Loading stops in every case.
     */
    method CompleteSend(request: ChatRequest, outcome: SendOutcome)
      requires Paired(messages)
      modifies this`messages, this`input, this`isLoading
      ensures Paired(messages)
      ensures !isLoading
      ensures Answered(outcome) ==>
        && messages == old(messages) + [ApiMessage(User, request.newInput), ApiMessage(Assistant, outcome.response.value)]
        && input == ""
      ensures !Answered(outcome) ==> messages == old(messages) && input == old(input)
    {
      if Answered(outcome) {
        PairedAppend(messages, request.newInput, outcome.response.value);
        messages := messages + [ApiMessage(User, request.newInput), ApiMessage(Assistant, outcome.response.value)];
        input := "";
      }
      isLoading := false;
    }

    /** `clearChat`. */
    method ClearChat()
      modifies this`messages
      ensures messages == [] && Paired(messages)
    {
      messages := [];
    }

    /** The send button is disabled while loading or while the input is blank. */
    function SendDisabled(): (disabled: bool)
      reads this
      ensures disabled <==> isLoading || AllWhitespace(input)
    {
      TrimEmpty(input);
      isLoading || Trim(input) == ""
    }
  }
}
