/**
 * The chat screen (front-end/src/components/ChatInterface.tsx): the message
 * list, the loading flag, a send that appends the user's message and a
 * delayed step that appends the simulated reply, and the new-chat reset that
 * hands over to the page's `handleNewChat`.
 */
module ChatInterface {
  import opened Wrappers
  import opened Client
  import Index

  /** The component's `Message`. */
  datatype Message = Message(id: string, role: Role, content: string, timestamp: Instant)

  const WelcomeId := "welcome"

  /** The greeting, naming the loaded file. */
  function WelcomeText(fileName: string): string {
    "Hi! I've loaded \"" + fileName
      + "\". Ask me anything about this document and I'll help you find the information you need."
  }

  /** The greeting names the file right after its opening words. */
  lemma WelcomeNamesFile(fileName: string)
    ensures |WelcomeText(fileName)| > 17 + |fileName|
    ensures WelcomeText(fileName)[17..17 + |fileName|] == fileName
  {
    var prefix := "Hi! I've loaded \"";
    assert |prefix| == 17;
    assert WelcomeText(fileName) == prefix + fileName + WelcomeText("")[17..];
  }

  function WelcomeMessage(fileName: string, now: Instant): Message {
    Message(WelcomeId, Assistant, WelcomeText(fileName), now)
  }

  /** The text of the reply the component simulates instead of calling the back end. */
  const SimulatedReply := "This is a simulated response. In a real implementation, this would be connected to your RAG backend API that processes the document and generates contextual responses based on the uploaded file."

  /** The "Thinking..." bubble shown while a reply is pending. */
  function ThinkingBubble(now: Instant): Message {
    Message("loading", Assistant, "Thinking...", now)
  }

  class ChatInterfaceState {
    const fileName: string
    const uploadedAt: Instant
    /** The page whose `handleNewChat` is this component's `onNewChat`. */
    const page: Index.IndexState
    var messages: seq<Message>
    var isLoading: bool

    /** The list is never empty and starts with the greeting for this file. */
    ghost predicate Valid()
      reads this
    {
      |messages| >= 1 && messages[0].id == WelcomeId && messages[0].role == Assistant
      && messages[0].content == WelcomeText(fileName)
    }

    /** The component as the page mounts it for its session. */
    constructor (page: Index.IndexState, now: Instant)
      requires page.uploadedFile.Some?
      ensures this.page == page
      ensures fileName == page.uploadedFile.value.name && uploadedAt == page.uploadedFile.value.uploadedAt
      ensures messages == [WelcomeMessage(fileName, now)] && !isLoading
      ensures Valid()
    {
      this.page := page;
      fileName := page.uploadedFile.value.name;
      uploadedAt := page.uploadedFile.value.uploadedAt;
      messages := [WelcomeMessage(page.uploadedFile.value.name, now)];
      isLoading := false;
    }

    /** `handleSendMessage` up to starting the timer: append the user's message and start loading. */
    method SendMessage(content: string, id: string, now: Instant)
      requires Valid()
      modifies this`messages, this`isLoading
      ensures Valid()
      ensures messages == old(messages) + [Message(id, User, content, now)]
      ensures isLoading
    {
      messages := messages + [Message(id, User, content, now)];
      isLoading := true;
    }

    /** The timer of `handleSendMessage` firing: append the simulated reply and stop loading. */
    method CompleteReply(id: string, now: Instant)
      requires Valid()
      modifies this`messages, this`isLoading
      ensures Valid()
      ensures messages == old(messages) + [Message(id, Assistant, SimulatedReply, now)]
      ensures !isLoading
    {
      messages := messages + [Message(id, Assistant, SimulatedReply, now)];
      isLoading := false;
    }

    /**
     * `handleNewChat`: reset the list to the greeting, then call `onNewChat`,
     * which sends `/delete_session` with the returned collection name.
     */
    method NewChat(now: Instant) returns (collectionName: Option<string>)
      requires Valid()
      modifies this`messages
      ensures Valid()
      ensures messages == [WelcomeMessage(fileName, now)]
      ensures page.uploadedFile.None? ==> collectionName.None?
      ensures page.uploadedFile.Some? ==> collectionName == page.uploadedFile.value.collectionName
    {
      messages := [WelcomeMessage(fileName, now)];
      collectionName := page.StartNewChat();
    }

    /** What the list renders: the messages, then the "Thinking..." bubble exactly while loading. */
    function Rendered(now: Instant): (r: seq<Message>)
      reads this
      ensures |messages| <= |r| && r[..|messages|] == messages
      ensures |r| == |messages| + 1 <==> isLoading
      ensures !isLoading ==> r == messages
      ensures isLoading ==> r[|messages|] == ThinkingBubble(now)
    {
      messages + if isLoading then [ThinkingBubble(now)] else []
    }
  }
}
