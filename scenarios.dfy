/**
 * Client code that drives the components together through one session:
 * upload from the welcome screen, a chat turn through the message box, and
 * a new chat whose back-end call fails. Each step is checked from the
 * components' contracts alone.
 */
module Scenarios {
  import opened Wrappers
  import opened Client
  import Text
  import Index
  import WelcomeScreen
  import ChatInterface
  import ChatInput

  /** Dropping "report.pdf" and receiving an ok reply opens the chat screen on collection "abc123". */
  method UploadScenario(now: Instant)
  {
    var page := new Index.IndexState(map[Index.ChatHistoryKey := Index.OtherRecord("[]")], now);
    page.Mount();
    assert page.CurrentScreen() == Index.WelcomeView(false);

    var welcome := new WelcomeScreen.WelcomeScreenState(page);
    var report := FileRef("report.pdf", WelcomeScreen.PdfMime);
    var dropped := welcome.Drop([report]);
    assert dropped == WelcomeScreen.Forwarded(report);
    assert page.isUploading && Index.ChatHistoryKey !in page.storage;

    // A second drop while the upload runs is ignored.
    var again := welcome.Drop([report]);
    assert again == WelcomeScreen.Ignored;

    var data := Index.UploadData(Some("Document ready"), Some("abc123"));
    page.CompleteUpload(report, Index.UploadOk(Some(data)), "1", now);
    assert !page.isUploading;
    assert page.initialChat.text == Some("Document ready");
    assert page.uploadedFile.value.collectionName == Some("abc123");
    assert page.CurrentScreen() == Index.ChatView("report.pdf", now);
  }

  /** One turn: the trimmed question is appended, a second submit while waiting is refused, then the reply lands. */
  method ChatTurnScenario(chat: ChatInterface.ChatInterfaceState, box: ChatInput.ChatInputState, now: Instant)
    requires box.chat == chat && chat.Valid() && !chat.isLoading
    modifies box, chat
  {
    var n := |chat.messages|;
    box.Change("Hi ");
    assert ChatInput.CanSubmit("Hi ", false) by {
      assert !Text.IsJsWhitespace("Hi "[0]);
      Text.TrimEmpty("Hi ");
    }
    var sent := box.Submit("2", now);
    assert sent.Some? && box.message == "" && chat.isLoading;
    assert |chat.messages| == n + 1 && chat.messages[n].role == User;

    box.Change("again");
    var refused := box.Submit("3", now);
    assert refused.None? && |chat.messages| == n + 1 && box.message == "again";

    chat.CompleteReply("4", now);
    assert |chat.messages| == n + 2 && !chat.isLoading;
  }

  /** A new chat clears the session and both stored records even when `/delete_session` fails. */
  method NewChatScenario(page: Index.IndexState, chat: ChatInterface.ChatInterfaceState, now: Instant)
    requires chat.page == page && chat.Valid() && page.Mirrored() && page.uploadedFile.Some?
    modifies page, chat
  {
    var requested := chat.NewChat(now);
    assert requested == page.uploadedFile.value.collectionName;
    assert |chat.messages| == 1;
    page.CompleteNewChat(Index.DeleteThrew);
    assert page.CurrentScreen().WelcomeView?;
    assert Index.ChatHistoryKey !in page.storage && Index.ChatDetailsKey !in page.storage;
  }
}
