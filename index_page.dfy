/**
 * The page component (front-end/src/pages/Index.tsx): the session state,
 * its mirror in browser storage, the upload and new-chat handlers, and the
 * choice between the welcome screen and the chat screen.
 */
module Index {
  import opened Wrappers
  import opened Client

  /** The session record: `UploadedFile`. */
  datatype UploadedFile = UploadedFile(name: string, uploadedAt: Instant, file: FileRef, collectionName: Option<string>)

  datatype Sender = UserSender | BotSender

  /** The `ChatMessage` kept in `initialChat`; its text is `data?.message`, which may be undefined. */
  datatype ChatMessage = ChatMessage(id: string, text: Option<string>, sender: Sender, timestamp: Instant)

  /**
   * A value kept in browser storage. The JSON encoding is not modelled: a
   * record is the value that was written, or something written by other code.
   */
  datatype Record = SessionRecord(session: UploadedFile) | OtherRecord(raw: string)

  const ChatHistoryKey := "chat-history"
  const ChatDetailsKey := "chat-details"

  /** The parsed body of an ok `/upload` response, or `None` when it was not JSON. */
  datatype UploadData = UploadData(message: Option<string>, collectionName: Option<string>)

  /** How the `/upload` request ended. */
  datatype UploadOutcome = UploadOk(data: Option<UploadData>) | UploadNotOk | UploadThrew

  /** How the `/delete_session` request ended. */
  datatype DeleteOutcome = DeleteOk | DeleteNotOk | DeleteThrew

  /** What the page renders. */
  datatype Screen = WelcomeView(isUploading: bool) | ChatView(fileName: string, uploadedAt: Instant)

  function MessageOf(data: Option<UploadData>): Option<string> {
    if data.Some? then data.value.message else None
  }

  function CollectionOf(data: Option<UploadData>): Option<string> {
    if data.Some? then data.value.collectionName else None
  }

  /** The session an ok upload of `file` creates. */
  function SessionFor(file: FileRef, data: Option<UploadData>, now: Instant): (s: UploadedFile)
    ensures s.name == file.name && s.file == file
    ensures data.Some? ==> s.collectionName == data.value.collectionName
    ensures data.None? ==> s.collectionName.None?
  {
    UploadedFile(file.name, now, file, CollectionOf(data))
  }

  class IndexState {
    var uploadedFile: Option<UploadedFile>
    var initialChat: ChatMessage
    var isUploading: bool
    /** `localStorage`. */
    var storage: map<string, Record>

    /** An active session is the one recorded under 'chat-details'. */
    ghost predicate Mirrored()
      reads this
    {
      uploadedFile.Some? ==> ChatDetailsKey in storage && storage[ChatDetailsKey] == SessionRecord(uploadedFile.value)
    }

    /** The first render, over whatever the browser already stores. */
    constructor (stored: map<string, Record>, now: Instant)
      ensures uploadedFile == None && !isUploading && storage == stored
      ensures initialChat == ChatMessage("", Some(""), UserSender, now)
      ensures Mirrored()
    {
      uploadedFile := None;
      initialChat := ChatMessage("", Some(""), UserSender, now);
      isUploading := false;
      storage := stored;
    }

    /** The mount effect: restore the session from 'chat-details' when it is there. */
    method Mount()
      requires Mirrored()
      modifies this`uploadedFile
      ensures Mirrored()
      ensures ChatDetailsKey in storage && storage[ChatDetailsKey].SessionRecord? ==>
        uploadedFile == Some(storage[ChatDetailsKey].session)
      ensures !(ChatDetailsKey in storage && storage[ChatDetailsKey].SessionRecord?) ==>
        uploadedFile == old(uploadedFile)
    {
      if ChatDetailsKey in storage {
        match storage[ChatDetailsKey]
        case SessionRecord(s) => uploadedFile := Some(s);
        case OtherRecord(_) =>
      }
    }

    /** `handleFileUpload` up to sending the request. */
    method StartUpload(file: FileRef)
      requires Mirrored()
      modifies this`storage, this`isUploading
      ensures Mirrored()
      ensures storage == old(storage) - {ChatHistoryKey} && isUploading
    {
      storage := storage - {ChatHistoryKey};
      isUploading := true;
    }

    /** `handleFileUpload` once the request for `file` has ended. */
    method CompleteUpload(file: FileRef, outcome: UploadOutcome, id: string, now: Instant)
      requires Mirrored()
      modifies this`uploadedFile, this`initialChat, this`storage, this`isUploading
      ensures Mirrored() && !isUploading
      ensures outcome.UploadOk? ==>
        && initialChat == ChatMessage(id, MessageOf(outcome.data), BotSender, now)
        && uploadedFile == Some(SessionFor(file, outcome.data, now))
        && storage == old(storage)[ChatDetailsKey := SessionRecord(SessionFor(file, outcome.data, now))]
      ensures !outcome.UploadOk? ==>
        && initialChat == old(initialChat) && uploadedFile == old(uploadedFile) && storage == old(storage)
    {
      if outcome.UploadOk? {
        initialChat := ChatMessage(id, MessageOf(outcome.data), BotSender, now);
        var session := SessionFor(file, outcome.data, now);
        uploadedFile := Some(session);
        storage := storage[ChatDetailsKey := SessionRecord(session)];
      }
      isUploading := false;
    }

    /** `handleNewChat` up to sending the request: the `collection_name` it sends. */
    method StartNewChat() returns (collectionName: Option<string>)
      ensures uploadedFile.None? ==> collectionName.None?
      ensures uploadedFile.Some? ==> collectionName == uploadedFile.value.collectionName
    {
      collectionName := if uploadedFile.Some? then uploadedFile.value.collectionName else None;
    }

    /** `handleNewChat` once `/delete_session` answered or failed: the reset happens whatever the outcome. */
    method CompleteNewChat(outcome: DeleteOutcome)
      requires Mirrored()
      modifies this`storage, this`uploadedFile
      ensures Mirrored()
      ensures storage == old(storage) - {ChatHistoryKey, ChatDetailsKey}
      ensures ChatHistoryKey !in storage && ChatDetailsKey !in storage
      ensures uploadedFile == None
    {
      storage := storage - {ChatHistoryKey};
      storage := storage - {ChatDetailsKey};
      uploadedFile := None;
    }

    /** The welcome screen while there is no session, the chat screen for the session otherwise. */
    function CurrentScreen(): (s: Screen)
      reads this
      ensures s.WelcomeView? <==> uploadedFile.None?
      ensures s.WelcomeView? ==> s.isUploading == isUploading
      ensures s.ChatView? ==> s.fileName == uploadedFile.value.name && s.uploadedAt == uploadedFile.value.uploadedAt
    {
      if uploadedFile.None? then WelcomeView(isUploading)
      else ChatView(uploadedFile.value.name, uploadedFile.value.uploadedAt)
    }
  }
}
