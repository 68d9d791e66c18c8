# ChatDOCX: a Dafny model of the upload and chat core

ChatDOCX lets a user upload a PDF or DOCX document and then chat about it.
A Flask back end indexes the document in a vector store and answers through an
LLM. A React client keeps the session and the conversation. This project
models both halves of that core and proves, for the model, what the code
promises.

- **Back end** (`backend.dfy`, module `Backend`). The three routes `/upload`,
  `/chat` and `/delete_session` are pure functions. Each maps a request and a
  *world* to a reply (status and JSON body) and to the ordered list of external
  calls the route made (load, split, store, open retriever, retrieve, ask the
  LLM, list or drop a collection). A world is a record of what the outside
  services did: a value, or a raised error. `format_docs` is a recursive join.
  The two message lists sent to the LLM are built by methods, step by step, and
  each method is proved equal to a specification function.
- **Client** (`index_page.dfy`, `chat_interface.dfy`, `chat_input.dfy`,
  `welcome_screen.dfy`, `chat_test.dfy`). There is one class per component, and
  its fields are the component's state. `IndexState` also holds browser storage,
  as a map from key to record. Each event handler is a method. Each async
  handler is split into a *start* step and a *complete(outcome)* step; the
  outcome is ok, non-ok or thrown. A child component holds a reference to the
  parent whose handler is its callback prop: the welcome screen and the chat
  screen point to the page, and the message box points to the chat screen.
- **Shared pieces**: `wrappers.dfy` (`Option`, `Attempt`), `text.dfy`
  (Python `endswith` and `lower`, and JavaScript `trim` with the whitespace set of
  ECMA-262), and `client.dfy` (`Instant`, `FileRef`, `Role`).
- `scenarios.dfy` holds three separate scenarios. `UploadScenario` uploads
  "report.pdf" from a fresh page. `ChatTurnScenario` runs one chat turn on any
  valid chat screen and message box. `NewChatScenario` starts a new chat whose
  back-end call throws. Nothing carries one scenario's state into the next.

The model follows the code as it stands, including where it is unfinished:

- `ChatInterface` simulates the assistant with a timer. It never calls `/chat`.
  Its own comment marks this as a stand-in: "Simulate AI response (replace
  with actual API call)", at front-end/src/components/ChatInterface.tsx:42.
- No component writes `chat-history`, and no component reads it back.
- The page stores `initialChat` and passes `initialChat` and `collectionName`
  to `ChatInterface`, but that component does not declare those props, so they
  have no effect. The model keeps `initialChat` as page state and gives the
  chat screen only `fileName`, `uploadedAt` and `onNewChat`.

## Model

| member | source | states |
|---|---|---|
| Backend.FormatDocs | back-end/main.py:37-39 | the joined text begins with the first page's content and ends with the last page's |
| Backend.FormatDocsSmall | back-end/main.py:37-39 | joining no documents gives ""; joining one gives its page content |
| Backend.FormatDocsAppend | back-end/main.py:37-39 | joining two non-empty lists equals joining each, with one "\n\n" between, so pages keep their order |
| Backend.FormatDocsLength | back-end/main.py:37-39 | the joined text's length is the sum of the page lengths plus two characters per gap |
| Backend.LlmMessages | back-end/main.py:61-70 | the history comes last, unchanged; one extra system message comes first exactly when the prompt is non-empty |
| Backend.BuildLlmMessages | back-end/main.py:61-70 | the append/extend steps build exactly `LlmMessages` |
| Backend.LlmMessagesShape | back-end/main.py:64-70 | a non-empty prompt gives [system] + history; an empty prompt gives the history alone |
| Backend.TextJson | back-end/main.py:79 | the reply's optional `message.content` becomes a JSON string, or null exactly when it is None |
| Backend.InteractWithLlm | back-end/main.py:54-93 | the LLM is asked with `LlmMessages`; success is True exactly when the call returned, and then the response is the reply's content (possibly null) and there is no "error" key; an exception gives success False, error str(e) and response None |
| Backend.Upload | back-end/main.py:113-209 | 400 exactly when the guards reject the request, and then with an error and no outside call; otherwise 200 or 500 |
| Backend.Ingest | back-end/main.py:130-209 | the file is loaded first, with the loader for its extension; 200 exactly when load, split, store and LLM all succeed, otherwise 500 with an error |
| Backend.UploadGuards | back-end/main.py:116-127 | missing `file` gives 400 "No file provided"; then an empty filename gives 400 "No file selected"; then a bad extension gives 400; a rejected request makes no external call, and only a rejected one makes none |
| Backend.UploadLoader | back-end/main.py:142-146 | the PDF loader is used exactly when the lower-cased name ends in ".pdf"; otherwise the DOCX loader is used |
| Backend.UploadAcceptsLowerCaseExtensions | back-end/main.py:125-126 | every name ending in ".pdf" or ".docx" passes the extension check on its lower-cased form |
| Backend.UploadSuccess | back-end/main.py:130-199 | 200 exactly when all guards pass and load, split, store and LLM all succeed; the body is then exactly success True, the reply's content (null when it is None) and the fresh id, and the chunks were stored under that id |
| Backend.UploadLlmFailure | back-end/main.py:192-199 | an LLM failure after storing gives 500 with the LLM's error text, with no "Upload failed" prefix |
| Backend.UploadGreeting | back-end/main.py:183-190 | the greeting request is the system prompt, then one user message holding the prompt and at most the first two chunks |
| Backend.Take | back-end/main.py:186 | `s[:n]` is the first min(n, length of s) elements |
| Backend.ChatMessages | back-end/main.py:279-285 | exactly one system message with the context, followed by the history unchanged |
| Backend.BuildChatMessages | back-end/main.py:279-285 | the list-then-extend steps build exactly `ChatMessages` |
| Backend.Chat | back-end/main.py:212-304 | 400 exactly when the guards reject the request, and then with no outside call; otherwise 200, or 500 with an error |
| Backend.ChatGuards | back-end/main.py:218-230 | empty or missing content, then a missing name, then a last message whose role is not 'user' each give their own 400; nothing is retrieved unless all three pass |
| Backend.ChatRetrievalAndPrompt | back-end/main.py:228-285 | a valid request opens the named collection, retrieves for the last message's content ("" if it has none), and asks the LLM with the system context followed by the history |
| Backend.ChatSuccess | back-end/main.py:235-299 | 200 exactly when the guards pass, a retriever exists, and retrieval and the LLM succeed; the body is then exactly success True, the query (the last message's content), the reply's content (null when it is None) and the number of documents retrieved |
| Backend.CollectionNames | back-end/main.py:325 | one name per listed collection |
| Backend.CollectionNamesMembership | back-end/main.py:325-327 | a name is listed exactly when some collection carries it |
| Backend.DeleteSession | back-end/main.py:307-348 | the status is 200, 400 or 500, and success is True exactly for 200; Qdrant is called, listing first, exactly when a name is given |
| Backend.DeleteSessionOutcome | back-end/main.py:313-348 | no name gives 400 "Collection name is required" and no Qdrant call; a failed listing gives 500; an unlisted name gives 200 "does not exist" whatever a deletion would do, and drops nothing; a listed name is dropped, giving 200 "cleared successfully" or 500 with the deletion's error |
| Text.Lower | back-end/main.py:125 | lower-casing keeps the length and maps each character on its own |
| Text.EndsWithLower | back-end/main.py:125-126 | a name with a given ending keeps the lowered ending after lower-casing |
| Text.LowerChar | back-end/main.py:125 | an ASCII capital maps to its lower-case letter, every other character is unchanged |
| Text.TrimStart | front-end/src/components/ChatInput.tsx:16-17 | the result is a suffix of the input; everything dropped is whitespace; the result does not start with whitespace |
| Text.TrimEnd | front-end/src/components/ChatInput.tsx:16-17 | the result is a prefix of the input; everything dropped is whitespace; the result does not end with whitespace |
| Text.Leading | front-end/src/components/ChatInput.tsx:16-17 | the count of leading characters trimmed: all of them are whitespace and the rest is what TrimStart keeps |
| Text.Trim | front-end/src/components/ChatInput.tsx:16-17 | the result is no longer than the input and neither starts nor ends with whitespace |
| Text.TrimSlice | front-end/src/components/ChatInput.tsx:16-17 | the trimmed text is the contiguous slice of the input that follows its leading whitespace |
| Text.TrimCutsWhitespace | front-end/src/components/ChatInput.tsx:16-17 | everything trim removes, before and after the kept slice, is whitespace |
| Text.TrimEmpty | front-end/src/components/ChatTest.tsx:10 | a string trims to "" exactly when it is all whitespace |
| Text.TrimIdempotent | front-end/src/components/ChatInput.tsx:17 | trimming again changes nothing |
| Index.SessionFor | front-end/src/pages/Index.tsx:62-67 | the session takes the file's name and the response's `collection_name`, or undefined when the body was not JSON |
| Index.IndexState.constructor | front-end/src/pages/Index.tsx:15-17 | no session, not uploading, the placeholder `initialChat`, storage as the browser holds it |
| Index.IndexState.Mount | front-end/src/pages/Index.tsx:20-27 | the session is restored from 'chat-details' when that record is there; otherwise it stays as it was |
| Index.IndexState.StartUpload | front-end/src/pages/Index.tsx:29-31 | 'chat-history' is removed and `isUploading` is set before the request goes out |
| Index.IndexState.CompleteUpload | front-end/src/pages/Index.tsx:43-81 | ok: `initialChat` is a bot message with `data.message`, and the session is set and written to 'chat-details'; non-ok or thrown: nothing changes; `isUploading` ends false in every case |
| Index.IndexState.StartNewChat | front-end/src/pages/Index.tsx:88-94 | the request carries the session's collection name, or undefined without a session |
| Index.IndexState.CompleteNewChat | front-end/src/pages/Index.tsx:84-109 | whatever `/delete_session` did, both storage keys are removed and the session becomes null |
| Index.IndexState.CurrentScreen | front-end/src/pages/Index.tsx:117-129 | the welcome screen exactly when there is no session; otherwise the chat screen for the session's file |
| ChatInterface.WelcomeNamesFile | front-end/src/components/ChatInterface.tsx:20-27 | the greeting contains the file name right after its opening words |
| ChatInterface.ChatInterfaceState.constructor | front-end/src/components/ChatInterface.tsx:20-28 | the list is exactly one assistant message with id "welcome" naming the file; not loading |
| ChatInterface.ChatInterfaceState.SendMessage | front-end/src/components/ChatInterface.tsx:30-40 | one user message with the given content is appended at the end; loading begins |
| ChatInterface.ChatInterfaceState.CompleteReply | front-end/src/components/ChatInterface.tsx:43-52 | one assistant message with the simulated text is appended at the end; loading ends |
| ChatInterface.ChatInterfaceState.NewChat | front-end/src/components/ChatInterface.tsx:55-65 | the list is reset to the greeting; then `onNewChat` sends the session's collection name |
| ChatInterface.ChatInterfaceState.Rendered | front-end/src/components/ChatInterface.tsx:77-94 | the rendered list is the messages plus the "Thinking..." bubble exactly while loading, and the bubble is never part of `messages` |
| ChatInput.ChatInputState.constructor | front-end/src/components/ChatInput.tsx:12 | the draft starts empty |
| ChatInput.ChatInputState.Change | front-end/src/components/ChatInput.tsx:35 | the draft becomes the typed value |
| ChatInput.ChatInputState.Submit | front-end/src/components/ChatInput.tsx:14-20 | it sends `trim(draft)` exactly when that is non-empty and no reply is pending, then clears the draft; otherwise nothing is sent and nothing changes |
| ChatInput.ChatInputState.KeyDown | front-end/src/components/ChatInput.tsx:22-27 | Enter without Shift submits exactly as `Submit`; any other key, Shift+Enter included, leaves everything unchanged, and so does a refused submit |
| ChatInput.ChatInputState.SendDisabled | front-end/src/components/ChatInput.tsx:43 | the send button is disabled exactly when the submit guard refuses |
| ChatInput.ChatInputState.TextareaDisabled | front-end/src/components/ChatInput.tsx:39 | the textarea is disabled exactly while loading |
| ChatInput.BlankDraftRefused | front-end/src/components/ChatInput.tsx:16 | an all-whitespace draft is never sent |
| ChatInput.SentTextIsTrimmed | front-end/src/components/ChatInput.tsx:17 | the text sent has no whitespace at either end |
| WelcomeScreen.DropDecision | front-end/src/components/WelcomeScreen.tsx:14-33 | ignored while uploading; otherwise only the first file counts, and it is forwarded exactly when its MIME type is PDF or DOCX, else "Invalid file type" |
| WelcomeScreen.SelectDecision | front-end/src/components/WelcomeScreen.tsx:35-42 | the first picked file is forwarded unless an upload is running or nothing was picked; no MIME check |
| WelcomeScreen.PickerSkipsMimeCheck | front-end/src/components/WelcomeScreen.tsx:23-42 | a file whose drop would be refused is still forwarded when picked |
| WelcomeScreen.WelcomeScreenState.constructor | front-end/src/components/WelcomeScreen.tsx:11 | not dragging at first |
| WelcomeScreen.WelcomeScreenState.DragOver | front-end/src/components/WelcomeScreen.tsx:69-74 | dragging is set only when no upload is running |
| WelcomeScreen.WelcomeScreenState.DragLeave | front-end/src/components/WelcomeScreen.tsx:75 | dragging is cleared |
| WelcomeScreen.WelcomeScreenState.Drop | front-end/src/components/WelcomeScreen.tsx:14-32 | dragging is cleared in every case; the page's upload starts exactly for a forwarded file; otherwise the page is unchanged |
| WelcomeScreen.WelcomeScreenState.FileSelect | front-end/src/components/WelcomeScreen.tsx:35-42 | the page's upload starts exactly for a forwarded file; otherwise the page is unchanged |
| ChatTest.PairedAppend | front-end/src/components/ChatTest.tsx:21-27 | appending one exchange keeps the list as alternating user/assistant pairs |
| ChatTest.ChatTestState.constructor | front-end/src/components/ChatTest.tsx:5-7 | empty list, empty input, not loading |
| ChatTest.ChatTestState.Change | front-end/src/components/ChatTest.tsx:71 | the input becomes the typed value |
| ChatTest.ChatTestState.StartSend | front-end/src/components/ChatTest.tsx:9-19 | a blank input does nothing; otherwise loading starts and the request carries the current list and the raw, untrimmed input |
| ChatTest.ChatTestState.KeyPress | front-end/src/components/ChatTest.tsx:72 | Enter starts a send and other keys do nothing |
| ChatTest.ChatTestState.CompleteSend | front-end/src/components/ChatTest.tsx:21-35 | success with a non-empty response appends exactly [user input, assistant response] and clears the input; anything else changes neither; loading ends in every case |
| ChatTest.ChatTestState.ClearChat | front-end/src/components/ChatTest.tsx:38-40 | the list becomes empty |
| ChatTest.ChatTestState.SendDisabled | front-end/src/components/ChatTest.tsx:79 | the button is disabled exactly while loading or while the input is all whitespace |

## Left out

- The LangChain loaders, the text splitter, the Gemini embeddings, Qdrant and
  the OpenAI client are foreign libraries. Their results are fields of the world
  records (`UploadWorld`, `ChatWorld`, `DeleteWorld`), and the calls to them
  show up only in the call list.
- The two long system prompts of `main.py` are not reproduced. Each route takes
  its prompt text as a world field. The lemmas hold for any wording.
- `uuid.uuid4()` is the world field `freshId`. The model does not say it is
  unique.
- The temporary file, its save and unlink, and the Flask/CORS request
  plumbing are file and HTTP I/O. A failure there is not modelled.
- Request bodies: a body that is not a JSON object is not modelled, and neither
  are history entries with non-string values. A history entry is a
  string-to-string map.
- Text.Lower, Text.LowerChar: lower-case ASCII letters only. Python's `str.lower` also
  lower-cases other scripts, which cannot change a ".pdf" or ".docx" ending.
- `fetch`, `FormData`, the base-URL setting and `utils/api.ts` (the
  `chatWithHistory` client) are network clients. Each request is modelled only
  by its outcome (ok, non-ok or thrown, with the parsed body where the code
  reads it).
- JSON serialisation in `localStorage` is not modelled. A record is the value
  that was written.
- Index.IndexState.Mount: for a 'chat-details' value that is not a session
  record (`OtherRecord`), the page runs `JSON.parse` on any non-empty string.
  It throws inside the effect when the text is not JSON, and installs any other
  JSON value as the session. The model keeps `uploadedFile` unchanged there
  instead. That matches the code only for the empty string. The page itself
  only ever writes session records under that key.
- `setTimeout` timing: the delayed reply is the separate step `CompleteReply`.
  Nothing is claimed about real time, or about several pending timers.
- `Date.now()` ids and `new Date()` timestamps are parameters. One instant
  stands for both `new Date()` calls of an ok upload.
- Rendering, styles, animation, toasts, `console` logging, `MessageBubble.tsx`
  and `ChatHeader.tsx` are presentation. The only rendering facts kept are which
  screen is shown, the "Thinking..." bubble, and which controls are disabled.
- Overlapping async handlers are not modelled, for example a new chat while a
  reply or an upload is pending. The code does not define what happens then.
