/**
 * The Flask back end (back-end/main.py): request validation, the message
 * lists sent to the LLM, and the replies of `/upload`, `/chat` and
 * `/delete_session`. The document loaders, the text splitter, the vector
 * store and the LLM are outside the model: each route takes their outcomes
 * as a "world" value, and reports, besides its reply, the external calls it
 * made in order.
 */
module Backend {
  import opened Wrappers
  import opened Text

  /** A LangChain document; only its `page_content` is used. */
  datatype Doc = Doc(pageContent: string)

  /** One JSON object of a message list, such as {"role": "user", "content": "..."} (string values only). */
  datatype Entry = Entry(fields: map<string, string>)

  /** A JSON value of a reply body. */
  datatype Json = JStr(s: string) | JBool(b: bool) | JInt(i: int) | JNull

  type Object = map<string, Json>

  /** What `jsonify(body), status` sends back. */
  datatype Reply = Reply(status: int, body: Object)

  datatype Loader = PyPdfLoader | Docx2txtLoader

  /** The calls a route makes outside the model, in the order it makes them. */
  datatype Call =
    | LoadFile(loader: Loader)
    | SplitDocs(docs: seq<Doc>)
    | StoreChunks(collection: string, chunks: seq<Doc>)
    | AskLlm(messages: seq<Entry>)
    | OpenRetriever(collection: string)
    | RetrieveFor(query: string)
    | ListCollections
    | DropCollection(name: string)

  /** A route's reply together with the external calls it made. */
  datatype Handled = Handled(reply: Reply, calls: seq<Call>)

  function RoleContent(role: string, content: string): Entry {
    Entry(map["role" := role, "content" := content])
  }

  /** `d.get(key)`. */
  function Get(e: Entry, key: string): Option<string> {
    if key in e.fields then Some(e.fields[key]) else None
  }

  function ErrorReply(status: int, message: string): Reply {
    Reply(status, map["error" := JStr(message)])
  }

  /** Python truthiness of an optional string: present and non-empty. */
  predicate Truthy(s: Option<string>) {
    s.Some? && s.value != ""
  }

  // ---------------------------------------------------------------- format_docs

  /** `"\n\n".join(doc.page_content for doc in docs)`: it begins with the first page and ends with the last. */
  function FormatDocs(docs: seq<Doc>): (r: string)
    ensures docs != [] ==> |docs[0].pageContent| <= |r| && r[..|docs[0].pageContent|] == docs[0].pageContent
    ensures docs != [] ==>
      var last := docs[|docs| - 1].pageContent;
      |last| <= |r| && r[|r| - |last|..] == last
  {
    if docs == [] then ""
    else if |docs| == 1 then docs[0].pageContent
    else
      var rest := FormatDocs(docs[1..]);
      var r := docs[0].pageContent + "\n\n" + rest;
      assert docs[1..][|docs[1..]| - 1] == docs[|docs| - 1];
      assert r[|r| - |rest|..] == rest;
      r
  }

  function TotalLength(docs: seq<Doc>): nat {
    if docs == [] then 0 else |docs[0].pageContent| + TotalLength(docs[1..])
  }

  /** No documents give the empty string, one document gives its own text. */
  lemma FormatDocsSmall(docs: seq<Doc>)
    ensures docs == [] ==> FormatDocs(docs) == ""
    ensures |docs| == 1 ==> FormatDocs(docs) == docs[0].pageContent
  {
  }

  /** Joining two non-empty lists is joining each and putting one separator between. */
  lemma {:induction false} FormatDocsAppend(a: seq<Doc>, b: seq<Doc>)
    requires a != [] && b != []
    ensures FormatDocs(a + b) == FormatDocs(a) + "\n\n" + FormatDocs(b)
  {
    var sep := "\n\n";
    var ab := a + b;
    assert ab[0] == a[0];
    if |a| == 1 {
      assert ab[1..] == b;
      assert FormatDocs(ab) == a[0].pageContent + sep + FormatDocs(b);
    } else {
      assert ab[1..] == a[1..] + b;
      FormatDocsAppend(a[1..], b);
      var x, y, z := a[0].pageContent, FormatDocs(a[1..]), FormatDocs(b);
      calc {
        FormatDocs(ab);
        x + sep + FormatDocs(a[1..] + b);
        x + sep + (y + sep + z);
        { assert x + sep + (y + sep + z) == (x + sep + y) + sep + z; }
        (x + sep + y) + sep + z;
        FormatDocs(a) + sep + z;
      }
    }
  }

  /** The joined text holds every page and one two-character separator per gap. */
  lemma {:induction false} FormatDocsLength(docs: seq<Doc>)
    requires docs != []
    ensures |FormatDocs(docs)| == TotalLength(docs) + 2 * (|docs| - 1)
  {
    if |docs| > 1 {
      FormatDocsLength(docs[1..]);
    } else {
      assert docs[1..] == [];
    }
  }

  /** `docs[:n]` in Python: at most the first n elements. */
  function Take<T>(s: seq<T>, n: nat): (r: seq<T>)
    ensures |r| == if |s| < n then |s| else n
    ensures r == s[..|r|]
  {
    if |s| <= n then s else s[..n]
  }

  // ---------------------------------------------------------------- interactWithLLM

  /** The list `interactWithLLM` sends: a system message when the prompt is truthy, then the history. */
  function LlmMessages(systemPrompt: string, history: seq<Entry>): (m: seq<Entry>)
    ensures |m| == |history| + (if systemPrompt != "" then 1 else 0)
    ensures m[|m| - |history|..] == history
    ensures systemPrompt != "" ==> m[0] == RoleContent("system", systemPrompt)
  {
    (if systemPrompt != "" then [RoleContent("system", systemPrompt)] else []) + history
  }

  /** The list building of `interactWithLLM`, step by step. */
  method BuildLlmMessages(systemPrompt: string, history: seq<Entry>) returns (messages: seq<Entry>)
    ensures messages == LlmMessages(systemPrompt, history)
  {
    messages := [];
    if systemPrompt != "" {
      messages := messages + [RoleContent("system", systemPrompt)];
    }
    if history != [] {
      messages := messages + history;
    }
  }

  /** The JSON of `message.content`, which the client library types as optional: a string or null. */
  function TextJson(content: Option<string>): (j: Json)
    ensures content.None? <==> j == JNull
    ensures content.Some? ==> j == JStr(content.value)
  {
    if content.Some? then JStr(content.value) else JNull
  }

  /** The dictionary `interactWithLLM` returns, given what the LLM call did. */
  function LlmResult(llm: Attempt<Option<string>>): Object {
    match llm
    case Done(content) => map["success" := JBool(true), "response" := TextJson(content)]
    case Raised(e) => map["success" := JBool(false), "error" := JStr(e), "response" := JNull]
  }

  /**
   * `interactWithLLM`: it asks the LLM with `LlmMessages`, and reports
   * success with the reply's content, or failure with the error and no
   * response.
   */
  function InteractWithLlm(systemPrompt: string, history: seq<Entry>, llm: Attempt<Option<string>>): (out: (Object, Call))
    ensures out.1 == AskLlm(LlmMessages(systemPrompt, history))
    ensures "success" in out.0 && "response" in out.0
    ensures out.0["success"] == JBool(llm.Done?)
    ensures llm.Done? ==> out.0["response"] == TextJson(llm.value) && "error" !in out.0
    ensures llm.Raised? ==> out.0["response"] == JNull && "error" in out.0 && out.0["error"] == JStr(llm.message)
  {
    (LlmResult(llm), AskLlm(LlmMessages(systemPrompt, history)))
  }

  /** A system message is sent first exactly when the prompt is truthy; the history follows unchanged. */
  lemma LlmMessagesShape(systemPrompt: string, history: seq<Entry>)
    ensures var m := LlmMessages(systemPrompt, history);
      && (systemPrompt != "" <==> |m| == |history| + 1)
      && (systemPrompt == "" ==> m == history)
      && (systemPrompt != "" ==> m == [RoleContent("system", systemPrompt)] + history)
  {
  }

  // ---------------------------------------------------------------- /upload

  datatype FilePart = FilePart(filename: string)

  /** The multipart form of the request: `request.files`. */
  datatype UploadRequest = UploadRequest(files: map<string, FilePart>)

  /**
   * What the code outside the model does during an upload: the fresh
   * `uuid4` string, the system prompt, and the outcomes of loading, splitting,
   * storing and asking the LLM.
   */
  datatype UploadWorld = UploadWorld(
    freshId: string,
    prompt: string,
    loaded: Attempt<seq<Doc>>,
    chunks: Attempt<seq<Doc>>,
    stored: Attempt<()>,
    llm: Attempt<Option<string>>)

  /** The extension check on the lower-cased name. */
  predicate Supported(lowered: string) {
    EndsWith(lowered, ".pdf") || EndsWith(lowered, ".docx")
  }

  function LoaderFor(lowered: string): Loader {
    if EndsWith(lowered, ".pdf") then PyPdfLoader else Docx2txtLoader
  }

  /** The request passes the three guards of `/upload`. */
  predicate UploadAccepted(req: UploadRequest) {
    "file" in req.files && req.files["file"].filename != "" && Supported(Lower(req.files["file"].filename))
  }

  function UploadFailed(e: string): Reply {
    ErrorReply(500, "Upload failed: " + e)
  }

  /** The user message of the greeting request: the prompt and the first two chunks. */
  function GreetingHistory(prompt: string, chunks: seq<Doc>): seq<Entry> {
    [RoleContent("user", prompt + "\n\nContext: " + FormatDocs(Take(chunks, 2)))]
  }

  /**
   * `upload_document`: 400 exactly for a request the guards reject, and
   * then without any outside call; otherwise 200 or 500.
   */
  function Upload(req: UploadRequest, w: UploadWorld): (h: Handled)
    ensures h.reply.status == 400 <==> !UploadAccepted(req)
    ensures h.reply.status == 400 ==> h.calls == [] && "error" in h.reply.body
    ensures h.reply.status in {200, 400, 500}
  {
    if "file" !in req.files then
      Handled(ErrorReply(400, "No file provided"), [])
    else if req.files["file"].filename == "" then
      Handled(ErrorReply(400, "No file selected"), [])
    else
      var filename := Lower(req.files["file"].filename);
      if !Supported(filename) then
        Handled(ErrorReply(400, "Only PDF and DOCX files are supported"), [])
      else
        Ingest(filename, w)
  }

  /**
   * The part of `upload_document` after validation: the file is always
   * loaded first, with the loader for its extension, and the reply is 200
   * exactly when every outside call succeeded, 500 otherwise.
   */
  function Ingest(filename: string, w: UploadWorld): (h: Handled)
    ensures h.calls != [] && h.calls[0] == LoadFile(LoaderFor(filename))
    ensures h.reply.status == 200 <==> w.loaded.Done? && w.chunks.Done? && w.stored.Done? && w.llm.Done?
    ensures h.reply.status != 200 ==> h.reply.status == 500 && "error" in h.reply.body
  {
    var load := [LoadFile(LoaderFor(filename))];
    match w.loaded
    case Raised(e) => Handled(UploadFailed(e), load)
    case Done(docs) =>
      var split := load + [SplitDocs(docs)];
      match w.chunks
      case Raised(e) => Handled(UploadFailed(e), split)
      case Done(chunks) =>
        var store := split + [StoreChunks(w.freshId, chunks)];
        match w.stored
        case Raised(e) => Handled(UploadFailed(e), store)
        case Done(_) =>
          var (result, ask) := InteractWithLlm(w.prompt, GreetingHistory(w.prompt, chunks), w.llm);
          if result["success"] == JBool(true) then
            Handled(Reply(200, map["success" := JBool(true), "message" := result["response"],
                                   "collection_name" := JStr(w.freshId)]),
                    store + [ask])
          else
            Handled(Reply(500, map["error" := result["error"]]), store + [ask])
  }

  /** The guards run in order and reject before anything is loaded. */
  lemma UploadGuards(req: UploadRequest, w: UploadWorld)
    ensures "file" !in req.files ==>
      Upload(req, w) == Handled(ErrorReply(400, "No file provided"), [])
    ensures "file" in req.files && req.files["file"].filename == "" ==>
      Upload(req, w) == Handled(ErrorReply(400, "No file selected"), [])
    ensures ("file" in req.files && req.files["file"].filename != ""
             && !Supported(Lower(req.files["file"].filename))) ==>
      Upload(req, w) == Handled(ErrorReply(400, "Only PDF and DOCX files are supported"), [])
    ensures Upload(req, w).calls == [] <==> !UploadAccepted(req)
  {
  }

  /** The PDF loader is used exactly for names ending in ".pdf" in any case; otherwise the DOCX loader. */
  lemma UploadLoader(req: UploadRequest, w: UploadWorld)
    requires UploadAccepted(req)
    ensures var name := Lower(req.files["file"].filename);
      Upload(req, w).calls[0] == LoadFile(if EndsWith(name, ".pdf") then PyPdfLoader else Docx2txtLoader)
  {
  }

  /** A lower-case ".pdf" or ".docx" name is accepted whatever comes before it. */
  lemma UploadAcceptsLowerCaseExtensions(name: string)
    requires EndsWith(name, ".pdf") || EndsWith(name, ".docx")
    ensures Supported(Lower(name))
  {
    LowerFixed(".pdf");
    LowerFixed(".docx");
    if EndsWith(name, ".pdf") { EndsWithLower(name, ".pdf"); } else { EndsWithLower(name, ".docx"); }
  }

  /**
   * Upload answers 200 exactly when the request is valid and every outside
   * call succeeded; the `collection_name` it returns is the fresh id under
   * which the chunks were stored.
   */
  lemma UploadSuccess(req: UploadRequest, w: UploadWorld)
    ensures var h := Upload(req, w);
      h.reply.status == 200 <==>
        UploadAccepted(req) && w.loaded.Done? && w.chunks.Done? && w.stored.Done? && w.llm.Done?
    ensures var h := Upload(req, w);
      h.reply.status == 200 ==>
        && h.reply.body == map["success" := JBool(true), "message" := TextJson(w.llm.value),
                                "collection_name" := JStr(w.freshId)]
        && StoreChunks(w.freshId, w.chunks.value) in h.calls
  {
  }

  /** An LLM failure after storing turns into 500 with the LLM's error text and no prefix. */
  lemma UploadLlmFailure(req: UploadRequest, w: UploadWorld)
    requires UploadAccepted(req) && w.loaded.Done? && w.chunks.Done? && w.stored.Done? && w.llm.Raised?
    ensures Upload(req, w).reply == ErrorReply(500, w.llm.message)
  {
  }

  /** The greeting request holds the prompt as system message and one user message with at most two chunks. */
  lemma UploadGreeting(req: UploadRequest, w: UploadWorld)
    requires UploadAccepted(req) && w.loaded.Done? && w.chunks.Done? && w.stored.Done?
    requires w.prompt != ""
    ensures var h := Upload(req, w);
      && |h.calls| == 4
      && h.calls[3] == AskLlm([RoleContent("system", w.prompt),
                               RoleContent("user", w.prompt + "\n\nContext: " + FormatDocs(Take(w.chunks.value, 2)))])
  {
  }

  // ---------------------------------------------------------------- /chat

  /** The JSON body of `/chat`; `None` stands for a missing or null field. */
  datatype ChatBody = ChatBody(content: Option<seq<Entry>>, collectionName: Option<string>)

  /**
   * What the code outside the model does during a chat: the system prompt,
   * whether `create_retriever` returned a retriever, the documents it
   * retrieved, and the LLM call.
   */
  datatype ChatWorld = ChatWorld(
    prompt: string,
    retrieverAvailable: bool,
    retrieved: Attempt<seq<Doc>>,
    llm: Attempt<Option<string>>)

  /** The request passes the three guards of `/chat`. */
  predicate ChatAccepted(body: ChatBody) {
    var history := body.content.GetOr([]);
    && history != []
    && Truthy(body.collectionName)
    && history[|history| - 1].fields != map[]
    && Get(history[|history| - 1], "role") == Some("user")
  }

  /** The list `chat` sends: one system message with the context, then the history. */
  function ChatMessages(systemContent: string, history: seq<Entry>): (m: seq<Entry>)
    ensures |m| == |history| + 1
    ensures m[0] == RoleContent("system", systemContent) && m[1..] == history
  {
    [RoleContent("system", systemContent)] + history
  }

  /** The list building of `chat`, step by step. */
  method BuildChatMessages(systemContent: string, history: seq<Entry>) returns (messages: seq<Entry>)
    ensures messages == ChatMessages(systemContent, history)
  {
    messages := [RoleContent("system", systemContent)];
    messages := messages + history;
  }

  /**
   * `chat`: 400 exactly for a request the guards reject, and then without
   * any outside call; otherwise 200 or 500 with an error.
   */
  function Chat(body: ChatBody, w: ChatWorld): (h: Handled)
    ensures h.reply.status == 400 <==> !ChatAccepted(body)
    ensures h.reply.status == 400 ==> h.calls == []
    ensures h.reply.status in {200, 400, 500}
    ensures h.reply.status != 200 ==> "error" in h.reply.body
  {
    var history := body.content.GetOr([]);
    if history == [] then
      Handled(ErrorReply(400, "No conversation history provided"), [])
    else if !Truthy(body.collectionName) then
      Handled(ErrorReply(400, "Collection name is required"), [])
    else
      var latest := history[|history| - 1];
      if latest.fields == map[] || Get(latest, "role") != Some("user") then
        Handled(ErrorReply(400, "No user message found"), [])
      else
        var query := Get(latest, "content").GetOr("");
        var open := [OpenRetriever(body.collectionName.value)];
        if !w.retrieverAvailable then
          Handled(ErrorReply(500, "Vector store not available. Please upload documents first."), open)
        else
          var retrieve := open + [RetrieveFor(query)];
          match w.retrieved
          case Raised(e) => Handled(ErrorReply(500, "Chat failed: " + e), retrieve)
          case Done(docs) =>
            var ask := retrieve + [AskLlm(ChatMessages(w.prompt + "\n\nContext: " + FormatDocs(docs), history))];
            match w.llm
            case Raised(e) => Handled(ErrorReply(500, "Chat failed: " + e), ask)
            case Done(content) =>
              Handled(Reply(200, map["success" := JBool(true), "query" := JStr(query),
                                     "response" := TextJson(content), "sources_count" := JInt(|docs|)]),
                      ask)
  }

  /** The guards run in order, each with its own error, and nothing is retrieved unless all pass. */
  lemma ChatGuards(body: ChatBody, w: ChatWorld)
    ensures body.content.GetOr([]) == [] ==>
      Chat(body, w) == Handled(ErrorReply(400, "No conversation history provided"), [])
    ensures body.content.GetOr([]) != [] && !Truthy(body.collectionName) ==>
      Chat(body, w) == Handled(ErrorReply(400, "Collection name is required"), [])
    ensures body.content.GetOr([]) != [] && Truthy(body.collectionName) && !ChatAccepted(body) ==>
      Chat(body, w) == Handled(ErrorReply(400, "No user message found"), [])
    ensures Chat(body, w).calls == [] <==> !ChatAccepted(body)
  {
  }

  /**
   * A valid request opens the named collection, retrieves for the content of
   * the last message, and asks the LLM with one system message holding the
   * formatted context followed by the whole history.
   */
  lemma ChatRetrievalAndPrompt(body: ChatBody, w: ChatWorld)
    requires ChatAccepted(body) && w.retrieverAvailable && w.retrieved.Done?
    ensures var history := body.content.value;
      var latest := history[|history| - 1];
      var h := Chat(body, w);
      && |h.calls| == 3
      && h.calls[0] == OpenRetriever(body.collectionName.value)
      && h.calls[1] == RetrieveFor(Get(latest, "content").GetOr(""))
      && h.calls[2].AskLlm?
      && h.calls[2].messages[0] == RoleContent("system", w.prompt + "\n\nContext: " + FormatDocs(w.retrieved.value))
      && h.calls[2].messages[1..] == history
  {
  }

  /**
   * Chat answers 200 exactly when all guards pass and every outside call
   * succeeded; the body then echoes the query and carries the reply's
   * content and the number of documents retrieved.
   */
  lemma ChatSuccess(body: ChatBody, w: ChatWorld)
    ensures var h := Chat(body, w);
      h.reply.status == 200 <==> ChatAccepted(body) && w.retrieverAvailable && w.retrieved.Done? && w.llm.Done?
    ensures var h := Chat(body, w);
      h.reply.status == 200 ==>
        var history := body.content.value;
        h.reply.body == map["success" := JBool(true),
                            "query" := JStr(Get(history[|history| - 1], "content").GetOr("")),
                            "response" := TextJson(w.llm.value),
                            "sources_count" := JInt(|w.retrieved.value|)]
  {
  }

  // ---------------------------------------------------------------- /delete_session

  datatype DeleteBody = DeleteBody(collectionName: Option<string>)

  datatype Collection = Collection(name: string)

  /** What Qdrant does: the collections it lists, and the outcome of deleting one. */
  datatype DeleteWorld = DeleteWorld(listed: Attempt<seq<Collection>>, deleted: Attempt<()>)

  /** `[col.name for col in collections]`. */
  function CollectionNames(cols: seq<Collection>): (names: seq<string>)
    ensures |names| == |cols|
  {
    seq(|cols|, i requires 0 <= i < |cols| => cols[i].name)
  }

  /** A name is listed exactly when some collection carries it. */
  lemma CollectionNamesMembership(cols: seq<Collection>, name: string)
    ensures name in CollectionNames(cols) <==> exists i :: 0 <= i < |cols| && cols[i].name == name
  {
    var names := CollectionNames(cols);
    if name in names {
      var i :| 0 <= i < |names| && names[i] == name;
      assert cols[i].name == name;
    }
    if exists i :: 0 <= i < |cols| && cols[i].name == name {
      var i :| 0 <= i < |cols| && cols[i].name == name;
      assert names[i] == name;
    }
  }

  function ClearFailed(e: string): Reply {
    Reply(500, map["success" := JBool(false), "error" := JStr("Failed to clear collection: " + e)])
  }

  /**
   * `delete_session`: Qdrant is always asked for its collections first once
   * a name is given, and `success` is true exactly for a 200 reply.
   */
  function DeleteSession(body: DeleteBody, w: DeleteWorld): (h: Handled)
    ensures h.reply.status in {200, 400, 500}
    ensures "success" in h.reply.body && (h.reply.body["success"] == JBool(true) <==> h.reply.status == 200)
    ensures h.calls == [] <==> !Truthy(body.collectionName)
    ensures h.calls != [] ==> h.calls[0] == ListCollections
  {
    if !Truthy(body.collectionName) then
      Handled(Reply(400, map["success" := JBool(false), "error" := JStr("Collection name is required")]), [])
    else
      var name := body.collectionName.value;
      match w.listed
      case Raised(e) => Handled(ClearFailed(e), [ListCollections])
      case Done(cols) =>
        if name in CollectionNames(cols) then
          var drop := [ListCollections, DropCollection(name)];
          match w.deleted
          case Raised(e) => Handled(ClearFailed(e), drop)
          case Done(_) =>
            Handled(Reply(200, map["success" := JBool(true),
                                   "message" := JStr("Collection \"" + name + "\" cleared successfully")]),
                    drop)
        else
          Handled(Reply(200, map["success" := JBool(true),
                                 "message" := JStr("Collection \"" + name + "\" does not exist")]),
                  [ListCollections])
  }

  /**
   * No name gives 400 without touching Qdrant. Otherwise a failed listing
   * gives 500; a name no collection carries gives 200 "does not exist"
   * whatever a deletion would have done, without dropping anything; and a
   * listed name is dropped, giving 200 "cleared successfully" or 500 with
   * the deletion's error.
   */
  lemma DeleteSessionOutcome(body: DeleteBody, w: DeleteWorld)
    ensures !Truthy(body.collectionName) ==>
      DeleteSession(body, w) ==
        Handled(Reply(400, map["success" := JBool(false), "error" := JStr("Collection name is required")]), [])
    ensures Truthy(body.collectionName) && w.listed.Raised? ==>
      DeleteSession(body, w) == Handled(ClearFailed(w.listed.message), [ListCollections])
    ensures Truthy(body.collectionName) && w.listed.Done? ==>
      var h := DeleteSession(body, w);
      var name := body.collectionName.value;
      var listed := exists i :: 0 <= i < |w.listed.value| && w.listed.value[i].name == name;
      && (!listed ==>
            h == Handled(Reply(200, map["success" := JBool(true),
                                        "message" := JStr("Collection \"" + name + "\" does not exist")]),
                         [ListCollections]))
      && (listed ==> h.calls == [ListCollections, DropCollection(name)])
      && (listed && w.deleted.Done? ==>
            h.reply == Reply(200, map["success" := JBool(true),
                                      "message" := JStr("Collection \"" + name + "\" cleared successfully")]))
      && (listed && w.deleted.Raised? ==> h.reply == ClearFailed(w.deleted.message))
  {
    if Truthy(body.collectionName) && w.listed.Done? {
      CollectionNamesMembership(w.listed.value, body.collectionName.value);
    }
  }
}
