/** The HTTP handlers of the server. Each handler maps the fields of a
    request to a status and a JSON body, using the document store and the
    language-model service the server obtained at start-up. */
module Server {
  import opened Wrappers
  import ServerStore
  import AiGateway

  const NoFiles := "No files were uploaded"
  const Processed := "Documents processed successfully"
  const MessageRequired := "Message is required"
  const NoReply := "Failed to generate response"
  const Unexpected := "An unexpected error occurred"
  const Cleared := "Document store cleared successfully"

  /** An uploaded file: its original name and its bytes decoded as UTF-8. */
  datatype UploadedFile = UploadedFile(originalname: string, text: string)

  /** The JSON bodies the handlers send. */
  datatype Body =
    | ErrorBody(error: string)
    | MessageBody(message: string)
    | ReplyBody(response: string)
    | TestBody(result: AiGateway.TestResult)

  datatype Response = Response(status: nat, body: Body)

  /** `errorHandler`: any error forwarded with `next(error)` becomes a 500
      whose `error` is the error's message, or a fixed text when that
      message is empty. */
  function ErrorHandler(err: JsError): (r: Response)
    ensures r.status == 500 && r.body.ErrorBody? && r.body.error != ""
    ensures err.message != "" ==> r.body.error == err.message
    ensures err.message == "" ==> r.body.error == Unexpected
  {
    Response(500, ErrorBody(if err.message != "" then err.message else Unexpected))
  }

  /** The chunks one file adds: those of its text, under its name. */
  function Ingest(file: UploadedFile): seq<ServerStore.Chunk>
  {
    ServerStore.ChunksOf(file.text, file.originalname)
  }

  /** The outputs of `f` on `xs`, one after the other. */
  function FlatMap<T, U>(xs: seq<T>, f: T -> seq<U>): seq<U>
  {
    if xs == [] then [] else FlatMap(xs[..|xs| - 1], f) + f(xs[|xs| - 1])
  }

  /** The chunks that ingesting `files` one after the other appends. */
  function FilesChunks(files: seq<UploadedFile>): seq<ServerStore.Chunk>
  {
    FlatMap(files, Ingest)
  }

  /** The response to `POST /api/chat` with body field `message`, given the
      store's context and the service's provider. */
  function ChatResponse(message: Option<string>, context: string, service: AiGateway.AIService, provider: AiGateway.Provider): Response
  {
    if !Truthy(message) then Response(400, ErrorBody(MessageRequired))
    else
      match service.GenerateResponse(message.value, context, provider)
      case Failure(e) => ErrorHandler(e)
      case Success(reply) =>
        if Truthy(reply) then Response(200, ReplyBody(reply.value)) else ErrorHandler(JsError(NoReply))
  }

  class Server {
    const store: ServerStore.DocumentStore
    const service: AiGateway.AIService

    constructor (store: ServerStore.DocumentStore, service: AiGateway.AIService)
      ensures this.store == store && this.service == service
    {
      this.store := store;
      this.service := service;
    }

    /** `POST /api/process-documents`: refuses a request without files and
        leaves the store alone; otherwise adds every file, in upload order,
        under its original name. */
    method ProcessDocuments(files: Option<seq<UploadedFile>>) returns (response: Response)
      modifies store
      ensures files.None? || files.value == [] ==>
        response == Response(400, ErrorBody(NoFiles)) && store.chunks == old(store.chunks)
      ensures files.Some? && files.value != [] ==>
        response == Response(200, MessageBody(Processed)) && store.chunks == old(store.chunks) + FilesChunks(files.value)
    {
      if files.None? || |files.value| == 0 {
        return Response(400, ErrorBody(NoFiles));
      }
      IngestAll(files.value);
      response := Response(200, MessageBody(Processed));
    }

    /** Adds every file to the store, in order. */
    method IngestAll(files: seq<UploadedFile>)
      modifies store
      ensures store.chunks == old(store.chunks) + FilesChunks(files)
    {
      for i := 0 to |files|
        invariant store.chunks == old(store.chunks) + FilesChunks(files[..i])
      {
        IngestStep(old(store.chunks), files, i);
        store.AddDocument(files[i].text, files[i].originalname);
      }
      assert files[..|files|] == files;
    }

    /** `POST /api/chat`: the message is answered against the store's
        current context. */
    method Chat(message: Option<string>, provider: AiGateway.Provider) returns (response: Response)
      ensures response == ChatResponse(message, ServerStore.Context(store.chunks), service, provider)
    {
      if !Truthy(message) {
        return Response(400, ErrorBody(MessageRequired));
      }
      var context := store.GetContext();
      var reply := service.GenerateResponse(message.value, context, provider);
      if reply.Failure? {
        return ErrorHandler(reply.error);
      }
      if !Truthy(reply.value) {
        return ErrorHandler(JsError(NoReply));
      }
      response := Response(200, ReplyBody(reply.value.value));
    }

    /** `DELETE /api/documents`: empties the store and confirms, however
        often it is called. */
    method ClearDocuments() returns (response: Response)
      modifies store
      ensures store.chunks == [] && response == Response(200, MessageBody(Cleared))
    {
      store.Clear();
      response := Response(200, MessageBody(Cleared));
    }

    /** `GET /api/test-llm`: the connection test's result, passed through.
        The test never throws, so the handler's 500 branch is never taken. */
    method TestLlm(provider: AiGateway.Provider) returns (response: Response)
      ensures response.status == 200 && response.body == TestBody(service.TestConnection(provider))
    {
      var result := service.TestConnection(provider);
      response := Response(200, TestBody(result));
    }
  }

  /** Start-up: obtain the store and the service from their registries; a
      service that cannot be built stops the process, which is no server. */
  method Start(stores: ServerStore.StoreRegistry, services: AiGateway.ServiceRegistry, env: Option<string>)
    returns (server: Server?)
    modifies stores, services
    ensures old(services.instance).None? ==> (server == null <==> !Truthy(env))
    ensures old(services.instance).Some? ==> server != null && server.service == old(services.instance).value
    ensures server != null ==> server.store == stores.instance && Some(server.service) == services.instance
  {
    var store := stores.GetInstance();
    var created := services.GetInstance(env);
    if created.Failure? {
      return null;
    }
    server := new Server(store, created.value);
  }

  lemma FlatMapStep<T, U>(xs: seq<T>, i: int, f: T -> seq<U>)
    requires 0 <= i < |xs|
    ensures FlatMap(xs[..i + 1], f) == FlatMap(xs[..i], f) + f(xs[i])
  {
    assert xs[..i + 1][..i] == xs[..i];
  }

  lemma IngestStep(start: seq<ServerStore.Chunk>, files: seq<UploadedFile>, i: int)
    requires 0 <= i < |files|
    ensures start + FilesChunks(files[..i]) + ServerStore.ChunksOf(files[i].text, files[i].originalname)
      == start + FilesChunks(files[..i + 1])
  {
    FlatMapStep(files, i, Ingest);
  }

  /** Files are ingested in upload order: the chunks of an upload are the
      chunks of its first files followed by those of the rest. */
  lemma FilesChunksAppend(a: seq<UploadedFile>, b: seq<UploadedFile>)
    ensures FilesChunks(a + b) == FilesChunks(a) + FilesChunks(b)
  {
    FlatMapAppend(a, b, Ingest);
  }

  lemma {:induction false} FlatMapAppend<T, U>(a: seq<T>, b: seq<T>, f: T -> seq<U>)
    ensures FlatMap(a + b, f) == FlatMap(a, f) + FlatMap(b, f)
    decreases |b|
  {
    if b == [] {
      assert a + b == a;
    } else {
      var ab := a + b;
      assert ab[..|ab| - 1] == a + b[..|b| - 1];
      FlatMapAppend(a, b[..|b| - 1], f);
    }
  }

  /** Every file adds at least one chunk, tagged with its own name. */
  lemma {:induction false} EveryFileAddsChunks(files: seq<UploadedFile>)
    ensures |FilesChunks(files)| >= |files|
    ensures forall c :: c in FilesChunks(files) ==> exists f :: f in files && c.source == f.originalname
    decreases |files|
  {
    if files != [] {
      var init := files[..|files| - 1];
      var last := files[|files| - 1];
      EveryFileAddsChunks(init);
      forall c | c in FilesChunks(files)
        ensures exists f :: f in files && c.source == f.originalname
      {
        if c in FilesChunks(init) {
          var f :| f in init && c.source == f.originalname;
          assert f in files;
        } else {
          assert c in ServerStore.ChunksOf(last.text, last.originalname);
          assert c.source == last.originalname;
        }
      }
    }
  }

  /** The chat handler answers 400 exactly for a falsy message (absent or
      empty; whitespace passes), 200 exactly when the model replies with
      non-empty text, which is then the response, and 500 otherwise: with
      the provider's message, the error handler's fallback when that
      message is empty, or the no-reply text for an empty reply. */
  lemma ChatResponseCases(message: Option<string>, context: string, service: AiGateway.AIService, provider: AiGateway.Provider)
    ensures ChatResponse(message, context, service, provider).status == 400 <==> !Truthy(message)
    ensures Truthy(message) ==>
      var outcome := provider(service.token, AiGateway.Request(AiGateway.SystemPrompt(context), message.value));
      var r := ChatResponse(message, context, service, provider);
      && (r.status == 200 <==> outcome.Replied? && Truthy(outcome.content))
      && (r.status == 200 ==> r.body == ReplyBody(outcome.content.value))
      && (r.status != 200 ==> r.status == 500 && r.body.ErrorBody? && r.body.error != "")
      && (outcome.Failed? && outcome.error.message != "" ==> r.body == ErrorBody(outcome.error.message))
      && (outcome.Failed? && outcome.error.message == "" ==> r.body == ErrorBody(Unexpected))
      && (outcome.Replied? && !Truthy(outcome.content) ==> r.body == ErrorBody(NoReply))
  {
  }
}
