/** The server's gateway to the language model: a service object built
    from the access token, the choice of system prompt from the store's
    context, the two-message request it sends, and how provider errors are
    reported (the connection test never throws; answering rethrows). */
module AiGateway {
  import opened Wrappers
  import ServerStore

  /** The message of the error the constructor throws without a token. */
  const TokenMissing := "GitHub token is not configured"

  /** The fallback error text of a failed connection test. */
  const UnknownError := "Unknown error occurred"

  /** The request parameters every call uses. */
  const ModelName := "gpt-4o-mini"
  const Temperature: real := 0.8
  const MaxTokens := 4096
  const TopP := 1

  /** The sentence both system prompts open with. */
  const Opening := "You are an interactive Retrieval-Augmented Generation (RAG) chatbot designed for an educational demo."

  /** The system prompt when documents are present; the context follows it. */
  const ContextPreamble := Opening + " \n" + "           Use the following context to answer questions:\n\n"

  /** The system prompt when no document has been uploaded. */
  const NoContextPrompt := Opening + "\n" + "           I notice you haven't uploaded any documents yet. I can still explain how RAG systems work, or you can try uploading some documents to see the system in action!\n\n           When a user uploads a file, I process its contents, retrieve relevant information, and answer questions based on the file's context.\n           I always explain my reasoning and provide brief, accessible explanations of how RAG supports my answers.\n           I aim to be engaging, patient, and fun to interact with, ensuring users feel comfortable experimenting with the system."

  /** The two messages of the connection test. */
  const TestSystemPrompt := "You are a test assistant. Respond with 'Connection successful!'"
  const TestUserMessage := "Test connection"

  datatype Role = System | User

  datatype ChatMessage = ChatMessage(role: Role, content: string)

  /** The body of a chat completion request. */
  datatype ChatRequest = ChatRequest(messages: seq<ChatMessage>, model: string, temperature: real, maxTokens: int, topP: int)

  /** What the provider does with a request: it replies with the first
      choice's content (which may be absent), or the call throws. */
  datatype ProviderOutcome = Replied(content: Option<string>) | Failed(error: JsError)

  /** The remote model, called with the API key and the request. */
  type Provider = (string, ChatRequest) -> ProviderOutcome

  /** The object `testConnection` returns: `{ success: true, message }` or
      `{ success: false, error }`. */
  datatype TestResult = TestSucceeded(message: Option<string>) | TestFailed(error: string)

  /** The context counts as present when it is non-empty and is not the
      store's "no documents" sentinel. */
  predicate HasContext(context: string)
  {
    context != "" && context != ServerStore.NoDocuments
  }

  function SystemPrompt(context: string): string
  {
    if HasContext(context) then ContextPreamble + context else NoContextPrompt
  }

  /** The request sent for a system prompt and a user message. */
  function Request(system: string, user: string): ChatRequest
  {
    ChatRequest([ChatMessage(System, system), ChatMessage(User, user)], ModelName, Temperature, MaxTokens, TopP)
  }

  /** A constructed service: it holds the token the client authenticates
      with. The constructor is `Create`. */
  datatype AIService = AIService(token: string)
  {
    /** `testConnection()`: a reply becomes a success result and a provider
        error becomes a failure result carrying its message, or a fixed
        text when the message is empty. Nothing is thrown. */
    function TestConnection(provider: Provider): (r: TestResult)
    {
      match provider(token, Request(TestSystemPrompt, TestUserMessage))
      case Replied(content) => TestSucceeded(content)
      case Failed(e) => TestFailed(if e.message != "" then e.message else UnknownError)
    }

    /** `generateResponse(message, context)`: the reply's content, or the
        provider's error rethrown unchanged. */
    function GenerateResponse(message: string, context: string, provider: Provider): (r: Result<Option<string>>)
      ensures provider(token, Request(SystemPrompt(context), message)).Failed? ==>
        r == Failure(provider(token, Request(SystemPrompt(context), message)).error)
      ensures provider(token, Request(SystemPrompt(context), message)).Replied? ==>
        r == Success(provider(token, Request(SystemPrompt(context), message)).content)
    {
      match provider(token, Request(SystemPrompt(context), message))
      case Replied(content) => Success(content)
      case Failed(e) => Failure(e)
    }
  }

  /** `new AIService()` with the environment's token: it throws when the
      token is absent or empty, and otherwise keeps the token. */
  function Create(env: Option<string>): (r: Result<AIService>)
    ensures r.Failure? <==> !Truthy(env)
    ensures r.Failure? ==> r.error == JsError(TokenMissing)
    ensures r.Success? ==> r.value.token == env.value && r.value.token != ""
  {
    if Truthy(env) then Success(AIService(env.value)) else Failure(JsError(TokenMissing))
  }

  /** The lazily created service `AIService.instance`. */
  class ServiceRegistry {
    var instance: Option<AIService>

    constructor ()
      ensures instance == None
    {
      instance := None;
    }

    /** `AIService.getInstance()`: the first successful construction is
        kept and returned by every later call, whatever the environment
        then holds; a failed construction throws and keeps nothing. */
    method GetInstance(env: Option<string>) returns (r: Result<AIService>)
      modifies this
      ensures old(instance).Some? ==> r == Success(old(instance).value) && instance == old(instance)
      ensures old(instance).None? ==> r == Create(env)
      ensures old(instance).None? && r.Success? ==> instance == Some(r.value)
      ensures old(instance).None? && r.Failure? ==> instance == None
    {
      if instance.None? {
        r := Create(env);
        if r.Success? {
          instance := Some(r.value);
        }
      } else {
        r := Success(instance.value);
      }
    }
  }

  /** The store's context counts as present exactly when the store holds
      something other than one empty chunk or one chunk reading like the
      sentinel. */
  lemma StoreContextCounts(chunks: seq<ServerStore.Chunk>)
    ensures HasContext(ServerStore.Context(chunks)) <==>
      !(chunks == [] || (|chunks| == 1 && (chunks[0].content == "" || chunks[0].content == ServerStore.NoDocuments)))
  {
    ServerStore.ContextIsSentinelIff(chunks);
    ServerStore.ContextIsEmptyIff(chunks);
  }

  /** The two prompts differ right after their common opening sentence. */
  lemma PromptsDiffer()
    ensures |ContextPreamble| <= |NoContextPrompt|
    ensures NoContextPrompt[|Opening|] != ContextPreamble[|Opening|]
  {
    assert ContextPreamble[|Opening|] == (" \n")[0];
    assert NoContextPrompt[|Opening|] == ("\n")[0];
  }

  /** The system prompt tells whether context was used, and gives it back:
      with context it is the preamble followed by the context verbatim;
      without, it is the fixed prompt, which does not start with the
      preamble. */
  lemma SystemPromptCarriesContext(context: string)
    ensures HasContext(context) ==>
      ContextPreamble <= SystemPrompt(context) && SystemPrompt(context)[|ContextPreamble|..] == context
    ensures !HasContext(context) ==> SystemPrompt(context) == NoContextPrompt && !(ContextPreamble <= SystemPrompt(context))
  {
    PromptsDiffer();
  }

  /** The request holds exactly the system prompt and then the user's
      message unchanged, with the fixed model parameters. */
  lemma RequestShape(system: string, user: string)
    ensures |Request(system, user).messages| == 2
    ensures Request(system, user).messages[0] == ChatMessage(System, system)
    ensures Request(system, user).messages[1] == ChatMessage(User, user)
    ensures Request(system, user).model == "gpt-4o-mini" && Request(system, user).temperature == 0.8
    ensures Request(system, user).maxTokens == 4096 && Request(system, user).topP == 1
  {
  }

  /** The connection test fails exactly when the provider throws, and then
      names the thrown message, or a fixed text when that is empty; a reply
      is reported as a success carrying the reply's content. */
  lemma TestFailureNamesError(service: AIService, provider: Provider)
    ensures service.TestConnection(provider).TestFailed? ==> service.TestConnection(provider).error != ""
    ensures service.TestConnection(provider).TestFailed? <==>
      provider(service.token, Request(TestSystemPrompt, TestUserMessage)).Failed?
    ensures var out := provider(service.token, Request(TestSystemPrompt, TestUserMessage));
      out.Failed? ==>
        service.TestConnection(provider) == TestFailed(if out.error.message != "" then out.error.message else UnknownError)
    ensures var out := provider(service.token, Request(TestSystemPrompt, TestUserMessage));
      out.Replied? ==> service.TestConnection(provider) == TestSucceeded(out.content)
  {
  }
}
