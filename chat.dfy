/** The chat panel: an append-only transcript whose messages are numbered
    `msg-1`, `msg-2`, ... in creation order, the input box, and the loading,
    error and connection flags, moved by the connection test run when the
    panel opens and by each submitted question. The network replies are
    inputs, as the page sees them after `fetch`. */
module Chat {
  import opened Wrappers
  import opened Text
  import AiGateway
  import Server

  const Greeting := "Hi! I'm your RAG-powered AI assistant. You can ask me questions about any documents you've uploaded, or try uploading a new document to see how I can help you understand its contents!"
  const InvalidResponse := "Invalid response from server"
  const ConnectFailed := "Failed to connect to AI service"
  const ResponseFailed := "Failed to get response from AI service"

  datatype Role = User | Assistant | System

  datatype Message = Message(id: string, role: Role, content: string)

  /** The id of the `n`-th message created. */
  function MessageId(n: nat): string
  {
    "msg-" + NatToString(n)
  }

  /** The error text of a reply whose status is not ok. */
  function HttpError(status: nat): string
  {
    "HTTP error! status: " + NatToString(status)
  }

  /** How the question's request ended:
      - `FetchFailed`: the request or the reading of its JSON threw; the
        thrown `Error`'s message, or nothing when something else was thrown;
      - `HttpFailure`: a non-ok status, and the `error` field of its body
        (absent when the body has none or is not JSON);
      - `HttpOk`: an ok status and the `response` field of its body. */
  datatype ChatOutcome =
    | FetchFailed(thrown: Option<string>)
    | HttpFailure(status: nat, error: Option<string>)
    | HttpOk(response: Option<string>)

  /** How the connection test's request ended: it threw, came back with a
      non-ok status, or came back with `success` and `error` fields. */
  datatype ConnectionOutcome =
    | ConnectionFetchFailed(thrown: Option<string>)
    | ConnectionHttpFailure(status: nat)
    | ConnectionHttpOk(success: bool, error: Option<string>)

  /** The answer a question's outcome gives: the reply text, or the
      message of the error the handler catches. */
  function ChatAnswer(outcome: ChatOutcome): Result<string>
  {
    match outcome
    case FetchFailed(thrown) =>
      Failure(JsError(if thrown.Some? then thrown.value else ResponseFailed))
    case HttpFailure(status, error) =>
      Failure(JsError(if Truthy(error) then error.value else HttpError(status)))
    case HttpOk(response) =>
      if Truthy(response) then Success(response.value) else Failure(JsError(InvalidResponse))
  }

  /** The error a connection test's outcome raises, if any. */
  function ConnectionError(outcome: ConnectionOutcome): Option<string>
  {
    match outcome
    case ConnectionFetchFailed(thrown) => Some(if thrown.Some? then thrown.value else ConnectFailed)
    case ConnectionHttpFailure(status) => Some(HttpError(status))
    case ConnectionHttpOk(success, error) =>
      if success then None else Some(if Truthy(error) then error.value else ConnectFailed)
  }

  /** The message that reports an answer. */
  function AnswerMessage(id: string, answer: Result<string>): Message
  {
    match answer
    case Success(text) => Message(id, Assistant, text)
    case Failure(e) => Message(id, System, "Error: " + e.message)
  }

  /** The message that reports a connection test. */
  function ConnectionMessage(id: string, error: Option<string>): Message
  {
    if error.None? then Message(id, Assistant, Greeting)
    else Message(id, System, "Connection Error: " + error.value + ". Please try again later.")
  }

  /** The guard of `handleSubmit`. */
  predicate SubmitAllowed(input: string, isLoading: bool, isConnected: bool)
  {
    Trim(input) != "" && !isLoading && isConnected
  }

  /** The `k`-th message carries id `msg-(k+1)`. */
  ghost predicate Numbered(messages: seq<Message>)
  {
    forall k :: 0 <= k < |messages| ==> messages[k].id == MessageId(k + 1)
  }

  /** A message numbered after the last keeps the transcript numbered. */
  lemma NumberedAppend(messages: seq<Message>, m: Message)
    requires Numbered(messages) && m.id == MessageId(|messages| + 1)
    ensures Numbered(messages + [m])
  {
    var all := messages + [m];
    forall k | 0 <= k < |all| ensures all[k].id == MessageId(k + 1) {
      if k < |messages| { assert all[k] == messages[k]; }
    }
  }

  /** Distinct numbers give distinct ids. */
  lemma MessageIdInjective(a: nat, b: nat)
    ensures MessageId(a) == MessageId(b) ==> a == b
  {
    if MessageId(a) == MessageId(b) {
      assert NatToString(a) == MessageId(a)[4..] == MessageId(b)[4..] == NatToString(b);
      NatToStringInjective(a, b);
    }
  }

  /** The ids of a numbered transcript are pairwise distinct. */
  lemma NumberedIdsDistinct(messages: seq<Message>)
    requires Numbered(messages)
    ensures forall i, j :: 0 <= i < j < |messages| ==> messages[i].id != messages[j].id
  {
    forall i, j | 0 <= i < j < |messages|
      ensures messages[i].id != messages[j].id
    {
      MessageIdInjective(i + 1, j + 1);
    }
  }

  /** An answer is a reply exactly when the server answered ok with
      non-empty text; otherwise the error is the thrown message, the
      server's `error` field, or the status, in that order of preference. */
  lemma ChatAnswerCases(outcome: ChatOutcome)
    ensures ChatAnswer(outcome).Success? <==> outcome.HttpOk? && Truthy(outcome.response)
    ensures ChatAnswer(outcome).Success? ==> ChatAnswer(outcome).value == outcome.response.value
    ensures outcome.HttpFailure? && !Truthy(outcome.error) ==>
      ChatAnswer(outcome) == Failure(JsError(HttpError(outcome.status)))
    ensures outcome.HttpOk? && !Truthy(outcome.response) ==> ChatAnswer(outcome) == Failure(JsError(InvalidResponse))
  {
  }

  /** What the page receives for a chat response of the server. */
  function Received(r: Server.Response): ChatOutcome
  {
    if r.status == 200 then HttpOk(if r.body.ReplyBody? then Some(r.body.response) else None)
    else HttpFailure(r.status, if r.body.ErrorBody? then Some(r.body.error) else None)
  }

  /** What the page receives for a connection test response of the server. */
  function ConnectionReceived(r: Server.Response): ConnectionOutcome
  {
    if r.status != 200 then ConnectionHttpFailure(r.status)
    else if r.body.TestBody? && r.body.result.TestSucceeded? then ConnectionHttpOk(true, None)
    else if r.body.TestBody? then ConnectionHttpOk(false, Some(r.body.result.error))
    else ConnectionHttpOk(false, None)
  }

  /** A question the page lets through is never refused by the server as
      missing; the page shows the model's reply when the server has one, and
      otherwise the server's own error text, never the status fallback. */
  lemma QuestionReachesModel(input: string, context: string, service: AiGateway.AIService, provider: AiGateway.Provider)
    requires Trim(input) != ""
    ensures var r := Server.ChatResponse(Some(Trim(input)), context, service, provider);
      && r.status != 400
      && (r.status == 200 ==> ChatAnswer(Received(r)) == Success(r.body.response))
      && (r.status != 200 ==> ChatAnswer(Received(r)) == Failure(JsError(r.body.error)))
  {
    Server.ChatResponseCases(Some(Trim(input)), context, service, provider);
  }

  /** The connection test succeeds on the page exactly when the model
      answered the server's test request; otherwise the page reports the
      provider's error message, or the server's fallback text. */
  lemma ConnectionTestEndToEnd(service: AiGateway.AIService, provider: AiGateway.Provider)
    ensures var out := provider(service.token, AiGateway.Request(AiGateway.TestSystemPrompt, AiGateway.TestUserMessage));
      var error := ConnectionError(ConnectionReceived(Server.Response(200, Server.TestBody(service.TestConnection(provider)))));
      && (error.None? <==> out.Replied?)
      && (out.Failed? && out.error.message != "" ==> error == Some(out.error.message))
      && (out.Failed? && out.error.message == "" ==> error == Some(AiGateway.UnknownError))
  {
  }

  /** The chat panel's state. */
  class ChatSession {
    var messages: seq<Message>
    var input: string
    var isLoading: bool
    var error: Option<string>
    var isConnected: bool
    /** `messageIdCounter.current`: how many ids have been handed out. */
    var counter: nat

    /** Every id handed out went to the message at its position. */
    ghost predicate Valid()
      reads this
    {
      counter == |messages| && Numbered(messages)
    }

    constructor ()
      ensures messages == [] && input == "" && !isLoading && error == None && !isConnected && counter == 0
      ensures Valid()
    {
      messages := [];
      input := "";
      isLoading := false;
      error := None;
      isConnected := false;
      counter := 0;
    }

    /** `generateMessageId()`: the next number's id. */
    method GenerateMessageId() returns (id: string)
      modifies this
      ensures counter == old(counter) + 1 && id == MessageId(counter)
      ensures messages == old(messages) && input == old(input) && isLoading == old(isLoading)
      ensures error == old(error) && isConnected == old(isConnected)
    {
      counter := counter + 1;
      id := MessageId(counter);
    }

    /** `addMessage(message)`: appends, leaving earlier messages alone. */
    method AddMessage(message: Message)
      modifies this
      ensures messages == old(messages) + [message]
      ensures counter == old(counter) && input == old(input) && isLoading == old(isLoading)
      ensures error == old(error) && isConnected == old(isConnected)
    {
      messages := messages + [message];
    }

    /** Typing into the input box. */
    method Type(text: string)
      modifies this
      ensures input == text
      ensures messages == old(messages) && counter == old(counter) && isLoading == old(isLoading)
      ensures error == old(error) && isConnected == old(isConnected)
    {
      input := text;
    }

    /** The connection test run when the panel opens: on success the panel
        is connected and greets the user; on failure it records the error,
        says so in the transcript and stays as connected as it was. */
    method TestConnection(outcome: ConnectionOutcome)
      requires Valid()
      modifies this
      ensures Valid()
      ensures messages == old(messages) + [ConnectionMessage(MessageId(old(counter) + 1), ConnectionError(outcome))]
      ensures ConnectionError(outcome).None? ==> isConnected && error == old(error)
      ensures ConnectionError(outcome).Some? ==> isConnected == old(isConnected) && error == ConnectionError(outcome)
      ensures !isLoading && input == old(input)
    {
      isLoading := true;
      var failure := ConnectionError(outcome);
      if failure.None? {
        isConnected := true;
      } else {
        error := failure;
      }
      var id := GenerateMessageId();
      NumberedAppend(messages, ConnectionMessage(id, failure));
      AddMessage(ConnectionMessage(id, failure));
      isLoading := false;
    }

    /** `handleSubmit`: a blank input, a pending request or a missing
        connection ignores the submit. Otherwise the trimmed question is
        added, the input and error are cleared, and the answer is added as
        an assistant reply or as an error note that is also recorded. */
    method HandleSubmit(outcome: ChatOutcome)
      requires Valid()
      modifies this
      ensures Valid()
      ensures !SubmitAllowed(old(input), old(isLoading), old(isConnected)) ==>
        messages == old(messages) && input == old(input) && isLoading == old(isLoading)
        && error == old(error) && isConnected == old(isConnected) && counter == old(counter)
      ensures SubmitAllowed(old(input), old(isLoading), old(isConnected)) ==>
        && messages == old(messages) + [Message(MessageId(old(counter) + 1), User, Trim(old(input))),
                                        AnswerMessage(MessageId(old(counter) + 2), ChatAnswer(outcome))]
        && input == "" && !isLoading && isConnected
        && error == (if ChatAnswer(outcome).Success? then None else Some(ChatAnswer(outcome).error.message))
    {
      if Trim(input) == "" || isLoading || !isConnected {
        return;
      }
      ghost var before := messages;
      var question := Trim(input);
      input := "";
      error := None;
      var questionId := GenerateMessageId();
      NumberedAppend(messages, Message(questionId, User, question));
      AddMessage(Message(questionId, User, question));
      isLoading := true;
      var answer := ChatAnswer(outcome);
      if answer.Failure? {
        error := Some(answer.error.message);
      }
      var answerId := GenerateMessageId();
      NumberedAppend(messages, AnswerMessage(answerId, answer));
      AddMessage(AnswerMessage(answerId, answer));
      isLoading := false;
      assert messages == before + [Message(questionId, User, question), AnswerMessage(answerId, answer)];
    }
  }
}
