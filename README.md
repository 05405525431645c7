# whatsarag core, modelled in Dafny

whatsarag is a teaching demo of retrieval-augmented generation (RAG). A
browser tutorial walks through chunking, embedding, retrieval and
generation, then opens a chat. An Express server stores uploaded documents
as sentence chunks and answers questions through a hosted language model,
with the stored chunks as the prompt's context.

This project models the logic under that presentation and proves what it
promises:

| file | module | models |
|---|---|---|
| `wrappers.dfy` | `Wrappers` | optional values, thrown JavaScript errors (their `message`), JavaScript truthiness of strings |
| `text.dfy` | `Text` | the sentence pattern `/[^.!?]+[.!?]+/g` as a scanner `Sentences`, the `|| [text]` fallback, `String.prototype.trim`, `Array.prototype.join`, decimal rendering of numbers |
| `server_store.dfy` | `ServerStore` | the server's `DocumentStore`: sentence chunks tagged with their source, the `"\n\n"`-joined context and its "no documents" sentinel, `clear`, the singleton |
| `chunk_packer.dfy` | `ChunkPacker` | the browser's `splitIntoChunks`: greedy packing of sentences into chunks of at most `chunkSize` characters |
| `client_store.dfy` | `ClientStore` | the browser's `DocumentStore`, with the text splitter library as a function parameter and its metadata merged over `source` |
| `ai_gateway.dfy` | `AiGateway` | `AIService`: the fail-fast constructor, the singleton, the choice of system prompt, the request sent, and error reporting |
| `server.dfy` | `Server` | the HTTP handlers and `errorHandler` |
| `navigation.dfy` | `Navigation` | the tutorial page's navigation state machine |
| `chat.dfy` | `Chat` | the chat panel: the numbered transcript, the connection test and the submit handler |

The sentence scanner follows the pattern's own semantics. It skips
terminators (`.`, `!`, `?`) where no match can start. It then takes a
maximal run of non-terminators and the maximal run of terminators after it.
A run of non-terminators that reaches the end of the text is dropped.
`Text.SentencesCharacterised` proves that the scanner returns exactly the
unique way to cut a text into leading terminators, sentences and a tail with
no terminator.

The language model is a function from the access token and the request to
an outcome: a reply (possibly without content) or a thrown error. Network
replies seen by the browser are inputs to the handlers that receive them.
Each handler runs as one step.

## Model

| member | source | states |
|---|---|---|
| `Text.SentencesCharacterised` | server/services/document-store.js:15 | The scanner returns `xs` exactly when the text is leading terminators, then the sentences `xs` (non-terminators followed by terminators), then a tail with no terminator. So every match is a maximal run of non-terminators plus its maximal run of terminators, and trailing text without a terminator is dropped. |
| `Text.DecompositionUnique` | server/services/document-store.js:15 | Any such cut of a text is the scanner's: a text has only one sequence of matches. |
| `Text.SentencesDecomposeAt` | server/services/document-store.js:15 | The scanner's output is such a cut, and the lemma returns where the sentences start and end. |
| `Text.SentenceSplit` | server/services/document-store.js:15 | There is always at least one piece. The piece is the whole text when nothing matches; otherwise the pieces are the matches. |
| `Text.TrimIsInfix` | server/services/document-store.js:17 | `trim` returns a contiguous part of its input with only whitespace removed on either side, and neither end of the result is whitespace. |
| `Text.TrimIdempotent` | server/services/document-store.js:17 | Trimming twice is the same as trimming once. |
| `Text.JoinAppend` | server/services/document-store.js:29 | Joining two non-empty lists gives the first join, one separator, then the second join. |
| `Text.JoinHoldsSeparator` | server/services/document-store.js:29 | With two or more elements, the separator directly follows the first element. |
| `ServerStore.ChunksOf` | server/services/document-store.js:15-19 | A document gives at least one chunk, each tagged with the given source. That is one chunk per match holding the trimmed match, or one chunk holding the trimmed text when nothing matches. |
| `ServerStore.DocumentStore.constructor` | server/services/document-store.js:2-4 | A new store holds no chunk. |
| `ServerStore.DocumentStore.AddDocument` | server/services/document-store.js:13-22 | The earlier chunks stay as a prefix, and the document's chunks are appended after them. |
| `ServerStore.DocumentStore.Clear` | server/services/document-store.js:32-34 | The store is empty afterwards, whatever it held, so clearing twice is clearing once. |
| `ServerStore.StoreRegistry.GetInstance` | server/services/document-store.js:6-11 | The first call creates an empty store. Every later call returns that same store. |
| `ServerStore.ContextIsSentinelIff` | server/services/document-store.js:24-30 | The context is the sentinel exactly when the store is empty, or when its only chunk is the sentinel sentence itself. |
| `ServerStore.ContextIsEmptyIff` | server/services/document-store.js:29 | The context is empty exactly when the store holds one empty chunk. |
| `ServerStore.ContextAfterAppend` | server/services/document-store.js:21-29 | After an append, the context is the old context, a blank line, then the new contents (or only the new contents when the store was empty). |
| `ServerStore.ContextOrdersDocuments` | server/services/document-store.js:21-29 | The context of a store holding document A and then document B is A's chunks joined, a blank line, then B's chunks joined. |
| `ServerStore.EmptyDocumentAddsEmptyChunk` | server/services/document-store.js:15-21 | The empty text still adds one chunk, and the context of that store is empty, not the sentinel. |
| `ServerStore.FoxAndDog` | server/services/document-store.js:13-30 | `"The fox runs. The dog sleeps."` gives two chunks and the context `"The fox runs.\n\nThe dog sleeps."`. |
| `ServerStore.SentinelDocumentLooksEmpty` | server/services/document-store.js:15-29 | A document whose text is the sentinel sentence gives a context equal to the sentinel. |
| `ChunkPacker.SentencesNonEmpty` | src/lib/fileProcessing.ts:56 | Every sentence of a non-empty text is non-empty. |
| `ChunkPacker.SplitIntoChunks` | src/lib/fileProcessing.ts:55-71 | The empty text gives no chunk. Otherwise the chunks are the trimmed texts of a greedy partition of the sentences. Its runs are consecutive and cover every sentence in order. Each run has one sentence or fits in `chunkSize` untrimmed. Each run ends only because the next sentence would not fit. |
| `ChunkPacker.SplitIntoChunksDefault` | src/lib/fileProcessing.ts:55 | The same, with the default size of 500. |
| `ChunkPacker.GreedyPartitionUnique` | src/lib/fileProcessing.ts:57-69 | There is only one greedy partition, so the chunks depend only on the sentences and the size. |
| `ChunkPacker.ChunkBounds` | src/lib/fileProcessing.ts:61-65 | Every chunk is at most `chunkSize` long. The exception is one sentence longer than that: it becomes a chunk of its own, trimmed but not truncated. |
| `ChunkPacker.NoMoreChunksThanSentences` | src/lib/fileProcessing.ts:60-69 | There are no more chunks than sentences. |
| `ClientStore.ChunksOf` | src/services/document-store.ts:31-39 | There is one chunk per splitter document, in the splitter's order. Its content is the document's `pageContent`, and its metadata is `source` merged with the document's metadata. |
| `ClientStore.TaggedSource` | src/services/document-store.ts:35-38 | The metadata keys are the splitter's keys plus `source`. A `source` from the splitter overrides the given one, and every other splitter key keeps its value. |
| `ClientStore.DocumentStore.constructor` | src/services/document-store.ts:16-21 | A new store holds no chunk and keeps the splitter it is given. |
| `ClientStore.DocumentStore.AddDocument` | src/services/document-store.ts:30-42 | The earlier chunks stay as a prefix, followed by the chunks of the splitter's documents for the text. |
| `ClientStore.DocumentStore.Clear` | src/services/document-store.ts:52-54 | The store is empty afterwards, whatever it held. |
| `ClientStore.StoreRegistry.GetInstance` | src/services/document-store.ts:23-28 | The first call creates an empty store with the configured splitter. Every later call returns that same store. |
| `ClientStore.ContextAgreesWithServer` | src/services/document-store.ts:44-50 | For the same contents, the browser store's context equals the server store's: the same sentinel and the same separator. |
| `ClientStore.ContextIsSentinelIff` | src/services/document-store.ts:44-50 | The context is the sentinel exactly when the store is empty, or when its one chunk reads as the sentinel. |
| `ClientStore.ContextAfterAppend` | src/services/document-store.ts:41-49 | After an append to an empty store, the context is the new contents joined. After an append to a non-empty store, it is the old context, a blank line, then the new contents. |
| `AiGateway.Create` | server/services/ai-service.js:4-15 | Construction fails with `GitHub token is not configured` exactly when the token is absent or empty. Otherwise the service keeps the token. |
| `AiGateway.ServiceRegistry.GetInstance` | server/services/ai-service.js:17-22 | The first successful construction is kept and returned by every later call, whatever the environment then holds. A failed construction rethrows and keeps nothing. |
| `AiGateway.StoreContextCounts` | server/services/ai-service.js:53 | The store's context counts as present exactly when the store holds something other than one empty chunk or one chunk that reads as the sentinel. |
| `AiGateway.SystemPromptCarriesContext` | server/services/ai-service.js:53-62 | With context, the system prompt is the fixed preamble followed by the context verbatim. Without it, the prompt is the fixed no-documents text, which does not start with that preamble. |
| `AiGateway.PromptsDiffer` | server/services/ai-service.js:55-57 | The two prompts share their first sentence and differ right after it. |
| `AiGateway.RequestShape` | server/services/ai-service.js:64-73 | A request holds exactly two messages: the system prompt, then the user's message unchanged. It uses `gpt-4o-mini`, temperature 0.8, 4096 maximum tokens and `top_p` 1. |
| `AiGateway.AIService.GenerateResponse` | server/services/ai-service.js:51-80 | The provider receives the request built from the chosen system prompt and the message. Its error is rethrown unchanged; otherwise the reply's content is returned. |
| `AiGateway.TestFailureNamesError` | server/services/ai-service.js:24-49 | The connection test returns a result instead of throwing. It fails exactly when the provider throws, and a failure always names an error: the thrown message, or `Unknown error occurred` when that message is empty. A reply gives a success carrying the reply's content. |
| `Server.ErrorHandler` | server/index.js:48-53 | A forwarded error becomes a 500 whose `error` is the error's message, or `An unexpected error occurred` when that message is empty. It is never empty. |
| `Server.Server.constructor` | server/index.js:20-26 | The handlers use the store and the service obtained at start-up. |
| `Server.Start` | server/index.js:20-30 | Start-up takes the singleton store and service. There is no server, because the process exits, exactly when the service cannot be built. |
| `Server.Server.ProcessDocuments` | server/index.js:68-83 | Missing or empty `files` gives 400 `No files were uploaded` and leaves the store untouched. Otherwise every file is added in upload order under its original name, and the reply is 200 `Documents processed successfully`. |
| `Server.Server.IngestAll` | server/index.js:74-77 | The loop appends each file's chunks after those of the files before it. |
| `Server.FilesChunksAppend` | server/index.js:74-77 | The chunks of an upload are the chunks of its first files followed by those of the rest. |
| `Server.EveryFileAddsChunks` | server/index.js:74-77 | Every file adds at least one chunk, and every chunk carries the name of an uploaded file. |
| `Server.Server.Chat` | server/index.js:85-103 | The answer is the chat response for the message against the store's current context. |
| `Server.ChatResponseCases` | server/index.js:85-103 | The status is 400 exactly for an absent or empty message; whitespace passes. It is 200 exactly when the model replies with non-empty text, which is then the `response`. Otherwise it is 500 with a non-empty error: the provider's message, `An unexpected error occurred` when that message is empty, or `Failed to generate response` for an empty reply. |
| `Server.Server.ClearDocuments` | server/index.js:105-112 | The store is empty and the reply is 200 `Document store cleared successfully`, however often this is called. |
| `Server.Server.TestLlm` | server/index.js:56-66 | The reply is always 200 and carries the connection test's result unchanged. |
| `Navigation.App.constructor` | src/App.tsx:12-15 | The page starts at step 0 with the introduction shown and the chat and popup hidden. This state is coherent. |
| `Navigation.App.HandleNext` | src/App.tsx:26-36 | From the introduction, Next only hides it. Otherwise it advances a step below 3 and opens the chat at step 3. Coherence is kept. |
| `Navigation.App.HandleBack` | src/App.tsx:38-47 | From the chat, Back closes it at step 3. Otherwise it goes back one step, or returns to the introduction from step 0, and does nothing in the introduction. Coherence is kept. |
| `Navigation.App.HandleStartOver` | src/App.tsx:49-53 | Start Over restores step 0 with the introduction shown and the chat closed, from any state. |
| `Navigation.App.HandleStepClick` | src/App.tsx:55-58 | A step click sets the step and closes the chat, leaving the introduction flag alone. A step of the strip keeps `0 <= step <= 3`, which `steps[currentStep]` needs. |
| `Navigation.App.HandleBrainClick` | src/App.tsx:17-24 | Once the timer fires, the chat is shown, the introduction and popup are hidden, and the step is unchanged. |
| `Navigation.HandlersKeepCoherent` | src/App.tsx:26-58 | Every handler keeps the step in range and the introduction only at step 0 without the chat. A step click does so from the strip, which is shown only outside the introduction. |
| `Navigation.BackUndoesNext` | src/App.tsx:26-47 | Outside the chat, Back undoes Next. |
| `Navigation.NextUndoesBack` | src/App.tsx:26-47 | Outside the introduction, Next undoes Back, except in a chat opened by the brain icon before step 3: Back leaves such a chat for step 3. |
| `Navigation.NextLabelNamesMove` | src/App.tsx:141 | `Let's Begin` is shown exactly in the introduction, `Try the Chatbot` exactly when Next opens the chat, and `Next` exactly when Next advances a step. |
| `Navigation.BackVisibility` | src/App.tsx:119 | A visible Back button always changes the view. A hidden one still acts at step 0 after the introduction: it returns to the introduction. |
| `Chat.ChatSession.constructor` | src/components/ChatInterface.tsx:7-12 | The panel starts with an empty transcript, empty input, no error, not loading and not connected, with the counter at 0. |
| `Chat.ChatSession.GenerateMessageId` | src/components/ChatInterface.tsx:14-17 | The counter goes up by one and the id is `msg-` followed by the new count. |
| `Chat.ChatSession.AddMessage` | src/components/ChatInterface.tsx:58-60 | The message is appended and every earlier message is unchanged. |
| `Chat.ChatSession.Type` | src/components/ChatInterface.tsx:186 | Typing sets the input and nothing else. |
| `Chat.ChatSession.TestConnection` | src/components/ChatInterface.tsx:19-53 | On success the panel is connected and one greeting is appended. On failure the error is recorded, `Connection Error: <msg>. Please try again later.` is appended and the connection flag stays as it was. Loading is off afterwards, and the ids stay numbered. |
| `Chat.ChatSession.HandleSubmit` | src/components/ChatInterface.tsx:62-115 | Blank input, a pending request or no connection changes nothing. Otherwise the trimmed question and then the answer are appended with the next two ids. The answer is an assistant reply, or `Error: <msg>`, which is also recorded as the error. The input is cleared and loading is off afterwards. |
| `Chat.MessageIdInjective` | src/components/ChatInterface.tsx:14-17 | Different counts give different ids. |
| `Chat.NumberedIdsDistinct` | src/components/ChatInterface.tsx:14-17 | The ids in the transcript are pairwise distinct. |
| `Text.ParseNatToString` | src/components/ChatInterface.tsx:16 | Reading back the decimal text of a count gives the count. |
| `Chat.ChatAnswerCases` | src/components/ChatInterface.tsx:87-111 | A reply is shown exactly when the server answers ok with non-empty text. A non-ok status without an `error` field gives `HTTP error! status: N`. An ok answer without text gives `Invalid response from server`. |
| `Chat.QuestionReachesModel` | src/components/ChatInterface.tsx:64-96 | A question the panel sends is never refused as missing. The panel shows the model's reply, or the server's own error text, never the status fallback. |
| `Chat.ConnectionTestEndToEnd` | src/components/ChatInterface.tsx:23-33 | The panel connects exactly when the model answers the server's test request. Otherwise it reports the provider's message, or `Unknown error occurred`. |

## Left out

- PDF and text extraction, the embedding model, cosine similarity and similarity search in `src/lib/fileProcessing.ts` are not part of this model. They are foreign libraries and floating-point computations.
- The text splitter library behind the browser store is a function parameter. How it cuts text, including its size and overlap settings, is not modelled.
- The language-model SDK is the `Provider` function parameter. The base URL and console logging are not modelled. The `details` field of a failed connection test is not modelled, because it carries the raw error object.
- Express, multer, CORS, dotenv, `app.listen`, the start-up connection log, the root and `/api/health` endpoints, and the health timestamp are left out. `process.exit(1)` is modelled only as start-up yielding no server.
- Uploaded bytes are modelled as already decoded text, because `Buffer.toString('utf-8')` is a library call.
- ChunkPacker.SplitIntoChunks: lengths count characters, while JavaScript counts UTF-16 code units. The two differ only for characters outside the Basic Multilingual Plane.
- Request and response fields that are not strings, such as a numeric `message` or an object `error`, are modelled only as absent or as strings.
- Thrown values are modelled by their `message`. Whether a thrown value is an `Error` at all is modelled by an absent message.
- Asynchrony is not modelled: each handler is one atomic step. The `isLoading` flag during an awaited request, the 1500 ms popup delay and rendering and animation are left out. The popup is modelled only at the end state of the brain-icon click.
- Presentational components are not part of this model: the step pages, the step strip's progress fraction, the upload widget and the cards.
- Server.Server.TestLlm: the handler's 500 branch is not modelled, because the connection test never throws.
