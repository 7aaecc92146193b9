# RAG web chat: response orchestration core

This project models, in Dafny, the core of a Spring chat service built on
LangChain4j. The service answers a user query in one of two ways. The RAG
path first retrieves documents and puts them into the prompt. The plain path
sends the query to the model as it is. Either path can answer in one blocking
call or stream its answer token by token to the browser as server-sent events.

The model covers these parts:

- **The token flush buffer** of both streaming handlers. Each handler keeps
  two builders: `tokenBuffer` holds the text not yet sent and
  `responseBuilder` holds all the text. On each token, `onNext` appends the
  token to both builders and tests a flush predicate. When the predicate
  holds, `onNext` sends the converted buffer as one event and clears the
  buffer. `onComplete` sends any leftover text and then completes the
  emitter. `onError` drops the buffer and reports a classified error
  instead.
  - The RAG path flushes when the token ends with one of 13 ASCII marks.
  - The plain path flushes on sentence marks, including full-width and CJK
    marks, or once the buffer holds 30 UTF-16 code units.
- **The error classifier `handleException`**, and the way the streaming
  error callbacks wrap their cause in `new Exception(cause)` before
  classifying it.
- **Context and prompt assembly** on the streaming RAG path.
- **The blank-query gate** of the four chat endpoints, and the result maps
  of `/setup` and `/health`.

These parts are kept as parameters:

- the Markdown-to-HTML converter (`convert: string -> string`);
- the retriever's result, with each document given as the string `textSegment().toString()` returns for it, left uninterpreted;
- the chat models' answers or exceptions;
- the success or `IOException` of every `emitter.send` (a boolean).

An `Emitter` object records the calls that took effect on it, in order:
`Sent(event)`, `Completed` and `CompletedWithError`. Each streaming handler
is a class whose fields the callbacks update in place. Its methods are proved
against the transition functions `Next`, `Finish` and `Fail` of the
`FlushMachine` module. The lemmas about whole streams (no loss, no
duplication, a single final flush) are stated over those functions.

Files: `wrappers.dfy`, `java_strings.dfy` (the `String` operations used),
`failures.dfy`, `flush_policy.dfy`, `sse.dfy`, `flush_machine.dfy`,
`streaming_handler.dfy`, `prompt_assembly.dfy`, `chat_service.dfy`,
`chat_controller.dfy`.

Behaviour of the code worth knowing:

- The handlers do not ignore tokens that arrive after a terminal call.
  Nothing stops the emitter from being terminated twice: see
  `SimpleMayTerminateTwice`.
- There is no single combined predicate. Each path has its own predicate,
  and only the plain path has the length rule.
- On the RAG path, for the tokens "Hel", "lo,", " world." the comma and
  the full stop already flush inside `onNext`. `onComplete` then sends nothing: see
  `HelloWorldOnRagPath`.
- Classification is not the same on every path. A failure that reaches
  `onError` is wrapped first, so the `instanceof` tests never match there,
  while the `catch` blocks classify the exception itself.
- Event ids are timestamps, not sequence numbers.

## Model

| member | source | states |
|---|---|---|
| JavaStrings.ContainsAt | src/main/java/egovframework/ragchat/service/impl/ChatServiceImpl.java:100-101 | `contains` holds exactly when the keyword occurs at some offset of the message |
| JavaStrings.ContainsAfterPrefix | src/main/java/egovframework/ragchat/service/impl/ChatServiceImpl.java:231 | a keyword found in a message is still found once the class name and ": " are put in front of it |
| JavaStrings.TrimEmptyIff | src/main/java/egovframework/ragchat/controller/ChatController.java:47 | `trim().isEmpty()` holds exactly when every character is at or below U+0020 |
| JavaStrings.Utf16Length | src/main/java/egovframework/ragchat/service/impl/ChatServiceImpl.java:333 | `length()` counts UTF-16 code units: at least one and at most two per character |
| JavaStrings.Show | src/main/java/egovframework/ragchat/service/impl/ChatServiceImpl.java:107 | string concatenation renders a null message as "null" |
| Failures.HandleException | src/main/java/egovframework/ragchat/service/impl/ChatServiceImpl.java:96-108 | the reply is the fixed timeout text exactly when the message is non-null and names "timeout", "timed out" or "connection", or the exception is a timeout type; otherwise it is the failure prefix followed by the message ("null" when absent) |
| Failures.PrefixedIsNotTimeout | src/main/java/egovframework/ragchat/service/impl/ChatServiceImpl.java:103-107 | no generic failure reply equals the timeout reply, so the two outcomes can be told apart |
| Failures.Describe | src/main/java/egovframework/ragchat/service/impl/ChatServiceImpl.java:231 | a cause's `toString()` starts with its class name and ends with its message when it has one |
| Failures.Wrap | src/main/java/egovframework/ragchat/service/impl/ChatServiceImpl.java:395 | `new Exception(cause)` carries the non-null message `cause.toString()` and is not a timeout type |
| Failures.WrappedClassification | src/main/java/egovframework/ragchat/service/impl/ChatServiceImpl.java:227-238 | on a wrapped cause only the text of `toString()` decides; the cause's type never matters; the generic reply carries that text |
| Failures.WrappedMessageTimeout | src/main/java/egovframework/ragchat/service/impl/ChatServiceImpl.java:391-402 | a cause whose message names a timeout keyword is reported as a timeout both wrapped and unwrapped |
| FlushPolicy.EndsWithAnySingle | src/main/java/egovframework/ragchat/service/impl/ChatServiceImpl.java:175-179 | a chain of `endsWith` tests on one-character suffixes is the same as testing the last character |
| FlushPolicy.RagFlushIff | src/main/java/egovframework/ragchat/service/impl/ChatServiceImpl.java:175-179 | the RAG predicate holds exactly when the token ends with one of the 13 ASCII marks, whatever the buffer holds; an empty token never flushes |
| FlushPolicy.SimpleFlushIff | src/main/java/egovframework/ragchat/service/impl/ChatServiceImpl.java:327-333 | the plain predicate holds exactly when the token ends with one of its 13 marks or the buffer holds at least 30 UTF-16 code units |
| FlushPolicy.SpaceAndCommaRagOnly | src/main/java/egovframework/ragchat/service/impl/ChatServiceImpl.java:327-333 | a token ending in a space or ',' flushes the RAG path and not the plain path while the plain buffer is short |
| FlushPolicy.CjkMarksSimpleOnly | src/main/java/egovframework/ragchat/service/impl/ChatServiceImpl.java:328-331 | a token ending in a full-width or CJK mark flushes the plain path and never the RAG path |
| Sse.Emitter.Send | src/main/java/egovframework/ragchat/service/impl/ChatServiceImpl.java:193 | a send delivers its event exactly when it does not throw |
| Sse.Emitter.Complete | src/main/java/egovframework/ragchat/service/impl/ChatServiceImpl.java:223 | `complete()` adds one terminal call |
| Sse.Emitter.CompleteWithError | src/main/java/egovframework/ragchat/service/impl/ChatServiceImpl.java:236 | `completeWithError` adds one terminal call |
| Sse.ErrorReport | src/main/java/egovframework/ragchat/service/impl/ChatServiceImpl.java:242-249 | the failure block terminates the emitter exactly once; if the send succeeds it delivers exactly one unnamed event with the converted classification followed by `complete()`; if not, it is `completeWithError` alone |
| Sse.ReportFailure | src/main/java/egovframework/ragchat/service/impl/ChatServiceImpl.java:277-284 | the failure block appends exactly the calls of `ErrorReport` to the emitter |
| FlushMachine.Next | src/main/java/egovframework/ragchat/service/impl/ChatServiceImpl.java:168-199 | `onNext` always extends the response by the token. With no flush, nothing is sent and the buffer grows by the token. With a flush and a good send, one event carries the converted old buffer plus the token, and the buffer empties. With a flush and a failed send, the buffer is kept; the RAG path adds no call and the plain path adds `completeWithError` |
| FlushMachine.Finish | src/main/java/egovframework/ragchat/service/impl/ChatServiceImpl.java:202-224 | `onComplete` delivers one more payload, the converted buffer as an event named "message", only if the buffer is non-empty and the send succeeds; it adds exactly one terminal call, and that last call is `complete()`; earlier calls are kept |
| FlushMachine.Fail | src/main/java/egovframework/ragchat/service/impl/ChatServiceImpl.java:226-238 | `onError` keeps earlier calls and appends exactly the error report for the wrapped cause |
| FlushMachine.FeedResponse | src/main/java/egovframework/ragchat/service/impl/ChatServiceImpl.java:171 | after any run of `onNext`, `responseBuilder` is the in-order concatenation of all tokens received |
| FlushMachine.NextConserves | src/main/java/egovframework/ragchat/service/impl/ChatServiceImpl.java:170-194 | with a lossless converter, one `onNext` moves the token's text into the buffer or the payloads and never drops or repeats it |
| FlushMachine.FeedConserves | src/main/java/egovframework/ragchat/service/impl/ChatServiceImpl.java:319-346 | with a lossless converter, the sent payloads followed by the buffer equal the earlier ones followed by all new tokens, whichever sends fail |
| FlushMachine.WholeStreamLossless | src/main/java/egovframework/ragchat/service/impl/ChatServiceImpl.java:204-223 | over a whole stream whose final send succeeds, the delivered payloads spell out exactly the response, and the last call is `complete()` |
| FlushMachine.QuietFeed | src/main/java/egovframework/ragchat/service/impl/ChatServiceImpl.java:175-195 | if no token fires the predicate, nothing is sent and the buffer holds all tokens |
| FlushMachine.QuietStreamSingleFlush | src/main/java/egovframework/ragchat/service/impl/ChatServiceImpl.java:357-387 | if no token fires the predicate, the stream is exactly one "message" event with the whole converted text, then `complete()` |
| JavaStrings.Utf16LengthAppend | src/main/java/egovframework/ragchat/service/impl/ChatServiceImpl.java:333 | the UTF-16 length of a concatenation is the sum of the lengths |
| FlushMachine.QuietByMarks | src/main/java/egovframework/ragchat/service/impl/ChatServiceImpl.java:327-333 | tokens that end in no mark of their path, on the plain path with total text under 30 UTF-16 code units, never fire the predicate |
| FlushMachine.FailIgnoresBuffer | src/main/java/egovframework/ragchat/service/impl/ChatServiceImpl.java:391-402 | what `onError` sends does not depend on the pending buffer: the buffered text is dropped |
| FlushMachine.SimpleMayTerminateTwice | src/main/java/egovframework/ragchat/service/impl/ChatServiceImpl.java:345-387 | a failed send in the plain `onNext` followed by `onComplete` terminates the emitter twice |
| FlushMachine.HelloWorldOnRagPath | src/main/java/egovframework/ragchat/service/impl/ChatServiceImpl.java:175-194 | for "Hel", "lo,", " world." the RAG path sends "Hello," and " world." from `onNext`; then `onComplete` only completes |
| StreamingHandlers.StreamingHandler.constructor | src/main/java/egovframework/ragchat/service/impl/ChatServiceImpl.java:160-163 | a handler starts with both builders empty and no tokens received |
| StreamingHandlers.StreamingHandler.OnNext | src/main/java/egovframework/ragchat/service/impl/ChatServiceImpl.java:316-352 | the in-place `onNext` of either path leaves the handler and its emitter in the state `Next` gives, and keeps `responseBuilder` equal to the concatenation of the tokens received |
| StreamingHandlers.StreamingHandler.OnComplete | src/main/java/egovframework/ragchat/service/impl/ChatServiceImpl.java:355-388 | the in-place `onComplete` leaves the state `Finish` gives; the builders are untouched |
| StreamingHandlers.StreamingHandler.OnError | src/main/java/egovframework/ragchat/service/impl/ChatServiceImpl.java:390-402 | the in-place `onError` leaves the state `Fail` gives |
| PromptAssembly.Context | src/main/java/egovframework/ragchat/service/impl/ChatServiceImpl.java:134-139 | the context is empty exactly when no document was retrieved, and otherwise ends with a blank line |
| PromptAssembly.BuildContext | src/main/java/egovframework/ragchat/service/impl/ChatServiceImpl.java:137-139 | the `forEach` loop builds exactly `Context` of the retrieved segments |
| PromptAssembly.ContextAppend | src/main/java/egovframework/ragchat/service/impl/ChatServiceImpl.java:137-139 | the context of two result lists joined is the two contexts joined |
| PromptAssembly.ContextAt | src/main/java/egovframework/ragchat/service/impl/ChatServiceImpl.java:137-139 | each segment appears in retrieval order: after the context of the earlier segments, followed by a blank line and then by the context of the later ones |
| PromptAssembly.PromptRoundTrip | src/main/java/egovframework/ragchat/service/impl/ChatServiceImpl.java:149-156 | the prompt holds the system text, the context and the query in that order and unaltered; each can be read back from its place |
| PromptAssembly.PromptInjective | src/main/java/egovframework/ragchat/service/impl/ChatServiceImpl.java:149-156 | two prompts with same-length system and context slots are equal only when all three slots are |
| ChatService.GenerateRagResponse | src/main/java/egovframework/ragchat/service/impl/ChatServiceImpl.java:37-55 | a successful answer is returned as is; a failure never escapes and comes back as the timeout reply or a prefixed failure reply |
| ChatService.GenerateSimpleResponse | src/main/java/egovframework/ragchat/service/impl/ChatServiceImpl.java:58-75 | the same for the plain chat model |
| ChatService.StreamingRagChatbot.constructor | src/main/java/egovframework/ragchat/service/impl/ChatServiceImpl.java:119-125 | the chatbot holds the given emitter and converter |
| ChatService.StreamingRagChatbot.Chat | src/main/java/egovframework/ragchat/service/impl/ChatServiceImpl.java:127-251 | on a retrieval failure, no prompt is built and the emitter gets the error report of the unwrapped exception. Otherwise the prompt embeds the system text, the context of the documents and the query. A synchronous model failure is reported the same way. Otherwise a fresh RAG handler with empty builders is bound to the emitter |
| ChatService.GenerateStreamingRagResponse | src/main/java/egovframework/ragchat/service/impl/ChatServiceImpl.java:255-288 | a fresh emitter; its calls and the handler are as for `Chat` on an emitter with no earlier calls |
| ChatService.GenerateStreamingSimpleResponse | src/main/java/egovframework/ragchat/service/impl/ChatServiceImpl.java:291-418 | a fresh emitter; the model gets the query alone; a synchronous failure gives the error report, otherwise a fresh plain handler is bound to the emitter |
| ChatController.BlankQueryIff | src/main/java/egovframework/ragchat/controller/ChatController.java:47 | a query is rejected exactly when it is null or made only of characters at or below U+0020 |
| ChatController.Chat | src/main/java/egovframework/ragchat/controller/ChatController.java:43-60 | a blank query gets 400 with `{"error": "질의가 비어있습니다"}`; any other query gets 200 with the converted RAG response |
| ChatController.SimpleChat | src/main/java/egovframework/ragchat/controller/ChatController.java:69-86 | the same gate in front of the plain response |
| ChatController.BlankQueryBypassesService | src/main/java/egovframework/ragchat/controller/ChatController.java:73-77 | for a blank query the reply does not depend on the model at all: the service is not consulted |
| ChatController.FailureIsStillOk | src/main/java/egovframework/ragchat/controller/ChatController.java:53-59 | a model failure on a valid query still yields status 200, carrying the converted classification |
| ChatController.RejectStreaming | src/main/java/egovframework/ragchat/controller/ChatController.java:143-152 | the rejection emitter receives exactly one unnamed event with the message, then `complete()`, or `completeWithError` alone if the send throws |
| ChatController.StreamingChat | src/main/java/egovframework/ragchat/controller/ChatController.java:139-158 | a blank query gets the rejection emitter and no handler; otherwise the emitter and handler are those of the streaming RAG service |
| ChatController.StreamingSimpleChat | src/main/java/egovframework/ragchat/controller/ChatController.java:168-187 | the same gate in front of the streaming plain service |
| ChatController.SetupCollection | src/main/java/egovframework/ragchat/controller/ChatController.java:94-115 | success gives 200 with `success=true` and `processedDocuments` equal to the count; failure gives 500 with `success=false`, no count, and the prefixed exception message |
| ChatController.HealthCheck | src/main/java/egovframework/ragchat/controller/ChatController.java:123-129 | always 200 with `status="online"` and `service="RAG Chat Service"` |

## Left out

- Event ids are `System.currentTimeMillis()` timestamps. They are neither deterministic nor strictly increasing, so events carry no id here.
- `SseEmitter` internals are not modelled: the 120000 ms timeout timer, the lifecycle hooks, the logging `onCompletion` hooks the controller adds, and what the emitter does when it is used after a terminal call. These belong to the framework and to concurrency. Whether each send succeeds is a boolean argument instead.
- The `CompletableFuture futureResponse` is only ever written, never read, so it is not modelled.
- The `AiServices` RAG chatbot of the blocking path does its retrieval and prompting inside the library. It is modelled as an opaque function from the query to an answer or an exception.
- The UTF-8 byte round trip in the plain `onComplete` is taken as the identity on strings. Java's handling of unpaired surrogates is not modelled.
- `MarkdownConverter.convertToHtml`, `ContentRetriever.retrieve`, `TextSegment.toString()` and the chat models are parameters. An exception thrown by the converter is not modelled, so the outer `catch` of `generateStreamingRagResponse` cannot be reached in the model: `chat` already catches everything else.
- Only `IOException` from `send` is modelled inside `onNext`. Any other exception would escape the handler.
- Logging is not modelled.
- `FlushMachine.FeedConserves` and `FlushMachine.WholeStreamLossless` assume a lossless (identity) converter, because nothing is known about the real converter.
- `ChatController.SetupCollection` takes the document count as an unbounded integer instead of a Java `int`. The ingestion service itself is a parameter.
- `RagConfig.java` (vector-store and embedding wiring), `EgovBootApplication.java` (bootstrap) and the Ollama test (needs a live server) are not part of this model. `ChatService.java` is an interface; only its method signatures are used.
