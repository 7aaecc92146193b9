/** The chat service: the two blocking calls with their catch-all fallback,
    and the two streaming entry points that set up an emitter and a handler. */
module ChatService {
  import opened Wrappers
  import opened JavaStrings
  import opened Failures
  import opened FlushPolicy
  import opened Sse
  import opened FlushMachine
  import opened StreamingHandlers
  import opened PromptAssembly

  /** `generateRagResponse`: `chatbot(query)` stands for the library's RAG
      chatbot, which either answers or throws; a failure never escapes and is
      returned as its classified text. */
  function GenerateRagResponse(query: string, chatbot: string -> Result<string, Cause>): (r: string)
    ensures chatbot(query).Success? ==> r == chatbot(query).value
    ensures chatbot(query).Failure? ==> r == HandleException(chatbot(query).error)
    ensures chatbot(query).Failure? ==> r == TimeoutReply || StartsWith(r, FailurePrefix)
  {
    match chatbot(query)
    case Success(response) => response
    case Failure(e) => HandleException(e)
  }

  /** `generateSimpleResponse`: the query alone goes to the chat model as a
      user message; a failure is returned as its classified text. */
  function GenerateSimpleResponse(query: string, model: string -> Result<string, Cause>): (r: string)
    ensures model(query).Success? ==> r == model(query).value
    ensures model(query).Failure? ==> r == HandleException(model(query).error)
    ensures model(query).Failure? ==> r == TimeoutReply || StartsWith(r, FailurePrefix)
  {
    match model(query)
    case Success(text) => text
    case Failure(e) => HandleException(e)
  }

  /** `StreamingRagChatbot`: retrieves documents, builds the prompt and
      registers a RAG handler with the streaming model. */
  class StreamingRagChatbot {
    const emitter: Emitter
    const convert: string -> string

    constructor (emitter: Emitter, convert: string -> string)
      ensures this.emitter == emitter && this.convert == convert
    {
      this.emitter := emitter;
      this.convert := convert;
    }

    /** `chat(query)`. `retrieved` is what the retriever returns for the query
        (each document as its segment's `toString()`, left uninterpreted) or the exception it throws;
        `generateFailure` is an exception `model.generate` throws before any
        callback; `sendOk` says whether sending an error event succeeds. On
        success the prompt and the fresh handler the model will call back are
        returned. */
    method Chat(query: string, retrieved: Result<seq<string>, Cause>, generateFailure: Option<Cause>, sendOk: bool)
      returns (prompt: Option<string>, handler: StreamingHandler?)
      modifies emitter
      ensures retrieved.Failure? ==>
                prompt.None? && handler == null &&
                emitter.calls == old(emitter.calls) + ErrorReport(convert, retrieved.error, sendOk)
      ensures retrieved.Success? ==>
                prompt == Some(FullPrompt(SystemPrompt, Context(retrieved.value), query))
      ensures retrieved.Success? && generateFailure.Some? ==>
                handler == null &&
                emitter.calls == old(emitter.calls) + ErrorReport(convert, generateFailure.value, sendOk)
      ensures retrieved.Success? && generateFailure.None? ==>
                handler != null && fresh(handler) &&
                handler.variant == Rag && handler.convert == convert && handler.emitter == emitter &&
                handler.Valid() && handler.received == [] && handler.State() == Start(old(emitter.calls))
    {
      match retrieved {
        case Failure(e) =>
          ReportFailure(emitter, convert, e, sendOk);
          prompt, handler := None, null;
        case Success(documents) =>
          var context := BuildContext(documents);
          var fullPrompt := FullPrompt(SystemPrompt, context, query);
          prompt := Some(fullPrompt);
          match generateFailure {
            case Some(e) =>
              ReportFailure(emitter, convert, e, sendOk);
              handler := null;
            case None =>
              handler := new StreamingHandler(Rag, convert, emitter);
          }
      }
    }
  }

  /** `generateStreamingRagResponse`: a fresh emitter and a
      `StreamingRagChatbot` over it. */
  method GenerateStreamingRagResponse(query: string, retrieved: Result<seq<string>, Cause>,
                                      generateFailure: Option<Cause>, sendOk: bool, convert: string -> string)
    returns (emitter: Emitter, prompt: Option<string>, handler: StreamingHandler?)
    ensures fresh(emitter)
    ensures retrieved.Failure? ==>
              prompt.None? && handler == null && emitter.calls == ErrorReport(convert, retrieved.error, sendOk)
    ensures retrieved.Success? ==>
              prompt == Some(FullPrompt(SystemPrompt, Context(retrieved.value), query))
    ensures retrieved.Success? && generateFailure.Some? ==>
              handler == null && emitter.calls == ErrorReport(convert, generateFailure.value, sendOk)
    ensures retrieved.Success? && generateFailure.None? ==>
              handler != null && fresh(handler) &&
              handler.variant == Rag && handler.convert == convert && handler.emitter == emitter &&
              handler.Valid() && handler.received == [] && handler.State() == Start([])
  {
    emitter := new Emitter();
    var chatbot := new StreamingRagChatbot(emitter, convert);
    prompt, handler := chatbot.Chat(query, retrieved, generateFailure, sendOk);
  }

  /** `generateStreamingSimpleResponse`: a fresh emitter and a plain handler
      registered with the streaming model, which receives the query alone. */
  method GenerateStreamingSimpleResponse(query: string, generateFailure: Option<Cause>, sendOk: bool,
                                         convert: string -> string)
    returns (emitter: Emitter, userMessage: string, handler: StreamingHandler?)
    ensures fresh(emitter)
    ensures userMessage == query
    ensures generateFailure.Some? ==>
              handler == null && emitter.calls == ErrorReport(convert, generateFailure.value, sendOk)
    ensures generateFailure.None? ==>
              handler != null && fresh(handler) &&
              handler.variant == Simple && handler.convert == convert && handler.emitter == emitter &&
              handler.Valid() && handler.received == [] && handler.State() == Start([])
  {
    emitter := new Emitter();
    userMessage := query;
    match generateFailure {
      case Some(e) =>
        ReportFailure(emitter, convert, e, sendOk);
        handler := null;
      case None =>
        handler := new StreamingHandler(Simple, convert, emitter);
    }
  }
}
