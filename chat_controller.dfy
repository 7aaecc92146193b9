/** The REST controller in front of the chat service: the blank-query gate of
    the four chat endpoints, and the result maps of `/setup` and `/health`. */
module ChatController {
  import opened Wrappers
  import opened JavaStrings
  import opened Failures
  import opened Sse
  import opened StreamingHandlers
  import opened ChatService

  /** A value in a JSON result map. */
  datatype Json = Text(text: string) | Flag(flag: bool) | Number(number: int)

  /** A response body: a `ChatResponse` or a string-keyed map. */
  datatype Body = Answer(response: string) | Fields(fields: map<string, Json>)

  /** A `ResponseEntity`: an HTTP status and a body. */
  datatype Reply = Reply(status: int, body: Body)

  const EmptyQueryMessage: string := "질의가 비어있습니다"

  /** `query == null || query.trim().isEmpty()`. */
  predicate IsBlankQuery(query: Option<string>)
  {
    query.None? || Trim(query.value) == []
  }

  /** A query is rejected exactly when it is missing or made only of
      characters at or below U+0020. */
  lemma BlankQueryIff(query: Option<string>)
    ensures IsBlankQuery(query) <==> query.None? || AllTrimmable(query.value)
  {
    if query.Some? {
      TrimEmptyIff(query.value);
    }
  }

  /** `POST /api/chat`: reject a blank query with 400, otherwise answer with
      the converted RAG response. */
  function Chat(query: Option<string>, chatbot: string -> Result<string, Cause>, convert: string -> string): (r: Reply)
    ensures IsBlankQuery(query) ==>
              r.status == 400 && r.body == Fields(map["error" := Text(EmptyQueryMessage)])
    ensures !IsBlankQuery(query) ==>
              r.status == 200 && r.body == Answer(convert(GenerateRagResponse(query.value, chatbot)))
  {
    if IsBlankQuery(query) then Reply(400, Fields(map["error" := Text(EmptyQueryMessage)]))
    else Reply(200, Answer(convert(GenerateRagResponse(query.value, chatbot))))
  }

  /** `POST /api/chat/simple`: the same gate in front of the plain chat. */
  function SimpleChat(query: Option<string>, model: string -> Result<string, Cause>, convert: string -> string): (r: Reply)
    ensures IsBlankQuery(query) ==>
              r.status == 400 && r.body == Fields(map["error" := Text(EmptyQueryMessage)])
    ensures !IsBlankQuery(query) ==>
              r.status == 200 && r.body == Answer(convert(GenerateSimpleResponse(query.value, model)))
  {
    if IsBlankQuery(query) then Reply(400, Fields(map["error" := Text(EmptyQueryMessage)]))
    else Reply(200, Answer(convert(GenerateSimpleResponse(query.value, model))))
  }

  /** A blank query never reaches the service: the reply is the same
      whatever the model would have done. */
  lemma BlankQueryBypassesService(query: Option<string>, convert: string -> string,
                                  m1: string -> Result<string, Cause>, m2: string -> Result<string, Cause>)
    requires IsBlankQuery(query)
    ensures Chat(query, m1, convert) == Chat(query, m2, convert)
    ensures SimpleChat(query, m1, convert) == SimpleChat(query, m2, convert)
  {
  }

  /** A model failure on a non-blank query is still a 200 reply, whose body is
      the converted classification of the failure. */
  lemma FailureIsStillOk(query: string, convert: string -> string, model: string -> Result<string, Cause>)
    requires !IsBlankQuery(Some(query)) && model(query).Failure?
    ensures Chat(Some(query), model, convert) == Reply(200, Answer(convert(HandleException(model(query).error))))
    ensures SimpleChat(Some(query), model, convert) == Chat(Some(query), model, convert)
  {
  }

  /** The emitter a streaming endpoint returns for a blank query: one unnamed
      event with the message, then `complete()`; `completeWithError` alone if
      that send throws. */
  method RejectStreaming(sendOk: bool) returns (emitter: Emitter)
    ensures fresh(emitter)
    ensures emitter.calls ==
            if sendOk then [Sent(Event(None, EmptyQueryMessage)), Completed] else [CompletedWithError]
  {
    emitter := new Emitter();
    var ok := emitter.Send(Event(None, EmptyQueryMessage), sendOk);
    if ok {
      emitter.Complete();
    } else {
      emitter.CompleteWithError();
    }
  }

  /** `POST /api/chat/streaming`: a blank query gets the rejection emitter
      and no handler; any other query gets exactly what
      `generateStreamingRagResponse` returns. */
  method StreamingChat(query: Option<string>, retrieved: Result<seq<string>, Cause>,
                       generateFailure: Option<Cause>, sendOk: bool, convert: string -> string)
    returns (emitter: Emitter, handler: StreamingHandler?)
    ensures fresh(emitter)
    ensures IsBlankQuery(query) ==>
              handler == null &&
              emitter.calls == if sendOk then [Sent(Event(None, EmptyQueryMessage)), Completed] else [CompletedWithError]
    ensures !IsBlankQuery(query) && retrieved.Failure? ==>
              handler == null && emitter.calls == ErrorReport(convert, retrieved.error, sendOk)
    ensures !IsBlankQuery(query) && retrieved.Success? && generateFailure.Some? ==>
              handler == null && emitter.calls == ErrorReport(convert, generateFailure.value, sendOk)
    ensures !IsBlankQuery(query) && retrieved.Success? && generateFailure.None? ==>
              handler != null && fresh(handler) && handler.emitter == emitter &&
              handler.variant == FlushPolicy.Rag && handler.convert == convert &&
              handler.Valid() && handler.received == [] && handler.State() == FlushMachine.Start([])
  {
    if IsBlankQuery(query) {
      emitter := RejectStreaming(sendOk);
      handler := null;
    } else {
      var prompt;
      emitter, prompt, handler := GenerateStreamingRagResponse(query.value, retrieved, generateFailure, sendOk, convert);
    }
  }

  /** `POST /api/chat/streaming/simple`: the same gate in front of
      `generateStreamingSimpleResponse`. */
  method StreamingSimpleChat(query: Option<string>, generateFailure: Option<Cause>, sendOk: bool,
                             convert: string -> string)
    returns (emitter: Emitter, handler: StreamingHandler?)
    ensures fresh(emitter)
    ensures IsBlankQuery(query) ==>
              handler == null &&
              emitter.calls == if sendOk then [Sent(Event(None, EmptyQueryMessage)), Completed] else [CompletedWithError]
    ensures !IsBlankQuery(query) && generateFailure.Some? ==>
              handler == null && emitter.calls == ErrorReport(convert, generateFailure.value, sendOk)
    ensures !IsBlankQuery(query) && generateFailure.None? ==>
              handler != null && fresh(handler) && handler.emitter == emitter &&
              handler.variant == FlushPolicy.Simple && handler.convert == convert &&
              handler.Valid() && handler.received == [] && handler.State() == FlushMachine.Start([])
  {
    if IsBlankQuery(query) {
      emitter := RejectStreaming(sendOk);
      handler := null;
    } else {
      var userMessage;
      emitter, userMessage, handler := GenerateStreamingSimpleResponse(query.value, generateFailure, sendOk, convert);
    }
  }

  const SetupDoneMessage: string := "컬렉션 생성 및 문서 임베딩 완료"
  const SetupFailurePrefix: string := "컬렉션 생성 중 오류 발생: "

  /** `POST /api/chat/setup`: `ingestion` is the document count returned by
      the ingestion service, or the exception it throws. */
  function SetupCollection(ingestion: Result<int, Cause>): (r: Reply)
    ensures r.body.Fields? && "success" in r.body.fields && "message" in r.body.fields
    ensures r.body.fields["success"] == Flag(ingestion.Success?)
    ensures ingestion.Success? ==>
              r.status == 200 && r.body.fields["message"] == Text(SetupDoneMessage) &&
              "processedDocuments" in r.body.fields &&
              r.body.fields["processedDocuments"] == Number(ingestion.value)
    ensures ingestion.Failure? ==>
              r.status == 500 && "processedDocuments" !in r.body.fields &&
              r.body.fields["message"] == Text(SetupFailurePrefix + Show(ingestion.error.message))
  {
    match ingestion
    case Success(processedCount) =>
      Reply(200, Fields(map["success" := Flag(true), "message" := Text(SetupDoneMessage),
                            "processedDocuments" := Number(processedCount)]))
    case Failure(e) =>
      Reply(500, Fields(map["success" := Flag(false), "message" := Text(SetupFailurePrefix + Show(e.message))]))
  }

  /** `GET /api/chat/health`: always online. */
  function HealthCheck(): (r: Reply)
    ensures r.status == 200
    ensures r.body == Fields(map["status" := Text("online"), "service" := Text("RAG Chat Service")])
  {
    Reply(200, Fields(map["status" := Text("online"), "service" := Text("RAG Chat Service")]))
  }
}
