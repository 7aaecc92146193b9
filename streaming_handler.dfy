/** The `StreamingResponseHandler` objects the two streaming paths hand to
    the model: they share two string builders and the client's emitter, and
    each callback updates them in place. */
module StreamingHandlers {
  import opened Wrappers
  import opened JavaStrings
  import opened Failures
  import opened FlushPolicy
  import opened Sse
  import opened FlushMachine

  class StreamingHandler {
    /** Which path created the handler, and so which flush predicate it uses. */
    const variant: Variant
    /** `MarkdownConverter.convertToHtml`. */
    const convert: string -> string
    /** The client's emitter. */
    const emitter: Emitter

    /** `tokenBuffer`: text received since the last successful flush. */
    var tokenBuffer: string
    /** `responseBuilder`: all text received. */
    var responseBuilder: string
    /** The tokens received so far, in order. */
    ghost var received: seq<string>

    ghost predicate Valid()
      reads this
    {
      responseBuilder == Concat(received)
    }

    /** The handler's state together with its emitter's calls. */
    function State(): Session
      reads this, emitter
    {
      Session(tokenBuffer, responseBuilder, emitter.calls)
    }

    constructor (variant: Variant, convert: string -> string, emitter: Emitter)
      ensures Valid() && received == []
      ensures this.variant == variant && this.convert == convert && this.emitter == emitter
      ensures tokenBuffer == [] && responseBuilder == []
    {
      this.variant := variant;
      this.convert := convert;
      this.emitter := emitter;
      tokenBuffer := [];
      responseBuilder := [];
      received := [];
    }

    /** `onNext(token)`; `sendOk` is false when `emitter.send` throws. */
    method OnNext(token: string, sendOk: bool)
      requires Valid()
      modifies this, emitter
      ensures Valid() && received == old(received) + [token]
      ensures State() == Next(variant, convert, old(State()), token, sendOk)
    {
      tokenBuffer := tokenBuffer + token;
      responseBuilder := responseBuilder + token;
      received := received + [token];
      ConcatAppend(old(received), [token]);
      assert Concat([token]) == token;
      var bufferContent := tokenBuffer;
      if ShouldFlush(variant, token, bufferContent) {
        var htmlContent := convert(bufferContent);
        var ok := emitter.Send(Event(NextEventName(variant), htmlContent), sendOk);
        if ok {
          tokenBuffer := [];
        } else if variant == Simple {
          emitter.CompleteWithError();
        }
      }
    }

    /** `onComplete`; `sendOk` is false when the final `emitter.send` throws. */
    method OnComplete(sendOk: bool)
      requires Valid()
      modifies emitter
      ensures Valid()
      ensures State() == Finish(convert, old(State()), sendOk)
    {
      if |tokenBuffer| > 0 {
        var remainingContent := tokenBuffer;
        var htmlContent := convert(remainingContent);
        var _ := emitter.Send(Event(Some("message"), htmlContent), sendOk);
      }
      emitter.Complete();
    }

    /** `onError(cause)`; `sendOk` is false when sending the error message throws. */
    method OnError(cause: Cause, sendOk: bool)
      requires Valid()
      modifies emitter
      ensures Valid()
      ensures State() == Fail(convert, old(State()), cause, sendOk)
    {
      ReportFailure(emitter, convert, Wrap(cause), sendOk);
    }
  }
}
