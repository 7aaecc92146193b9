/** The server-sent-event channel (`SseEmitter`) as the chat core uses it:
    events carrying a payload and an optional name, sends that may fail with
    an `IOException`, and the two terminal calls. */
module Sse {
  import opened Wrappers
  import opened Failures

  /** One server-sent event. Its `id` (a wall-clock timestamp) is not modelled. */
  datatype Event = Event(name: Option<string>, data: string)

  /** A call the core made on an emitter that took effect. */
  datatype EmitterCall = Sent(event: Event) | Completed | CompletedWithError

  /** The payloads of the events delivered, in order. */
  function Payloads(calls: seq<EmitterCall>): (r: seq<string>)
    ensures |r| <= |calls|
  {
    if calls == [] then []
    else Payloads(calls[..|calls| - 1]) +
         (match calls[|calls| - 1]
          case Sent(e) => [e.data]
          case _ => [])
  }

  lemma {:induction false} PayloadsAppend(a: seq<EmitterCall>, b: seq<EmitterCall>)
    ensures Payloads(a + b) == Payloads(a) + Payloads(b)
    decreases |b|
  {
    if b == [] {
      assert a + b == a;
    } else {
      assert (a + b)[..|a + b| - 1] == a + b[..|b| - 1];
      PayloadsAppend(a, b[..|b| - 1]);
    }
  }

  /** The number of terminal calls (`complete` or `completeWithError`). */
  function Terminations(calls: seq<EmitterCall>): (n: nat)
    ensures n <= |calls|
  {
    if calls == [] then 0
    else Terminations(calls[..|calls| - 1]) + (if calls[|calls| - 1].Sent? then 0 else 1)
  }

  /** Terminal calls add up over a concatenation of call lists. */
  lemma {:induction false} TerminationsAppend(a: seq<EmitterCall>, b: seq<EmitterCall>)
    ensures Terminations(a + b) == Terminations(a) + Terminations(b)
    decreases |b|
  {
    if b == [] {
      assert a + b == a;
    } else {
      assert (a + b)[..|a + b| - 1] == a + b[..|b| - 1];
      TerminationsAppend(a, b[..|b| - 1]);
    }
  }

  /** The emitter of one client connection, seen through the calls that took
      effect on it. */
  class Emitter {
    var calls: seq<EmitterCall>

    constructor ()
      ensures calls == []
    {
      calls := [];
    }

    /** `send(event)`; `accepted` is false when the transport throws an
        `IOException`, in which case nothing is delivered. */
    method Send(event: Event, accepted: bool) returns (ok: bool)
      modifies this
      ensures ok == accepted
      ensures calls == old(calls) + (if accepted then [Sent(event)] else [])
    {
      ok := accepted;
      if accepted {
        calls := calls + [Sent(event)];
      }
    }

    /** `complete()`. */
    method Complete()
      modifies this
      ensures calls == old(calls) + [Completed]
    {
      calls := calls + [Completed];
    }

    /** `completeWithError(e)`. */
    method CompleteWithError()
      modifies this
      ensures calls == old(calls) + [CompletedWithError]
    {
      calls := calls + [CompletedWithError];
    }
  }

  /** What the recurring failure block leaves on an emitter: an unnamed event
      with the converted classification of `e`, then `complete()`; or, when
      that send throws, `completeWithError` alone. */
  function ErrorReport(convert: string -> string, e: Cause, accepted: bool): (r: seq<EmitterCall>)
    ensures Terminations(r) == 1 && !r[|r| - 1].Sent?
    ensures |r| == (if accepted then 2 else 1)
    ensures accepted ==> Payloads(r) == [convert(HandleException(e))] && r[0].Sent? && r[0].event.name.None?
    ensures accepted ==> r[1] == Completed
    ensures !accepted ==> Payloads(r) == [] && r == [CompletedWithError]
  {
    if accepted then [Sent(Event(None, convert(HandleException(e)))), Completed]
    else [CompletedWithError]
  }

  /** The failure block itself: classify, convert, send, then complete, or
      complete with the error when the send throws. */
  method ReportFailure(emitter: Emitter, convert: string -> string, e: Cause, accepted: bool)
    modifies emitter
    ensures emitter.calls == old(emitter.calls) + ErrorReport(convert, e, accepted)
  {
    var errorMessage := HandleException(e);
    var htmlError := convert(errorMessage);
    var ok := emitter.Send(Event(None, htmlError), accepted);
    if ok {
      emitter.Complete();
    } else {
      emitter.CompleteWithError();
    }
  }
}
