/** The token flush buffer of the two streaming handlers, as transition
    functions on a snapshot of its state: the pending buffer (`tokenBuffer`),
    the whole response so far (`responseBuilder`) and the calls made on the
    emitter. These functions specify the handler class and carry the lemmas
    about whole runs. */
module FlushMachine {
  import opened Wrappers
  import opened JavaStrings
  import opened Failures
  import opened FlushPolicy
  import opened Sse

  datatype Session = Session(buffer: string, response: string, calls: seq<EmitterCall>)

  /** A handler before its first token, on an emitter that has seen `calls`. */
  function Start(calls: seq<EmitterCall>): Session
  {
    Session([], [], calls)
  }

  /** The RAG handler sends unnamed events from `onNext`; the plain handler
      names them "message". */
  function NextEventName(v: Variant): Option<string>
  {
    match v
    case Rag => None
    case Simple => Some("message")
  }

  /** `onNext(token)`: append the token to both builders; if the flush
      predicate holds, send the converted buffer and clear it. A failed send
      leaves the buffer as it is; the RAG handler then only logs, the plain
      handler calls `completeWithError`. */
  function Next(v: Variant, convert: string -> string, s: Session, token: string, sendOk: bool): (r: Session)
    ensures r.response == s.response + token
    ensures !ShouldFlush(v, token, s.buffer + token) ==>
              r.buffer == s.buffer + token && r.calls == s.calls
    ensures ShouldFlush(v, token, s.buffer + token) && sendOk ==>
              r.buffer == [] &&
              r.calls == s.calls + [Sent(Event(NextEventName(v), convert(s.buffer + token)))]
    ensures ShouldFlush(v, token, s.buffer + token) && !sendOk ==>
              r.buffer == s.buffer + token &&
              r.calls == s.calls + (if v == Simple then [CompletedWithError] else [])
  {
    var buffer := s.buffer + token;
    var response := s.response + token;
    if !ShouldFlush(v, token, buffer) then Session(buffer, response, s.calls)
    else if sendOk then Session([], response, s.calls + [Sent(Event(NextEventName(v), convert(buffer)))])
    else if v == Simple then Session(buffer, response, s.calls + [CompletedWithError])
    else Session(buffer, response, s.calls)
  }

  /** `onComplete`: send what is left in the buffer, if anything, as an event
      named "message", then call `complete()` whether or not that send went
      through. The buffer itself is not cleared. */
  function Finish(convert: string -> string, s: Session, sendOk: bool): (r: Session)
    ensures r.buffer == s.buffer && r.response == s.response
    ensures |r.calls| > |s.calls| && r.calls[..|s.calls|] == s.calls
    ensures |r.calls| == |s.calls| + (if s.buffer != [] && sendOk then 2 else 1)
    ensures r.calls[|r.calls| - 1] == Completed
    ensures Terminations(r.calls) == Terminations(s.calls) + 1
    ensures forall k :: |s.calls| <= k < |r.calls| - 1 ==>
              r.calls[k] == Sent(Event(Some("message"), convert(s.buffer)))
    ensures Payloads(r.calls) ==
            Payloads(s.calls) + (if s.buffer != [] && sendOk then [convert(s.buffer)] else [])
  {
    if s.buffer != [] && sendOk then
      var tail := [Sent(Event(Some("message"), convert(s.buffer))), Completed];
      PayloadsAppend(s.calls, tail);
      TerminationsAppend(s.calls, tail);
      assert tail[..1] == [tail[0]] && [tail[0]][..0] == [];
      Session(s.buffer, s.response, s.calls + tail)
    else
      PayloadsAppend(s.calls, [Completed]);
      TerminationsAppend(s.calls, [Completed]);
      assert [Completed][..0] == [];
      Session(s.buffer, s.response, s.calls + [Completed])
  }

  /** `onError(cause)`: the pending buffer is dropped and the classified
      message for `new Exception(cause)` is reported instead. */
  function Fail(convert: string -> string, s: Session, cause: Cause, sendOk: bool): (r: Session)
    ensures r.buffer == s.buffer && r.response == s.response
    ensures |s.calls| <= |r.calls| && r.calls[..|s.calls|] == s.calls
    ensures r.calls[|s.calls|..] == ErrorReport(convert, Wrap(cause), sendOk)
  {
    var r := Session(s.buffer, s.response, s.calls + ErrorReport(convert, Wrap(cause), sendOk));
    assert r.calls[|s.calls|..] == ErrorReport(convert, Wrap(cause), sendOk);
    r
  }

  /** The state after `onNext` has been called with each token in turn;
      `oks[i]` says whether a send made for `tokens[i]` succeeds. */
  function Feed(v: Variant, convert: string -> string, s: Session, tokens: seq<string>, oks: seq<bool>): Session
    requires |oks| == |tokens|
    decreases |tokens|
  {
    if tokens == [] then s
    else
      var n := |tokens| - 1;
      Next(v, convert, Feed(v, convert, s, tokens[..n], oks[..n]), tokens[n], oks[n])
  }

  /** After every `onNext`, `responseBuilder` holds all tokens received so
      far, in order. */
  lemma {:induction false} FeedResponse(v: Variant, convert: string -> string, s: Session, tokens: seq<string>, oks: seq<bool>)
    requires |oks| == |tokens|
    ensures Feed(v, convert, s, tokens, oks).response == s.response + Concat(tokens)
    decreases |tokens|
  {
    if tokens != [] {
      var n := |tokens| - 1;
      FeedResponse(v, convert, s, tokens[..n], oks[..n]);
    }
  }

  /** The converter is the identity. */
  ghost predicate IsIdentity(convert: string -> string)
  {
    forall t :: convert(t) == t
  }

  /** One `onNext` with a lossless converter moves text from the token into
      the buffer or the payloads, never dropping or repeating it. */
  lemma NextConserves(v: Variant, convert: string -> string, p: Session, t: string, ok: bool)
    requires IsIdentity(convert)
    ensures var r := Next(v, convert, p, t, ok);
            Concat(Payloads(r.calls)) + r.buffer == Concat(Payloads(p.calls)) + p.buffer + t
  {
    var r := Next(v, convert, p, t, ok);
    var buffer := p.buffer + t;
    var flush := ShouldFlush(v, t, buffer);
    if flush && ok {
      assert convert(buffer) == buffer;
      var e := Sent(Event(NextEventName(v), buffer));
      assert r.calls == p.calls + [e] && r.buffer == [];
      PayloadsAppend(p.calls, [e]);
      assert Payloads([e]) == [buffer];
      ConcatAppend(Payloads(p.calls), [buffer]);
      assert Concat([buffer]) == buffer;
    } else if flush && v == Simple {
      assert r.calls == p.calls + [CompletedWithError] && r.buffer == buffer;
      PayloadsAppend(p.calls, [CompletedWithError]);
      assert Payloads([CompletedWithError]) == [];
      assert Payloads(r.calls) == Payloads(p.calls);
      assert Concat(Payloads(r.calls)) + r.buffer == Concat(Payloads(p.calls)) + (p.buffer + t);
    } else {
      assert r.calls == p.calls && r.buffer == buffer;
    }
  }

  lemma AppendAssoc(a: string, b: string, c: string)
    ensures a + b + c == a + (b + c)
  {
  }

  /** With a lossless converter, what has been sent followed by what is still
      buffered is what was there before followed by the new tokens: no text
      is lost or sent twice, whichever sends fail. */
  lemma {:induction false} FeedConserves(v: Variant, convert: string -> string, s: Session, tokens: seq<string>, oks: seq<bool>)
    requires |oks| == |tokens|
    requires IsIdentity(convert)
    ensures var r := Feed(v, convert, s, tokens, oks);
            Concat(Payloads(r.calls)) + r.buffer == Concat(Payloads(s.calls)) + s.buffer + Concat(tokens)
    decreases |tokens|
  {
    if tokens != [] {
      var n := |tokens| - 1;
      var p := Feed(v, convert, s, tokens[..n], oks[..n]);
      FeedConserves(v, convert, s, tokens[..n], oks[..n]);
      NextConserves(v, convert, p, tokens[n], oks[n]);
      assert Concat(tokens) == Concat(tokens[..n]) + tokens[n];
      AppendAssoc(Concat(Payloads(s.calls)) + s.buffer, Concat(tokens[..n]), tokens[n]);
    }
  }

  /** A whole stream with a lossless converter and a final send that goes
      through: the payloads delivered, in order, spell out exactly the
      response, and the last call is `complete()`. */
  lemma WholeStreamLossless(v: Variant, convert: string -> string, tokens: seq<string>, oks: seq<bool>)
    requires |oks| == |tokens|
    requires IsIdentity(convert)
    ensures var r := Finish(convert, Feed(v, convert, Start([]), tokens, oks), true);
            Concat(Payloads(r.calls)) == Concat(tokens) == r.response &&
            r.calls[|r.calls| - 1] == Completed
  {
    var f := Feed(v, convert, Start([]), tokens, oks);
    FeedConserves(v, convert, Start([]), tokens, oks);
    FeedResponse(v, convert, Start([]), tokens, oks);
    assert Payloads([]) == [];
    assert Concat([]) == [];
    assert Concat(Payloads(f.calls)) + f.buffer == Concat(tokens);
    var r := Finish(convert, f, true);
    if f.buffer != [] {
      assert Payloads(r.calls) == Payloads(f.calls) + [f.buffer];
      ConcatAppend(Payloads(f.calls), [f.buffer]);
      assert Concat([f.buffer]) == f.buffer;
    } else {
      assert Payloads(r.calls) == Payloads(f.calls);
    }
  }

  /** No token of the run fires the flush predicate, starting from `buffer`. */
  predicate Quiet(v: Variant, buffer: string, tokens: seq<string>)
    decreases |tokens|
  {
    tokens == [] ||
    (var n := |tokens| - 1;
     Quiet(v, buffer, tokens[..n]) && !ShouldFlush(v, tokens[n], buffer + Concat(tokens)))
  }

  /** A run in which no token fires the predicate emits nothing and only
      accumulates. */
  lemma {:induction false} QuietFeed(v: Variant, convert: string -> string, s: Session, tokens: seq<string>, oks: seq<bool>)
    requires |oks| == |tokens|
    requires Quiet(v, s.buffer, tokens)
    ensures var r := Feed(v, convert, s, tokens, oks);
            r.calls == s.calls && r.buffer == s.buffer + Concat(tokens)
    decreases |tokens|
  {
    if tokens != [] {
      var n := |tokens| - 1;
      QuietFeed(v, convert, s, tokens[..n], oks[..n]);
      ConcatAppend(tokens[..n], [tokens[n]]);
      assert tokens[..n] + [tokens[n]] == tokens;
      assert Concat([tokens[n]]) == tokens[n];
      var p := Feed(v, convert, s, tokens[..n], oks[..n]);
      assert p.buffer + tokens[n] == s.buffer + Concat(tokens);
    }
  }

  /** If no token fires the predicate, the only flush is the final one: the
      stream carries exactly one event, holding the whole text, followed by
      `complete()`. */
  lemma QuietStreamSingleFlush(v: Variant, convert: string -> string, tokens: seq<string>, oks: seq<bool>)
    requires |oks| == |tokens|
    requires Quiet(v, [], tokens)
    requires Concat(tokens) != []
    ensures Finish(convert, Feed(v, convert, Start([]), tokens, oks), true).calls ==
            [Sent(Event(Some("message"), convert(Concat(tokens)))), Completed]
  {
    QuietFeed(v, convert, Start([]), tokens, oks);
    assert [] + Concat(tokens) == Concat(tokens);
  }

  /** The marks each path flushes on. */
  function Marks(v: Variant): set<char>
  {
    match v
    case Rag => RagMarks
    case Simple => SimpleMarks
  }

  /** A run is quiet when no token ends with one of the path's marks and, on
      the plain path, the whole text stays under 30 UTF-16 code units. */
  lemma {:induction false} QuietByMarks(v: Variant, tokens: seq<string>)
    requires forall i :: 0 <= i < |tokens| ==> !EndsWithMark(tokens[i], Marks(v))
    requires v == Simple ==> Utf16Length(Concat(tokens)) < MinFlushLength
    ensures Quiet(v, [], tokens)
    decreases |tokens|
  {
    if tokens != [] {
      var n := |tokens| - 1;
      ConcatAppend(tokens[..n], [tokens[n]]);
      assert tokens[..n] + [tokens[n]] == tokens;
      assert Concat([tokens[n]]) == tokens[n];
      Utf16LengthAppend(Concat(tokens[..n]), tokens[n]);
      QuietByMarks(v, tokens[..n]);
      assert [] + Concat(tokens) == Concat(tokens);
      match v
      case Rag => RagFlushIff(tokens[n], Concat(tokens));
      case Simple => SimpleFlushIff(tokens[n], Concat(tokens));
    }
  }

  /** `onError` reports the same thing whatever is pending: the buffered text
      never reaches the client. */
  lemma FailIgnoresBuffer(convert: string -> string, s: Session, pending: string, cause: Cause, sendOk: bool)
    ensures Fail(convert, s, cause, sendOk).calls == Fail(convert, s.(buffer := pending), cause, sendOk).calls
  {
  }

  /** The plain handler can terminate an emitter twice: a failed send in
      `onNext` calls `completeWithError`, and `onComplete` later calls
      `complete()`. */
  lemma SimpleMayTerminateTwice(convert: string -> string)
    ensures Terminations(Finish(convert, Next(Simple, convert, Start([]), "안녕.", false), true).calls) == 2
  {
    var n := Next(Simple, convert, Start([]), "안녕.", false);
    assert [] + "안녕." == "안녕.";
    SimpleFlushIff("안녕.", "안녕.");
    assert n.calls == [CompletedWithError] && n.buffer == "안녕.";
    var r := Finish(convert, n, true);
    var sent := Sent(Event(Some("message"), convert("안녕.")));
    assert r.calls == [CompletedWithError, sent, Completed];
    assert r.calls[..2] == [CompletedWithError, sent];
    assert r.calls[..2][..1] == [CompletedWithError];
    assert [CompletedWithError][..0] == [];
    assert Terminations([CompletedWithError]) == 1;
    assert Terminations([CompletedWithError, sent]) == 1;
  }

  /** Feeding three tokens is three `onNext` calls in order. */
  lemma FeedThree(v: Variant, convert: string -> string, s: Session,
                  t1: string, t2: string, t3: string, ok1: bool, ok2: bool, ok3: bool)
    ensures Feed(v, convert, s, [t1, t2, t3], [ok1, ok2, ok3]) ==
            Next(v, convert, Next(v, convert, Next(v, convert, s, t1, ok1), t2, ok2), t3, ok3)
  {
    var tokens, oks := [t1, t2, t3], [ok1, ok2, ok3];
    assert tokens[..2] == [t1, t2] && oks[..2] == [ok1, ok2];
    assert tokens[..2][..1] == [t1] && oks[..2][..1] == [ok1];
    assert tokens[..2][..1][..0] == [] && oks[..2][..1][..0] == [];
    assert [t1][..0] == [] && [ok1][..0] == [];
    assert [t1, t2][..1] == [t1] && [ok1, ok2][..1] == [ok1];
    assert Feed(v, convert, s, [], []) == s;
    var f1 := Feed(v, convert, s, [t1], [ok1]);
    assert f1 == Next(v, convert, s, t1, ok1);
    var f2 := Feed(v, convert, s, [t1, t2], [ok1, ok2]);
    assert f2 == Next(v, convert, f1, t2, ok2);
  }

  /** The tokens "Hel", "lo,", " world." on the RAG path, with a converter
      that leaves the two chunks as they are: the comma and the full stop each
      flush from `onNext`, so `onComplete` finds the buffer empty and only
      completes. */
  lemma HelloWorldOnRagPath(convert: string -> string)
    requires convert("Hello,") == "Hello," && convert(" world.") == " world."
    ensures Finish(convert, Feed(Rag, convert, Start([]), ["Hel", "lo,", " world."], [true, true, true]), true).calls ==
            [Sent(Event(None, "Hello,")), Sent(Event(None, " world.")), Completed]
  {
    var s1 := HelloStep1(convert);
    var s2 := HelloStep2(convert, s1);
    var s3 := HelloStep3(convert, s2);
    FeedThree(Rag, convert, Start([]), "Hel", "lo,", " world.", true, true, true);
  }

  lemma HelloStep1(convert: string -> string) returns (s1: Session)
    ensures s1 == Next(Rag, convert, Start([]), "Hel", true)
    ensures s1.buffer == "Hel" && s1.calls == []
  {
    assert [] + "Hel" == "Hel";
    RagFlushIff("Hel", "Hel");
    s1 := Next(Rag, convert, Start([]), "Hel", true);
  }

  lemma HelloStep2(convert: string -> string, s1: Session) returns (s2: Session)
    requires convert("Hello,") == "Hello,"
    requires s1.buffer == "Hel" && s1.calls == []
    ensures s2 == Next(Rag, convert, s1, "lo,", true)
    ensures s2.buffer == [] && s2.calls == [Sent(Event(None, "Hello,"))]
  {
    assert "Hel" + "lo," == "Hello,";
    RagFlushIff("lo,", "Hello,");
    s2 := Next(Rag, convert, s1, "lo,", true);
  }

  lemma HelloStep3(convert: string -> string, s2: Session) returns (s3: Session)
    requires convert(" world.") == " world."
    requires s2.buffer == [] && s2.calls == [Sent(Event(None, "Hello,"))]
    ensures s3 == Next(Rag, convert, s2, " world.", true)
    ensures s3.buffer == [] && s3.calls == [Sent(Event(None, "Hello,")), Sent(Event(None, " world."))]
  {
    assert [] + " world." == " world.";
    RagFlushIff(" world.", " world.");
    s3 := Next(Rag, convert, s2, " world.", true);
  }
}
