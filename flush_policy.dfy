/** The two flush predicates of the streaming handlers: when the text buffered
    so far is converted and sent to the client as one event. */
module FlushPolicy {
  import opened JavaStrings

  /** Which streaming handler is meant: the RAG path
      (`StreamingRagChatbot.chat`) or the plain path
      (`generateStreamingSimpleResponse`). */
  datatype Variant = Rag | Simple

  /** The `token.endsWith(...)` arguments of the RAG handler, in source order. */
  const RagSuffixes: seq<string> :=
    [".", "\n", " ", "!", "?", "\t", "\r", ";", ":", ",", ")", "]", "}"]

  /** The `token.endsWith(...)` arguments of the plain handler, in source
      order; "." is tested twice there. */
  const SimpleSuffixes: seq<string> :=
    [".", "\n", "\r", "\t", "，", "。", "、", "…", "‥", "？", "！", ".", "!", "?"]

  /** The plain handler also flushes once the buffer holds this many UTF-16
      code units. */
  const MinFlushLength: nat := 30

  /** The characters that end a flushing token on each path. */
  const RagMarks: set<char> :=
    {'.', '\n', ' ', '!', '?', '\t', '\r', ';', ':', ',', ')', ']', '}'}
  const SimpleMarks: set<char> :=
    {'.', '\n', '\r', '\t', '，', '。', '、', '…', '‥', '？', '！', '!', '?'}

  /** `s.endsWith(x1) || s.endsWith(x2) || ...` over the given suffixes. */
  predicate EndsWithAny(s: string, suffixes: seq<string>)
  {
    exists i :: 0 <= i < |suffixes| && EndsWith(s, suffixes[i])
  }

  /** The last character of `s` is one of `marks`. */
  predicate EndsWithMark(s: string, marks: set<char>)
  {
    |s| > 0 && s[|s| - 1] in marks
  }

  /** The flush condition of `onNext`, tested after `token` has been appended
      and `buffer` is the buffer's content at that point. */
  predicate ShouldFlush(v: Variant, token: string, buffer: string)
  {
    match v
    case Rag => EndsWithAny(token, RagSuffixes)
    case Simple => EndsWithAny(token, SimpleSuffixes) || Utf16Length(buffer) >= MinFlushLength
  }

  /** A list of one-character suffixes is tested exactly by looking at the
      last character. */
  lemma EndsWithAnySingle(s: string, suffixes: seq<string>, marks: set<char>)
    requires forall i :: 0 <= i < |suffixes| ==> |suffixes[i]| == 1 && suffixes[i][0] in marks
    requires forall c :: c in marks ==> [c] in suffixes
    ensures EndsWithAny(s, suffixes) <==> EndsWithMark(s, marks)
  {
    if EndsWithAny(s, suffixes) {
      var i :| 0 <= i < |suffixes| && EndsWith(s, suffixes[i]);
      assert s[|s| - 1..][0] == suffixes[i][0];
    }
    if EndsWithMark(s, marks) {
      var c := s[|s| - 1];
      var i :| 0 <= i < |suffixes| && suffixes[i] == [c];
      assert EndsWith(s, suffixes[i]);
    }
  }

  /** The RAG predicate fires exactly when the token ends with one of the
      thirteen ASCII marks, whatever the buffer holds; an empty token never
      fires it. */
  lemma RagFlushIff(token: string, buffer: string)
    ensures ShouldFlush(Rag, token, buffer) <==> EndsWithMark(token, RagMarks)
    ensures token == [] ==> !ShouldFlush(Rag, token, buffer)
  {
    EndsWithAnySingle(token, RagSuffixes, RagMarks);
  }

  /** The plain predicate fires exactly when the token ends with one of its
      marks or the buffer has reached 30 UTF-16 code units. */
  lemma SimpleFlushIff(token: string, buffer: string)
    ensures ShouldFlush(Simple, token, buffer) <==>
            EndsWithMark(token, SimpleMarks) || Utf16Length(buffer) >= MinFlushLength
  {
    EndsWithAnySingle(token, SimpleSuffixes, SimpleMarks);
  }

  /** A token ending in a space or a comma flushes the RAG path but not the
      plain path while the plain buffer is short. */
  lemma SpaceAndCommaRagOnly(token: string, buffer: string)
    requires |token| > 0 && token[|token| - 1] in {' ', ','}
    requires Utf16Length(buffer) < MinFlushLength
    ensures ShouldFlush(Rag, token, buffer)
    ensures !ShouldFlush(Simple, token, buffer)
  {
    RagFlushIff(token, buffer);
    SimpleFlushIff(token, buffer);
  }

  /** A token ending in a full-width or CJK mark flushes the plain path but
      never the RAG path. */
  lemma CjkMarksSimpleOnly(token: string, buffer: string)
    requires |token| > 0 && token[|token| - 1] in {'，', '。', '、', '…', '‥', '？', '！'}
    ensures ShouldFlush(Simple, token, buffer)
    ensures !ShouldFlush(Rag, token, buffer)
  {
    RagFlushIff(token, buffer);
    SimpleFlushIff(token, buffer);
  }
}
