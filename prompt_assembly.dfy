/** How the streaming RAG path turns the retrieved documents and the user's
    query into the single prompt it gives the model. */
module PromptAssembly {
  import opened Wrappers
  import opened JavaStrings

  /** What follows each document in the context. */
  const DocumentSeparator: string := "\n\n"

  /** The context for the retrieved segments, in retrieval order: each
      segment's text followed by a blank line. */
  function Context(segments: seq<string>): (r: string)
    ensures segments == [] <==> r == []
    ensures segments != [] ==> EndsWith(r, DocumentSeparator)
  {
    if segments == [] then []
    else Context(segments[..|segments| - 1]) + segments[|segments| - 1] + DocumentSeparator
  }

  /** The `forEach` loop that appends every segment and a blank line to
      `contextBuilder`. */
  method BuildContext(segments: seq<string>) returns (context: string)
    ensures context == Context(segments)
  {
    var contextBuilder := [];
    var i := 0;
    while i < |segments|
      invariant 0 <= i <= |segments|
      invariant contextBuilder == Context(segments[..i])
    {
      assert segments[..i + 1][..i] == segments[..i];
      contextBuilder := contextBuilder + segments[i] + DocumentSeparator;
      i := i + 1;
    }
    assert segments[..i] == segments;
    context := contextBuilder;
  }

  /** The context of a concatenation of result lists is the concatenation of
      their contexts. */
  lemma {:induction false} ContextAppend(a: seq<string>, b: seq<string>)
    ensures Context(a + b) == Context(a) + Context(b)
    decreases |b|
  {
    if b == [] {
      assert a + b == a;
    } else {
      var n := |b| - 1;
      assert (a + b)[..|a + b| - 1] == a + b[..n];
      assert (a + b)[|a + b| - 1] == b[n];
      ContextAppend(a, b[..n]);
      var ca, cb, tail := Context(a), Context(b[..n]), b[n] + DocumentSeparator;
      assert Context(a + b) == (ca + cb) + tail;
      assert Context(b) == cb + tail;
      assert (ca + cb) + tail == ca + (cb + tail);
    }
  }

  /** Each retrieved segment sits in the context right after the context of
      the segments before it, followed by a blank line and then by the
      context of the segments after it. */
  lemma ContextAt(segments: seq<string>, i: nat)
    requires i < |segments|
    ensures Context(segments) ==
            Context(segments[..i]) + segments[i] + DocumentSeparator + Context(segments[i + 1..])
  {
    var before, x, after := segments[..i], segments[i], segments[i + 1..];
    SplitAt(segments, i);
    ContextAppend(before + [x], after);
    ContextAppend(before, [x]);
    ContextSingle(x);
    var cb, ca := Context(before), Context(after);
    assert Context(segments) == (cb + (x + DocumentSeparator)) + ca;
    assert cb + (x + DocumentSeparator) == cb + x + DocumentSeparator;
  }

  lemma SplitAt(segments: seq<string>, i: nat)
    requires i < |segments|
    ensures segments == (segments[..i] + [segments[i]]) + segments[i + 1..]
  {
    assert segments[..i + 1] == segments[..i] + [segments[i]];
  }

  lemma ContextSingle(x: string)
    ensures Context([x]) == x + DocumentSeparator
  {
    assert [x][..0] == [];
  }

  /** The fixed system instruction, as the Java text block yields it: four
      lines, each indented by four spaces and ended by a line break. */
  const SystemPrompt: string :=
    "    당신은 지식 기반 질의응답 시스템입니다.\n" +
    "    사용자의 질문에 대해 제공된 문서 내용을 기반으로 정확하고 도움이 되는 답변을 제공하세요.\n" +
    "    제공된 문서에 관련 정보가 없는 경우, 솔직하게 모른다고 답변하세요.\n" +
    "    답변은 한국어로 제공하세요.\n"

  /** The fixed parts of the prompt template around its three `%s` slots,
      after the text block's common indentation of six tabs is removed. */
  const SystemLead: string := "\t\t\t\t    시스템: "
  const ContextLead: string := "\n\n\t\t\t\t    컨텍스트:\n"
  const QueryLead: string := "\n\n\t\t\t\t    사용자: "
  const PromptEnd: string := "\n"

  /** `fullPrompt`: the template filled with the system text, the context and
      the query. */
  function FullPrompt(system: string, context: string, query: string): string
  {
    SystemLead + system + ContextLead + context + QueryLead + query + PromptEnd
  }

  /** Reads the three slots back out of a prompt, given the lengths of the
      first two; `None` if the fixed parts are not where the template puts
      them. */
  function ParsePrompt(prompt: string, systemLength: nat, contextLength: nat): Option<(string, string, string)>
  {
    var a := |SystemLead|;
    var b := a + systemLength;
    var c := b + |ContextLead|;
    var d := c + contextLength;
    var e := d + |QueryLead|;
    if e + |PromptEnd| <= |prompt| && prompt[..a] == SystemLead && prompt[b..c] == ContextLead &&
       prompt[d..e] == QueryLead && prompt[|prompt| - |PromptEnd|..] == PromptEnd
    then Some((prompt[a..b], prompt[c..d], prompt[e..|prompt| - |PromptEnd|]))
    else None
  }

  /** The prompt holds the system text, the context and the query, in that
      order and unaltered: each can be read back from its place. */
  lemma PromptRoundTrip(system: string, context: string, query: string)
    ensures ParsePrompt(FullPrompt(system, context, query), |system|, |context|) == Some((system, context, query))
  {
    var p := FullPrompt(system, context, query);
    var a := |SystemLead|;
    var b := a + |system|;
    var c := b + |ContextLead|;
    var d := c + |context|;
    var e := d + |QueryLead|;
    assert p[..a] == SystemLead;
    assert p[a..b] == system;
    assert p[b..c] == ContextLead;
    assert p[c..d] == context;
    assert p[d..e] == QueryLead;
    assert p[e..|p| - 1] == query;
    assert p[|p| - 1..] == PromptEnd;
  }

  /** Two prompts built from slots of the same lengths are equal only when
      all three slots are. */
  lemma PromptInjective(s1: string, c1: string, q1: string, s2: string, c2: string, q2: string)
    requires |s1| == |s2| && |c1| == |c2|
    requires FullPrompt(s1, c1, q1) == FullPrompt(s2, c2, q2)
    ensures s1 == s2 && c1 == c2 && q1 == q2
  {
    PromptRoundTrip(s1, c1, q1);
    PromptRoundTrip(s2, c2, q2);
  }
}
