/** The error classifier `handleException` of the chat service and the
    exception wrapping done by the streaming error callbacks. */
module Failures {
  import opened Wrappers
  import opened JavaStrings

  /** A Java exception as the classifier sees it: the name of its class, its
      `getMessage()` (possibly `null`), and whether it is an instance of
      `java.net.SocketTimeoutException` or
      `java.util.concurrent.TimeoutException`. */
  datatype Cause = Cause(className: string, message: Option<string>, timeoutType: bool)

  /** Reply shown when the model timed out or could not be reached. */
  const TimeoutReply: string :=
    "죄송합니다. 서버 응답 시간이 초과되었습니다.\n\n" +
    "지금 서버가 바쁨 상태이거나 질의가 너무 복잡한 것 같습니다.\n" +
    "잠시 후 다시 시도해주세요."

  /** Start of the reply for every other failure; the exception's message follows. */
  const FailurePrefix: string := "죄송합니다. 응답을 생성하는 중에 오류가 발생했습니다: "

  /** The message mentions one of the three timeout keywords (case-sensitive). */
  predicate MentionsTimeout(m: string)
  {
    Contains(m, "timeout") || Contains(m, "timed out") || Contains(m, "connection")
  }

  /** The condition of the timeout branch. The `null` check guards the whole
      disjunction, so a timeout-typed exception without a message is not
      classified as a timeout. */
  predicate IsTimeout(e: Cause)
  {
    e.message.Some? && (MentionsTimeout(e.message.value) || e.timeoutType)
  }

  /** `handleException`: the user-facing text for a failure. */
  function HandleException(e: Cause): (r: string)
    ensures r == TimeoutReply <==> IsTimeout(e)
    ensures !IsTimeout(e) ==> StartsWith(r, FailurePrefix) && r[|FailurePrefix|..] == Show(e.message)
    ensures e.message.None? ==> r == FailurePrefix + "null"
  {
    if IsTimeout(e) then TimeoutReply
    else
      PrefixedIsNotTimeout(Show(e.message));
      FailurePrefix + Show(e.message)
  }

  /** No generic failure reply can be mistaken for the timeout reply. */
  lemma PrefixedIsNotTimeout(detail: string)
    ensures FailurePrefix + detail != TimeoutReply
  {
    assert (FailurePrefix + detail)[7] == FailurePrefix[7] == '응';
    assert TimeoutReply[7] == '서';
  }

  /** `Throwable.toString()`: the class name, then ": " and the message when
      there is one. */
  function Describe(e: Cause): (r: string)
    ensures StartsWith(r, e.className)
    ensures e.message.Some? ==> EndsWith(r, e.message.value)
    ensures e.message.None? ==> r == e.className
  {
    match e.message
    case Some(m) => e.className + ": " + m
    case None => e.className
  }

  /** `new Exception(cause)`: a plain `java.lang.Exception` whose message is
      the cause's `toString()`. */
  function Wrap(cause: Cause): (w: Cause)
    ensures w.message == Some(Describe(cause))
    ensures !w.timeoutType
  {
    Cause("java.lang.Exception", Some(Describe(cause)), false)
  }

  /** On a wrapped cause the `instanceof` tests never match: the classification
      depends on the text of `cause.toString()` alone, and the generic reply
      carries that text (class name included), never "null". */
  lemma {:induction false} WrappedClassification(cause: Cause)
    ensures HandleException(Wrap(cause)) == TimeoutReply <==> MentionsTimeout(Describe(cause))
    ensures !MentionsTimeout(Describe(cause)) ==>
              HandleException(Wrap(cause)) == FailurePrefix + Describe(cause)
    ensures HandleException(Wrap(cause)) ==
            HandleException(Wrap(cause.(timeoutType := !cause.timeoutType)))
  {
    var flipped := cause.(timeoutType := !cause.timeoutType);
    assert Describe(flipped) == Describe(cause);
    if !MentionsTimeout(Describe(cause)) {
      PrefixedIsNotTimeout(Describe(cause));
    }
  }

  /** A cause whose own message names a timeout keyword is still reported as a
      timeout after wrapping, since its message ends `cause.toString()`. */
  lemma {:induction false} WrappedMessageTimeout(cause: Cause)
    requires cause.message.Some? && MentionsTimeout(cause.message.value)
    ensures HandleException(Wrap(cause)) == TimeoutReply
    ensures HandleException(cause) == TimeoutReply
  {
    var m := cause.message.value;
    var lead := cause.className + ": ";
    assert Describe(cause) == lead + m;
    if Contains(m, "timeout") {
      ContainsAfterPrefix(lead, m, "timeout");
    } else if Contains(m, "timed out") {
      ContainsAfterPrefix(lead, m, "timed out");
    } else {
      ContainsAfterPrefix(lead, m, "connection");
    }
  }
}
