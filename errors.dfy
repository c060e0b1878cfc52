/** The error hierarchy of the LLM layer: `LLMError` carries a numeric status
    code and a response text; `LLMClientError` and `LLMServerError` are
    subclasses that add no fields. */
module Errors {

  import opened Results
  import opened Text

  /** The Python class an error was raised as. */
  datatype ErrorClass = LLMErrorClass | LLMClientErrorClass | LLMServerErrorClass

  datatype LLMError = LLMError(cls: ErrorClass, statusCode: int, response: string)

  /** Anything the modelled code lets escape: an `LLMError` (or subclass), or
      some other Python exception, named by its class. */
  datatype Raised = Llm(error: LLMError) | Foreign(className: string, message: string)

  // Internal status codes (600 and up).
  const UnsupportedProvider: int := 600
  const UnexpectedError: int := 601
  const ConversionFailed: int := 602
  const FaultyResponse: int := 603
  const EmptyExecutionPlan: int := 604
  const SemaphoreMisconfigured: int := 605
  const ToolNotFound: int := 606
  const TransformFailed: int := 607

  /** The codes the client-error class documents (all 4xx). */
  const DocumentedClientCodes: seq<int> := [400, 401, 403, 404, 408, 409, 422, 429]

  /** The codes the server-error class documents (all 5xx). */
  const DocumentedServerCodes: seq<int> := [500, 501, 502, 503, 504, 505, 506, 507, 508, 510, 511, 512]

  /** `isinstance(e, C)`: every error is an `LLMError`; the subclasses only of themselves. */
  predicate IsInstance(e: LLMError, c: ErrorClass) {
    c == LLMErrorClass || e.cls == c
  }

  /** `LLMError(status_code, response="")`: the arguments are kept unchanged and no range is checked. */
  function NewLLMError(statusCode: int, response: string := ""): (e: LLMError)
    ensures IsInstance(e, LLMErrorClass) && !IsInstance(e, LLMClientErrorClass) && !IsInstance(e, LLMServerErrorClass)
    ensures e.statusCode == statusCode && e.response == response
  {
    LLMError(LLMErrorClass, statusCode, response)
  }

  /** `LLMClientError(status_code, response="")`: any code is accepted. */
  function NewClientError(statusCode: int, response: string := ""): (e: LLMError)
    ensures IsInstance(e, LLMErrorClass) && IsInstance(e, LLMClientErrorClass) && !IsInstance(e, LLMServerErrorClass)
    ensures e.statusCode == statusCode && e.response == response
  {
    LLMError(LLMClientErrorClass, statusCode, response)
  }

  /** `LLMServerError(status_code, response="")`: any code is accepted. */
  function NewServerError(statusCode: int, response: string := ""): (e: LLMError)
    ensures IsInstance(e, LLMErrorClass) && IsInstance(e, LLMServerErrorClass) && !IsInstance(e, LLMClientErrorClass)
    ensures e.statusCode == statusCode && e.response == response
  {
    LLMError(LLMServerErrorClass, statusCode, response)
  }

  /** The exception's message: `"code <status_code> -> <response>"`. */
  function Render(e: LLMError): string {
    "code " + IntToString(e.statusCode) + " -> " + e.response
  }

  /** Index of the first `c` in `s`, or `|s|` when there is none. */
  function FirstIndex(s: string, c: char): (k: nat)
    ensures k <= |s|
    ensures forall i :: 0 <= i < k ==> s[i] != c
    ensures k < |s| ==> s[k] == c
  {
    if s == [] then 0 else if s[0] == c then 0 else 1 + FirstIndex(s[1..], c)
  }

  /** Reads a rendered message back into its status code and response. */
  function ParseRendered(s: string): Option<(int, string)> {
    if |s| < 5 || s[..5] != "code " then None
    else
      var rest := s[5..];
      var k := FirstIndex(rest, ' ');
      if |rest| - k < 4 || rest[k..k + 4] != " -> " then None
      else match ParseInt(rest[..k])
        case Some(code) => Some((code, rest[k + 4..]))
        case None => None
  }

  lemma {:induction false} IntToStringHasNoSpace(i: int)
    ensures forall k :: 0 <= k < |IntToString(i)| ==> IntToString(i)[k] != ' '
  {
    var digits := if i < 0 then NatToString(-i) else NatToString(i);
    assert forall k :: 0 <= k < |digits| ==> IsDigit(digits[k]);
  }

  lemma FirstIndexAfterPrefix(prefix: string, tail: string, c: char)
    requires forall k :: 0 <= k < |prefix| ==> prefix[k] != c
    requires |tail| > 0 && tail[0] == c
    ensures FirstIndex(prefix + tail, c) == |prefix|
  {
    var s := prefix + tail;
    assert s[|prefix|] == c;
    assert forall k :: 0 <= k < |prefix| ==> s[k] == prefix[k];
  }

  /** The message determines the status code and the response. */
  lemma {:induction false} RenderRoundTrip(e: LLMError)
    ensures ParseRendered(Render(e)) == Some((e.statusCode, e.response))
  {
    var code := IntToString(e.statusCode);
    var rest := code + (" -> " + e.response);
    assert Render(e) == "code " + rest;
    assert Render(e)[..5] == "code " && Render(e)[5..] == rest;
    IntToStringHasNoSpace(e.statusCode);
    FirstIndexAfterPrefix(code, " -> " + e.response, ' ');
    assert rest[..|code|] == code;
    assert rest[|code|..|code| + 4] == " -> ";
    assert rest[|code| + 4..] == e.response;
    IntToStringRoundTrip(e.statusCode);
  }

  /** Two errors with the same message have the same code and response. */
  lemma {:induction false} RenderInjective(e1: LLMError, e2: LLMError)
    requires Render(e1) == Render(e2)
    ensures e1.statusCode == e2.statusCode && e1.response == e2.response
  {
    RenderRoundTrip(e1);
    RenderRoundTrip(e2);
  }
}
