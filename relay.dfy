/** What the two forwarding proxies (the application's API route and the
    server-rendered site's `/chat` handler) share: the request they receive,
    the upstream call they make, what the upstream can come back with, the
    response they send, and the ordered extraction of a reply from the
    upstream body. */
module Relay {
  import opened Js
  import opened Chat

  /** The configuration read from the environment: `ZO_API_KEY` and
      `ZO_API_URL` (`None` when unset). */
  datatype Config = Config(apiKey: Option<string>, apiUrl: Option<string>)

  /** The destructured request body `{message, context, history}`; each
      field is `None` when the body lacks it. The proxies never look inside
      them. */
  datatype Request = Request(message: Option<string>, context: Option<string>, history: Option<seq<HistoryEntry>>)

  /** The JSON a client sends for one of its requests. */
  function Encode(r: ChatRequest): (body: Request)
    ensures body.message == Some(r.message) && body.history == Some(r.history)
    ensures body.context == Some(ContextName(r.context))
  {
    Request(Some(r.message), Some(ContextName(r.context)), Some(r.history))
  }

  /** The one upstream POST: its URL, its `Authorization` header and its
      JSON body. */
  datatype UpstreamCall = UpstreamCall(url: string, authorization: string, body: Request)

  /** The four fields the reply may come in, in the upstream's JSON body. */
  datatype ReplyFields = ReplyFields(reply: Option<string>, response: Option<string>, message: Option<string>, content: Option<string>)

  /** What the upstream call came back with: `fetch` threw, or a response
      with its status, its body text (read only on failure, and only
      logged) and its body parsed as JSON (`None` when `response.json()`
      throws). */
  datatype Upstream =
    | Unreachable
    | Answered(status: nat, text: string, json: Option<ReplyFields>)

  /** `response.ok`. */
  predicate Ok(status: nat) {
    200 <= status <= 299
  }

  /** The JSON body of a proxy response. `ReplyBody(None)` is `{reply:
      undefined}`, which serialises as `{}`. */
  datatype Body = ErrorBody(error: string) | ReplyBody(reply: Option<string>)

  /** A handler's result: a JSON response with its status, or an exception
      that escapes the handler to the framework. */
  datatype Response = Json(status: nat, body: Body) | Uncaught

  /** `c0 || c1 || ... || cn`: the first truthy candidate, or the last
      candidate as it is when none before it is truthy. */
  function FirstTruthy(candidates: seq<Option<string>>): (r: Option<string>)
    requires candidates != []
    ensures r in candidates
    ensures Truthy(r) || r == candidates[|candidates| - 1]
  {
    if |candidates| == 1 || Truthy(candidates[0]) then candidates[0] else FirstTruthy(candidates[1..])
  }

  /** `FirstTruthy` picks the candidate at the first truthy position, and
      the last candidate when no earlier one is truthy. */
  lemma {:induction false} FirstTruthyPicksFirst(candidates: seq<Option<string>>, i: nat)
    requires i < |candidates|
    requires forall j :: 0 <= j < i ==> !Truthy(candidates[j])
    requires Truthy(candidates[i]) || i == |candidates| - 1
    ensures FirstTruthy(candidates) == candidates[i]
  {
    if i > 0 {
      var rest := candidates[1..];
      assert forall j :: 0 <= j < i - 1 ==> rest[j] == candidates[j + 1];
      FirstTruthyPicksFirst(rest, i - 1);
    }
  }

  /** The candidate fields, in the order the handlers probe them. */
  function ReplyCandidates(f: ReplyFields): seq<Option<string>> {
    [f.reply, f.response, f.message, f.content]
  }

  /** `data.reply || data.response || data.message || data.content`: one of
      the four fields, and a truthy one unless it is `content`. */
  function ExtractReply(f: ReplyFields): (r: Option<string>)
    ensures r == f.reply || r == f.response || r == f.message || r == f.content
    ensures Truthy(r) || r == f.content
  {
    FirstTruthy(ReplyCandidates(f))
  }

  /** Precedence of the reply fields: each field is used exactly when it is
      truthy and no earlier field is; when none of the first three is, the
      last is returned as it is, empty or absent included. */
  lemma ReplyPrecedence(f: ReplyFields)
    ensures Truthy(f.reply) ==> ExtractReply(f) == f.reply
    ensures !Truthy(f.reply) && Truthy(f.response) ==> ExtractReply(f) == f.response
    ensures !Truthy(f.reply) && !Truthy(f.response) && Truthy(f.message) ==> ExtractReply(f) == f.message
    ensures !Truthy(f.reply) && !Truthy(f.response) && !Truthy(f.message) ==> ExtractReply(f) == f.content
  {
    var c := ReplyCandidates(f);
    if Truthy(f.reply) {
      FirstTruthyPicksFirst(c, 0);
    } else if Truthy(f.response) {
      FirstTruthyPicksFirst(c, 1);
    } else if Truthy(f.message) {
      FirstTruthyPicksFirst(c, 2);
    } else {
      FirstTruthyPicksFirst(c, 3);
    }
  }

  /** The body shapes the upstream contract allows: a lone `response`,
      `message` or `content` of "hi" gives "hi"; with both `reply` and
      `response`, `reply` wins; an empty `reply` falls through to `response`. */
  lemma ReplyExamples()
    ensures ExtractReply(ReplyFields(None, Some("hi"), None, None)) == Some("hi")
    ensures ExtractReply(ReplyFields(None, None, Some("hi"), None)) == Some("hi")
    ensures ExtractReply(ReplyFields(None, None, None, Some("hi"))) == Some("hi")
    ensures ExtractReply(ReplyFields(Some("hi"), Some("ignored"), None, None)) == Some("hi")
    ensures ExtractReply(ReplyFields(Some(""), Some("hi"), None, None)) == Some("hi")
  {
    ReplyPrecedence(ReplyFields(None, Some("hi"), None, None));
    ReplyPrecedence(ReplyFields(None, None, Some("hi"), None));
    ReplyPrecedence(ReplyFields(None, None, None, Some("hi")));
    ReplyPrecedence(ReplyFields(Some("hi"), Some("ignored"), None, None));
    ReplyPrecedence(ReplyFields(Some(""), Some("hi"), None, None));
  }

  const UpstreamErrorPrefix: string := "Zo API error: "

  /** The error a failed upstream status is reported with: the fixed prefix
      followed by the status in decimal. */
  function UpstreamErrorText(status: nat): (t: string)
    ensures |t| > |UpstreamErrorPrefix| && t[..|UpstreamErrorPrefix|] == UpstreamErrorPrefix
    ensures t[|UpstreamErrorPrefix|..] == NatToString(status)
  {
    UpstreamErrorPrefix + NatToString(status)
  }

  /** The reported upstream error names its status unambiguously. */
  lemma {:induction false} UpstreamErrorTextInjective(s1: nat, s2: nat)
    requires UpstreamErrorText(s1) == UpstreamErrorText(s2)
    ensures s1 == s2
  {
    var n := |UpstreamErrorPrefix|;
    assert UpstreamErrorText(s1)[n..] == NatToString(s1);
    assert UpstreamErrorText(s2)[n..] == NatToString(s2);
    NatToStringInjective(s1, s2);
  }

  /** The error both proxies report for anything thrown inside their `try`. */
  const ProcessingFailure: string := "Failed to process chat request"

  /** The response both proxies build from an upstream call they made:
      the upstream status mirrored with "Zo API error: <status>" when it is
      not ok, a 500 when the call or the JSON parse threw, and the
      extracted reply otherwise. */
  function Forwarded(upstream: Upstream): (r: Response)
    ensures r.Json?
    ensures r.body.ReplyBody? <==> upstream.Answered? && Ok(upstream.status) && upstream.json.Some?
    ensures r.body.ReplyBody? ==> r.status == 200 && r.body.reply == ExtractReply(upstream.json.value)
    ensures upstream.Answered? && !Ok(upstream.status) ==>
      r == Json(upstream.status, ErrorBody(UpstreamErrorText(upstream.status)))
    ensures r.body.ReplyBody? <==> Ok(r.status)
    ensures upstream.Unreachable? || (upstream.Answered? && Ok(upstream.status) && upstream.json.None?) ==>
      r == Json(500, ErrorBody(ProcessingFailure))
  {
    match upstream
    case Unreachable => Json(500, ErrorBody(ProcessingFailure))
    case Answered(status, _, json) =>
      if !Ok(status) then Json(status, ErrorBody(UpstreamErrorText(status)))
      else if json.None? then Json(500, ErrorBody(ProcessingFailure))
      else Json(200, ReplyBody(ExtractReply(json.value)))
  }
}
