/** The server-rendered site's `POST /chat` handler: the same forwarding as
    the API route, with a default upstream URL, only the key required, and
    the request body parsed outside the `try`. */
module SiteServer {
  import opened Js
  import opened Chat
  import opened Relay

  const DefaultUrl: string := "https://api.zo.computer/zo/ask"
  const MissingKeyError: string := "Server configuration error: missing API key"

  /** `process.env.ZO_API_URL || DefaultUrl`. */
  function ApiUrl(config: Config): (url: string)
    ensures Truthy(config.apiUrl) ==> url == config.apiUrl.value
    ensures !Truthy(config.apiUrl) ==> url == DefaultUrl
    ensures url != ""
  {
    if Truthy(config.apiUrl) then config.apiUrl.value else DefaultUrl
  }

  /** The upstream call the handler makes: none when the body is not JSON
      or the key is empty or unset; otherwise a POST of the body's three
      fields to `ApiUrl` with `Bearer <key>`. */
  function Outbound(config: Config, body: Option<Request>): (call: Option<UpstreamCall>)
    ensures call.Some? <==> body.Some? && Truthy(config.apiKey)
    ensures call.Some? ==>
      call.value.url == ApiUrl(config) &&
      call.value.authorization == "Bearer " + config.apiKey.value &&
      call.value.body == body.value
  {
    if body.Some? && Truthy(config.apiKey) then
      Some(UpstreamCall(ApiUrl(config), "Bearer " + config.apiKey.value, body.value))
    else
      None
  }

  /** The handler's response. A body that is not JSON throws before the
      `try` and escapes to the framework; an empty or unset key gives 500
      "Server configuration error: missing API key"; once the call is made,
      the response is the shared mapping of its result. */
  function HandleChat(config: Config, body: Option<Request>, upstream: Upstream): (r: Response)
    ensures r.Uncaught? <==> body.None?
    ensures body.Some? && !Truthy(config.apiKey) ==> r == Json(500, ErrorBody(MissingKeyError))
    ensures Outbound(config, body).Some? ==> r == Forwarded(upstream)
    ensures r.Json? ==> (r.body.ReplyBody? <==> Ok(r.status))
  {
    if body.None? then Uncaught
    else if !Truthy(config.apiKey) then Json(500, ErrorBody(MissingKeyError))
    else Forwarded(upstream)
  }

  /** Without a key no upstream call is made, and the response is the
      missing-key error whatever an upstream would have said. */
  lemma NoCallWithoutKey(config: Config, request: Request, u1: Upstream, u2: Upstream)
    requires !Truthy(config.apiKey)
    ensures Outbound(config, Some(request)).None?
    ensures HandleChat(config, Some(request), u1) == HandleChat(config, Some(request), u2) == Json(500, ErrorBody(MissingKeyError))
  {
  }

  /** A non-ok upstream status is passed through with "Zo API error:
      <status>"; the upstream's body text does not reach the caller. */
  lemma UpstreamStatusMirrored(config: Config, request: Request, status: nat, text: string, json: Option<ReplyFields>)
    requires Truthy(config.apiKey) && !Ok(status)
    ensures HandleChat(config, Some(request), Answered(status, text, json)) == Json(status, ErrorBody(UpstreamErrorText(status)))
  {
  }

  /** A request from the page's script reaches the upstream exactly as the
      script encoded it, at the default URL when none is configured. */
  lemma ForwardsClientRequest(key: string, request: ChatRequest)
    requires key != ""
    ensures Outbound(Config(Some(key), None), Some(Encode(request))) ==
      Some(UpstreamCall(DefaultUrl, "Bearer " + key, Encode(request)))
  {
  }
}
