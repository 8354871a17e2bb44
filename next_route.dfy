/** The application's API route `POST /api/chat`: it forwards the request
    body to the configured upstream with a bearer credential and maps what
    comes back to one JSON response. The upstream call is split out:
    `Outbound` says which call the handler makes, if any, and `Post` the
    response it sends given what that call came back with. */
module NextRoute {
  import opened Js
  import opened Chat
  import opened Relay

  const ConfigurationError: string := "Server configuration error"

  /** Both settings must be truthy for the route to call upstream. */
  predicate Configured(config: Config) {
    Truthy(config.apiKey) && Truthy(config.apiUrl)
  }

  /** The upstream call the route makes for a request body (`None`: the body
      was not JSON): none unless the body parsed and both settings are
      present; otherwise a POST of the body's three fields, unchanged, to the
      configured URL with `Bearer <key>`. */
  function Outbound(config: Config, body: Option<Request>): (call: Option<UpstreamCall>)
    ensures call.Some? <==> body.Some? && Configured(config)
    ensures call.Some? ==>
      call.value.url == config.apiUrl.value &&
      call.value.authorization == "Bearer " + config.apiKey.value &&
      call.value.body == body.value
  {
    if body.Some? && Configured(config) then
      Some(UpstreamCall(config.apiUrl.value, "Bearer " + config.apiKey.value, body.value))
    else
      None
  }

  /** The response of `POST`. Parsing the body happens inside the `try`, so
      a body that is not JSON gives 500 "Failed to process chat request",
      before the settings are looked at; missing settings give 500 "Server
      configuration error"; once the call is made, the response is the
      shared mapping of its result. No path escapes the handler. */
  function Post(config: Config, body: Option<Request>, upstream: Upstream): (r: Response)
    ensures r.Json?
    ensures body.None? ==> r == Json(500, ErrorBody(ProcessingFailure))
    ensures body.Some? && !Configured(config) ==> r == Json(500, ErrorBody(ConfigurationError))
    ensures Outbound(config, body).Some? ==> r == Forwarded(upstream)
    ensures r.body.ReplyBody? <==> Ok(r.status)
  {
    if body.None? then Json(500, ErrorBody(ProcessingFailure))
    else if !Configured(config) then Json(500, ErrorBody(ConfigurationError))
    else Forwarded(upstream)
  }

  /** Without both settings no upstream call is made, and the response is
      the configuration error whatever an upstream would have said. */
  lemma NoCallWithoutConfig(config: Config, request: Request, u1: Upstream, u2: Upstream)
    requires !Configured(config)
    ensures Outbound(config, Some(request)).None?
    ensures Post(config, Some(request), u1) == Post(config, Some(request), u2) == Json(500, ErrorBody(ConfigurationError))
  {
  }

  /** A non-ok upstream status is passed through with "Zo API error:
      <status>"; the upstream's body text does not reach the caller. */
  lemma UpstreamStatusMirrored(config: Config, request: Request, status: nat, text: string, json: Option<ReplyFields>)
    requires Configured(config) && !Ok(status)
    ensures Post(config, Some(request), Answered(status, text, json)) == Json(status, ErrorBody(UpstreamErrorText(status)))
  {
  }

  /** What the route sends never depends on the upstream's body text. */
  lemma UpstreamTextNotRelayed(config: Config, body: Option<Request>, status: nat, t1: string, t2: string, json: Option<ReplyFields>)
    ensures Post(config, body, Answered(status, t1, json)) == Post(config, body, Answered(status, t2, json))
  {
  }

  /** A request from the store reaches the upstream exactly as the store
      encoded it. */
  lemma ForwardsClientRequest(config: Config, request: ChatRequest)
    requires Configured(config)
    ensures Outbound(config, Some(Encode(request))) ==
      Some(UpstreamCall(config.apiUrl.value, "Bearer " + config.apiKey.value, Encode(request)))
  {
  }
}
