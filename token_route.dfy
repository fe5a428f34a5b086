/** The server-side token exchange (app/api/auth/github/token/route.ts): `POST`
    reads `code` from the request, forwards it with the client credentials to
    GitHub's token endpoint, and sorts the outcome into a 200, 400 or 500 reply.
    The one awaited `fetch` is an input here, and the request it would send is
    part of the result, so that "no upstream request" can be stated. */
module TokenRoute {
  import opened Common

  /** The JSON body of the incoming request; `Unreadable` is a body whose parse
      or destructuring throws. */
  datatype RouteRequest = Unreadable | RequestBody(code: Option<string>, state: Option<string>)

  /** The token endpoint's JSON reply, with every field optional. */
  datatype TokenBody = TokenBody(
    error: Option<string>,
    errorDescription: Option<string>,
    accessToken: Option<string>,
    tokenType: Option<string>,
    scope: Option<string>)

  /** What the upstream `fetch` and `.json()` produce. */
  datatype Upstream = FetchFailed | BodyUnreadable | Body(body: TokenBody)

  /** The server's credentials, read from the environment. */
  datatype ServerEnv = ServerEnv(clientId: string, clientSecret: string)

  /** The body sent to `https://github.com/login/oauth/access_token`. */
  datatype UpstreamRequest = UpstreamRequest(clientId: string, clientSecret: string, code: string)

  datatype ResponseBody = ErrorMessage(error: string) | Passthrough(data: TokenBody)

  datatype RouteResponse = RouteResponse(status: int, body: ResponseBody)

  /** The reply and the upstream request made, if any. */
  datatype Exchange = Exchange(response: RouteResponse, sent: Option<UpstreamRequest>)

  const CODE_REQUIRED := "Authorization code is required"
  const CODE_EXPIRED := "The authorization code has expired. Please try logging in again."
  const EXCHANGE_FAILED := "Failed to exchange code for token"

  /** The branches of `POST`, in source order. */
  function Post(request: RouteRequest, env: ServerEnv, upstream: Upstream): (x: Exchange)
    // No upstream request exactly when the request is unreadable or has no code.
    ensures x.sent.None? <==> request.Unreadable? || !Truthy(request.code)
    // The upstream body carries the client credentials and the code, nothing else.
    ensures x.sent.Some? ==> x.sent.value == UpstreamRequest(env.clientId, env.clientSecret, request.code.value)
    ensures request.RequestBody? && !Truthy(request.code) ==>
      x.response == RouteResponse(400, ErrorMessage(CODE_REQUIRED))
    // A thrown exception anywhere becomes a 500 with a fixed message.
    ensures request.Unreadable? || (x.sent.Some? && !upstream.Body?) ==>
      x.response == RouteResponse(500, ErrorMessage(EXCHANGE_FAILED))
    ensures x.sent.Some? && upstream.Body? && upstream.body.error == Some("bad_verification_code") ==>
      x.response == RouteResponse(400, ErrorMessage(CODE_EXPIRED))
    // Only a reply without an `error` passes through, unchanged and with status 200.
    ensures x.response.status == 200 <==> x.sent.Some? && upstream.Body? && !Truthy(upstream.body.error)
    ensures x.response.status == 200 ==> x.response.body == Passthrough(upstream.body)
    ensures x.response.status in {200, 400, 500}
    // Error bodies hold a fixed message or the provider's own `error` / `error_description`.
    ensures x.response.body.ErrorMessage? ==>
      x.response.body.error in {CODE_REQUIRED, CODE_EXPIRED, EXCHANGE_FAILED}
      || (upstream.Body? && Some(x.response.body.error) in {upstream.body.error, upstream.body.errorDescription})
  {
    match request
    case Unreadable => Exchange(RouteResponse(500, ErrorMessage(EXCHANGE_FAILED)), None)
    case RequestBody(code, _) =>
      if !Truthy(code) then Exchange(RouteResponse(400, ErrorMessage(CODE_REQUIRED)), None)
      else
        var sent := Some(UpstreamRequest(env.clientId, env.clientSecret, code.value));
        match upstream
        case FetchFailed => Exchange(RouteResponse(500, ErrorMessage(EXCHANGE_FAILED)), sent)
        case BodyUnreadable => Exchange(RouteResponse(500, ErrorMessage(EXCHANGE_FAILED)), sent)
        case Body(data) =>
          if Truthy(data.error) then
            if data.error.value == "bad_verification_code" then
              Exchange(RouteResponse(400, ErrorMessage(CODE_EXPIRED)), sent)
            else
              var message := if Truthy(data.errorDescription) then data.errorDescription.value else data.error.value;
              Exchange(RouteResponse(400, ErrorMessage(message)), sent)
          else
            Exchange(RouteResponse(200, Passthrough(data)), sent)
  }

  /** Any other provider error is a 400 carrying `error_description` when it is
      non-empty and the `error` code otherwise. */
  lemma ProviderErrorMessage(code: string, state: Option<string>, env: ServerEnv, data: TokenBody)
    requires code != "" && Truthy(data.error) && data.error.value != "bad_verification_code"
    ensures Post(RequestBody(Some(code), state), env, Body(data)).response ==
      RouteResponse(400, ErrorMessage(if Truthy(data.errorDescription) then data.errorDescription.value else data.error.value))
  {
  }

  /** Only `code` is read: a `state` sent by the caller changes nothing. */
  lemma StateIsIgnored(code: Option<string>, s1: Option<string>, s2: Option<string>, env: ServerEnv, upstream: Upstream)
    ensures Post(RequestBody(code, s1), env, upstream) == Post(RequestBody(code, s2), env, upstream)
  {
  }

  /** When no request goes upstream, what the upstream would have answered is irrelevant. */
  lemma NoRequestNoDependence(request: RouteRequest, env: ServerEnv, u1: Upstream, u2: Upstream)
    requires Post(request, env, u1).sent.None?
    ensures Post(request, env, u1) == Post(request, env, u2)
  {
  }
}
