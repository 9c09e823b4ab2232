/** The authorization gate in front of the product endpoints: the token from the `token` header
    is checked with the external authentication service. The POST to that service is a
    parameter (`Service.post`), so that what it is sent and what its reply decides are explicit. */
module Auth {
  import opened Wrappers
  import opened Json
  import opened Http

  /** The JSON payload sent to the service: `{"token": ..., "service_key": ...}`. */
  datatype Request = Request(token: string, serviceKey: string)

  /** The service's reply: its status code and its JSON body. */
  datatype Reply = Reply(statusCode: int, body: Object)

  /** The authentication service as this process sees it: the configured service key and the
      (blocking) POST to the validation endpoint. */
  datatype Service = Service(serviceKey: string, post: Request -> Reply)

  const HeaderMissing: HttpError := HttpError(401, "Authorization header missing")
  const UpstreamFailedDetail: string := "Failed to send data to external API"
  const Unauthorized: HttpError := HttpError(403, "UnAuthorized")

  /** The ordered checks over the token, the upstream status and the upstream `validation`
      member: a missing token is 401; then a status other than 200 is mirrored whatever the body
      says; then anything but exactly `true` is 403. */
  function Verdict(token: Option<string>, status: int, validation: Option<Value>): (r: Outcome<HttpError>)
    ensures r == Pass <==> token.Some? && status == 200 && validation == Some(JBool(true))
    ensures token.None? ==> r == Fail(HeaderMissing)
    ensures token.Some? && status != 200 ==> r == Fail(HttpError(status, UpstreamFailedDetail))
    ensures token.Some? && status == 200 && validation != Some(JBool(true)) ==> r == Fail(Unauthorized)
  {
    if token.None? then Fail(HeaderMissing)
    else if status != 200 then Fail(HttpError(status, UpstreamFailedDetail))
    else if validation.None? || validation != Some(JBool(true)) then Fail(Unauthorized)
    else Pass
  }

  /** verify_authorization: no call is made without a token; otherwise the service is sent the
      token and the service key, and its reply decides. The gate passes exactly for a token the
      service answers 200 with `validation: true`; it fails with a 401, the service's own
      status, or a 403. */
  function VerifyAuthorization(token: Option<string>, service: Service): (r: Outcome<HttpError>)
    ensures r == Pass <==>
              token.Some? && var reply := service.post(Request(token.value, service.serviceKey));
              reply.statusCode == 200 && "validation" in reply.body && reply.body["validation"] == JBool(true)
    ensures r.Fail? ==>
              r.error == HeaderMissing || r.error == Unauthorized
              || (r.error.detail == UpstreamFailedDetail && r.error.statusCode != 200)
  {
    if token.None? then Verdict(None, 0, None)
    else
      var reply := service.post(Request(token.value, service.serviceKey));
      Verdict(token, reply.statusCode, Get(reply.body, "validation"))
  }

  /** Without a token the service is never consulted: the outcome is the same whatever it would answer. */
  lemma NoCallWithoutToken(s1: Service, s2: Service)
    ensures VerifyAuthorization(None, s1) == VerifyAuthorization(None, s2) == Fail(HeaderMissing)
  {
  }

  /** The outcome depends on the service only through its reply to `{token, service_key}`. */
  lemma OnlyTheReplyToThePayloadMatters(token: string, s1: Service, s2: Service)
    requires s1.post(Request(token, s1.serviceKey)) == s2.post(Request(token, s2.serviceKey))
    ensures VerifyAuthorization(Some(token), s1) == VerifyAuthorization(Some(token), s2)
  {
  }
}
