/** The client side of the HTTP API: how `callAPI` builds a request, turns a
    response into data or an error message, and rewrites network failures, and
    how `loginUser` normalises its credentials. `fetch` itself is not modelled: its
    outcome is a parameter. */
module Api {
  import opened Wrappers
  import opened Text

  /** The request `callAPI` hands to `fetch` (the fixed JSON headers are left out;
      the body is the object before `JSON.stringify`). */
  datatype RequestConfig<B> = RequestConfig(httpMethod: string, body: Option<B>)

  /** `callAPI`'s `config`: the body is attached only when there is one and the
      method is not GET. */
  method BuildConfig<B>(httpMethod: string, body: Option<B>) returns (config: RequestConfig<B>)
    ensures config.httpMethod == httpMethod
    ensures config.body.Some? <==> body.Some? && httpMethod != "GET"
    ensures config.body.Some? ==> config.body == body
  {
    config := RequestConfig(httpMethod, None);
    if body.Some? && httpMethod != "GET" {
      config := config.(body := body);
    }
  }

  /** The fields of parsed response data the client looks at. */
  datatype Data = Data(detail: Option<string>, message: Option<string>, user: Option<string>)

  /** A response as `fetch` delivers it: status, content type, the parsed JSON (when
      the content is JSON) and the raw text. */
  datatype Response = Response(status: nat, contentType: Option<string>, json: Data, text: string)

  /** `response.ok`. */
  predicate IsOk(status: nat) { 200 <= status <= 299 }

  /** JavaScript truthiness of an optional string field. */
  predicate Truthy(field: Option<string>) { field.Some? && field.value != "" }

  /** `data`: the parsed JSON when the content type says JSON, otherwise the text
      wrapped as `{message: text, user: null}`. */
  function ParseData(r: Response): (d: Data)
    ensures r.contentType.Some? && Contains(r.contentType.value, "application/json") ==> d == r.json
    ensures !(r.contentType.Some? && Contains(r.contentType.value, "application/json")) ==>
      d.message == Some(r.text) && d.user.None? && d.detail.None?
  {
    if r.contentType.Some? && Contains(r.contentType.value, "application/json") then r.json
    else Data(None, Some(r.text), None)
  }

  const InvalidCredentials := "Invalid email or password"
  const ServiceNotFound := "Service not found"
  const ServerError := "Server error. Please try again later."

  /** The message thrown for a response that is not ok: `detail`, else `message`,
      else a fixed text for 401, 404 and 500, else `HTTP error <status>`. */
  function ErrorMessage(d: Data, status: nat): (m: string)
    ensures Truthy(d.detail) ==> m == d.detail.value
    ensures !Truthy(d.detail) && Truthy(d.message) ==> m == d.message.value
    ensures !Truthy(d.detail) && !Truthy(d.message) ==>
      m == (if status == 401 then InvalidCredentials
            else if status == 404 then ServiceNotFound
            else if status == 500 then ServerError
            else "HTTP error " + NatToString(status))
  {
    if Truthy(d.detail) then d.detail.value
    else if Truthy(d.message) then d.message.value
    else if status == 401 then InvalidCredentials
    else if status == 404 then ServiceNotFound
    else if status == 500 then ServerError
    else "HTTP error " + NatToString(status)
  }

  /** A failing call always explains itself: the message is never empty, so the
      initial `'An error occurred'` is never what the caller sees unless the server
      sent exactly that text. */
  lemma ErrorMessageNonEmpty(d: Data, status: nat)
    ensures ErrorMessage(d, status) != ""
    ensures ErrorMessage(d, status) == "An error occurred" ==>
      d.detail == Some("An error occurred") || d.message == Some("An error occurred")
  {
    assert ("HTTP error " + NatToString(status))[0] == 'H';
  }

  /** A thrown JavaScript error: its `name` and `message`. */
  datatype JsError = JsError(name: string, message: string)

  /** What `fetch` (and reading its body) does: deliver a response or throw. */
  datatype FetchOutcome = Responded(response: Response) | Threw(error: JsError)

  /** The connection-failure message, kept in three parts so that facts about its
      characters can be established part by part. */
  const ConnectionMessage1 := "Could not connect to server. "
  const ConnectionMessage2 := "Please check your connection "
  const ConnectionMessage3 := "and make sure the server is running."
  const ConnectionMessage := ConnectionMessage1 + ConnectionMessage2 + ConnectionMessage3
  const TimeoutMessage := "Request timeout. Please try again."

  /** The `catch` of `callAPI`: a `TypeError` about the network or a timeout is
      replaced by a fixed message; any other error is rethrown as it is. */
  function Rethrow(e: JsError): (r: JsError)
    ensures e.name != "TypeError" ==> r == e
    ensures e.name == "TypeError" && Contains(e.message, "Network request failed") ==>
      r == JsError("Error", ConnectionMessage)
    ensures e.name == "TypeError" && !Contains(e.message, "Network request failed") && Contains(e.message, "timeout") ==>
      r == JsError("Error", TimeoutMessage)
    ensures e.name == "TypeError" && !Contains(e.message, "Network request failed") && !Contains(e.message, "timeout") ==>
      r == e
  {
    if e.name == "TypeError" && Contains(e.message, "Network request failed") then JsError("Error", ConnectionMessage)
    else if e.name == "TypeError" && Contains(e.message, "timeout") then JsError("Error", TimeoutMessage)
    else e
  }

  /** Rewriting is done once: a rewritten error passes the `catch` of an outer
      `callAPI`-style handler unchanged. */
  lemma RethrowIdempotent(e: JsError)
    ensures Rethrow(Rethrow(e)) == Rethrow(e)
  {
  }

  /** `callAPI` once `fetch` has settled: ok responses give their data; other
      responses throw an `Error` carrying `ErrorMessage`; thrown errors go through
      `Rethrow`. */
  function CallApi(outcome: FetchOutcome): (r: Result<Data, JsError>)
    ensures r.Ok? <==> outcome.Responded? && IsOk(outcome.response.status)
    ensures r.Ok? ==> r.value == ParseData(outcome.response)
    ensures outcome.Responded? && !IsOk(outcome.response.status) ==>
      r == Err(JsError("Error", ErrorMessage(ParseData(outcome.response), outcome.response.status)))
    ensures outcome.Threw? ==> r == Err(Rethrow(outcome.error))
    ensures outcome.Threw? && outcome.error.name != "TypeError" ==> r == Err(outcome.error)
  {
    match outcome
    case Threw(e) => Err(Rethrow(e))
    case Responded(resp) =>
      var data := ParseData(resp);
      if !IsOk(resp.status) then Err(Rethrow(JsError("Error", ErrorMessage(data, resp.status))))
      else Ok(data)
  }

  /** An ok response is returned as parsed, unchanged. */
  lemma CallApiOk(resp: Response)
    requires IsOk(resp.status)
    ensures CallApi(Responded(resp)) == Ok(ParseData(resp))
  {
  }

  /** A response that is not ok fails with exactly its error message: the `catch`
      does not rewrite it, since it is not a `TypeError`. */
  lemma CallApiHttpError(resp: Response)
    requires !IsOk(resp.status)
    ensures CallApi(Responded(resp)) == Err(JsError("Error", ErrorMessage(ParseData(resp), resp.status)))
  {
  }

  /** A network failure reaches the caller as the fixed connection message, which
      itself no longer mentions "Network request failed". */
  lemma CallApiNetworkFailure(message: string)
    requires Contains(message, "Network request failed")
    ensures CallApi(Threw(JsError("TypeError", message))) == Err(JsError("Error", ConnectionMessage))
    ensures !Contains(ConnectionMessage, "Network request failed")
  {
    ConnectionMessageLacks('N');
    NotContainsWithoutHead(ConnectionMessage, "Network request failed");
  }

  /** The connection message has no `N`, `E` or `U`. */
  lemma ConnectionMessageLacks(c: char)
    requires c == 'N' || c == 'E' || c == 'U'
    ensures c !in ConnectionMessage
  {
    MessagePart1Lacks(c);
    MessagePart2Lacks(c);
    MessagePart3Lacks(c);
  }

  lemma MessagePart1Lacks(c: char)
    requires c == 'N' || c == 'E' || c == 'U'
    ensures c !in ConnectionMessage1
  {
  }

  lemma MessagePart2Lacks(c: char)
    requires c == 'N' || c == 'E' || c == 'U'
    ensures c !in ConnectionMessage2
  {
  }

  lemma MessagePart3Lacks(c: char)
    requires c == 'N' || c == 'E' || c == 'U'
    ensures c !in ConnectionMessage3
  {
  }

  /** The credentials `loginUser` posts. */
  datatype LoginData = LoginData(email: string, password: string)

  /** `{email: email.toLowerCase().trim(), password: password.trim()}`. */
  function LoginPayload(email: string, password: string): (p: LoginData)
    ensures p.email == Lower(Trim(email))
    ensures p.password == Trim(password)
  {
    LowerTrimCommute(email);
    LoginData(Trim(Lower(email)), Trim(password))
  }

  /** Normalising already normalised credentials changes nothing. */
  lemma LoginPayloadIdempotent(email: string, password: string)
    ensures var p := LoginPayload(email, password); LoginPayload(p.email, p.password) == p
  {
    var p := LoginPayload(email, password);
    LowerTrimCommute(Trim(email));
    TrimIdempotent(email);
    TrimIdempotent(password);
    LowerIdempotent(Trim(email));
    LowerTrimCommute(p.email);
    TrimOfTrimmedLower(email);
  }

  /** The lower-cased trim of a string is already trimmed. */
  lemma TrimOfTrimmedLower(s: string)
    ensures Trim(Lower(Trim(s))) == Lower(Trim(s))
  {
    LowerTrimCommute(Trim(s));
    TrimIdempotent(s);
  }

  /** `loginUser(email, password)` up to `fetch`: a POST to `/login` with the
      normalised credentials as body. */
  method LoginRequest(email: string, password: string) returns (endpoint: string, config: RequestConfig<LoginData>)
    ensures endpoint == "/login" && config.httpMethod == "POST"
    ensures config.body == Some(LoginPayload(email, password))
  {
    endpoint := "/login";
    config := BuildConfig("POST", Some(LoginPayload(email, password)));
  }
}
