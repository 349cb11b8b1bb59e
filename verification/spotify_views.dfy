/**
 * The Spotify backend views: the HTTP Basic credential of the client
 * (section 2 of RFC 7617), the token exchange and refresh views, the
 * configuration view and the Web API proxy with its method dispatch.
 *
 * Spotify's servers are an oracle: each view receives the answer to the
 * request it would send, and reports which request that is.
 */
module SpotifyViews {
  import opened Wrappers
  import opened Json
  import opened Base64
  import opened Responses
  import Clock

  const TokenUrl: string := "https://accounts.spotify.com/api/token"
  const ApiRoot: string := "https://api.spotify.com/v1"

  // ---------------------------------------------------------------------
  // Client credentials

  /** `get_spotify_headers()['Authorization']`: `Basic` and the base 64 of `id:secret` in UTF-8. */
  function Authorization(clientId: string, secret: string): string
  {
    "Basic " + Encode(Utf8(clientId + ":" + secret))
  }

  /** `get_spotify_headers()`. */
  function TokenHeaders(clientId: string, secret: string): (h: map<string, string>)
    ensures h.Keys == {"Authorization", "Content-Type"}
    ensures h["Content-Type"] == "application/x-www-form-urlencoded"
  {
    map["Authorization" := Authorization(clientId, secret),
        "Content-Type" := "application/x-www-form-urlencoded"]
  }

  /**
   * What a server does with the header: drop `Basic `, decode base 64 and
   * UTF-8, and split at the first colon (section 2 of RFC 7617).
   */
  function ReadAuthorization(h: string): Option<(string, string)>
  {
    if |h| < 6 || h[..6] != "Basic " then None
    else
      match Decode(h[6..])
      case None => None
      case Some(bytes) =>
        match DecodeUtf8(bytes)
        case None => None
        case Some(pass) =>
          if ':' !in pass then None
          else
            var i := Clock.FirstColon(pass);
            Some((pass[..i], pass[i + 1..]))
  }

  /** The server recovers the client id and secret, provided the id has no colon (as RFC 7617 requires). */
  lemma AuthorizationReadsBack(clientId: string, secret: string)
    requires ':' !in clientId
    ensures ReadAuthorization(Authorization(clientId, secret)) == Some((clientId, secret))
  {
    var pass := clientId + ":" + secret;
    var h := Authorization(clientId, secret);
    assert h[..6] == "Basic ";
    assert h[6..] == Encode(Utf8(pass));
    DecodeEncode(Utf8(pass));
    DecodeUtf8Encode(pass);
    assert pass[|clientId|] == ':';
    var i := Clock.FirstColon(pass);
    assert i == |clientId|;
    assert pass[..i] == clientId && pass[i + 1..] == secret;
  }

  // ---------------------------------------------------------------------
  // Request bodies

  /** The message of the `AttributeError` that `.get` on a non-dictionary raises. */
  function NoGet(j: Json): string
  {
    "'" + TypeName(j) + "' object has no attribute 'get'"
  }

  /** `{'error': '服務器錯誤', 'message': str(e)}` with status 500: what the views' outer handler returns. */
  function ServerError(message: string): Response
  {
    Http(500, Obj(map["error" := Str("服務器錯誤"), "message" := Str(message)]))
  }

  /** `json.loads(request.body)` followed by a `.get`: the fields, or the message of what was raised. */
  function RequestFields(body: Body): (r: Result<map<string, Json>, string>)
    ensures r.Success? <==> body.Parsed? && body.json.Obj?
    ensures r.Success? ==> r.value == body.json.fields
  {
    match body
    case Unparsable(message) => Failure(message)
    case Parsed(j) => if j.Obj? then Success(j.fields) else Failure(NoGet(j))
  }

  // ---------------------------------------------------------------------
  // Token views

  /** What the token endpoint (or the network) does with a request. */
  datatype TokenAnswer = TokenReply(status: int, body: Body) | TokenRaised(message: string)

  /** The form and the Authorization header of a token request. */
  datatype TokenRequest = TokenRequest(form: map<string, Json>, authorization: string)

  datatype TokenOutcome = TokenOutcome(response: Response, sent: Option<TokenRequest>)

  const MissingParameters: string := "缺少必要參數"

  /**
   * Lines 49-61 and 92-105: a 200 answer becomes the view's body through
   * `pick`; any other status is reported with status 400 and the details.
   */
  function TokenResponse(answer: TokenAnswer, failure: string, pick: map<string, Json> -> Json): (r: Response)
    ensures answer.TokenRaised? ==> r == ServerError(answer.message)
    ensures answer.TokenReply? && answer.body.Unparsable? ==> r == ServerError(answer.body.message)
    ensures answer.TokenReply? && answer.status == 200 && answer.body.Parsed? && answer.body.json.Obj? ==>
      r == JsonResponse(pick(answer.body.json.fields), 200)
    ensures answer.TokenReply? && answer.status != 200 && answer.body.Parsed? ==>
      r == JsonResponse(Obj(map["error" := Str(failure), "details" := answer.body.json]), 400)
  {
    match answer
    case TokenRaised(message) => ServerError(message)
    case TokenReply(status, body) =>
      match body
      case Unparsable(message) => ServerError(message)
      case Parsed(j) =>
        if status == 200 then
          if j.Obj? then JsonResponse(pick(j.fields), 200) else ServerError(NoGet(j))
        else JsonResponse(Obj(map["error" := Str(failure), "details" := j]), 400)
  }

  /** The body of a successful exchange: exactly the four token fields. */
  function ExchangeFields(info: map<string, Json>): (j: Json)
    ensures j.Obj? && j.fields.Keys == {"access_token", "refresh_token", "expires_in", "token_type"}
    ensures forall k :: k in j.fields ==> j.fields[k] == Get(info, k)
  {
    Obj(map[
      "access_token" := Get(info, "access_token"),
      "refresh_token" := Get(info, "refresh_token"),
      "expires_in" := Get(info, "expires_in"),
      "token_type" := Get(info, "token_type")])
  }

  /** `exchange_code_for_token`. */
  function ExchangeCode(body: Body, clientId: string, secret: string, answer: TokenAnswer): (r: TokenOutcome)
    ensures RequestFields(body).Failure? ==> r == TokenOutcome(ServerError(RequestFields(body).error), None)
    ensures RequestFields(body).Success? ==>
      var data := RequestFields(body).value;
      (!Truthy(Get(data, "code")) || !Truthy(Get(data, "redirect_uri")) <==> r.sent.None?)
      && (r.sent.None? ==> r.response == Http(400, ErrorBody(MissingParameters)))
      && (r.sent.Some? ==> r.sent.value == TokenRequest(
            map["grant_type" := Str("authorization_code"), "code" := data["code"], "redirect_uri" := data["redirect_uri"]],
            Authorization(clientId, secret)))
    ensures r.response.Http? && r.response.status == 200 ==>
      answer.TokenReply? && answer.status == 200 && answer.body.Parsed?
      && answer.body.json.Obj? && r.response.body == ExchangeFields(answer.body.json.fields)
  {
    match RequestFields(body)
    case Failure(message) => TokenOutcome(ServerError(message), None)
    case Success(data) =>
      var code := Get(data, "code");
      var redirect := Get(data, "redirect_uri");
      if !Truthy(code) || !Truthy(redirect) then TokenOutcome(Http(400, ErrorBody(MissingParameters)), None)
      else
        var request := TokenRequest(
          map["grant_type" := Str("authorization_code"), "code" := code, "redirect_uri" := redirect],
          Authorization(clientId, secret));
        TokenOutcome(TokenResponse(answer, "獲取 token 失敗", ExchangeFields), Some(request))
  }

  /** The body of a successful refresh: Spotify's refresh token if it sent one, else the submitted one. */
  function RefreshFields(info: map<string, Json>, submitted: Json): (j: Json)
    ensures j.Obj? && j.fields.Keys == {"access_token", "expires_in", "token_type", "refresh_token"}
    ensures j.fields["refresh_token"] == GetOr(info, "refresh_token", submitted)
    ensures forall k :: k in j.fields && k != "refresh_token" ==> j.fields[k] == Get(info, k)
  {
    Obj(map[
      "access_token" := Get(info, "access_token"),
      "expires_in" := Get(info, "expires_in"),
      "token_type" := Get(info, "token_type"),
      "refresh_token" := GetOr(info, "refresh_token", submitted)])
  }

  /** `refresh_access_token`. */
  function RefreshToken(body: Body, clientId: string, secret: string, answer: TokenAnswer): (r: TokenOutcome)
    ensures RequestFields(body).Failure? ==> r == TokenOutcome(ServerError(RequestFields(body).error), None)
    ensures RequestFields(body).Success? ==>
      var data := RequestFields(body).value;
      (!Truthy(Get(data, "refresh_token")) <==> r.sent.None?)
      && (r.sent.None? ==> r.response == Http(400, ErrorBody("缺少 refresh_token")))
      && (r.sent.Some? ==> r.sent.value == TokenRequest(
            map["grant_type" := Str("refresh_token"), "refresh_token" := data["refresh_token"]],
            Authorization(clientId, secret)))
    ensures r.response.Http? && r.response.status == 200 ==>
      answer.TokenReply? && answer.status == 200 && answer.body.Parsed? && RequestFields(body).Success?
      && answer.body.json.Obj?
      && r.response.body == RefreshFields(answer.body.json.fields, RequestFields(body).value["refresh_token"])
  {
    match RequestFields(body)
    case Failure(message) => TokenOutcome(ServerError(message), None)
    case Success(data) =>
      var submitted := Get(data, "refresh_token");
      if !Truthy(submitted) then TokenOutcome(Http(400, ErrorBody("缺少 refresh_token")), None)
      else
        var request := TokenRequest(
          map["grant_type" := Str("refresh_token"), "refresh_token" := submitted],
          Authorization(clientId, secret));
        TokenOutcome(TokenResponse(answer, "刷新 token 失敗", info => RefreshFields(info, submitted)), Some(request))
  }

  /** When Spotify sends no new refresh token, the client keeps the one it submitted. */
  lemma RefreshKeepsToken(body: Body, clientId: string, secret: string, info: map<string, Json>)
    requires RequestFields(body).Success? && Truthy(Get(RequestFields(body).value, "refresh_token"))
    requires "refresh_token" !in info
    ensures var r := RefreshToken(body, clientId, secret, TokenReply(200, Parsed(Obj(info))));
      r.response.Http? && r.response.status == 200
      && r.response.body.fields["refresh_token"] == RequestFields(body).value["refresh_token"]
  {
  }

  /** `get_spotify_config`. */
  function Config(clientId: string, secret: string): (j: Json)
    ensures j.Obj? && j.fields.Keys == {"client_id", "available"}
    ensures j.fields["available"] == Bool(clientId != "" && secret != "")
    ensures j.fields["client_id"] == Str(clientId)
  {
    Obj(map["client_id" := Str(clientId), "available" := Bool(clientId != "" && secret != "")])
  }

  // ---------------------------------------------------------------------
  // The Web API proxy

  /**
   * `str.upper()` as far as matching ASCII words goes: ASCII letters, and
   * the non-ASCII characters whose full upper case is ASCII (`ß`, dotless
   * `ı`, long `ſ` and the Latin ligatures). Every other character is kept;
   * its upper case contains a non-ASCII character either way.
   */
  function UpperChar(c: char): string
  {
    if 'a' <= c <= 'z' then [((c as int) - 32) as char]
    else if c == 'ß' then "SS"
    else if c == 'ı' then "I"
    else if c == 'ſ' then "S"
    else if c == 'ﬀ' then "FF"
    else if c == 'ﬁ' then "FI"
    else if c == 'ﬂ' then "FL"
    else if c == 'ﬃ' then "FFI"
    else if c == 'ﬄ' then "FFL"
    else if c == 'ﬅ' || c == 'ﬆ' then "ST"
    else [c]
  }

  function Upper(s: string): string
  {
    if s == "" then "" else UpperChar(s[0]) + Upper(s[1..])
  }

  datatype Verb = GET | POST | PUT | DELETE

  /** Lines 143-152: the method named case-insensitively, `None` for a 405. */
  function Dispatch(name: string): (m: Option<Verb>)
    ensures m == Some(GET) <==> Upper(name) == "GET"
    ensures m == Some(POST) <==> Upper(name) == "POST"
    ensures m == Some(PUT) <==> Upper(name) == "PUT"
    ensures m == Some(DELETE) <==> Upper(name) == "DELETE"
  {
    var u := Upper(name);
    if u == "GET" then Some(GET)
    else if u == "POST" then Some(POST)
    else if u == "PUT" then Some(PUT)
    else if u == "DELETE" then Some(DELETE)
    else None
  }

  /** Lower-case ASCII method names dispatch like upper-case ones. */
  lemma DispatchLowerCase()
    ensures Dispatch("get") == Some(GET) && Dispatch("post") == Some(POST)
  {
    assert Upper("get") == "GET";
    assert Upper("post") == "POST";
  }

  /** The same for the two other verbs. */
  lemma DispatchLowerCaseWrites()
    ensures Dispatch("put") == Some(PUT) && Dispatch("delete") == Some(DELETE)
  {
    assert Upper("put") == "PUT";
    assert Upper("delete") == "DELETE";
  }

  /** `'ſ'.upper()` is `'S'`, so the proxy accepts `'poſt'` as a POST. */
  lemma DispatchLongS()
    ensures Dispatch("poſt") == Some(POST)
  {
    assert Upper("poſt") == "POST";
  }

  /** PATCH is refused with 405. */
  lemma DispatchPatch()
    ensures Dispatch("patch") == None
  {
    assert Upper("patch") == "PATCH";
  }

  /** The request the proxy sends: the payload travels with POST and PUT only. */
  datatype ProxyCall = ProxyCall(verb: Verb, endpoint: Json, bearer: Json, payload: Option<Json>)

  /** What the Web API (or the network) does with the call: status, body and raw text. */
  datatype ApiAnswer = ApiReply(status: int, body: Body, text: string) | ApiRaised(message: string)

  datatype ProxyOutcome = ProxyOutcome(response: Response, sent: Option<ProxyCall>)

  /** Lines 155-165: the status and body passed back to the browser. */
  function PassThrough(status: int, body: Body, text: string): (r: Response)
    ensures status < 400 && body.Parsed? && body.json.Obj? ==> r == Http(200, body.json)
    ensures status < 400 && !(body.Parsed? && body.json.Obj?) ==> r == Http(200, Obj(map["success" := Bool(true)]))
    ensures 400 <= status <= 599 ==>
      r == Http(status, Obj(map["error" := Str("Spotify API 錯誤"), "status" := Num(status), "details" := Str(text)]))
    ensures status > 599 ==> r == ServerError("HTTP status code must be an integer from 100 to 599.")
  {
    if status < 400 then
      // A body that is not JSON, or not an object, raises inside the bare `except`.
      if body.Parsed? && body.json.Obj? then Http(200, body.json)
      else Http(200, Obj(map["success" := Bool(true)]))
    else
      var error := Obj(map["error" := Str("Spotify API 錯誤"), "status" := Num(status), "details" := Str(text)]);
      match RejectReason(error, status)
      case None => Http(status, error)
      case Some(message) => ServerError(message)
  }

  /** The verb of a proxied request, `'GET'` when the browser names none. */
  function VerbField(data: map<string, Json>): Json
  {
    GetOr(data, "method", Str("GET"))
  }

  /** Lines 124-152: the call the proxy makes for a request body, or the response that refuses it. */
  function ProxyRequest(body: Body): (r: Result<ProxyCall, Response>)
    ensures RequestFields(body).Failure? ==> r == Failure(ServerError(RequestFields(body).error))
    ensures RequestFields(body).Success? ==>
      var data := RequestFields(body).value;
      (!Truthy(Get(data, "endpoint")) || !Truthy(Get(data, "access_token")) ==>
        r == Failure(Http(400, ErrorBody(MissingParameters))))
      && (Truthy(Get(data, "endpoint")) && Truthy(Get(data, "access_token")) && VerbField(data).Str? ==>
        (r.Failure? <==> Dispatch(VerbField(data).s).None?))
    ensures r.Failure? && r.error.Http? && r.error.status == 405 ==>
      RequestFields(body).Success? && VerbField(RequestFields(body).value).Str?
      && Dispatch(VerbField(RequestFields(body).value).s).None?
    ensures r.Success? ==>
      var data := RequestFields(body).value;
      VerbField(data).Str? && Dispatch(VerbField(data).s) == Some(r.value.verb)
      && r.value.endpoint == data["endpoint"] && r.value.bearer == data["access_token"]
      && r.value.payload == (if r.value.verb in {POST, PUT} then Some(Get(data, "payload")) else None)
  {
    match RequestFields(body)
    case Failure(message) => Failure(ServerError(message))
    case Success(data) =>
      var endpoint := Get(data, "endpoint");
      var token := Get(data, "access_token");
      var verb := VerbField(data);
      if !Truthy(endpoint) || !Truthy(token) then Failure(Http(400, ErrorBody(MissingParameters)))
      // `method.upper()` on anything but a string raises `AttributeError`.
      else if !verb.Str? then Failure(ServerError("'" + TypeName(verb) + "' object has no attribute 'upper'"))
      else
        match Dispatch(verb.s)
        case None => Failure(Http(405, ErrorBody("不支持的 HTTP 方法")))
        case Some(m) => Success(ProxyCall(m, endpoint, token, if m in {POST, PUT} then Some(Get(data, "payload")) else None))
  }

  /** `spotify_api_proxy`: a refused request is answered at once; an accepted one is sent and its answer relayed. */
  function Proxy(body: Body, answer: ApiAnswer): (r: ProxyOutcome)
    ensures ProxyRequest(body).Failure? <==> r.sent.None?
    ensures ProxyRequest(body).Failure? ==> r.response == ProxyRequest(body).error
    ensures ProxyRequest(body).Success? ==> r.sent == Some(ProxyRequest(body).value)
    ensures r.sent.Some? && answer.ApiReply? ==> r.response == PassThrough(answer.status, answer.body, answer.text)
    ensures r.sent.Some? && answer.ApiRaised? ==> r.response == ServerError(answer.message)
  {
    match ProxyRequest(body)
    case Failure(refusal) => ProxyOutcome(refusal, None)
    case Success(call) =>
      match answer
      case ApiRaised(message) => ProxyOutcome(ServerError(message), Some(call))
      case ApiReply(status, reply, text) => ProxyOutcome(PassThrough(status, reply, text), Some(call))
  }
}
