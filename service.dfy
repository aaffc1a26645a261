/**
 * The server-side client of the SavageTech API: it joins the base URL and
 * an endpoint, fills in the default currency, sends each call as a POST
 * with a fixed JSON body, turns every transport failure into a
 * `SavageTechException`, and composes the payload the browser widget is
 * initialised with.
 *
 * The HTTP client is the function `send` from the request to what the
 * client returns or throws; `json_decode($s, true)` is `decode` (None where
 * `json_last_error()` reports an error) and `json_encode` is `encode`
 * (None where it returns false). PHP arrays are `Json` objects and lists.
 */
module SavageTechService {

  import opened Wrappers
  import opened Json
  import opened Strings

  /** `SavageTechException`: message, code and the decoded error payload (JNull for none). */
  datatype SavageTechException = SavageTechException(message: string, code: int, response: Json)

  /** An HTTP response: status code and body text. */
  datatype HttpResponse = HttpResponse(status: int, body: string)

  /**
   * What the HTTP client throws: a `RequestException`, with or without a
   * response, or another `GuzzleException` such as a `ConnectException`.
   */
  datatype GuzzleError =
    | RequestError(message: string, response: Option<HttpResponse>)
    | TransferError(message: string)

  /** What `$this->httpClient->request(...)` does: return a response or throw. */
  datatype Transport = Received(response: HttpResponse) | Threw(error: GuzzleError)

  /** A request as the client sends it: method, URL and the JSON body. */
  datatype HttpRequest = HttpRequest(httpMethod: string, url: string, json: map<string, Json>)

  /**
   * How a call ends: a decoded result, a `SavageTechException`, or the
   * `TypeError` PHP raises when an exception message is not a string.
   */
  datatype Outcome = Returned(value: Json) | Raised(exception: SavageTechException) | MessageTypeError

  /** The message for a success response whose body is not JSON. */
  const NotJsonMessage: string := "API 回應不是有效的 JSON 格式"

  /** The status code a failure without a response is reported with. */
  const NoResponseStatus: int := 500

  /** `"{$apiUrl}/" . ltrim($endpoint, '/')` with the base already right-trimmed. */
  function RequestUrl(apiUrl: string, endpoint: string): string {
    apiUrl + "/" + TrimLeft(endpoint, '/')
  }

  /**
   * The join puts exactly one `/` between the base (trailing slashes
   * trimmed when the service was built) and the endpoint (leading slashes
   * trimmed), and drops nothing else of either.
   */
  lemma OneSlashAtJoin(base: string, endpoint: string)
    ensures var apiUrl := TrimRight(base, '/');
            var url := RequestUrl(apiUrl, endpoint);
            var k := |apiUrl|;
            |url| > k && url[..k] == apiUrl && url[k] == '/'
            && (k == 0 || url[k - 1] != '/')
            && (k + 1 == |url| || url[k + 1] != '/')
            && url[k + 1..] == TrimLeft(endpoint, '/')
  {
    var apiUrl := TrimRight(base, '/');
    var ep := TrimLeft(endpoint, '/');
    SlashBetween(apiUrl, ep);
  }

  /** Gluing with one `/` two strings that do not end and start with one. */
  lemma SlashBetween(a: string, b: string)
    requires a == [] || a[|a| - 1] != '/'
    requires b == [] || b[0] != '/'
    ensures var url := a + "/" + b;
            var k := |a|;
            |url| > k && url[..k] == a && url[k] == '/'
            && (k == 0 || url[k - 1] != '/')
            && (k + 1 == |url| || url[k + 1] != '/')
            && url[k + 1..] == b
  {
    var url := a + "/" + b;
    var k := |a|;
    assert url == a + ("/" + b);
    assert url[..k] == a;
    assert k > 0 ==> url[k - 1] == a[k - 1];
    assert url[k + 1..] == b;
  }

  /**
   * A base with a trailing slash and an endpoint with a leading slash give
   * the same URL as neither.
   */
  lemma SlashesAroundJoinIgnored(base: string, endpoint: string)
    requires '/' !in endpoint
    requires base == [] || base[|base| - 1] != '/'
    ensures RequestUrl(TrimRight(base + "/", '/'), "/" + endpoint) == base + "/" + endpoint
  {
    var b := base + "/";
    assert b[..|b| - 1] == base;
    assert TrimRight(b, '/') == TrimRight(base, '/');
    assert TrimRight(base, '/') == base;
    var e := "/" + endpoint;
    assert e[1..] == endpoint;
    assert TrimLeft(e, '/') == TrimLeft(endpoint, '/');
    assert TrimLeft(endpoint, '/') == endpoint;
  }

  /**
   * `if ($currency === null) $currency = config('savagetech.default_currency', 'usd')`:
   * `configured` is the configured value, None when it is not set.
   */
  function CurrencyOrDefault(currency: Json, configured: Option<Json>): (c: Json)
    ensures currency != JNull ==> c == currency
    ensures currency == JNull && configured.None? ==> c == JStr("usd")
    ensures currency == JNull && configured.Some? ==> c == configured.value
  {
    if currency == JNull then configured.GetOr(JStr("usd")) else currency
  }

  /** PHP's `(string)` of a non-negative integer. */
  function Digits(n: nat): (s: string)
    ensures s != [] && forall i :: 0 <= i < |s| ==> '0' <= s[i] <= '9'
    decreases n
  {
    var d := [(48 + n % 10) as char];
    if n < 10 then d else Digits(n / 10) + d
  }

  /** PHP's `(string)` of an integer. */
  function DecimalText(i: int): string {
    if i < 0 then "-" + Digits(-i) else Digits(i)
  }

  /**
   * The string `Exception::__construct` makes of a message value in PHP's
   * coercive typing mode; None where it throws a `TypeError` (an array).
   */
  function MessageString(v: Json): (r: Option<string>)
    ensures r.None? <==> v.JList? || v.JObject?
    ensures v.JStr? ==> r == Some(v.s)
  {
    match v
    case JNull => Some("")
    case JBool(b) => Some(if b then "1" else "")
    case JInt(i) => Some(DecimalText(i))
    case JStr(s) => Some(s)
    case JList(_) => None
    case JObject(_) => None
  }

  /** `$errorData['message'] ?? null`: only an array with a non-null `message` has one. */
  function MessageField(errorData: Json): Option<Json> {
    if errorData.JObject? && "message" in errorData.fields && errorData.fields["message"] != JNull
    then Some(errorData.fields["message"])
    else None
  }

  /** The status code of a failure: that of the response a `RequestException` carries, else 500. */
  function FailureStatus(e: GuzzleError): int {
    if e.RequestError? && e.response.Some? then e.response.value.status else NoResponseStatus
  }

  /** The decoded body of the response a failure carries; JNull for none or for a body that does not decode. */
  function FailureData(e: GuzzleError, decode: string -> Option<Json>): Json {
    if e.RequestError? && e.response.Some? then decode(e.response.value.body).GetOr(JNull) else JNull
  }

  /**
   * What `sendRequest` makes of the client's answer: the decoded body of a
   * response, the fixed "not JSON" exception with that response's status,
   * or for a thrown error an exception with its status, its decoded error
   * body as payload, and the body's `message` when there is one, else the
   * error's own message.
   */
  function OutcomeOf(result: Transport, decode: string -> Option<Json>): Outcome {
    match result
    case Received(response) =>
      (match decode(response.body)
       case Some(v) => Returned(v)
       case None => Raised(SavageTechException(NotJsonMessage, response.status, JNull)))
    case Threw(e) =>
      var data := FailureData(e, decode);
      match MessageField(data)
      case None => Raised(SavageTechException(e.message, FailureStatus(e), data))
      case Some(m) =>
        (match MessageString(m)
         case None => MessageTypeError
         case Some(text) => Raised(SavageTechException(text, FailureStatus(e), data)))
  }

  /**
   * Guzzle's default `http_errors` handling: a 4xx or 5xx response is
   * thrown as a `RequestException` carrying it.
   */
  function WithHttpErrors(response: HttpResponse, message: string): (t: Transport)
    ensures t.Threw? <==> response.status >= 400
    ensures t.Received? ==> t.response == response
    ensures t.Threw? ==> t.error == RequestError(message, Some(response))
  {
    if response.status >= 400 then Threw(RequestError(message, Some(response))) else Received(response)
  }

  /** A call that returns: decoded bodies pass through, undecodable ones raise the fixed message. */
  lemma ReceivedOutcome(response: HttpResponse, decode: string -> Option<Json>)
    ensures var o := OutcomeOf(Received(response), decode);
            (o.Returned? <==> decode(response.body).Some?)
            && (o.Returned? ==> o.value == decode(response.body).value)
            && (o.Raised? ==> o.exception == SavageTechException(NotJsonMessage, response.status, JNull))
            && !o.MessageTypeError?
  {
  }

  /**
   * A failure is always reported as a `SavageTechException` (or a
   * `TypeError` for an array message) whose code is 500 and payload null
   * when no response came with it (a response may carry status 500 too),
   * whose payload is the decoded error body, and whose message is the
   * body's `message` exactly when it has one.
   */
  lemma FailureOutcome(e: GuzzleError, decode: string -> Option<Json>)
    ensures var o := OutcomeOf(Threw(e), decode);
            !o.Returned?
            && (o.MessageTypeError? <==> MessageField(FailureData(e, decode)).Some?
                                         && MessageString(MessageField(FailureData(e, decode)).value).None?)
            && (o.Raised? ==>
                  o.exception.response == FailureData(e, decode)
                  && (!(e.RequestError? && e.response.Some?) ==> o.exception.code == 500 && o.exception.response == JNull)
                  && (e.RequestError? && e.response.Some? ==> o.exception.code == e.response.value.status)
                  && (MessageField(FailureData(e, decode)).None? ==> o.exception.message == e.message)
                  && (MessageField(FailureData(e, decode)).Some? ==>
                        Some(o.exception.message) == MessageString(MessageField(FailureData(e, decode)).value)))
  {
  }

  /**
   * An error response whose JSON body has a string `message` raises
   * that message with the response's status and the decoded body.
   */
  lemma ErrorBodyMessageWins(status: int, body: string, guzzleMessage: string, decode: string -> Option<Json>,
                             fields: map<string, Json>, message: string)
    requires status >= 400
    requires decode(body) == Some(JObject(fields)) && "message" in fields && fields["message"] == JStr(message)
    ensures OutcomeOf(WithHttpErrors(HttpResponse(status, body), guzzleMessage), decode)
            == Raised(SavageTechException(message, status, JObject(fields)))
  {
  }

  /** A `RequestException` without a response, or a `ConnectException`: its own message, code 500, no payload. */
  lemma NoResponseFailure(e: GuzzleError, decode: string -> Option<Json>)
    requires e.TransferError? || e.response.None?
    ensures OutcomeOf(Threw(e), decode) == Raised(SavageTechException(e.message, 500, JNull))
  {
  }

  /** A 200 whose body is not JSON raises the fixed message with code 200. */
  lemma InvalidJsonSuccess(body: string, decode: string -> Option<Json>)
    requires decode(body).None?
    ensures OutcomeOf(WithHttpErrors(HttpResponse(200, body), ""), decode)
            == Raised(SavageTechException(NotJsonMessage, 200, JNull))
  {
  }

  /** `empty($config)` for an array. */
  predicate IsEmptyArray(a: Json) {
    (a.JObject? && a.fields == map[]) || (a.JList? && a.items == [])
  }

  /** `$array[$key]` when reading a possibly missing key: null when absent or not an array. */
  function Index(v: Json, key: string): (r: Json)
    ensures v.JObject? && key in v.fields ==> r == v.fields[key]
    ensures !(v.JObject? && key in v.fields) ==> r == JNull
  {
    if v.JObject? && key in v.fields then v.fields[key] else JNull
  }

  /** `$initConfig`: the widget credentials, and the config when it is not empty. */
  function InitConfig(vendorId: string, token: Json, config: Json): Json {
    var credentials := JObject(map["vendorId" := JStr(vendorId), "jwt" := Index(token, "jwt"),
                                   "pubsub" := Index(token, "pubsub")]);
    if IsEmptyArray(config) then JObject(map["credentials" := credentials])
    else JObject(map["credentials" := credentials, "config" := config])
  }

  const InitCallPrefix: string := "window.Savage.init("
  const InitCallSuffix: string := ");"

  /** `"window.Savage.init({$jsonConfig});"`; a failed `json_encode` (false) interpolates as the empty string. */
  function InitCode(jsonConfig: Option<string>): string {
    InitCallPrefix + jsonConfig.GetOr("") + InitCallSuffix
  }

  /** The argument text of an init call: what lies between the prefix and the suffix. */
  function CallArgument(code: string): Option<string> {
    if |code| >= |InitCallPrefix| + |InitCallSuffix|
       && code[..|InitCallPrefix|] == InitCallPrefix
       && code[|code| - |InitCallSuffix|..] == InitCallSuffix
    then Some(code[|InitCallPrefix|..|code| - |InitCallSuffix|])
    else None
  }

  /** The init code is a call of `window.Savage.init` whose argument is exactly the encoded configuration. */
  lemma InitCodeCarriesConfig(jsonConfig: Option<string>)
    ensures CallArgument(InitCode(jsonConfig)) == Some(jsonConfig.GetOr(""))
  {
    var code := InitCode(jsonConfig);
    var j := jsonConfig.GetOr("");
    assert code[..|InitCallPrefix|] == InitCallPrefix;
    assert code[|code| - |InitCallSuffix|..] == InitCallSuffix;
    assert code[|InitCallPrefix|..|code| - |InitCallSuffix|] == j;
  }

  /** `['init_code' => $initCode, 'token' => $accessToken]`. */
  function WidgetPayload(vendorId: string, token: Json, config: Json, encode: Json -> Option<string>): Json {
    JObject(map["init_code" := JStr(InitCode(encode(InitConfig(vendorId, token, config)))),
                "token" := token])
  }

  /**
   * The payload holds exactly `init_code` and `token`; the token is the
   * one received; the init code calls the widget with the encoding of a
   * configuration whose credentials are the vendor id and the token's
   * `jwt` and `pubsub`, and which has a `config` key exactly when the
   * config is not empty.
   */
  lemma WidgetPayloadShape(vendorId: string, token: Json, config: Json, encode: Json -> Option<string>)
    ensures var p := WidgetPayload(vendorId, token, config, encode);
            var c := InitConfig(vendorId, token, config);
            p.JObject? && p.fields.Keys == {"init_code", "token"} && p.fields["token"] == token
            && p.fields["init_code"].JStr?
            && CallArgument(p.fields["init_code"].s) == Some(encode(c).GetOr(""))
            && c.JObject? && "credentials" in c.fields
            && c.fields["credentials"] == JObject(map["vendorId" := JStr(vendorId), "jwt" := Index(token, "jwt"),
                                                      "pubsub" := Index(token, "pubsub")])
            && ("config" in c.fields <==> !IsEmptyArray(config))
            && ("config" in c.fields ==> c.fields["config"] == config)
            && c.fields.Keys <= {"credentials", "config"}
  {
    InitCodeCarriesConfig(encode(InitConfig(vendorId, token, config)));
  }

  /** The client settings the constructor builds. */
  datatype ClientConfig = ClientConfig(baseUri: string, timeout: Json, connectTimeout: Json,
                                       headers: map<string, string>)

  /** `Arr::get($config, $key, $default)`: the value when the key is present (even null), else the default. */
  function ArrGet(m: map<string, Json>, key: string, default: Json): (r: Json)
    ensures key in m ==> r == m[key]
    ensures key !in m ==> r == default
  {
    if key in m then m[key] else default
  }

  class Service {
    const vendorId: string
    const vendorSecret: string
    const apiUrl: string
    const client: ClientConfig

    /** `new SavageTechService($vendorId, $vendorSecret, $apiUrl, $httpConfig)`. */
    constructor (vendorId: string, vendorSecret: string, apiUrl: string, httpConfig: map<string, Json>)
      ensures this.vendorId == vendorId && this.vendorSecret == vendorSecret
      ensures this.apiUrl == TrimRight(apiUrl, '/')
      ensures client.baseUri == this.apiUrl
      ensures client.timeout == ArrGet(httpConfig, "timeout", JInt(30))
      ensures client.connectTimeout == ArrGet(httpConfig, "connect_timeout", JInt(10))
      ensures client.headers == map["Content-Type" := "application/json", "Accept" := "application/json",
                                    "Vendor-Id" := vendorId, "Vendor-Secret" := vendorSecret]
    {
      this.vendorId := vendorId;
      this.vendorSecret := vendorSecret;
      var trimmed := TrimRight(apiUrl, '/');
      this.apiUrl := trimmed;
      client := ClientConfig(trimmed, ArrGet(httpConfig, "timeout", JInt(30)),
                             ArrGet(httpConfig, "connect_timeout", JInt(10)),
                             map["Content-Type" := "application/json", "Accept" := "application/json",
                                 "Vendor-Id" := vendorId, "Vendor-Secret" := vendorSecret]);
    }

    /**
     * `sendRequest($method, $endpoint, $data)`: send the request and map
     * what the client returns or throws to the call's outcome.
     */
    method SendRequest(httpMethod: string, endpoint: string, data: map<string, Json>,
                       send: HttpRequest -> Transport, decode: string -> Option<Json>)
      returns (sent: HttpRequest, outcome: Outcome)
      ensures sent == HttpRequest(httpMethod, RequestUrl(apiUrl, endpoint), data)
      ensures outcome == OutcomeOf(send(sent), decode)
    {
      var url := RequestUrl(apiUrl, endpoint);
      sent := HttpRequest(httpMethod, url, data);
      var result := send(sent);
      if result.Received? {
        outcome := Succeeded(result.response, decode);
      } else {
        outcome := Failed(result.error, decode);
      }
    }

    /** The `try` block after the request returned: decode the body or raise the "not JSON" exception. */
    static method Succeeded(response: HttpResponse, decode: string -> Option<Json>) returns (outcome: Outcome)
      ensures outcome == OutcomeOf(Received(response), decode)
    {
      var result := decode(response.body);
      if result.None? {
        outcome := Raised(SavageTechException(NotJsonMessage, response.status, JNull));
      } else {
        outcome := Returned(result.value);
      }
    }

    /** The `catch (GuzzleException $e)` block. */
    static method Failed(e: GuzzleError, decode: string -> Option<Json>) returns (outcome: Outcome)
      ensures outcome == OutcomeOf(Threw(e), decode)
    {
      var statusCode := NoResponseStatus;
      var errorData := JNull;
      if e.RequestError? {
        if e.response.Some? {
          statusCode := e.response.value.status;
          errorData := decode(e.response.value.body).GetOr(JNull);
        }
      }
      var message := MessageField(errorData);
      if message.None? {
        outcome := Raised(SavageTechException(e.message, statusCode, errorData));
      } else {
        var text := MessageString(message.value);
        if text.None? {
          outcome := MessageTypeError;
        } else {
          outcome := Raised(SavageTechException(text.value, statusCode, errorData));
        }
      }
    }

    /** `getAccessToken($userId, $currency)`: POST `/accesstokens` with `userId` and the currency. */
    method GetAccessToken(userId: string, currency: Json, configured: Option<Json>,
                          send: HttpRequest -> Transport, decode: string -> Option<Json>)
      returns (sent: HttpRequest, outcome: Outcome)
      ensures sent.httpMethod == "POST" && sent.url == RequestUrl(apiUrl, "/accesstokens")
      ensures sent.json == map["userId" := JStr(userId), "currency" := CurrencyOrDefault(currency, configured)]
      ensures outcome == OutcomeOf(send(sent), decode)
    {
      var c := currency;
      if c == JNull {
        c := configured.GetOr(JStr("usd"));
      }
      sent, outcome := SendRequest("POST", "/accesstokens", map["userId" := JStr(userId), "currency" := c], send, decode);
    }

    /** `depositMade($userId, $amount, $currency)`: POST `/depositmade`. */
    method DepositMade(userId: string, amount: Json, currency: Json, configured: Option<Json>,
                       send: HttpRequest -> Transport, decode: string -> Option<Json>)
      returns (sent: HttpRequest, outcome: Outcome)
      ensures sent.httpMethod == "POST" && sent.url == RequestUrl(apiUrl, "/depositmade")
      ensures sent.json == map["userId" := JStr(userId), "amount" := amount,
                               "currency" := CurrencyOrDefault(currency, configured)]
      ensures outcome == OutcomeOf(send(sent), decode)
    {
      var c := currency;
      if c == JNull {
        c := configured.GetOr(JStr("usd"));
      }
      sent, outcome := SendRequest("POST", "/depositmade",
                                   map["userId" := JStr(userId), "amount" := amount, "currency" := c], send, decode);
    }

    /** `betPlaced($userId, $amount, $odds, $currency)`: POST `/betplaced`. */
    method BetPlaced(userId: string, amount: Json, odds: Json, currency: Json, configured: Option<Json>,
                     send: HttpRequest -> Transport, decode: string -> Option<Json>)
      returns (sent: HttpRequest, outcome: Outcome)
      ensures sent.httpMethod == "POST" && sent.url == RequestUrl(apiUrl, "/betplaced")
      ensures sent.json == map["userId" := JStr(userId), "amount" := amount, "odds" := odds,
                               "currency" := CurrencyOrDefault(currency, configured)]
      ensures outcome == OutcomeOf(send(sent), decode)
    {
      var c := currency;
      if c == JNull {
        c := configured.GetOr(JStr("usd"));
      }
      sent, outcome := SendRequest("POST", "/betplaced",
                                   map["userId" := JStr(userId), "amount" := amount, "odds" := odds, "currency" := c],
                                   send, decode);
    }

    /** `setCurrencies(array $currencies)`: POST `/currencies`. */
    method SetCurrencies(currencies: Json, send: HttpRequest -> Transport, decode: string -> Option<Json>)
      returns (sent: HttpRequest, outcome: Outcome)
      requires currencies.JObject? || currencies.JList?
      ensures sent.httpMethod == "POST" && sent.url == RequestUrl(apiUrl, "/currencies")
      ensures sent.json == map["currencies" := currencies]
      ensures outcome == OutcomeOf(send(sent), decode)
    {
      sent, outcome := SendRequest("POST", "/currencies", map["currencies" := currencies], send, decode);
    }

    /**
     * `generateWidgetInitCode($userId, $config, $currency)`: fetch an access
     * token and, when that returns, wrap it in the widget payload; a
     * failure of the token call propagates unchanged.
     */
    method GenerateWidgetInitCode(userId: string, config: Json, currency: Json, configured: Option<Json>,
                                  send: HttpRequest -> Transport, decode: string -> Option<Json>,
                                  encode: Json -> Option<string>)
      returns (sent: HttpRequest, outcome: Outcome)
      requires config.JObject? || config.JList?
      ensures sent.url == RequestUrl(apiUrl, "/accesstokens")
      ensures sent.json == map["userId" := JStr(userId), "currency" := CurrencyOrDefault(currency, configured)]
      ensures var token := OutcomeOf(send(sent), decode);
              outcome == if token.Returned? then Returned(WidgetPayload(vendorId, token.value, config, encode))
                         else token
    {
      var tokenOutcome;
      sent, tokenOutcome := GetAccessToken(userId, currency, configured, send, decode);
      if !tokenOutcome.Returned? {
        return sent, tokenOutcome;
      }
      var accessToken := tokenOutcome.value;
      var initConfig := InitConfig(vendorId, accessToken, config);
      var initCode := InitCode(encode(initConfig));
      outcome := Returned(JObject(map["init_code" := JStr(initCode), "token" := accessToken]));
    }
  }

  /** Each call's endpoint, joined to a trimmed base, is the base, one `/` and the endpoint's name. */
  lemma EndpointUrls(apiUrl: string)
    ensures RequestUrl(apiUrl, "/accesstokens") == apiUrl + "/accesstokens"
    ensures RequestUrl(apiUrl, "/depositmade") == apiUrl + "/depositmade"
    ensures RequestUrl(apiUrl, "/betplaced") == apiUrl + "/betplaced"
    ensures RequestUrl(apiUrl, "/currencies") == apiUrl + "/currencies"
  {
    LeadingSlashDropped(apiUrl, "/accesstokens");
    LeadingSlashDropped(apiUrl, "/depositmade");
    LeadingSlashDropped(apiUrl, "/betplaced");
    LeadingSlashDropped(apiUrl, "/currencies");
  }

  /** An endpoint with one leading slash is appended to the base as it is. */
  lemma LeadingSlashDropped(apiUrl: string, endpoint: string)
    requires |endpoint| >= 2 && endpoint[0] == '/' && endpoint[1] != '/'
    ensures RequestUrl(apiUrl, endpoint) == apiUrl + endpoint
  {
    TrimOneLeft(endpoint, '/');
    assert "/" + endpoint[1..] == endpoint;
    assert apiUrl + "/" + endpoint[1..] == apiUrl + ("/" + endpoint[1..]);
  }

  /** The base URL of the unit tests needs no trimming, and the token call goes to its `/accesstokens`. */
  lemma TestServiceUrls()
    ensures TrimRight("https://api.test.savagetech.com", '/') == "https://api.test.savagetech.com"
    ensures RequestUrl("https://api.test.savagetech.com", "/accesstokens")
            == "https://api.test.savagetech.com" + "/accesstokens"
  {
    TrimRightKeeps("https://api.test.savagetech.com", '/');
    EndpointUrls("https://api.test.savagetech.com");
  }
}
