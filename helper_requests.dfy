/**
 * The requests the browser helper sends: the init and refresh URLs its
 * `init` and `refreshToken` build with `+=`, and the Authorization header.
 */
module HelperRequests {

  import opened Wrappers
  import opened Strings
  import opened UriComponent

  /** A JavaScript string option that is set and truthy. */
  predicate Present(o: Option<string>) {
    o.Some? && o.value != ""
  }

  /**
   * The query parameters in the order the helper appends them: `user_id`
   * unless the Authorization header is used, then `currency` when set,
   * then `config` (the JSON text of the configuration) when given.
   */
  function QueryParams(useAuthHeader: bool, userId: string, currency: Option<string>,
                       configJson: Option<string>): seq<string>
  {
    (if !useAuthHeader then ["user_id=" + Encode(userId)] else [])
    + (if Present(currency) then ["currency=" + Encode(currency.value)] else [])
    + (if configJson.Some? then ["config=" + Encode(configJson.value)] else [])
  }

  /**
   * The URL the helper requests: the endpoint, `?`, and the parameters
   * joined with `&`. With the header and an endpoint that already holds a
   * `?`, the first parameter is also preceded by `&`, because the helper
   * decides on `&` by looking for text after the first `?` of the URL.
   */
  function RequestUrl(endpoint: string, useAuthHeader: bool, userId: string,
                      currency: Option<string>, configJson: Option<string>): string
  {
    var params := QueryParams(useAuthHeader, userId, currency, configJson);
    endpoint + "?" + (if useAuthHeader && '?' in endpoint && params != [] then "&" else "")
    + Join(params, '&')
  }

  /** `url.includes('?') && url.length > url.indexOf('?') + 1`. */
  predicate HasQueryText(url: string) {
    '?' in url && |url| > IndexOf(url, '?') + 1
  }

  lemma {:induction false} JoinSnoc(parts: seq<string>, p: string, sep: char)
    ensures Join(parts + [p], sep) == if parts == [] then p else Join(parts, sep) + [sep] + p
    decreases |parts|
  {
    if |parts| > 1 {
      JoinSnoc(parts[1..], p, sep);
      assert (parts + [p])[1..] == parts[1..] + [p];
    } else if |parts| == 1 {
      assert (parts + [p])[1..] == [p];
    }
  }

  /** After the `?` the helper appends, there is query text unless nothing followed it. */
  lemma QueryTextAfter(endpoint: string, rest: string)
    ensures HasQueryText(endpoint + "?" + rest) <==> '?' in endpoint || rest != ""
  {
    var url := endpoint + "?" + rest;
    IndexOfAppend(endpoint, "?" + rest, '?');
    assert url == endpoint + ("?" + rest);
  }

  lemma {:induction false} JoinNonEmpty(parts: seq<string>, sep: char)
    requires parts != [] && parts[0] != ""
    ensures Join(parts, sep) != ""
  {
    if |parts| > 1 {
      assert Join(parts, sep) == parts[0] + [sep] + Join(parts[1..], sep);
    }
  }

  /**
   * One `url += (hasQueryText ? '&' : '') + item` step: the URL stays the
   * endpoint, `?`, the lead and the parameters joined with `&`.
   */
  lemma AppendStep(endpoint: string, lead: string, params: seq<string>, url: string, item: string)
    requires lead == "" || lead == "&"
    requires lead == "&" <==> '?' in endpoint && (params == [] || lead != "")
    requires params != [] ==> params[0] != ""
    requires url == endpoint + "?" + (if params != [] then lead else "") + Join(params, '&')
    ensures url + (if HasQueryText(url) then "&" else "") + item == endpoint + "?" + lead + Join(params + [item], '&')
  {
    if params == [] {
      FirstAppend(endpoint, lead, url, item);
    } else {
      LaterAppend(endpoint, lead, params, url, item);
    }
  }

  /** The first parameter goes straight after the `?` unless the endpoint has a query of its own. */
  lemma FirstAppend(endpoint: string, lead: string, url: string, item: string)
    requires lead == (if '?' in endpoint then "&" else "")
    requires url == endpoint + "?" + "" + Join([], '&')
    ensures url + (if HasQueryText(url) then "&" else "") + item == endpoint + "?" + lead + Join([item], '&')
  {
    assert url == endpoint + "?" + "";
    QueryTextAfter(endpoint, "");
  }

  /** A later parameter always follows an `&`. */
  lemma LaterAppend(endpoint: string, lead: string, params: seq<string>, url: string, item: string)
    requires params != [] && params[0] != ""
    requires url == endpoint + "?" + lead + Join(params, '&')
    ensures url + (if HasQueryText(url) then "&" else "") + item == endpoint + "?" + lead + Join(params + [item], '&')
  {
    var tail := lead + Join(params, '&');
    assert url == endpoint + "?" + tail;
    JoinNonEmpty(params, '&');
    QueryTextAfter(endpoint, tail);
    JoinSnoc(params, item, '&');
    calc {
      url + "&" + item;
      endpoint + "?" + tail + "&" + item;
      endpoint + "?" + lead + (Join(params, '&') + "&" + item);
    }
  }

  /** The URL building of `init` (with a config) and `refreshToken` (without). */
  method BuildRequestUrl(endpoint: string, useAuthHeader: bool, userId: string,
                         currency: Option<string>, configJson: Option<string>)
    returns (url: string)
    ensures url == RequestUrl(endpoint, useAuthHeader, userId, currency, configJson)
  {
    ghost var lead := if useAuthHeader && '?' in endpoint then "&" else "";
    ghost var params: seq<string> := [];
    url := endpoint;
    if !useAuthHeader {
      url := url + "?user_id=" + Encode(userId);
      params := ["user_id=" + Encode(userId)];
      assert url == endpoint + "?" + (if params != [] then lead else "") + Join(params, '&');
    } else {
      url := url + "?";
      assert url == endpoint + "?" + (if params != [] then lead else "") + Join(params, '&');
    }
    if Present(currency) {
      var item := "currency=" + Encode(currency.value);
      AppendStep(endpoint, lead, params, url, item);
      url := url + (if HasQueryText(url) then "&" else "") + item;
      params := params + [item];
    }
    if configJson.Some? {
      var item := "config=" + Encode(configJson.value);
      AppendStep(endpoint, lead, params, url, item);
      url := url + (if HasQueryText(url) then "&" else "") + item;
      params := params + [item];
    }
    assert params == QueryParams(useAuthHeader, userId, currency, configJson);
  }

  /** The header `init` and `refreshToken` add: present exactly when the header is in use and a token is held. */
  function AuthorizationHeader(useAuthHeader: bool, authToken: Option<string>): (h: Option<string>)
    ensures h.Some? <==> useAuthHeader && Present(authToken)
    ensures h.Some? ==> h.value == "Bearer " + authToken.value
  {
    if useAuthHeader && Present(authToken) then Some("Bearer " + authToken.value) else None
  }

  /** The text after the first `?` of a URL. */
  function QueryOf(url: string): string
    requires '?' in url
  {
    url[IndexOf(url, '?') + 1..]
  }

  /**
   * Splitting the query on `&` gives back the parameters exactly: no
   * encoded value holds a `&` or a `?`.
   */
  lemma QueryParsesBack(endpoint: string, useAuthHeader: bool, userId: string,
                        currency: Option<string>, configJson: Option<string>)
    requires '?' !in endpoint
    requires QueryParams(useAuthHeader, userId, currency, configJson) != []
    ensures var url := RequestUrl(endpoint, useAuthHeader, userId, currency, configJson);
            '?' in url && Split(QueryOf(url), '&') == QueryParams(useAuthHeader, userId, currency, configJson)
  {
    var params := QueryParams(useAuthHeader, userId, currency, configJson);
    var url := RequestUrl(endpoint, useAuthHeader, userId, currency, configJson);
    var rest := Join(params, '&');
    assert url == endpoint + ("?" + rest);
    IndexOfAppend(endpoint, "?" + rest, '?');
    assert QueryOf(url) == rest;
    EncodedHasNoDelimiters(userId);
    if currency.Some? { EncodedHasNoDelimiters(currency.value); }
    if configJson.Some? { EncodedHasNoDelimiters(configJson.value); }
    forall i | 0 <= i < |params| ensures '&' !in params[i] {
      NoDelimiterInParam(params[i], useAuthHeader, userId, currency, configJson);
    }
    SplitJoin(params, '&');
  }

  lemma NoDelimiterInParam(p: string, useAuthHeader: bool, userId: string,
                           currency: Option<string>, configJson: Option<string>)
    requires p in QueryParams(useAuthHeader, userId, currency, configJson)
    ensures '&' !in p
  {
    var a := if !useAuthHeader then ["user_id=" + Encode(userId)] else [];
    var b := if Present(currency) then ["currency=" + Encode(currency.value)] else [];
    var c := if configJson.Some? then ["config=" + Encode(configJson.value)] else [];
    assert QueryParams(useAuthHeader, userId, currency, configJson) == a + b + c;
    if p in a {
      EncodedHasNoDelimiters(userId);
      assert p == "user_id=" + Encode(userId);
    } else if p in b {
      EncodedHasNoDelimiters(currency.value);
      assert p == "currency=" + Encode(currency.value);
    } else {
      assert p in c;
      EncodedHasNoDelimiters(configJson.value);
      assert p == "config=" + Encode(configJson.value);
    }
  }

  lemma UnreservedLiteral(s: string)
    requires forall i :: 0 <= i < |s| ==> IsUnreserved(s[i])
    ensures Encode(s) == s
  {
    EncodeIsIdentityIff(s);
  }

  /**
   * Without the header, a user id and a currency made of unreserved
   * characters appear verbatim: `endpoint?user_id=<id>&currency=<cur>`.
   */
  lemma UserAndCurrencyUrl(endpoint: string, userId: string, currency: string)
    requires forall i :: 0 <= i < |userId| ==> IsUnreserved(userId[i])
    requires forall i :: 0 <= i < |currency| ==> IsUnreserved(currency[i])
    requires currency != ""
    ensures RequestUrl(endpoint, false, userId, Some(currency), None)
            == endpoint + "?" + ("user_id=" + userId) + "&" + ("currency=" + currency)
  {
    UnreservedLiteral(userId);
    UnreservedLiteral(currency);
    var params := QueryParams(false, userId, Some(currency), None);
    assert params == ["user_id=" + userId, "currency=" + currency];
    assert params[1..] == ["currency=" + currency];
    var joined := Join(params, '&');
    assert Join(params[1..], '&') == "currency=" + currency;
    assert joined == params[0] + ['&'] + Join(params[1..], '&');
    assert joined == ("user_id=" + userId) + "&" + ("currency=" + currency);
    assert RequestUrl(endpoint, false, userId, Some(currency), None) == endpoint + "?" + "" + joined;
    assert endpoint + "?" + "" == endpoint + "?";
  }

  /** The init URL the helper's tests expect for user `test-user` and currency `usd`. */
  lemma InitUrlOfTestUser()
    ensures RequestUrl("/api/savage-tech/init", false, "test-user", Some("usd"), None)
            == "/api/savage-tech/init" + "?" + ("user_id=" + "test-user") + "&" + ("currency=" + "usd")
  {
    UserAndCurrencyUrl("/api/savage-tech/init", "test-user", "usd");
  }

  /** The refresh URL the tests expect for the same user. */
  lemma RefreshUrlOfTestUser()
    ensures RequestUrl("/api/savage-tech/refresh-token", false, "test-user", Some("usd"), None)
            == "/api/savage-tech/refresh-token" + "?" + ("user_id=" + "test-user") + "&" + ("currency=" + "usd")
  {
    UserAndCurrencyUrl("/api/savage-tech/refresh-token", "test-user", "usd");
  }

  lemma {:induction false} JoinHead(parts: seq<string>, sep: char)
    requires parts != [] && parts[0] != ""
    ensures Join(parts, sep) != "" && Join(parts, sep)[0] == parts[0][0]
  {
    if |parts| > 1 {
      assert Join(parts, sep) == parts[0] + ([sep] + Join(parts[1..], sep));
    }
  }

  /**
   * With the header in use (and an endpoint without its own query), the
   * URL goes straight from `?` to the first parameter: no `&` follows it.
   */
  lemma HeaderUrlHasNoLeadingAmpersand(endpoint: string, userId: string,
                                       currency: Option<string>, configJson: Option<string>)
    requires '?' !in endpoint
    ensures var url := RequestUrl(endpoint, true, userId, currency, configJson);
            |url| > |endpoint| && url[..|endpoint| + 1] == endpoint + "?"
            && (QueryParams(true, userId, currency, configJson) != [] ==> url[|endpoint| + 1] != '&')
  {
    var params := QueryParams(true, userId, currency, configJson);
    var head := endpoint + "?";
    assert RequestUrl(endpoint, true, userId, currency, configJson) == head + "" + Join(params, '&');
    assert head + "" == head;
    if params != [] {
      FirstParamWithHeader(userId, currency, configJson);
      JoinHead(params, '&');
    }
  }

  /** With the header, the first parameter is `currency=…` or `config=…`. */
  lemma FirstParamWithHeader(userId: string, currency: Option<string>, configJson: Option<string>)
    ensures var params := QueryParams(true, userId, currency, configJson);
            params != [] ==> params[0] != "" && params[0][0] == 'c'
  {
    var params := QueryParams(true, userId, currency, configJson);
    if Present(currency) {
      assert params[0] == "currency=" + Encode(currency.value);
    } else if configJson.Some? {
      assert params[0] == "config=" + Encode(configJson.value);
    }
  }
}
