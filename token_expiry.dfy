/**
 * The pure half of the browser helper's timer logic: reading the `exp` claim
 * out of a JWT in the compact three-segment form of section 3 of RFC 7519
 * (`exp` is a NumericDate in seconds, section 4.1.4), and deciding from it
 * whether to arm a refresh timer, refresh at once, or do nothing.
 * Times are integer milliseconds.
 */
module TokenExpiry {

  import opened Wrappers
  import opened Json
  import opened Strings
  import opened Base64

  /**
   * `getTokenExpiry(token)`: the expiry in milliseconds, or None where the
   * helper returns null. `parse` is `JSON.parse` (None where it throws).
   * A falsy token, a non-string token (its `split` throws), a segment count
   * other than three, a middle segment `atob` rejects, text `JSON.parse`
   * rejects, a null payload (reading `exp` throws) and a missing or falsy
   * `exp` all give None. A numeric `exp` gives `exp * 1000` and `true`
   * gives 1000, as JavaScript's `*` coerces it.
   */
  function GetTokenExpiry(token: Json, parse: string -> Option<Json>): (r: Option<int>)
    ensures r.Some? ==> r.value != 0 && r.value % 1000 == 0
    ensures r.Some? ==> token.JStr? && Count(token.s, '.') == 2
  {
    if !Truthy(token) || !token.JStr? then None
    else
      var parts := Split(token.s, '.');
      if |parts| != 3 then None
      else match Atob(parts[1])
        case None => None
        case Some(text) =>
          match parse(text)
          case None => None
          case Some(payload) =>
            if payload == JNull then None
            else match Member(payload, "exp")
              case None => None
              case Some(exp) =>
                if !Truthy(exp) then None
                else if exp.JInt? then Some(exp.i * 1000)
                else if exp == JBool(true) then Some(1000)
                else None
  }

  /**
   * The expiry `setupRefreshTimer` works from: that of `tokenData.jwt`
   * when `tokenData` and its `jwt` are both truthy.
   */
  function TokenDataExpiry(tokenData: Json, parse: string -> Option<Json>): Option<int> {
    if !Truthy(tokenData) then None
    else match Member(tokenData, "jwt")
      case None => None
      case Some(jwt) => if Truthy(jwt) then GetTokenExpiry(jwt, parse) else None
  }

  /** What `setupRefreshTimer` does after clearing the old timer. */
  datatype Plan = NoRefresh | Schedule(delay: int) | RefreshNow

  /**
   * The decision of `setupRefreshTimer` at time `now`, with a margin of
   * `minutes`: the delay is the expiry minus the margin minus now.
   */
  function RefreshPlan(tokenData: Json, minutes: int, now: int, parse: string -> Option<Json>): (p: Plan)
    ensures p.Schedule? ==> p.delay > 0
  {
    match TokenDataExpiry(tokenData, parse)
    case None => NoRefresh
    case Some(expiry) =>
      var delay := expiry - minutes * 60 * 1000 - now;
      if delay > 0 then Schedule(delay) else RefreshNow
  }

  /** The three outcomes of the plan, each stated in terms of the expiry. */
  lemma RefreshPlanCases(tokenData: Json, minutes: int, now: int, parse: string -> Option<Json>)
    ensures RefreshPlan(tokenData, minutes, now, parse) == NoRefresh
            <==> TokenDataExpiry(tokenData, parse) == None
    ensures forall d :: (RefreshPlan(tokenData, minutes, now, parse) == Schedule(d)
                         <==> d > 0 && TokenDataExpiry(tokenData, parse) == Some(d + minutes * 60000 + now))
    ensures RefreshPlan(tokenData, minutes, now, parse) == RefreshNow
            <==> exists e :: TokenDataExpiry(tokenData, parse) == Some(e) && e - minutes * 60000 - now <= 0
  {
    match TokenDataExpiry(tokenData, parse)
    case None =>
    case Some(e) =>
      if e - minutes * 60000 - now <= 0 {
        assert TokenDataExpiry(tokenData, parse) == Some(e) && e - minutes * 60000 - now <= 0;
      }
  }

  /** A token is the three segments joined with dots. */
  lemma ThreeSegments(header: string, payload: string, signature: string)
    requires '.' !in header && '.' !in payload && '.' !in signature
    ensures Split(header + "." + payload + "." + signature, '.') == [header, payload, signature]
  {
    var parts := [header, payload, signature];
    assert Join(parts, '.') == header + "." + payload + "." + signature by {
      assert Join(parts[2..], '.') == signature;
      assert Join(parts[1..], '.') == payload + "." + signature;
    }
    SplitJoin(parts, '.');
  }

  /**
   * A well-formed token: three segments, a middle one `atob` decodes to
   * text that parses to an object with a nonzero numeric `exp`, has expiry
   * `exp * 1000`.
   */
  lemma ExpiryOfWellFormedToken(header: string, payload: string, signature: string,
                                parse: string -> Option<Json>, claims: map<string, Json>, exp: int)
    requires '.' !in header && '.' !in payload && '.' !in signature
    requires Atob(payload).Some? && parse(Atob(payload).value) == Some(JObject(claims))
    requires "exp" in claims && claims["exp"] == JInt(exp) && exp != 0
    ensures GetTokenExpiry(JStr(header + "." + payload + "." + signature), parse) == Some(exp * 1000)
  {
    ThreeSegments(header, payload, signature);
  }

  /** A falsy token, or one that is not a string (its `split` throws), has no expiry. */
  lemma FalsyOrNonStringToken(token: Json, parse: string -> Option<Json>)
    requires !Truthy(token) || !token.JStr?
    ensures GetTokenExpiry(token, parse) == None
  {
  }

  /** A middle segment `atob` rejects, or whose text `JSON.parse` rejects, leaves the token without an expiry. */
  lemma UnparsablePayloadNoExpiry(header: string, payload: string, signature: string,
                                  parse: string -> Option<Json>)
    requires '.' !in header && '.' !in payload && '.' !in signature
    requires Atob(payload).None? || parse(Atob(payload).value).None?
    ensures GetTokenExpiry(JStr(header + "." + payload + "." + signature), parse) == None
  {
    ThreeSegments(header, payload, signature);
  }

  /** A null payload (reading `exp` throws), or one without a truthy `exp`, gives no expiry. */
  lemma NoUsableExpClaim(header: string, payload: string, signature: string,
                         parse: string -> Option<Json>, claims: Json)
    requires '.' !in header && '.' !in payload && '.' !in signature
    requires Atob(payload).Some? && parse(Atob(payload).value) == Some(claims)
    requires claims == JNull || Member(claims, "exp").None? || !Truthy(Member(claims, "exp").value)
    ensures GetTokenExpiry(JStr(header + "." + payload + "." + signature), parse) == None
  {
    ThreeSegments(header, payload, signature);
  }

  /**
   * Conversely, an expiry comes only from a token of three segments whose
   * middle one decodes and parses to an object with a truthy `exp`: the
   * expiry is that `exp` times 1000, or 1000 for `exp: true`.
   */
  lemma ExpiryComesFromPayload(token: string, parse: string -> Option<Json>, v: int)
    requires GetTokenExpiry(JStr(token), parse) == Some(v)
    ensures var parts := Split(token, '.');
            |parts| == 3 && Atob(parts[1]).Some? && parse(Atob(parts[1]).value).Some?
            && var claims := parse(Atob(parts[1]).value).value;
               claims.JObject? && "exp" in claims.fields && Truthy(claims.fields["exp"])
               && ((claims.fields["exp"].JInt? && v == claims.fields["exp"].i * 1000)
                   || (claims.fields["exp"] == JBool(true) && v == 1000))
  {
  }

  /** A token with more or fewer than two dots never has an expiry. */
  lemma WrongSegmentCount(token: string, parse: string -> Option<Json>)
    requires Count(token, '.') != 2
    ensures GetTokenExpiry(JStr(token), parse) == None
  {
  }

  /**
   * `atob` decodes plain base64 only: a middle segment holding a character
   * of the base64url alphabet that plain base64 lacks (`-` or `_`) leaves
   * the token without an expiry, whatever its payload.
   */
  lemma Base64UrlSegmentUndecodable(header: string, payload: string, signature: string,
                                    parse: string -> Option<Json>)
    requires '.' !in header && '.' !in payload && '.' !in signature
    requires '-' in payload || '_' in payload
    ensures GetTokenExpiry(JStr(header + "." + payload + "." + signature), parse) == None
  {
    ThreeSegments(header, payload, signature);
    if '-' in payload {
      ForeignCharacterRejected(payload, '-');
    } else {
      ForeignCharacterRejected(payload, '_');
    }
  }

  /**
   * A token issued for an hour, with `exp` the current second plus 3600
   * (`Math.floor(Date.now() / 1000) + 3600`), expires after now.
   */
  lemma HourTokenExpiresAfterNow(header: string, payload: string, signature: string,
                                 parse: string -> Option<Json>, claims: map<string, Json>, now: nat)
    requires '.' !in header && '.' !in payload && '.' !in signature
    requires Atob(payload).Some? && parse(Atob(payload).value) == Some(JObject(claims))
    requires "exp" in claims && claims["exp"] == JInt(now / 1000 + 3600)
    ensures var r := GetTokenExpiry(JStr(header + "." + payload + "." + signature), parse);
            r.Some? && r.value > now
  {
    ExpiryOfWellFormedToken(header, payload, signature, parse, claims, now / 1000 + 3600);
  }

  /**
   * With the default ten-minute margin, an hour-long token arms a timer
   * for fifty minutes, less the part of the current second already gone.
   */
  lemma HourTokenSchedulesFiftyMinutes(tokenData: Json, now: nat, parse: string -> Option<Json>)
    requires TokenDataExpiry(tokenData, parse) == Some((now / 1000 + 3600) * 1000)
    ensures var p := RefreshPlan(tokenData, 10, now, parse);
            p.Schedule? && 3000000 - 1000 < p.delay <= 3000000
  {
  }

  /** With the same margin, a token a minute from expiry is refreshed at once. */
  lemma MinuteTokenRefreshesNow(tokenData: Json, now: nat, parse: string -> Option<Json>)
    requires TokenDataExpiry(tokenData, parse) == Some((now / 1000 + 60) * 1000)
    ensures RefreshPlan(tokenData, 10, now, parse) == RefreshNow
  {
  }
}
