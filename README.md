# SavageTech SDK token helper and service, in Dafny

This project models the two halves of the SavageTech SDK that handle access
tokens.

**`SavageTechHelper` (JavaScript, browser side)** is modelled as the class
`SavageTechHelper.Helper`. Its fields are the user, currency, configuration
and Authorization-header settings it keeps, the last token data received and
the single refresh timer it stores. The model covers:

- `init(userId, config, currency, authToken)`;
- `refreshToken(authToken)`;
- `setupRefreshTimer()`, with its refresh plan in `TokenExpiry`;
- `setupTokenExpirationListener()`;
- `getTokenExpiry(token)`.

Promises are flattened. Each method runs the synchronous part and then the
response continuation, with the settlement of `fetch` / `response.json()`
passed in as a `Response`. The outside world appears in two ways:

- the effects the helper has are appended, in order, to the log `effects`:
  the `fetch` URL and Authorization header, `onError` calls,
  `Savage.setCredentials`, `eval` of the init code, listener registration,
  and the start of a refresh;
- the clock (`now`, integer milliseconds), the presence of the widget's
  hooks and whether `eval` throws are parameters.

Two browser functions are written out in full:

- `atob` (`Base64`), the forgiving-base64 decode of the WHATWG Infra
  standard over the alphabet of section 4 of RFC 4648, with `btoa` as its
  partner;
- `encodeURIComponent` (`UriComponent`), UTF-8 with `%XX` escapes.

`JSON.parse` and `JSON.stringify` are function parameters of the helper.

**`SavageTechService` (PHP, server side)** is modelled as the class
`SavageTechService.Service`, with constant fields and methods that change
nothing, plus pure functions. The functions cover:

- the URL join (`rtrim` of the base, `ltrim` of the endpoint);
- the default currency;
- the mapping from what Guzzle returns or throws to a decoded result or a
  `SavageTechException`;
- the widget init payload.

The HTTP client (`send`), `json_decode` (`decode`), `json_encode` (`encode`)
and the configured default currency are parameters.

## Model

| member | source | states |
|---|---|---|
| Json.Member | src/assets/js/savage-tech-helper.js:282 | a property read yields a value exactly when the value is an object holding that key |
| Strings.Split | src/assets/js/savage-tech-helper.js:278 | `split` on one character gives one more part than there are separators, and no part holds the separator |
| Strings.JoinSplit | src/assets/js/savage-tech-helper.js:278 | joining the parts of a split with the separator gives back the original string |
| Strings.SplitJoin | src/assets/js/savage-tech-helper.js:278 | splitting a join of separator-free parts gives back exactly those parts |
| Strings.SplitPrefix | src/assets/js/savage-tech-helper.js:278 | a separator-free piece followed by the separator splits off as the first part |
| Strings.IndexOf | src/assets/js/savage-tech-helper.js:92 | `indexOf` of a character that occurs is the position of its first occurrence |
| Strings.IndexOfAppend | src/assets/js/savage-tech-helper.js:92 | the first occurrence in a concatenation lies in the first part if that part has the character, otherwise it is offset by that part's length |
| Strings.TrimLeft | src/Services/SavageTechService.php:160 | `ltrim` returns a suffix that does not start with the character, and everything it removed was that character |
| Strings.TrimOneLeft | src/Services/SavageTechService.php:160 | a single leading character followed by a different one is all `ltrim` removes |
| Strings.TrimRight | src/Services/SavageTechService.php:54 | `rtrim` returns a prefix that does not end with the character, and everything it removed was that character |
| Strings.TrimRightKeeps | src/Services/SavageTechService.php:54 | a string that does not end with the character is left unchanged by `rtrim` |
| Base64.Atob | src/assets/js/savage-tech-helper.js:281 | a successful `atob` yields a binary string (every character below 256) |
| Base64.ForeignCharacterRejected | src/assets/js/savage-tech-helper.js:281 | any character outside the alphabet that is neither whitespace nor `=` makes `atob` throw |
| Base64.AtobOfPadded | src/assets/js/savage-tech-helper.js:281 | alphabet characters plus the padding `btoa` adds decode to the bytes of their sextets |
| Base64.AtobBtoa | src/assets/js/savage-tech-helper.js:281 | round trip: `atob(btoa(x)) == x` for every binary string |
| UriComponent.Encode | src/assets/js/savage-tech-helper.js:84 | `encodeURIComponent` produces only unreserved characters, `%` and hex digits, and never shortens its input |
| UriComponent.EncodedHasNoDelimiters | src/assets/js/savage-tech-helper.js:84-100 | no encoded value contains `&`, `=`, `?` or `#` |
| UriComponent.EncodeIsIdentityIff | src/assets/js/savage-tech-helper.js:84 | a string comes through unchanged if and only if all its characters are unreserved |
| TokenExpiry.GetTokenExpiry | src/assets/js/savage-tech-helper.js:274-289 | a returned expiry is a nonzero whole number of seconds in milliseconds, and only a string token with exactly two dots has one |
| TokenExpiry.RefreshPlan | src/assets/js/savage-tech-helper.js:156-186 | a scheduled refresh always has a positive delay |
| TokenExpiry.RefreshPlanCases | src/assets/js/savage-tech-helper.js:158-186 | no expiry gives no refresh; a positive delay d is scheduled iff the expiry is d plus margin plus now; a refresh happens at once iff expiry minus margin minus now is at most zero |
| TokenExpiry.ThreeSegments | src/assets/js/savage-tech-helper.js:278-279 | three dot-free segments joined with dots split back into exactly those three |
| TokenExpiry.ExpiryOfWellFormedToken | src/assets/js/savage-tech-helper.js:274-284 | a three-segment token whose middle segment decodes to an object with a nonzero integer `exp` expires at `exp * 1000` |
| TokenExpiry.FalsyOrNonStringToken | src/assets/js/savage-tech-helper.js:276-278 | a falsy token, or one that is not a string, has no expiry |
| TokenExpiry.UnparsablePayloadNoExpiry | src/assets/js/savage-tech-helper.js:281 | a middle segment that `atob` rejects, or whose text `JSON.parse` rejects, gives no expiry |
| TokenExpiry.NoUsableExpClaim | src/assets/js/savage-tech-helper.js:281-282 | a null payload, or one whose `exp` is missing or falsy, gives no expiry |
| TokenExpiry.ExpiryComesFromPayload | src/assets/js/savage-tech-helper.js:278-284 | an expiry exists only for three segments whose middle one decodes and parses to an object with a truthy `exp`, and it is that `exp` times 1000 (1000 for `true`) |
| TokenExpiry.WrongSegmentCount | src/assets/js/savage-tech-helper.js:278-279 | a token with a dot count other than two has no expiry |
| TokenExpiry.Base64UrlSegmentUndecodable | src/assets/js/savage-tech-helper.js:281 | a payload segment holding a base64url-only character (`-` or `_`) leaves the token without an expiry, whatever the payload |
| TokenExpiry.HourTokenExpiresAfterNow | tests/js/savage-tech-helper.test.js:127-133 | a token with `exp` one hour after the current second expires after now |
| TokenExpiry.HourTokenSchedulesFiftyMinutes | tests/js/savage-tech-helper.test.js:107-124 | with the default ten-minute margin, an hour-long token arms a timer of fifty minutes less under one second |
| TokenExpiry.MinuteTokenRefreshesNow | src/assets/js/savage-tech-helper.js:178-186 | with the same margin, a token one minute from expiry is refreshed at once and arms no timer |
| HelperRequests.BuildRequestUrl | src/assets/js/savage-tech-helper.js:82-101 | the `+=` URL building yields the endpoint, `?`, and the parameters (user id unless the header is used, then currency, then config) joined with `&` |
| HelperRequests.AppendStep | src/assets/js/savage-tech-helper.js:92-93 | one append step keeps the URL equal to endpoint, `?` and the parameters so far joined with `&` |
| HelperRequests.FirstAppend | src/assets/js/savage-tech-helper.js:89-94 | the first parameter follows the `?` directly unless the endpoint already holds a `?` |
| HelperRequests.LaterAppend | src/assets/js/savage-tech-helper.js:96-101 | every later parameter is preceded by exactly one `&` |
| HelperRequests.QueryTextAfter | src/assets/js/savage-tech-helper.js:92 | after the appended `?` there is query text iff the endpoint had a `?` or something followed |
| HelperRequests.AuthorizationHeader | src/assets/js/savage-tech-helper.js:77-80 | the header is sent iff the header mode is on and a non-empty token is held, and it is `Bearer ` plus the token |
| HelperRequests.QueryParsesBack | src/assets/js/savage-tech-helper.js:82-101 | splitting the query after the `?` on `&` gives back exactly the appended parameters |
| HelperRequests.NoDelimiterInParam | src/assets/js/savage-tech-helper.js:82-101 | no appended parameter contains `&` |
| HelperRequests.UnreservedLiteral | src/assets/js/savage-tech-helper.js:84 | a value of unreserved characters appears verbatim in the URL |
| HelperRequests.UserAndCurrencyUrl | src/assets/js/savage-tech-helper.js:82-94 | without the header, a plain user id and currency give `endpoint?user_id=<id>&currency=<cur>` |
| HelperRequests.InitUrlOfTestUser | tests/js/savage-tech-helper.test.js:81-83 | the init URL for `test-user` and `usd` is `/api/savage-tech/init?user_id=test-user&currency=usd` |
| HelperRequests.RefreshUrlOfTestUser | tests/js/savage-tech-helper.test.js:98-100 | the refresh URL for the same user is `/api/savage-tech/refresh-token?user_id=test-user&currency=usd` |
| HelperRequests.HeaderUrlHasNoLeadingAmpersand | src/assets/js/savage-tech-helper.js:85-94 | in header mode, with an endpoint without its own query, `?` is followed directly by the first parameter, never by `&` |
| HelperRequests.FirstParamWithHeader | src/assets/js/savage-tech-helper.js:85-101 | in header mode the first parameter is `currency=…` or `config=…` |
| SavageTechHelper.OrElse | src/assets/js/savage-tech-helper.js:22-23 | a non-empty option is kept, and otherwise the fallback is used (JavaScript's logical or) |
| SavageTechHelper.OrNull | src/assets/js/savage-tech-helper.js:24-30 | an option is kept exactly when it is a non-empty string, and is null otherwise |
| SavageTechHelper.MarginMinutes | src/assets/js/savage-tech-helper.js:27 | the margin is never zero: an absent or zero option gives 10, and any other value is kept |
| SavageTechHelper.ConfigOrEmpty | src/assets/js/savage-tech-helper.js:26 | the stored config is always truthy: a truthy option is kept, anything else becomes `{}` |
| SavageTechHelper.Overridden | src/assets/js/savage-tech-helper.js:46-61 | each truthy argument replaces its setting, a token also turns header mode on, and settings the defaults could store stay storable |
| SavageTechHelper.FalsyArgumentsKeepSettings | src/assets/js/savage-tech-helper.js:46-61 | a falsy argument leaves its setting unchanged, and without a token the header mode is unchanged |
| SavageTechHelper.OverridesIdempotent | src/assets/js/savage-tech-helper.js:46-61 | applying the same overrides twice changes nothing more than applying them once |
| SavageTechHelper.AtMostOnePendingTimer | src/assets/js/savage-tech-helper.js:148-177 | in every valid state at most one timer is pending, and only the stored one |
| SavageTechHelper.Helper.constructor | src/assets/js/savage-tech-helper.js:21-34 | the logical-or default of every option, no token data, no timer, not initialised, and the invariant established |
| SavageTechHelper.Helper.SetupRefreshTimer | src/assets/js/savage-tech-helper.js:148-192 | the old timer is always cleared first; then no expiry does nothing, a positive delay arms exactly one new timer with that delay, and otherwise a refresh starts at once; settings and token data are unchanged |
| SavageTechHelper.Helper.ClearTimer | src/assets/js/savage-tech-helper.js:149-153 | afterwards no timer is stored or pending, and nothing else changes |
| SavageTechHelper.Helper.FollowPlan | src/assets/js/savage-tech-helper.js:166-186 | a schedule arms one timer under a fresh handle; an immediate refresh starts the request (or reports the missing identity); no plan changes nothing |
| SavageTechHelper.Helper.StartRefresh | src/assets/js/savage-tech-helper.js:200-239 | the identity check comes before a passed token is adopted, so a rejected call changes nothing; otherwise the token override is applied and exactly one request goes to the refresh URL |
| SavageTechHelper.Helper.FinishRefresh | src/assets/js/savage-tech-helper.js:239-265 | a failure (rejected fetch, not ok, body not JSON, widget missing, null data) is reported and leaves the token data and timers alone, except that null data is stored; success stores the data, passes its `credentials` to the widget and sets the timer up again |
| SavageTechHelper.Helper.RefreshToken | src/assets/js/savage-tech-helper.js:200-266 | without an identity it rejects with no effect and no report; otherwise one refresh request is made and its response is handled as above, reported once |
| SavageTechHelper.Helper.FireTimer | src/assets/js/savage-tech-helper.js:170-177 | the fired timer is no longer pending; a refresh starts, and its failures are reported twice because the callback's own `.catch(this.onError)` sees the rethrow |
| SavageTechHelper.Helper.CompleteImmediateRefresh | src/assets/js/savage-tech-helper.js:181-185 | the response to an immediate refresh is handled like any refresh response, with a failure reported twice |
| SavageTechHelper.Helper.OnTokenExpired | src/assets/js/savage-tech-helper.js:137-141 | the expiration callback starts a refresh whose failures are reported twice, and leaves the settings alone |
| SavageTechHelper.Helper.Init | src/assets/js/savage-tech-helper.js:45-130 | the truthy overrides are applied, even when the call then rejects; without an identity it rejects with no request and no report; otherwise one request goes to the init URL (with the config when it has keys) and its response is handled |
| SavageTechHelper.Helper.RequestInit | src/assets/js/savage-tech-helper.js:63-130 | the identity check, the init request and its continuation, with the settings unchanged |
| SavageTechHelper.Helper.SendRequest | src/assets/js/savage-tech-helper.js:68-103 | exactly one `fetch` is recorded, with the URL and Authorization header of the current settings |
| SavageTechHelper.Helper.ApplyOverrides | src/assets/js/savage-tech-helper.js:46-61 | the settings become their overridden form, and the settings invariant is kept |
| SavageTechHelper.Helper.FinishInit | src/assets/js/savage-tech-helper.js:103-129 | a failure is reported once and leaves the timers and the initialised flag alone (data stored before a null read or a throwing `eval` stays); success evaluates `init_code`, registers the listener when offered, sets the timer up and marks the helper initialised |
| SavageTechHelper.Helper.StartWidget | src/assets/js/savage-tech-helper.js:117-123 | listener registered when offered, the timer set up from the stored data, and the initialised flag set |
| SavageTechHelper.Helper.AddExpirationListener | src/assets/js/savage-tech-helper.js:135-143 | a listener is registered (and recorded) exactly when the widget offers `onTokenExpiration` |
| SavageTechService.OneSlashAtJoin | src/Services/SavageTechService.php:160-161 | the request URL is the trimmed base, exactly one `/`, and the endpoint without its leading slashes |
| SavageTechService.SlashBetween | src/Services/SavageTechService.php:161 | gluing with `/` a base that does not end in `/` to an endpoint that does not start with one leaves a single slash between them |
| SavageTechService.SlashesAroundJoinIgnored | src/Services/SavageTechService.php:54 | a trailing slash on the base and a leading slash on the endpoint give the same URL as neither |
| SavageTechService.EndpointUrls | src/Services/SavageTechService.php:160-161 | each of the four endpoints is appended to the base as written |
| SavageTechService.LeadingSlashDropped | src/Services/SavageTechService.php:160-161 | an endpoint with one leading slash is appended to the base unchanged |
| SavageTechService.TestServiceUrls | tests/Unit/Services/SavageTechServiceTest.php:18 | the test base URL needs no trimming, and token requests go to its `/accesstokens` |
| SavageTechService.CurrencyOrDefault | src/Services/SavageTechService.php:79-81 | a given currency is kept; a null one becomes the configured default, or `usd` when none is configured |
| SavageTechService.MessageString | src/Exceptions/SavageTechException.php:25-29 | the message is a string as given, and an array message makes the exception constructor throw a `TypeError` |
| SavageTechService.WithHttpErrors | src/Services/SavageTechService.php:168 | a response with status 400 or more is thrown as a `RequestException` carrying it; any other response is returned untouched |
| SavageTechService.ReceivedOutcome | src/Services/SavageTechService.php:168-179 | a returned response yields its decoded body when it decodes, and otherwise the fixed "not JSON" exception with the response status |
| SavageTechService.FailureOutcome | src/Services/SavageTechService.php:180-201 | a failure never returns; when no response came the exception has code 500 and no payload, and when one came its status is the code; the payload is always the decoded error body (null when there is none or it does not decode); the message is the body's `message` when it has one, the client's own message when not |
| SavageTechService.ErrorBodyMessageWins | tests/Unit/Services/SavageTechServiceTest.php:161-172 | an error response with a JSON `message` raises that message with the response status and the decoded body |
| SavageTechService.NoResponseFailure | tests/Unit/Services/ExceptionHandlingTest.php:59-87 | a `RequestException` without a response, or a `ConnectException`, raises its own message with code 500 and no payload |
| SavageTechService.InvalidJsonSuccess | tests/Unit/Services/ExceptionHandlingTest.php:89-99 | a 200 response whose body is not JSON raises the fixed message with code 200 |
| SavageTechService.Index | src/Services/SavageTechService.php:220-221 | reading `jwt`/`pubsub` gives the value when the key is present and null otherwise |
| SavageTechService.InitCodeCarriesConfig | src/Services/SavageTechService.php:229-230 | the init code is a `window.Savage.init(…);` call whose argument is exactly the encoded configuration |
| SavageTechService.WidgetPayloadShape | src/Services/SavageTechService.php:213-237 | the payload has exactly `init_code` and `token`; the token is the one received; the encoded configuration holds the vendor id and the token's `jwt` and `pubsub`, and holds `config` iff the config is non-empty |
| SavageTechService.ArrGet | src/Services/SavageTechService.php:58-59 | `Arr::get` gives the stored value (even null) when the key is present, and the default otherwise |
| SavageTechService.Service.constructor | src/Services/SavageTechService.php:50-67 | the base URL is stored right-trimmed and is the client's base URI; timeouts default to 30 and 10; the four fixed headers include the vendor id and secret |
| SavageTechService.Service.SendRequest | src/Services/SavageTechService.php:158-202 | the request goes to the joined URL with the data as its JSON body, and the outcome is the mapping of what the client returned or threw |
| SavageTechService.Service.Succeeded | src/Services/SavageTechService.php:168-179 | the success branch agrees with the outcome mapping of a returned response |
| SavageTechService.Service.Failed | src/Services/SavageTechService.php:180-201 | the catch branch agrees with the outcome mapping of a thrown error |
| SavageTechService.Service.GetAccessToken | src/Services/SavageTechService.php:77-87 | a POST to `/accesstokens` with `userId` and the currency after defaulting |
| SavageTechService.Service.DepositMade | src/Services/SavageTechService.php:98-109 | a POST to `/depositmade` with `userId`, `amount` and the currency after defaulting |
| SavageTechService.Service.BetPlaced | src/Services/SavageTechService.php:121-133 | a POST to `/betplaced` with `userId`, `amount`, `odds` and the currency after defaulting |
| SavageTechService.Service.SetCurrencies | src/Services/SavageTechService.php:142-147 | a POST to `/currencies` with the given array as `currencies` |
| SavageTechService.Service.GenerateWidgetInitCode | src/Services/SavageTechService.php:213-237 | one token request as `getAccessToken` makes it; a failed token call propagates unchanged, and a successful one returns the widget payload built from the token |

## Left out

- The framework glue (service provider, facade, controller, routes, configuration file) is not part of this model. The configured default currency is the parameter `configured`.
- Real I/O is not modelled. `fetch`, Guzzle, `window.Savage`, `eval` and the clock are parameters. `Fetched` records only the URL and the Authorization header; the fixed `GET` method and the `Accept`/`Content-Type` headers are not recorded.
- Console output is not modelled, nor the `Math.round` minutes in a log line, nor the default `onError` of `console.error`. An `onError` call is recorded as an `ErrorReported` effect.
- Concurrency is not modelled. The interleavings of pending responses, timers and widget callbacks are captured only by the order in which a caller invokes the methods. An immediate refresh started by `setupRefreshTimer` is completed by a separate call, `CompleteImmediateRefresh`.
- The `catch` around the timer setup (`savage-tech-helper.js` lines 188-190) is not modelled. `getTokenExpiry` catches its own errors, so that `catch` is reached only through a synchronous `URIError` that `refreshToken`'s `encodeURIComponent` raises on a lone surrogate in the user id or currency (line 181 calls it inside the `try`). Lone surrogates are not modelled either (see below); that error would be logged to the console with no `onError` call.
- Floating-point numbers are not modelled. JSON numbers are integers, so a fractional `exp`, `amount` or `odds` is not covered.
- TokenExpiry.GetTokenExpiry: an `exp` that is a numeric string, a list or an object gives no expiry in the model. JavaScript's `*` would coerce some of these to a number.
- The textual forms of `JSON.stringify` and `json_encode`, the key order of JavaScript objects and PHP arrays, and the parsing done by `JSON.parse`/`json_decode` are left abstract as function parameters.
- PHP string-offset reads are not modelled. `$accessToken['jwt']` on a token that is not an array reads as null in the model.
- Lone surrogate code points are not modelled. For those, `encodeURIComponent` throws a `URIError`; the model encodes every `char` as UTF-8.
- A throwing `Savage.setCredentials` is not modelled. The widget is assumed to accept the credentials once it offers the hook.
- JWT segments are base64url-encoded (section 2 of RFC 7515). The code decodes the payload segment with `atob`, which accepts only plain base64. The model follows the code, and `TokenExpiry.Base64UrlSegmentUndecodable` states what that means for tokens using the base64url-only characters.
- The helper has no operation that cancels the timer on its own (no `cancel()`), and a failed refresh leaves the stored timer in place rather than cancelling it. The model follows the code, so `FinishRefresh` keeps the timer on failure.
- Guzzle's transport behaviour is not modelled. The timeouts are recorded in `ClientConfig`; a timeout that fires ends the request in a transport error, which the model receives from `send` as a `Threw` result. The resolution of the URL against `base_uri` is not modelled either: `RequestUrl` is the string `sendRequest` passes, which Guzzle uses as it is when `apiUrl` carries a scheme.
