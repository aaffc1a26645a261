/**
 * The browser-side token helper: one object holding the user, currency,
 * configuration and Authorization-header settings, the last token data
 * received, and at most one pending refresh timer.
 *
 * Promises are flattened into straight-line methods. `fetch` and
 * `response.json()` become a `Response` parameter, the widget runtime
 * (`window.Savage`, `eval` of the init code) becomes presence flags, and
 * `Date.now()` the parameter `now` (integer milliseconds). The timer the
 * helper arms and the calls it makes to `fetch`, `onError`,
 * `Savage.setCredentials` and `eval` are recorded in `effects`.
 */
module SavageTechHelper {

  import opened Wrappers
  import opened Json
  import opened TokenExpiry
  import opened HelperRequests

  /** The constructor's `options`; None is an absent option. */
  datatype Options = Options(
    initEndpoint: Option<string>,
    refreshEndpoint: Option<string>,
    userId: Option<string>,
    currency: Option<string>,
    config: Json,
    refreshBeforeMinutes: Option<int>,
    useAuthHeader: bool,
    authToken: Option<string>)

  /** `option || fallback` for a string option. */
  function OrElse(o: Option<string>, fallback: string): (r: string)
    ensures r == fallback <==> !Present(o) || o.value == fallback
    ensures Present(o) ==> r == o.value
  {
    if Present(o) then o.value else fallback
  }

  /** `option || null` for a string option: only a non-empty string is kept. */
  function OrNull(o: Option<string>): (r: Option<string>)
    ensures r.Some? <==> Present(o)
    ensures r.Some? ==> r == o && r.value != ""
  {
    if Present(o) then o else None
  }

  /** `options.refreshBeforeMinutes || 10`: absent and 0 both give ten minutes. */
  function MarginMinutes(o: Option<int>): (m: int)
    ensures m != 0
    ensures m == 10 <==> o.None? || o.value == 0 || o.value == 10
    ensures o.Some? && o.value != 0 ==> m == o.value
  {
    if o.Some? && o.value != 0 then o.value else 10
  }

  /** `options.config || {}`. */
  function ConfigOrEmpty(c: Json): (r: Json)
    ensures Truthy(r)
    ensures Truthy(c) ==> r == c
    ensures !Truthy(c) ==> r == JObject(map[])
  {
    if Truthy(c) then c else JObject(map[])
  }

  /** A timer armed with `setTimeout`: the handle it returned and its delay. */
  datatype Timer = Timer(handle: nat, delay: int)

  /** Who called `refreshToken`. */
  datatype Caller = Scheduled | Immediate | WidgetExpiry

  /** The errors the helper passes to `onError` and rejects with. */
  datatype JsError =
    | MissingIdentity       // neither a user id nor the Authorization header
    | InitRequestFailed     // init response not ok
    | RefreshRequestFailed  // refresh response not ok
    | WidgetNotInitialized  // no `Savage.setCredentials` when the refresh returns
    | FetchRejected         // `fetch` itself failed
    | BodyNotJson           // `response.json()` rejected
    | NullData              // the body was `null`: reading a property of it throws
    | InitCodeThrew         // `eval(data.init_code)` threw

  /** What the helper does to the outside world, in order. */
  datatype Effect =
    | Fetched(url: string, authorization: Option<string>)
    | ErrorReported(error: JsError)
    | CredentialsSet(credentials: Option<Json>)
    | InitCodeEvaluated(code: Option<Json>)
    | ExpirationListenerAdded
    | RefreshStarted(caller: Caller)

  /** The settlement of a `fetch`: a rejection, or a response and what `json()` gives. */
  datatype Response = NetworkFailure | Answered(ok: bool, body: Option<Json>)

  /** The settings `init` and `refreshToken` read and may override. */
  datatype Settings = Settings(userId: Option<string>, currency: Option<string>, config: Json,
                               useAuthHeader: bool, authToken: Option<string>)

  /** What the `||` defaults and the truthy overrides can store: no empty string, a truthy config. */
  predicate SettingsOk(s: Settings) {
    (s.userId.Some? ==> s.userId.value != "")
    && (s.currency.Some? ==> s.currency.value != "")
    && (s.authToken.Some? ==> s.authToken.value != "")
    && Truthy(s.config)
  }

  /**
   * The overrides `init(userId, config, currency, authToken)` starts with
   * (and `refreshToken(authToken)` with only a token): each truthy argument
   * replaces its setting, and a token also switches the header on.
   */
  function Overridden(s: Settings, userIdArg: Option<string>, configArg: Json, currencyArg: Option<string>,
                      authTokenArg: Option<string>): (r: Settings)
    ensures SettingsOk(s) ==> SettingsOk(r)
    ensures r.useAuthHeader <==> s.useAuthHeader || Present(authTokenArg)
    ensures Present(userIdArg) ==> r.userId == userIdArg
    ensures Truthy(configArg) ==> r.config == configArg
    ensures Present(currencyArg) ==> r.currency == currencyArg
    ensures Present(authTokenArg) ==> r.authToken == authTokenArg
  {
    Settings(if Present(userIdArg) then userIdArg else s.userId,
             if Present(currencyArg) then currencyArg else s.currency,
             if Truthy(configArg) then configArg else s.config,
             s.useAuthHeader || Present(authTokenArg),
             if Present(authTokenArg) then authTokenArg else s.authToken)
  }

  /** A falsy argument leaves its setting alone; with no truthy argument nothing changes. */
  lemma FalsyArgumentsKeepSettings(s: Settings, userIdArg: Option<string>, configArg: Json,
                                   currencyArg: Option<string>, authTokenArg: Option<string>)
    ensures var r := Overridden(s, userIdArg, configArg, currencyArg, authTokenArg);
            (!Present(userIdArg) ==> r.userId == s.userId)
            && (!Truthy(configArg) ==> r.config == s.config)
            && (!Present(currencyArg) ==> r.currency == s.currency)
            && (!Present(authTokenArg) ==> r.authToken == s.authToken && r.useAuthHeader == s.useAuthHeader)
  {
  }

  /** Applying the same overrides twice is applying them once. */
  lemma OverridesIdempotent(s: Settings, userIdArg: Option<string>, configArg: Json,
                            currencyArg: Option<string>, authTokenArg: Option<string>)
    ensures var r := Overridden(s, userIdArg, configArg, currencyArg, authTokenArg);
            Overridden(r, userIdArg, configArg, currencyArg, authTokenArg) == r
  {
  }

  /** How the response continuation of `init` ends. */
  function InitOutcome(response: Response, evalThrows: bool): Result<Json, JsError> {
    match response
    case NetworkFailure => Err(FetchRejected)
    case Answered(ok, body) =>
      if !ok then Err(InitRequestFailed)
      else if body.None? then Err(BodyNotJson)
      else if body.value == JNull then Err(NullData)
      else if evalThrows then Err(InitCodeThrew)
      else Ok(body.value)
  }

  /** How the response continuation of `refreshToken` ends. */
  function RefreshOutcome(response: Response, widgetReady: bool): Result<Json, JsError> {
    match response
    case NetworkFailure => Err(FetchRejected)
    case Answered(ok, body) =>
      if !ok then Err(RefreshRequestFailed)
      else if body.None? then Err(BodyNotJson)
      else if !widgetReady then Err(WidgetNotInitialized)
      else if body.value == JNull then Err(NullData)
      else Ok(body.value)
  }

  /** `onError` called once, or twice when the caller's own `.catch(this.onError)` sees the rethrow. */
  function Reported(e: JsError, caughtAgain: bool): seq<Effect> {
    if caughtAgain then [ErrorReported(e), ErrorReported(e)] else [ErrorReported(e)]
  }

  class Helper {
    const initEndpoint: string
    const refreshEndpoint: string
    const refreshBeforeMinutes: int
    /** `JSON.parse`, None where it throws. */
    const parse: string -> Option<Json>
    /** `JSON.stringify`. */
    const stringify: Json -> string

    var userId: Option<string>
    var currency: Option<string>
    var config: Json
    var useAuthHeader: bool
    var authToken: Option<string>
    var isInitialized: bool
    /** The last response data; JNull for JavaScript's `null`. */
    var tokenData: Json
    /** The handle last stored by `setupRefreshTimer`. */
    var refreshTimer: Option<Timer>
    /** The next handle the browser's `setTimeout` returns. */
    var nextHandle: nat
    var effects: seq<Effect>

    /** Handles of timers that have neither fired nor been cleared. */
    ghost var pending: set<nat>
    /** Expiration callbacks registered with the widget. */
    ghost var listeners: nat
    /** Immediate refreshes whose request is out and whose response is not yet handled. */
    ghost var inFlight: nat

    ghost predicate Valid()
      reads this
    {
      SettingsValid() && TimerValid()
    }

    /** The settings hold only what the helper's `||` defaults and truthy overrides can store. */
    predicate SettingsValid()
      reads this`userId, this`currency, this`config, this`useAuthHeader, this`authToken
    {
      SettingsOk(CurrentSettings()) && refreshBeforeMinutes != 0
    }

    /** A stored timer has a positive delay and an issued handle; only it can be pending. */
    ghost predicate TimerValid()
      reads this`refreshTimer, this`nextHandle, this`pending
    {
      nextHandle >= 1
      && (refreshTimer.Some? ==> 1 <= refreshTimer.value.handle < nextHandle && refreshTimer.value.delay > 0)
      && pending <= StoredHandles()
    }

    /** The handle in `refreshTimer`, as a set. */
    function StoredHandles(): set<nat>
      reads this`refreshTimer
    {
      if refreshTimer.Some? then {refreshTimer.value.handle} else {}
    }

    function CurrentSettings(): Settings
      reads this`userId, this`currency, this`config, this`useAuthHeader, this`authToken
    {
      Settings(userId, currency, config, useAuthHeader, authToken)
    }

    /** The check `init` and `refreshToken` start with. */
    predicate CanRequest()
      reads this`userId, this`useAuthHeader
    {
      useAuthHeader || userId.Some?
    }

    /** The `config` query parameter `init` adds: the JSON text of a config with keys. */
    function ConfigParam(): Option<string>
      reads this`config
    {
      if KeyCount(config) > 0 then Some(stringify(config)) else None
    }

    /** The `fetch` call to `endpoint` under the current settings. */
    function RequestTo(endpoint: string, configJson: Option<string>): Effect
      reads this`userId, this`currency, this`useAuthHeader, this`authToken
    {
      Fetched(RequestUrl(endpoint, useAuthHeader, userId.GetOr(""), currency, configJson),
              AuthorizationHeader(useAuthHeader, authToken))
    }

    /** What the synchronous part of `refreshToken()` does under the current settings. */
    function ImmediateStart(): seq<Effect>
      reads this`userId, this`currency, this`useAuthHeader, this`authToken
    {
      if CanRequest() then [RequestTo(refreshEndpoint, None)] else [ErrorReported(MissingIdentity)]
    }

    /**
     * The state `setupRefreshTimer(now)` leaves, from the effects, next
     * handle and in-flight count it started with: the old timer is gone in
     * every case, then a positive delay arms exactly one timer, a delay of
     * zero or less starts a refresh at once, and no expiry does nothing.
     */
    ghost predicate TimerSetUp(now: int, effects0: seq<Effect>, handle0: nat, inFlight0: nat)
      reads this`tokenData, this`refreshTimer, this`pending, this`nextHandle, this`effects, this`inFlight,
              this`userId, this`currency, this`useAuthHeader, this`authToken
    {
      PlanFollowed(RefreshPlan(tokenData, refreshBeforeMinutes, now, parse), effects0, handle0, inFlight0)
    }

    /** The timer state after the old timer was cleared and `plan` was carried out. */
    ghost predicate PlanFollowed(plan: Plan, effects0: seq<Effect>, handle0: nat, inFlight0: nat)
      reads this`tokenData, this`refreshTimer, this`pending, this`nextHandle, this`effects, this`inFlight,
              this`userId, this`currency, this`useAuthHeader, this`authToken
    {
      match plan
      case NoRefresh =>
        refreshTimer == None && pending == {} && nextHandle == handle0
        && effects == effects0 && inFlight == inFlight0
      case Schedule(d) =>
        refreshTimer == Some(Timer(handle0, d)) && pending == {handle0} && nextHandle == handle0 + 1
        && effects == effects0 && inFlight == inFlight0
      case RefreshNow =>
        refreshTimer == None && pending == {} && nextHandle == handle0
        && effects == effects0 + [RefreshStarted(Immediate)] + ImmediateStart()
        && inFlight == inFlight0 + (if CanRequest() then 1 else 0)
    }

    /**
     * The state the response continuation of `refreshToken` leaves. A
     * failure leaves the token data (unless the body was null, which is
     * stored before reading `credentials` throws) and the timers alone and
     * reports the error; success stores the data, passes its
     * `credentials` to the widget and sets the timer up again.
     */
    ghost predicate RefreshCompleted(response: Response, widgetReady: bool, now: int, r: Result<Json, JsError>,
                                     tokenData0: Json, effects0: seq<Effect>, handle0: nat, inFlight0: nat,
                                     timer0: Option<Timer>, pending0: set<nat>, caughtAgain: bool)
      reads this
    {
      r == RefreshOutcome(response, widgetReady)
      && match r
         case Err(e) =>
           tokenData == (if e == NullData then JNull else tokenData0)
           && effects == effects0 + Reported(e, caughtAgain)
           && refreshTimer == timer0 && pending == pending0
           && nextHandle == handle0 && inFlight == inFlight0
         case Ok(data) =>
           tokenData == data
           && TimerSetUp(now, effects0 + [CredentialsSet(Member(data, "credentials"))], handle0, inFlight0)
    }

    /** `new SavageTechHelper(options)`. */
    constructor (options: Options, parse: string -> Option<Json>, stringify: Json -> string)
      ensures Valid()
      ensures initEndpoint == OrElse(options.initEndpoint, "/api/savage-tech-init")
      ensures refreshEndpoint == OrElse(options.refreshEndpoint, "/api/savage-tech-refresh-token")
      ensures userId == OrNull(options.userId) && currency == OrNull(options.currency)
      ensures authToken == OrNull(options.authToken)
      ensures config == ConfigOrEmpty(options.config)
      ensures refreshBeforeMinutes == MarginMinutes(options.refreshBeforeMinutes)
      ensures useAuthHeader == options.useAuthHeader
      ensures !isInitialized && tokenData == JNull && refreshTimer == None
      ensures pending == {} && listeners == 0 && inFlight == 0 && effects == []
      ensures this.parse == parse && this.stringify == stringify
    {
      initEndpoint := OrElse(options.initEndpoint, "/api/savage-tech-init");
      refreshEndpoint := OrElse(options.refreshEndpoint, "/api/savage-tech-refresh-token");
      userId := OrNull(options.userId);
      currency := OrNull(options.currency);
      config := ConfigOrEmpty(options.config);
      refreshBeforeMinutes := MarginMinutes(options.refreshBeforeMinutes);
      useAuthHeader := options.useAuthHeader;
      authToken := OrNull(options.authToken);
      isInitialized := false;
      tokenData := JNull;
      refreshTimer := None;
      this.parse := parse;
      this.stringify := stringify;
      nextHandle := 1;
      effects := [];
      pending := {};
      listeners := 0;
      inFlight := 0;
    }

    /**
     * `setupRefreshTimer()` at time `now`: clear the stored timer first,
     * whatever the token data holds, then follow the refresh plan.
     */
    method SetupRefreshTimer(now: int)
      requires Valid()
      modifies this
      ensures Valid()
      ensures CurrentSettings() == old(CurrentSettings())
      ensures tokenData == old(tokenData) && isInitialized == old(isInitialized) && listeners == old(listeners)
      ensures TimerSetUp(now, old(effects), old(nextHandle), old(inFlight))
    {
      ClearTimer();
      var plan := RefreshPlan(tokenData, refreshBeforeMinutes, now, parse);
      FollowPlan(plan);
    }

    /** `clearTimeout(this.refreshTimer); this.refreshTimer = null` when a timer is stored. */
    method ClearTimer()
      requires Valid()
      modifies this
      ensures Valid()
      ensures refreshTimer == None && pending == {}
      ensures CurrentSettings() == old(CurrentSettings()) && tokenData == old(tokenData)
      ensures isInitialized == old(isInitialized) && listeners == old(listeners)
      ensures effects == old(effects) && nextHandle == old(nextHandle) && inFlight == old(inFlight)
    {
      if refreshTimer.Some? {
        pending := pending - {refreshTimer.value.handle};
        refreshTimer := None;
      }
    }

    /** Carry out a plan once no timer is stored. */
    method FollowPlan(plan: Plan)
      requires Valid() && refreshTimer == None && pending == {}
      requires plan.Schedule? ==> plan.delay > 0
      modifies this
      ensures Valid()
      ensures CurrentSettings() == old(CurrentSettings()) && tokenData == old(tokenData)
      ensures isInitialized == old(isInitialized) && listeners == old(listeners)
      ensures PlanFollowed(plan, old(effects), old(nextHandle), old(inFlight))
    {
      match plan
      case NoRefresh =>
      case Schedule(d) =>
        refreshTimer := Some(Timer(nextHandle, d));
        pending := {nextHandle};
        nextHandle := nextHandle + 1;
      case RefreshNow =>
        effects := effects + [RefreshStarted(Immediate)];
        var started := StartRefresh(None);
        if started {
          inFlight := inFlight + 1;
        } else {
          effects := effects + [ErrorReported(MissingIdentity)];
        }
    }

    /**
     * The synchronous part of `refreshToken(authToken)`: the identity check
     * comes BEFORE a passed token is adopted, so a rejected call changes
     * nothing; otherwise the token is adopted and the request is sent.
     */
    method StartRefresh(authTokenArg: Option<string>) returns (started: bool)
      requires Valid()
      modifies this
      ensures Valid()
      ensures started == old(CanRequest())
      ensures !started ==> CurrentSettings() == old(CurrentSettings()) && effects == old(effects)
      ensures started ==> CurrentSettings() == Overridden(old(CurrentSettings()), None, JNull, None, authTokenArg)
                          && effects == old(effects) + [RequestTo(refreshEndpoint, None)]
      ensures tokenData == old(tokenData) && isInitialized == old(isInitialized)
      ensures refreshTimer == old(refreshTimer) && pending == old(pending) && nextHandle == old(nextHandle)
      ensures listeners == old(listeners) && inFlight == old(inFlight)
    {
      if !useAuthHeader && userId.None? {
        return false;
      }
      if Present(authTokenArg) {
        authToken := authTokenArg;
        useAuthHeader := true;
      }
      SendRequest(refreshEndpoint, None);
      return true;
    }

    /**
     * The response continuation of `refreshToken`: the widget is checked
     * before the data is stored; every failure goes to `onError` and is
     * rethrown, and `caughtAgain` says whether the caller reports it too.
     */
    method FinishRefresh(response: Response, widgetReady: bool, now: int, caughtAgain: bool)
      returns (r: Result<Json, JsError>)
      requires Valid()
      modifies this
      ensures Valid()
      ensures CurrentSettings() == old(CurrentSettings())
      ensures isInitialized == old(isInitialized) && listeners == old(listeners)
      ensures RefreshCompleted(response, widgetReady, now, r, old(tokenData), old(effects), old(nextHandle),
                               old(inFlight), old(refreshTimer), old(pending), caughtAgain)
    {
      r := RefreshOutcome(response, widgetReady);
      match r
      case Err(e) =>
        if e == NullData {
          tokenData := JNull;
        }
        effects := effects + Reported(e, caughtAgain);
      case Ok(data) =>
        tokenData := data;
        effects := effects + [CredentialsSet(Member(data, "credentials"))];
        SetupRefreshTimer(now);
    }

    /** `refreshToken(authToken)` with its response handled, called directly. */
    method RefreshToken(authTokenArg: Option<string>, response: Response, widgetReady: bool, now: int)
      returns (r: Result<Json, JsError>)
      requires Valid()
      modifies this
      ensures Valid()
      ensures !old(CanRequest()) ==> r == Err(MissingIdentity) && CurrentSettings() == old(CurrentSettings())
                                     && effects == old(effects) && tokenData == old(tokenData)
                                     && refreshTimer == old(refreshTimer) && pending == old(pending)
                                     && nextHandle == old(nextHandle) && inFlight == old(inFlight)
      ensures old(CanRequest()) ==>
                CurrentSettings() == Overridden(old(CurrentSettings()), None, JNull, None, authTokenArg)
                && RefreshCompleted(response, widgetReady, now, r, old(tokenData),
                                    old(effects) + [RequestTo(refreshEndpoint, None)], old(nextHandle),
                                    old(inFlight), old(refreshTimer), old(pending), false)
      ensures isInitialized == old(isInitialized) && listeners == old(listeners)
    {
      var started := StartRefresh(authTokenArg);
      if !started {
        return Err(MissingIdentity);
      }
      r := FinishRefresh(response, widgetReady, now, false);
    }

    /**
     * The stored timer fires: the callback calls `refreshToken()` and its
     * own `.catch(this.onError)`, so a failed response is reported twice.
     * The handle stays in `refreshTimer`, as the callback does not clear it.
     */
    method FireTimer(response: Response, widgetReady: bool, now: int) returns (r: Result<Json, JsError>)
      requires Valid()
      requires refreshTimer.Some? && refreshTimer.value.handle in pending
      modifies this
      ensures Valid()
      ensures CurrentSettings() == old(CurrentSettings())
      ensures isInitialized == old(isInitialized) && listeners == old(listeners)
      ensures !CanRequest() ==> r == Err(MissingIdentity) && tokenData == old(tokenData)
                                && effects == old(effects) + [RefreshStarted(Scheduled), ErrorReported(MissingIdentity)]
                                && refreshTimer == old(refreshTimer) && pending == {}
                                && nextHandle == old(nextHandle) && inFlight == old(inFlight)
      ensures CanRequest() ==>
                RefreshCompleted(response, widgetReady, now, r, old(tokenData),
                                 old(effects) + [RefreshStarted(Scheduled), RequestTo(refreshEndpoint, None)],
                                 old(nextHandle), old(inFlight), old(refreshTimer), {}, true)
    {
      pending := pending - {refreshTimer.value.handle};
      ghost var effects0 := effects;
      effects := effects + [RefreshStarted(Scheduled)];
      var started := StartRefresh(None);
      if !started {
        effects := effects + [ErrorReported(MissingIdentity)];
        assert effects == effects0 + [RefreshStarted(Scheduled), ErrorReported(MissingIdentity)];
        return Err(MissingIdentity);
      }
      assert effects == effects0 + [RefreshStarted(Scheduled), RequestTo(refreshEndpoint, None)];
      r := FinishRefresh(response, widgetReady, now, true);
    }

    /** The response to an immediate refresh started by `setupRefreshTimer` arrives. */
    method CompleteImmediateRefresh(response: Response, widgetReady: bool, now: int)
      returns (r: Result<Json, JsError>)
      requires Valid() && inFlight > 0
      modifies this
      ensures Valid()
      ensures CurrentSettings() == old(CurrentSettings())
      ensures isInitialized == old(isInitialized) && listeners == old(listeners)
      ensures RefreshCompleted(response, widgetReady, now, r, old(tokenData), old(effects), old(nextHandle),
                               old(inFlight) - 1, old(refreshTimer), old(pending), true)
    {
      inFlight := inFlight - 1;
      r := FinishRefresh(response, widgetReady, now, true);
    }

    /** The widget reports an expired token to a registered listener. */
    method OnTokenExpired(response: Response, widgetReady: bool, now: int) returns (r: Result<Json, JsError>)
      requires Valid() && listeners > 0
      modifies this
      ensures Valid()
      ensures CurrentSettings() == old(CurrentSettings())
      ensures isInitialized == old(isInitialized) && listeners == old(listeners)
      ensures !CanRequest() ==> r == Err(MissingIdentity) && tokenData == old(tokenData)
                                && effects == old(effects) + [RefreshStarted(WidgetExpiry), ErrorReported(MissingIdentity)]
                                && refreshTimer == old(refreshTimer) && pending == old(pending)
                                && nextHandle == old(nextHandle) && inFlight == old(inFlight)
      ensures CanRequest() ==>
                RefreshCompleted(response, widgetReady, now, r, old(tokenData),
                                 old(effects) + [RefreshStarted(WidgetExpiry), RequestTo(refreshEndpoint, None)],
                                 old(nextHandle), old(inFlight), old(refreshTimer), old(pending), true)
    {
      ghost var effects0 := effects;
      effects := effects + [RefreshStarted(WidgetExpiry)];
      var started := StartRefresh(None);
      if !started {
        effects := effects + [ErrorReported(MissingIdentity)];
        assert effects == effects0 + [RefreshStarted(WidgetExpiry), ErrorReported(MissingIdentity)];
        return Err(MissingIdentity);
      }
      assert effects == effects0 + [RefreshStarted(WidgetExpiry), RequestTo(refreshEndpoint, None)];
      r := FinishRefresh(response, widgetReady, now, true);
    }

    /**
     * The state the response continuation of `init` leaves. A failure
     * reports the error once and leaves the timers and `isInitialized`
     * alone; the data is stored before `init_code` is read, so a null body
     * or a throwing `eval` leaves it in `tokenData`. Success evaluates the
     * init code, registers the expiration listener when the widget offers
     * one, sets the timer up and marks the helper initialised.
     */
    ghost predicate InitCompleted(response: Response, evalThrows: bool, widgetListens: bool, now: int,
                                  r: Result<Json, JsError>, tokenData0: Json, effects0: seq<Effect>,
                                  handle0: nat, inFlight0: nat, timer0: Option<Timer>, pending0: set<nat>,
                                  listeners0: nat, initialized0: bool)
      reads this
    {
      r == InitOutcome(response, evalThrows)
      && match r
         case Err(e) =>
           isInitialized == initialized0 && listeners == listeners0
           && refreshTimer == timer0 && pending == pending0
           && nextHandle == handle0 && inFlight == inFlight0
           && tokenData == (if e == NullData || e == InitCodeThrew then response.body.value else tokenData0)
           && effects == effects0
                         + (if e == InitCodeThrew then [InitCodeEvaluated(Member(tokenData, "init_code"))] else [])
                         + [ErrorReported(e)]
         case Ok(data) =>
           tokenData == data && isInitialized
           && listeners == listeners0 + (if widgetListens then 1 else 0)
           && TimerSetUp(now, effects0 + [InitCodeEvaluated(Member(data, "init_code"))]
                              + (if widgetListens then [ExpirationListenerAdded] else []),
                         handle0, inFlight0)
    }

    /**
     * `init(userId, config, currency, authToken)` with its response
     * handled: only truthy arguments override the settings (a token also
     * switches the header on); without an identity it rejects before any
     * request and without calling `onError`. Otherwise it requests the
     * init URL, with the config when it has keys, and handles the
     * response.
     */
    method Init(userIdArg: Option<string>, configArg: Json, currencyArg: Option<string>,
                authTokenArg: Option<string>, response: Response, evalThrows: bool,
                widgetListens: bool, now: int)
      returns (r: Result<Json, JsError>)
      requires Valid()
      modifies this
      ensures Valid()
      ensures CurrentSettings() == Overridden(old(CurrentSettings()), userIdArg, configArg, currencyArg, authTokenArg)
      ensures !CanRequest() ==> r == Err(MissingIdentity) && effects == old(effects)
                                && tokenData == old(tokenData) && isInitialized == old(isInitialized)
                                && refreshTimer == old(refreshTimer) && pending == old(pending)
                                && nextHandle == old(nextHandle) && listeners == old(listeners)
                                && inFlight == old(inFlight)
      ensures CanRequest() ==>
                InitCompleted(response, evalThrows, widgetListens, now, r, old(tokenData),
                              old(effects) + [RequestTo(initEndpoint, ConfigParam())], old(nextHandle),
                              old(inFlight), old(refreshTimer), old(pending), old(listeners), old(isInitialized))
    {
      ApplyOverrides(userIdArg, configArg, currencyArg, authTokenArg);
      r := RequestInit(response, evalThrows, widgetListens, now);
    }

    /** The part of `init` after the overrides: the identity check, the request and its continuation. */
    method RequestInit(response: Response, evalThrows: bool, widgetListens: bool, now: int)
      returns (r: Result<Json, JsError>)
      requires Valid()
      modifies this
      ensures Valid()
      ensures CurrentSettings() == old(CurrentSettings())
      ensures !CanRequest() ==> r == Err(MissingIdentity) && effects == old(effects)
                                && tokenData == old(tokenData) && isInitialized == old(isInitialized)
                                && refreshTimer == old(refreshTimer) && pending == old(pending)
                                && nextHandle == old(nextHandle) && listeners == old(listeners)
                                && inFlight == old(inFlight)
      ensures CanRequest() ==>
                InitCompleted(response, evalThrows, widgetListens, now, r, old(tokenData),
                              old(effects) + [RequestTo(initEndpoint, ConfigParam())], old(nextHandle),
                              old(inFlight), old(refreshTimer), old(pending), old(listeners), old(isInitialized))
    {
      if !useAuthHeader && userId.None? {
        return Err(MissingIdentity);
      }
      var configJson := if KeyCount(config) > 0 then Some(stringify(config)) else None;
      SendRequest(initEndpoint, configJson);
      r := FinishInit(response, evalThrows, widgetListens, now);
    }

    /** Build the URL and the headers under the current settings and call `fetch`. */
    method SendRequest(endpoint: string, configJson: Option<string>)
      modifies this`effects
      ensures effects == old(effects) + [RequestTo(endpoint, configJson)]
    {
      var url := BuildRequestUrl(endpoint, useAuthHeader, userId.GetOr(""), currency, configJson);
      effects := effects + [Fetched(url, AuthorizationHeader(useAuthHeader, authToken))];
    }

    /** The start of `init`: each truthy argument replaces its setting, and a token switches the header on. */
    method ApplyOverrides(userIdArg: Option<string>, configArg: Json, currencyArg: Option<string>,
                          authTokenArg: Option<string>)
      requires Valid()
      modifies this`userId, this`config, this`currency, this`authToken, this`useAuthHeader
      ensures Valid()
      ensures CurrentSettings() == Overridden(old(CurrentSettings()), userIdArg, configArg, currencyArg, authTokenArg)
    {
      var next := Overridden(CurrentSettings(), userIdArg, configArg, currencyArg, authTokenArg);
      userId, currency, config := next.userId, next.currency, next.config;
      useAuthHeader, authToken := next.useAuthHeader, next.authToken;
    }

    /** The response continuation of `init`; every failure goes to `onError` once and is rethrown. */
    method FinishInit(response: Response, evalThrows: bool, widgetListens: bool, now: int)
      returns (r: Result<Json, JsError>)
      requires Valid()
      modifies this
      ensures Valid()
      ensures CurrentSettings() == old(CurrentSettings())
      ensures InitCompleted(response, evalThrows, widgetListens, now, r, old(tokenData), old(effects),
                            old(nextHandle), old(inFlight), old(refreshTimer), old(pending),
                            old(listeners), old(isInitialized))
    {
      r := InitOutcome(response, evalThrows);
      if r.Err? && r.error != NullData && r.error != InitCodeThrew {
        effects := effects + [ErrorReported(r.error)];
        return;
      }
      var data := response.body.value;
      tokenData := data;
      if r == Err(NullData) {
        effects := effects + [ErrorReported(NullData)];
        return;
      }
      effects := effects + [InitCodeEvaluated(Member(data, "init_code"))];
      if r == Err(InitCodeThrew) {
        effects := effects + [ErrorReported(InitCodeThrew)];
        return;
      }
      assert r == Ok(data);
      StartWidget(widgetListens, now);
    }

    /** After the init code ran: register the expiration listener, set the timer up, mark initialised. */
    method StartWidget(widgetListens: bool, now: int)
      requires Valid()
      modifies this
      ensures Valid()
      ensures CurrentSettings() == old(CurrentSettings()) && tokenData == old(tokenData)
      ensures isInitialized && listeners == old(listeners) + (if widgetListens then 1 else 0)
      ensures TimerSetUp(now, old(effects) + (if widgetListens then [ExpirationListenerAdded] else []),
                         old(nextHandle), old(inFlight))
    {
      AddExpirationListener(widgetListens);
      SetupRefreshTimer(now);
      isInitialized := true;
    }

    /** `setupTokenExpirationListener()`: register a callback when the widget offers the hook. */
    method AddExpirationListener(widgetListens: bool)
      modifies this`listeners, this`effects
      ensures listeners == old(listeners) + (if widgetListens then 1 else 0)
      ensures effects == old(effects) + (if widgetListens then [ExpirationListenerAdded] else [])
    {
      if widgetListens {
        listeners := listeners + 1;
        effects := effects + [ExpirationListenerAdded];
      }
    }
  }

  /** However the helper got into a valid state, at most one timer is pending, and it is the stored one. */
  lemma AtMostOnePendingTimer(h: Helper)
    requires h.Valid()
    ensures |h.pending| <= 1
    ensures h.pending != {} ==> h.refreshTimer.Some? && h.pending == {h.refreshTimer.value.handle}
  {
    if h.refreshTimer.Some? {
      var t := h.refreshTimer.value.handle;
      if h.pending != {} {
        var x :| x in h.pending;
        assert x == t;
        assert h.pending == {t};
      }
    } else {
      assert h.pending == {};
    }
  }
}
