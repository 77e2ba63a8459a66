/** The HTTP client of lib/axios.config.ts: the header builder, the default and
    merged request configuration, and `request`, which turns transport failures
    into typed errors and, on an unauthorized response, runs the token refresh.

    The network is a parameter: each call receives the transport outcome it
    gets. The refresh issues a request of its own, which may need a refresh in
    turn; the outcomes of those nested refresh requests come from
    `refreshScript`, one entry per nesting level. When the script runs out the
    result is `Exhausted`, standing for a recursion the model does not follow
    further. */
module RequestClient {
  import opened Wrappers
  import opened JsValues
  import opened Errors
  import opened Store

  datatype HttpMethod = Get | Post | Put | Delete | Patch

  type Headers = map<string, string>

  const CONTENT_TYPE: string := "Content-Type"
  const AUTHORIZATION: string := "Authorization"
  const DEFAULT_HEADERS: Headers := map[CONTENT_TYPE := "application/json"]

  /** `getHeaders({ withToken, headers, overide })`. An omitted flag is `false`.
      `storedToken` is what `storage.get(AUTH_TOKEN)` returns. */
  function GetHeaders(withToken: bool, headers: Option<Headers>, overide: bool,
                      storedToken: Option<AuthToken>): (r: Headers)
    // overriding with given headers returns exactly those headers
    ensures overide && headers.Some? ==> r == headers.value
    // otherwise: the defaults, the bearer token when asked for and stored, and the caller's headers
    ensures !(overide && headers.Some?) ==>
      (forall k :: k in r <==>
        k == CONTENT_TYPE
        || (k == AUTHORIZATION && withToken && storedToken.Some?)
        || (headers.Some? && k in headers.value))
    // the caller's headers win over the defaults
    ensures !overide && headers.Some? ==>
      forall k :: k in headers.value ==> r[k] == headers.value[k]
    ensures !(overide && headers.Some?) && (headers.None? || CONTENT_TYPE !in headers.value) ==>
      r[CONTENT_TYPE] == "application/json"
    ensures !(overide && headers.Some?) && withToken && storedToken.Some?
            && (headers.None? || AUTHORIZATION !in headers.value) ==>
      r[AUTHORIZATION] == "Bearer " + storedToken.value.access
  {
    var auth: Headers :=
      if withToken && storedToken.Some? then map[AUTHORIZATION := "Bearer " + storedToken.value.access]
      else map[];
    var defaultHeaders := DEFAULT_HEADERS + auth;
    if overide && headers.Some? then headers.value
    else defaultHeaders + (if headers.Some? then headers.value else map[])
  }

  /** Request configuration: axios options plus `refreshTokenOnUnauthorized`. */
  type Configs = map<string, Json>

  const REFRESH_FLAG: string := "refreshTokenOnUnauthorized"

  /** The default-parameter value of `configs`. */
  const DEFAULT_CONFIGS: Configs := map[REFRESH_FLAG := JBool(true)]

  /** `configs` after the default parameter: the default applies only when the
      caller omits `configs` altogether. */
  function EffectiveConfigs(configs: Option<Configs>): (r: Configs)
    ensures configs.None? ==> r == DEFAULT_CONFIGS
    ensures configs.Some? ==> r == configs.value
  {
    match configs
    case None => DEFAULT_CONFIGS
    case Some(c) => c
  }

  /** `configs?.refreshTokenOnUnauthorized` is truthy. */
  predicate RefreshEnabled(configs: Configs) {
    TruthyOpt(Prop(JObj(configs), REFRESH_FLAG))
  }

  /** A caller that passes its own configuration without the flag switches the
      refresh off; omitting the configuration keeps it on. */
  lemma RefreshDefault(c: Configs)
    ensures RefreshEnabled(EffectiveConfigs(None))
    ensures REFRESH_FLAG !in c ==> !RefreshEnabled(EffectiveConfigs(Some(c)))
    ensures RefreshEnabled(EffectiveConfigs(Some(c))) <==> REFRESH_FLAG in c && Truthy(c[REFRESH_FLAG])
  {
  }

  /** The second argument given to the axios instance: for `get` and `delete`
      the configuration spread first and the data over it; the data unchanged
      otherwise. */
  function RequestArgument(verb: HttpMethod, data: Option<map<string, Json>>, configs: Configs)
    : (r: Option<map<string, Json>>)
    ensures (verb == Get || verb == Delete) ==>
      r.Some?
      && (forall k :: k in r.value <==> k in configs || (data.Some? && k in data.value))
      && (data.Some? ==> forall k :: k in data.value ==> r.value[k] == data.value[k])
      && (forall k :: k in configs && (data.None? || k !in data.value) ==> r.value[k] == configs[k])
    ensures !(verb == Get || verb == Delete) ==> r == data
  {
    if verb == Get || verb == Delete then
      Some(configs + (if data.Some? then data.value else map[]))
    else data
  }

  /** What one attempt over the network yields: a response (2xx), or an
      AxiosError with its code and, when the server answered, the response. */
  datatype Transport<B> =
    | Delivered(status: int, data: B)
    | Failed(code: string, response: Option<ErrorResponse>)

  /** The settled value of `request`: the response, a rejection, or a refresh
      nested deeper than the script follows. */
  datatype Outcome<B> =
    | Resolved(status: int, data: B)
    | Rejected(error: Thrown)
    | Exhausted

  /** The body of `POST /auth/token/refresh/`. */
  datatype RefreshTokenResponse = RefreshTokenResponse(access: string)

  const ERR_NETWORK: string := "ERR_NETWORK"
  const ERR_BAD_REQUEST: string := "ERR_BAD_REQUEST"

  /** `error.response?.data?.code === "token_not_valid"`. */
  predicate TokenNotValid(data: Json) {
    Prop(data, "code") == Some(JStr("token_not_valid"))
  }

  /** How `request` handles an AxiosError. */
  datatype Handling = RaiseNetworkError | RunRefresh | RethrowOriginal

  function Classify(code: string, response: Option<ErrorResponse>, refresh: bool): (h: Handling)
    ensures h == RaiseNetworkError <==> code == ERR_NETWORK
    ensures h == RunRefresh <==>
      code != ERR_NETWORK && response.Some? && response.value.status == 401
      && !TokenNotValid(response.value.data) && refresh
  {
    if code == ERR_NETWORK then RaiseNetworkError
    else if response.Some? && !TokenNotValid(response.value.data)
         && response.value.status == 401 && refresh then RunRefresh
    else RethrowOriginal
  }

  /** A refresh-request outcome that itself triggers a refresh (the refresh
      request runs with the default configuration, so the flag is on). */
  predicate Refreshable(t: Transport<RefreshTokenResponse>) {
    t.Failed? && Classify(t.code, t.response, true) == RunRefresh
  }

  /** What `refreshToken` ends in: a new access token, an expired session, or
      a nesting deeper than the script. */
  datatype RefreshVerdict = Renewed(access: string) | Expired | Unfollowed

  /** The specification of `refreshToken` over the nested outcomes. */
  function RefreshResult(script: seq<Transport<RefreshTokenResponse>>): RefreshVerdict
    decreases |script|
  {
    if |script| == 0 then Unfollowed
    else match script[0]
      case Delivered(_, body) => Renewed(body.access)
      case Failed(code, response) =>
        if Classify(code, response, true) == RunRefresh && RefreshResult(script[1..]).Unfollowed?
        then Unfollowed
        else Expired
  }

  /** The error `refreshToken` returns (which `request` then throws). */
  function RefreshError(v: RefreshVerdict): (e: Option<AppError>)
    ensures v.Renewed? ==> e == Some(Unauthorized)
    ensures v.Expired? ==> e == Some(SessionExpired)
    ensures v.Unfollowed? <==> e.None?
  {
    match v
    case Renewed(_) => Some(Unauthorized)
    case Expired => Some(SessionExpired)
    case Unfollowed => None
  }

  /** The refresh result is left unknown exactly when every scripted refresh
      request is itself answered with a refreshable 401. */
  lemma {:induction false} UnfollowedIffAllRefreshable(script: seq<Transport<RefreshTokenResponse>>)
    ensures RefreshResult(script).Unfollowed? <==>
      forall i :: 0 <= i < |script| ==> Refreshable(script[i])
    decreases |script|
  {
    if |script| > 0 {
      UnfollowedIffAllRefreshable(script[1..]);
      assert forall i :: 1 <= i < |script| ==> script[i] == script[1..][i - 1];
    }
  }

  /** Only a refresh request that succeeds at the first level renews the
      token; a nested refresh makes the outer one report an expired session. */
  lemma RenewedIffFirstDelivered(script: seq<Transport<RefreshTokenResponse>>)
    ensures RefreshResult(script).Renewed? <==> |script| > 0 && script[0].Delivered?
    ensures |script| > 0 && script[0].Delivered? ==> RefreshResult(script) == Renewed(script[0].data.access)
  {
  }

  /** A scripted refresh outcome that is not a refreshable failure settles the
      refresh: the script beyond it is never consulted. */
  lemma {:induction false} SettledPrefix(script: seq<Transport<RefreshTokenResponse>>, more: seq<Transport<RefreshTokenResponse>>)
    requires |script| > 0 && !Refreshable(script[|script| - 1])
    ensures RefreshResult(script + more) == RefreshResult(script)
    decreases |script|
  {
    assert (script + more)[0] == script[0];
    if |script| > 1 {
      assert (script + more)[1..] == script[1..] + more;
      SettledPrefix(script[1..], more);
    }
  }

  /** The new state after a refresh that ended in `v`: the renewed access
      token (with an empty refresh token) in memory and in storage, or a
      signed-out session; unknown when the refresh was not followed. */
  function Refreshed(st: Snapshot, v: RefreshVerdict): Option<Snapshot> {
    match v
    case Renewed(access) =>
      Some(st.(authToken := Some(AuthToken(access, "")),
               storage := st.storage[AUTH_TOKEN_KEY := TokenJson(AuthToken(access, ""))]))
    case Expired => Some(WithSignOut(st))
    case Unfollowed => None
  }

  /** The specification of `request`: what it settles with. */
  function RequestOutcome<B>(configs: Option<Configs>, transport: Transport<B>,
                             script: seq<Transport<RefreshTokenResponse>>): Outcome<B>
  {
    match transport
    case Delivered(status, data) => Resolved(status, data)
    case Failed(code, response) =>
      match Classify(code, response, RefreshEnabled(EffectiveConfigs(configs)))
      case RaiseNetworkError => Rejected(App(NetworkError))
      case RethrowOriginal => Rejected(AxiosFailure(code, response))
      case RunRefresh =>
        match RefreshError(RefreshResult(script))
        case Some(e) => Rejected(App(e))
        case None => Exhausted
  }

  /** The specification of `request`: the state it leaves (None when the
      refresh was not followed). Only the refresh path changes anything. */
  function StateAfterRequest<B>(st: Snapshot, configs: Option<Configs>, transport: Transport<B>,
                                script: seq<Transport<RefreshTokenResponse>>): Option<Snapshot>
  {
    if transport.Failed?
       && Classify(transport.code, transport.response, RefreshEnabled(EffectiveConfigs(configs))) == RunRefresh
    then Refreshed(st, RefreshResult(script))
    else Some(st)
  }

  /** What a request can settle with: the delivered response; a network
      error; the original AxiosError; after a refresh, Unauthorized (token
      renewed, the request itself is not retried) or SessionExpired. The
      state is known exactly when the outcome is. */
  lemma RequestOutcomeCases<B>(st: Snapshot, configs: Option<Configs>, transport: Transport<B>,
                               script: seq<Transport<RefreshTokenResponse>>)
    ensures RequestOutcome(configs, transport, script).Resolved? <==> transport.Delivered?
    ensures RequestOutcome(configs, transport, script).Rejected? ==>
      RequestOutcome(configs, transport, script).error in
        {App(NetworkError), App(Unauthorized), App(SessionExpired),
         AxiosFailure(transport.code, transport.response)}
    ensures RequestOutcome(configs, transport, script).Exhausted? <==>
      StateAfterRequest(st, configs, transport, script).None?
    ensures RequestOutcome(configs, transport, script) == Rejected(App(Unauthorized)) ==>
      StateAfterRequest(st, configs, transport, script).value.isAuthenticated == st.isAuthenticated
      && StateAfterRequest(st, configs, transport, script).value.authToken.Some?
    ensures RequestOutcome(configs, transport, script) == Rejected(App(SessionExpired)) ==>
      StateAfterRequest(st, configs, transport, script) == Some(WithSignOut(st))
  {
  }

  /** The state after a request is known exactly when its outcome is, and
      the request neither reads nor changes the loading flag. */
  lemma RequestIgnoresLoading<B>(st: Snapshot, loading: bool, configs: Option<Configs>, transport: Transport<B>,
                                 script: seq<Transport<RefreshTokenResponse>>)
    ensures RequestOutcome(configs, transport, script).Exhausted? <==>
      StateAfterRequest(st.(isAppLoading := loading), configs, transport, script).None?
    ensures StateAfterRequest(st.(isAppLoading := loading), configs, transport, script).Some? ==>
      StateAfterRequest(st, configs, transport, script).Some?
      && StateAfterRequest(st.(isAppLoading := loading), configs, transport, script).value
         == StateAfterRequest(st, configs, transport, script).value.(isAppLoading := loading)
  {
  }

  /** A caller that passes a configuration without the refresh flag never
      triggers a refresh: the request changes nothing and always settles. */
  lemma NoRefreshWithoutFlag<B>(st: Snapshot, c: Configs, transport: Transport<B>,
                                script: seq<Transport<RefreshTokenResponse>>)
    requires REFRESH_FLAG !in c
    ensures StateAfterRequest(st, Some(c), transport, script) == Some(st)
    ensures !RequestOutcome(Some(c), transport, script).Exhausted?
  {
    RefreshDefault(c);
  }

  /** A refresh keeps memory and storage in step. */
  lemma RefreshKeepsPersisted(st: Snapshot, v: RefreshVerdict)
    requires Persisted(st) && Refreshed(st, v).Some?
    ensures Persisted(Refreshed(st, v).value)
  {
    PersistedPreserved(st, JNull, AuthToken("", ""), JNull);
  }

  /** Signing out after a nested refresh or a nested sign-out is signing out
      of the state before them. */
  lemma SignOutAbsorbsRefresh(st: Snapshot, v: RefreshVerdict)
    requires Refreshed(st, v).Some?
    ensures WithSignOut(Refreshed(st, v).value) == WithSignOut(st)
  {
    var a := WithSignOut(Refreshed(st, v).value).storage;
    var b := WithSignOut(st).storage;
    assert forall k :: k in a <==> k in b;
    assert a == b;
  }

  /** How a call through `request` settles when its catch block translates
      failures with `onBadRequest`. */
  function Settle<B>(o: Outcome<B>, onBadRequest: Json -> Eval<AppError>): Settled<B> {
    match o
    case Resolved(_, data) => Fulfilled(data)
    case Rejected(t) => Raised(TranslateFailure(t, onBadRequest))
    case Exhausted => Undetermined
  }

  /** `request({ url, method, data, configs })`, given the transport outcome
      of this call. */
  method Request<B>(s: Session, configs: Option<Configs>, transport: Transport<B>,
                    refreshScript: seq<Transport<RefreshTokenResponse>>)
    returns (r: Outcome<B>)
    modifies s
    decreases |refreshScript|, 1
    ensures r == RequestOutcome(configs, transport, refreshScript)
    ensures StateAfterRequest(old(s.State()), configs, transport, refreshScript).Some? ==>
      s.State() == StateAfterRequest(old(s.State()), configs, transport, refreshScript).value
  {
    match transport
    case Delivered(status, data) =>
      r := Resolved(status, data);
    case Failed(code, response) =>
      var handling := Classify(code, response, RefreshEnabled(EffectiveConfigs(configs)));
      match handling
      case RaiseNetworkError =>
        r := Rejected(App(NetworkError));
      case RethrowOriginal =>
        r := Rejected(AxiosFailure(code, response));
      case RunRefresh =>
        var v := RefreshToken(s, refreshScript);
        match RefreshError(v)
        case Some(e) => r := Rejected(App(e));
        case None => r := Exhausted;
  }

  /** `refreshToken()`: request a new access token; on success store it (with
      an empty refresh token) and return Unauthorized, on any failure sign the
      session out and return SessionExpired. */
  method RefreshToken(s: Session, script: seq<Transport<RefreshTokenResponse>>)
    returns (v: RefreshVerdict)
    modifies s
    decreases |script|, 0
    ensures v == RefreshResult(script)
    ensures Refreshed(old(s.State()), v).Some? ==> s.State() == Refreshed(old(s.State()), v).value
  {
    if |script| == 0 {
      return Unfollowed;
    }
    ghost var before := s.State();
    var response := Request(s, None, script[0], script[1..]);
    match response
    case Resolved(_, body) =>
      var token := AuthToken(body.access, "");
      s.authToken := Some(token);
      s.storage := s.storage[AUTH_TOKEN_KEY := TokenJson(token)];
      v := Renewed(body.access);
    case Rejected(_) =>
      if script[0].Failed? && Classify(script[0].code, script[0].response, true) == RunRefresh {
        SignOutAbsorbsRefresh(before, RefreshResult(script[1..]));
      }
      s.SignOut();
      v := Expired;
    case Exhausted =>
      v := Unfollowed;
  }
}
