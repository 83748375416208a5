/** The inbound request as the API handler reads it, the route's declared
    flags, and the decisions taken before any middleware runs: who the client
    is, whether the route admits it, and which permission middlewares are
    registered (src/baseApiRequestHandler.js, lines 24-96 and 109-185). */
module ApiRequest {
  import opened Store
  import opened BaseRequestHandler

  /** What `getAuthenticationKey()` of the referrer information returns:
      nothing, a backend user record (whose email may be null), or an app
      API key. */
  datatype AuthKey = NoKey | UserKey(email: Option<string>) | ApiKey(key: string)

  /** The referrer information (`ApiRequestReferrerInformation`), taken as
      given: whether it recognises a mobile client, and the credential. */
  datatype ReferrerInformation = ReferrerInformation(isMobileApp: bool, authenticationKey: AuthKey)

  /** `request.body.filter`: the brand and customer ids a backend client
      names. */
  datatype Filter = Filter(brand: Option<string>, customer: Option<string>)

  /** The parsed request body fields the core reads: `apiKey`, `api_key`,
      whether `since` is a number, and `filter` (None when absent or falsy). */
  datatype RequestBody = RequestBody(
    apiKey: Option<string>,
    underscoreApiKey: Option<string>,
    sinceIsNumber: bool,
    filter: Option<Filter>)

  /** The inbound request: HTTP method, url, the `since` parameter as
      `parseInt` read it (None for NaN), body, referrer information. */
  datatype Request = Request(
    httpMethod: string,
    url: string,
    sinceParam: Option<int>,
    body: RequestBody,
    referrer: ReferrerInformation)

  /** The flags a route declares on its prototype (lines 28-86). */
  datatype RouteConfig = RouteConfig(
    backendHasAccess: bool,
    appHasAccess: bool,
    restrictBackendAccess: bool,
    restrictAppAccess: bool,
    appUserRequired: bool,
    sinceValueIsMandatory: bool,
    backendNeedsToSpecifyBrand: bool,
    backendNeedsToSpecifyCustomer: bool)

  /** The defaults of the base API handler. */
  const DefaultRoute := RouteConfig(
    backendHasAccess := true,
    appHasAccess := true,
    restrictBackendAccess := true,
    restrictAppAccess := true,
    appUserRequired := false,
    sinceValueIsMandatory := false,
    backendNeedsToSpecifyBrand := true,
    backendNeedsToSpecifyCustomer := false)

  /** The four permission middlewares the API handler registers. */
  datatype Step =
    | BackendPermission
    | AppSessionPermission
    | AppUserPermissionCheck
    | FilterCustomerAndBrands

  /** `core.stringUtil.stringIsEmpty`: null, undefined and "" are empty. */
  predicate StringIsEmpty(s: Option<string>) {
    s.None? || s.value == ""
  }

  /** `isMobileApp` (lines 344-353, and the same test in `setup` and
      `setupMiddleWares`): the client is the mobile app when the referrer
      information says so or the body carries a non-empty API key under
      either name; otherwise it is the backend (editor tool). */
  function IsMobileApp(request: Request): (mobile: bool)
    ensures mobile <==>
      request.referrer.isMobileApp ||
      (request.body.underscoreApiKey.Some? && request.body.underscoreApiKey.value != "") ||
      (request.body.apiKey.Some? && request.body.apiKey.value != "")
  {
    request.referrer.isMobileApp ||
    !StringIsEmpty(request.body.underscoreApiKey) ||
    !StringIsEmpty(request.body.apiKey)
  }

  /** The paths matched by `/^\/users\/(login|register|forgetpassword|password-recovery)/`. */
  const NoTokenPaths: seq<string> := ["/users/login", "/users/register", "/users/forgetpassword", "/users/password-recovery"]

  /** Line 116: the url starts with one of the login-related paths. */
  predicate NoBackendTokenNeeded(url: string)
    ensures NoBackendTokenNeeded(url) ==> "/users/" <= url
  {
    exists p | p in NoTokenPaths :: p <= url
  }

  /** Lines 112-126: `restrictBackendAccess` after initialisation. It is
      cleared for OPTIONS requests and for the login-related paths, and is
      otherwise what the route declares. */
  function RestrictBackendAccessAfterInit(declared: bool, request: Request): (r: bool)
    ensures r ==> declared
    ensures r <==> declared && request.httpMethod != "OPTIONS" && !NoBackendTokenNeeded(request.url)
  {
    if request.httpMethod == "OPTIONS" || NoBackendTokenNeeded(request.url) then false else declared
  }

  /** Lines 156-162: the 401 message when the route does not admit this kind
      of client, or None when it does. */
  function AccessDenial(mobile: bool, route: RouteConfig): (message: Option<string>)
    ensures message.Some? <==> (mobile && !route.appHasAccess) || (!mobile && !route.backendHasAccess)
    ensures message.Some? && mobile ==> message.value == "This route can not be accessed by mobile app."
    ensures message.Some? && !mobile ==> message.value == "This route can not be accessed by editor tool."
  {
    if mobile && !route.appHasAccess then Some("This route can not be accessed by mobile app.")
    else if !mobile && !route.backendHasAccess then Some("This route can not be accessed by editor tool.")
    else None
  }

  /** The middlewares `setupMiddleWares` registers, in order (lines 168-185
      with 359-385). A mobile client gets the session check when the route
      restricts app access, then the linked-user check when the route requires
      an app user; a backend client gets the backend permission check when
      backend access is restricted, and always the scope filter after it. */
  function Registration(mobile: bool, restrictAppAccess: bool, appUserRequired: bool, restrictBackendAccess: bool): (steps: seq<Step>)
    ensures AppSessionPermission in steps <==> mobile && restrictAppAccess
    ensures AppUserPermissionCheck in steps <==> mobile && appUserRequired
    ensures BackendPermission in steps <==> !mobile && restrictBackendAccess
    ensures FilterCustomerAndBrands in steps <==> !mobile
    ensures !mobile ==> steps[|steps| - 1] == FilterCustomerAndBrands
    ensures mobile && appUserRequired ==> steps[|steps| - 1] == AppUserPermissionCheck
    ensures |steps| <= 2
  {
    if mobile then
      (if restrictAppAccess then [AppSessionPermission] else []) +
      (if appUserRequired then [AppUserPermissionCheck] else [])
    else
      (if restrictBackendAccess then [BackendPermission] else []) +
      [FilterCustomerAndBrands]
  }

  /** The entries `useMiddleWare` appends for a list of steps: each is callable. */
  function AsEntries(steps: seq<Step>): (entries: seq<Entry<Step>>)
    ensures |entries| == |steps|
    ensures Callables(entries) == steps
  {
    if steps == [] then [] else [Callable(steps[0])] + AsEntries(steps[1..])
  }

  /** No middleware is registered twice. */
  lemma RegistrationIsDuplicateFree(mobile: bool, restrictAppAccess: bool, appUserRequired: bool, restrictBackendAccess: bool)
    ensures var steps := Registration(mobile, restrictAppAccess, appUserRequired, restrictBackendAccess);
      forall i, j :: 0 <= i < j < |steps| ==> steps[i] != steps[j]
  {
  }

  /** Every entry `useMiddleWare` appends for the steps is callable, in the
      order of the steps. */
  lemma {:induction false} AsEntriesAreCallable(steps: seq<Step>)
    ensures forall i :: 0 <= i < |steps| ==> AsEntries(steps)[i] == Callable(steps[i])
  {
    if steps != [] {
      AsEntriesAreCallable(steps[1..]);
    }
  }

  /** Line 115: `parseInt(req.param('since'), 10) || 0`. */
  function SinceOf(sinceParam: Option<int>): (since: int)
    ensures sinceParam.None? ==> since == 0
    ensures sinceParam.Some? ==> since == sinceParam.value
  {
    if sinceParam.Some? then sinceParam.value else 0
  }

  /** Line 524 and 545-546: `x || null` keeps an id only when it is a
      non-empty string. */
  function FilterId(id: Option<string>): (r: Option<string>)
    ensures r.Some? <==> !StringIsEmpty(id)
    ensures r.Some? ==> r == id
  {
    if id.Some? && id.value != "" then id else None
  }

  /** On a route that keeps the base defaults both kinds of client are
      admitted; the mobile app gets the session check, and a backend client
      gets the backend check and then the scope filter, except for OPTIONS
      requests and the login paths, which get the scope filter alone. */
  lemma DefaultRouteRegistration(request: Request)
    ensures AccessDenial(IsMobileApp(request), DefaultRoute).None?
    ensures IsMobileApp(request) ==>
      Registration(true, DefaultRoute.restrictAppAccess, DefaultRoute.appUserRequired,
                   RestrictBackendAccessAfterInit(DefaultRoute.restrictBackendAccess, request)) == [AppSessionPermission]
    ensures request.httpMethod != "OPTIONS" && !NoBackendTokenNeeded(request.url) ==>
      Registration(false, DefaultRoute.restrictAppAccess, DefaultRoute.appUserRequired,
                   RestrictBackendAccessAfterInit(DefaultRoute.restrictBackendAccess, request)) ==
        [BackendPermission, FilterCustomerAndBrands]
    ensures request.httpMethod == "OPTIONS" || NoBackendTokenNeeded(request.url) ==>
      Registration(false, DefaultRoute.restrictAppAccess, DefaultRoute.appUserRequired,
                   RestrictBackendAccessAfterInit(DefaultRoute.restrictBackendAccess, request)) ==
        [FilterCustomerAndBrands]
  {
  }

  /** A request that carries an API key is a mobile request, so a route that
      shuts the app out rejects it, whatever its referrer says. */
  lemma ApiKeyOnBackendOnlyRoute(request: Request, route: RouteConfig)
    requires !StringIsEmpty(request.body.apiKey) || !StringIsEmpty(request.body.underscoreApiKey)
    requires !route.appHasAccess
    ensures AccessDenial(IsMobileApp(request), route) == Some("This route can not be accessed by mobile app.")
  {
  }

  /** The login paths clear the backend restriction even when the path goes
      on (the pattern has no end anchor), and only when it is a prefix. */
  lemma LoginPathExamples()
    ensures NoBackendTokenNeeded("/users/login")
    ensures NoBackendTokenNeeded("/users/password-recovery/abc")
    ensures NoBackendTokenNeeded("/users/loginx")
    ensures !NoBackendTokenNeeded("/api/users/login")
    ensures !NoBackendTokenNeeded("/users/logout")
  {
    assert NoTokenPaths[0] in NoTokenPaths && NoTokenPaths[0] <= "/users/login";
    assert NoTokenPaths[3] in NoTokenPaths && NoTokenPaths[3] <= "/users/password-recovery/abc";
    assert NoTokenPaths[0] <= "/users/loginx";
    forall p | p in NoTokenPaths ensures !(p <= "/api/users/login") {
      assert p[1] == 'u';
      assert "/api/users/login"[1] == 'a';
    }
    forall p | p in NoTokenPaths ensures !(p <= "/users/logout") {
      if p == NoTokenPaths[0] {
        assert p[10] == 'i' && "/users/logout"[10] == 'o';
      } else {
        assert p[7] != 'l' && "/users/logout"[7] == 'l';
      }
    }
  }
}
