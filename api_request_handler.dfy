/** The API request handler (src/baseApiRequestHandler.js): the per-request
    object that classifies the client, registers the permission middlewares
    on the pipeline engine, runs them, and writes exactly one response at
    most. The source's subclassing of the base handler is composition here:
    the handler owns a pipeline engine `base` whose middlewares are the
    handler's own permission steps. */
module BaseApiRequestHandler {
  import opened Store
  import opened BaseRequestHandler
  import opened ApiRequest
  import opened Envelope
  import opened Permissions

  /** The object handed to the login middleware (lines 404-408 and 441-445);
      only the first call also hands it the handler. */
  datatype LoginOptions = LoginOptions(
    referrerInformation: ReferrerInformation,
    restrictBackendAccess: bool,
    backendHasAccess: bool,
    handlerPassed: bool)

  /** `AccessMiddleWare.loginMiddleWare`, a collaborator: whether it calls
      `next`. */
  type LoginMiddleWare = LoginOptions -> bool

  /** How a middleware left the pipeline: by calling `next`, by returning
      without calling it, or by throwing. */
  datatype StepOutcome = CalledNext | Stopped | Threw

  function Outcome(callsNext: bool): (o: StepOutcome)
    ensures o == CalledNext <==> callsNext
    ensures !o.Threw?
  {
    if callsNext then CalledNext else Stopped
  }

  /** The part of the handler's state the middlewares read and write. */
  datatype Context = Context(
    backendUser: Option<Entity>,
    appSession: Option<Entity>,
    brands: seq<Entity>,
    customers: seq<Entity>,
    needsCustomer: bool,
    fetchLog: seq<FetchRequest>,
    writes: seq<Write>)

  /** A handler's context before any middleware has run. */
  function FreshContext(route: RouteConfig): (ctx: Context)
    ensures ctx.writes == [] && ctx.fetchLog == [] && ctx.brands == [] && ctx.customers == []
    ensures ctx.backendUser.None? && ctx.appSession.None?
    ensures ctx.needsCustomer == route.backendNeedsToSpecifyCustomer
  {
    Context(None, None, [], [], route.backendNeedsToSpecifyCustomer, [], [])
  }

  /** What stays fixed while the middlewares run: the route, the request,
      the backend restriction as initialisation left it, the store and the
      login middleware. */
  datatype Env = Env(
    route: RouteConfig,
    request: Request,
    restrictBackendAccess: bool,
    store: Lookup,
    login: LoginMiddleWare)

  /** The context after `sendError(status, message)`. */
  function Refuse(url: string, ctx: Context, status: int, message: string): Context {
    ctx.(writes := Deliver(ctx.writes, ErrorResponse(status, message, None, None, url)))
  }

  /** What the login middleware decides when the backend check hands over. */
  function LoginOutcome(env: Env, handlerPassed: bool): StepOutcome {
    Outcome(env.login(LoginOptions(env.request.referrer, env.restrictBackendAccess, env.route.backendHasAccess, handlerPassed)))
  }

  /** `backendPermissionMiddleWare` (lines 394-447) on the context: the
      user and brand requests are logged; without credentials the login
      middleware decides and is handed the handler; a denial writes its
      error; a granted user's brands are kept and the login middleware
      decides. */
  function BackendStep(env: Env, ctx: Context): (r: (Context, StepOutcome))
    ensures r.0.fetchLog == ctx.fetchLog + BackendIssued(env.request.referrer.authenticationKey)
    ensures r.0.customers == ctx.customers && r.0.appSession == ctx.appSession && r.0.needsCustomer == ctx.needsCustomer
    ensures var v := BackendPermissionCheck(env.request.referrer.authenticationKey, env.store);
      && (v.NoCredentials? ==> r.1 == LoginOutcome(env, true) && r.0.writes == ctx.writes &&
                               r.0.brands == ctx.brands && r.0.backendUser == ctx.backendUser)
      && (v.Denied? ==> r.1 == Stopped && r.0.brands == ctx.brands && r.0.backendUser == ctx.backendUser &&
                        r.0.writes == Deliver(ctx.writes, ErrorResponse(v.status, v.message, None, None, env.request.url)))
      && (v.Granted? ==> r.1 == LoginOutcome(env, false) && r.0.writes == ctx.writes &&
                         r.0.brands == v.brands && r.0.backendUser == Some(v.principal))
  {
    var key := env.request.referrer.authenticationKey;
    var c := ctx.(fetchLog := ctx.fetchLog + BackendIssued(key));
    var v := BackendPermissionCheck(key, env.store);
    if v.NoCredentials? then (c, LoginOutcome(env, true))
    else if v.Denied? then (Refuse(env.request.url, c, v.status, v.message), Stopped)
    else (c.(brands := v.brands, backendUser := Some(v.principal)), LoginOutcome(env, false))
  }

  /** `appSessionPermissionMiddleWare` (lines 453-501) on the context. */
  function AppSessionStep(request: Request, store: Lookup, ctx: Context): (r: (Context, StepOutcome))
    ensures r.0.fetchLog == ctx.fetchLog + AppIssued(request.referrer.authenticationKey)
    ensures r.0.customers == ctx.customers && r.0.backendUser == ctx.backendUser && r.0.needsCustomer == ctx.needsCustomer
    ensures r.1 != Threw
    ensures var v := AppSessionPermissionCheck(request.referrer.authenticationKey, store);
      && (v.Denied? ==> r.1 == Stopped && r.0.brands == ctx.brands && r.0.appSession == ctx.appSession &&
                        r.0.writes == Deliver(ctx.writes, ErrorResponse(v.status, v.message, None, None, request.url)))
      && (v.Granted? ==> r.1 == CalledNext && r.0.writes == ctx.writes &&
                         r.0.brands == v.brands && r.0.appSession == Some(v.principal))
  {
    var key := request.referrer.authenticationKey;
    var c := ctx.(fetchLog := ctx.fetchLog + AppIssued(key));
    var v := AppSessionPermissionCheck(key, store);
    if v.Denied? then (Refuse(request.url, c, v.status, v.message), Stopped)
    else (c.(brands := v.brands, appSession := Some(v.principal)), CalledNext)
  }

  /** `appUserPermissionCheckMiddleWare` (lines 505-513) on the context. */
  function AppUserStep(request: Request, ctx: Context): (r: (Context, StepOutcome))
    ensures r.0 == ctx.(writes := r.0.writes)
    ensures r.1 == Threw <==> ctx.appSession.None?
    ensures r.1 == CalledNext <==> ctx.appSession.Some? && ctx.appSession.value.user.Some?
    ensures r.1 == CalledNext || r.1 == Threw ==> r.0.writes == ctx.writes
    ensures r.1 == Stopped ==>
      r.0.writes == Deliver(ctx.writes, ErrorResponse(403, "You need to register to do this.", None, None, request.url))
  {
    var d := Permissions.AppUserPermissionCheck(ctx.appSession);
    if d.Throw? then (ctx, Threw)
    else if d.Deny? then (Refuse(request.url, ctx, d.status, d.message), Stopped)
    else (ctx, CalledNext)
  }

  /** `filterCustomerAndBrandsMiddleWare` (lines 521-614) on the context. */
  function FilterStep(route: RouteConfig, request: Request, store: Lookup, ctx: Context): (r: (Context, StepOutcome))
    ensures r.0.backendUser == ctx.backendUser && r.0.appSession == ctx.appSession
    ensures r.1 != Threw
    ensures var s := FilterScope(route.backendNeedsToSpecifyBrand, ctx.needsCustomer,
                                 request.body.filter, ctx.brands, ctx.customers, store);
      && r.0.needsCustomer == s.needsCustomer && r.0.fetchLog == ctx.fetchLog + s.fetches
      && r.0.brands == s.brands && r.0.customers == s.customers
      && (s.decision.Pass? <==> r.1 == CalledNext)
      && (s.decision.Pass? ==> r.0.writes == ctx.writes)
      && (s.decision.Deny? ==>
            r.0.writes == Deliver(ctx.writes, ErrorResponse(s.decision.status, s.decision.message, None, None, request.url)))
  {
    var s := FilterScope(route.backendNeedsToSpecifyBrand, ctx.needsCustomer,
                         request.body.filter, ctx.brands, ctx.customers, store);
    var c := ctx.(needsCustomer := s.needsCustomer, fetchLog := ctx.fetchLog + s.fetches,
                  brands := s.brands, customers := s.customers);
    if s.decision.Deny? then (Refuse(request.url, c, s.decision.status, s.decision.message), Stopped)
    else (c, CalledNext)
  }

  /** The effect of one middleware on the context, and how it leaves the
      pipeline (lines 394-614): only an error is ever written, a middleware
      that calls `next` writes nothing, and none overwrites a response. */
  function Effect(env: Env, step: Step, ctx: Context): (r: (Context, StepOutcome))
    ensures r.1 == CalledNext ==> r.0.writes == ctx.writes
    ensures ctx.writes != [] ==> r.0.writes == ctx.writes
    ensures r.0.writes != ctx.writes ==> |r.0.writes| == 1 && r.0.writes[0].body.ErrorBody?
    ensures ctx.fetchLog <= r.0.fetchLog
  {
    match step
    case BackendPermission => BackendStep(env, ctx)
    case AppSessionPermission => AppSessionStep(env.request, env.store, ctx)
    case AppUserPermissionCheck => AppUserStep(env.request, ctx)
    case FilterCustomerAndBrands => FilterStep(env.route, env.request, env.store, ctx)
  }

  /** Every middleware of `steps`, run in order from `ctx`, calls `next`. */
  predicate AllPass(env: Env, steps: seq<Step>, ctx: Context)
    decreases |steps|
  {
    steps == [] || (Effect(env, steps[0], ctx).1 == CalledNext && AllPass(env, steps[1..], Effect(env, steps[0], ctx).0))
  }

  /** A whole run of the pipeline over the registered steps (lines 101-164,
      with the API `handleRequest` as the terminal step): it halts once a
      response has been written, runs each step while the previous one called
      `next`, and writes `terminal` when the list is exhausted and a callback
      was given. */
  function Pipeline(env: Env, steps: seq<Step>, ctx: Context, callbackIsFunction: bool, terminal: Write): (r: Context)
    ensures ctx.writes != [] ==> r == ctx
    ensures r.writes == ctx.writes || (ctx.writes == [] && |r.writes| == 1)
    decreases |steps|
  {
    if ctx.writes != [] then ctx
    else if steps == [] then
      (if callbackIsFunction then ctx.(writes := Deliver(ctx.writes, terminal)) else ctx)
    else
      var e := Effect(env, steps[0], ctx);
      if e.1 == CalledNext then Pipeline(env, steps[1..], e.0, callbackIsFunction, terminal) else e.0
  }

  /** At most one response per request: a run adds a write only to a
      context that has none, and adds at most one; the store sees every
      earlier request before the run's own. */
  lemma {:induction false} PipelineWritesAtMostOnce(env: Env, steps: seq<Step>, ctx: Context, callbackIsFunction: bool, terminal: Write)
    ensures var r := Pipeline(env, steps, ctx, callbackIsFunction, terminal);
      && (ctx.writes != [] ==> r == ctx)
      && (|ctx.writes| <= 1 ==> |r.writes| <= 1)
      && ctx.fetchLog <= r.fetchLog
    decreases |steps|
  {
    if ctx.writes == [] && steps != [] {
      var e := Effect(env, steps[0], ctx);
      if e.1 == CalledNext {
        PipelineWritesAtMostOnce(env, steps[1..], e.0, callbackIsFunction, terminal);
      }
    }
  }

  /** The route's handler answers only when a callback was given and every
      registered middleware called `next`; conversely, then it does answer. */
  lemma {:induction false} PipelineSucceedsIffAllPass(env: Env, steps: seq<Step>, ctx: Context, terminal: Write)
    requires ctx.writes == [] && terminal.body.SuccessBody?
    ensures var r := Pipeline(env, steps, ctx, true, terminal);
      r.writes == [terminal] <==> AllPass(env, steps, ctx)
    ensures Pipeline(env, steps, ctx, false, terminal).writes != [terminal]
    decreases |steps|
  {
    if steps != [] {
      var e := Effect(env, steps[0], ctx);
      if e.1 == CalledNext {
        PipelineSucceedsIffAllPass(env, steps[1..], e.0, terminal);
      }
    }
  }

  /** How a run goes on from a context no response has been written in. */
  lemma PipelineUnfold(env: Env, steps: seq<Step>, ctx: Context, callbackIsFunction: bool, terminal: Write)
    requires ctx.writes == []
    ensures steps == [] ==>
      Pipeline(env, steps, ctx, callbackIsFunction, terminal) ==
        (if callbackIsFunction then ctx.(writes := [terminal]) else ctx)
    ensures steps != [] ==>
      Pipeline(env, steps, ctx, callbackIsFunction, terminal) ==
        (var e := Effect(env, steps[0], ctx);
         if e.1 == CalledNext then Pipeline(env, steps[1..], e.0, callbackIsFunction, terminal) else e.0)
  {
  }

  /** A mobile request whose API key "k1" finds one session and one brand, on
      a route that restricts app access and requires no linked user, reaches
      the route's handler with that brand and that session, after the two
      session queries and nothing else. */
  lemma MobileSessionReachesHandler(env: Env, session: Entity, brand: Entity, terminal: Write)
    requires env.request.referrer.authenticationKey == ApiKey("k1")
    requires env.store(AppFetches("k1")[0]) == Rows([session])
    requires env.store(AppFetches("k1")[1]) == Rows([brand])
    ensures var r := Pipeline(env, Registration(true, true, false, env.restrictBackendAccess),
                              FreshContext(env.route), true, terminal);
      && r.writes == [terminal] && r.brands == [brand] && r.appSession == Some(session)
      && r.fetchLog == AppFetches("k1")
  {
    var steps := Registration(true, true, false, env.restrictBackendAccess);
    assert steps == [AppSessionPermission];
    var ctx := FreshContext(env.route);
    var e := Effect(env, AppSessionPermission, ctx);
    assert PerformRequests(AppFetches("k1"), env.store) == AggregateRows([[session], [brand]]);
    assert e.1 == CalledNext && e.0.writes == [];
    assert steps[1..] == [];
  }

  /** A backend request whose key finds no backend user gets exactly the 400
      "No user found for this key.", and the scope filter never runs. */
  lemma BackendKeyWithoutUser(env: Env, email: string, brands: seq<Entity>, terminal: Write)
    requires env.request.referrer.authenticationKey == UserKey(Some(email))
    requires env.store(BackendFetches(email)[0]) == Rows([])
    requires env.store(BackendFetches(email)[1]) == Rows(brands)
    ensures var r := Pipeline(env, Registration(false, false, false, true),
                              FreshContext(env.route), true, terminal);
      && r.writes == [ErrorResponse(400, "No user found for this key.", None, None, env.request.url)]
      && r.fetchLog == BackendFetches(email)
      && r.brands == [] && r.backendUser.None?
  {
    var steps := Registration(false, false, false, true);
    assert steps == [BackendPermission, FilterCustomerAndBrands];
    assert PerformRequests(BackendFetches(email), env.store) == AggregateRows([[], brands]);
  }

  class ApiRequestHandler {
    /** The route's declared flags. */
    const route: RouteConfig
    /** The inbound request; its referrer information is what
        `parseReferrerInformation` reads. */
    const request: Request
    /** What the route's `setResponseDataToResponse` puts on the response. */
    const responseData: Option<Payload>
    /** The pipeline engine this handler extends. */
    const base: RequestHandler<Step>

    var restrictBackendAccess: bool
    var backendNeedsToSpecifyCustomer: bool
    var since: int
    var responseTime: Option<int>
    var backendUser: Option<Entity>
    var appSession: Option<Entity>
    var brands: seq<Entity>
    var customers: seq<Entity>
    /** Warnings to send with a successful response (line 79). */
    var errors: seq<string>
    /** Every `status(code).json(body)` call made on the response. */
    var writes: seq<Write>
    /** Every fetch request submitted to the store, in order. */
    var fetchLog: seq<FetchRequest>

    /** At most one response is ever written, and `responseIsSent` says
        whether it has been. */
    ghost predicate Valid()
      reads this, base
    {
      |writes| <= 1 && (base.responseIsSent <==> writes != [])
    }

    /** The state a new handler starts in, before `initialize` runs. */
    ghost predicate Pristine()
      reads this, base
    {
      && restrictBackendAccess == route.restrictBackendAccess
      && backendNeedsToSpecifyCustomer == route.backendNeedsToSpecifyCustomer
      && since == 0 && responseTime == None
      && backendUser == None && appSession == None
      && brands == [] && customers == [] && errors == []
      && writes == [] && fetchLog == []
      && base.middleWares == [] && !base.responseIsSent
      && base.invoked == [] && base.RunValid()
    }

    /** The middlewares' view of the handler's state. */
    function Ctx(): Context
      reads this
    {
      Context(backendUser, appSession, brands, customers, backendNeedsToSpecifyCustomer, fetchLog, writes)
    }

    /** What the middlewares of one run see fixed. */
    function EnvOf(store: Lookup, login: LoginMiddleWare): Env
      reads this
    {
      Env(route, request, restrictBackendAccess, store, login)
    }

    /** The handler's fields start from the route's defaults, freshly for
        every request (lines 28-96; the source shares its list defaults
        between instances through the prototype). */
    constructor (route: RouteConfig, request: Request, responseData: Option<Payload>)
      ensures this.route == route && this.request == request && this.responseData == responseData
      ensures fresh(base)
      ensures Valid() && Pristine()
    {
      this.route := route;
      this.request := request;
      this.responseData := responseData;
      base := new RequestHandler<Step>([]);
      restrictBackendAccess := route.restrictBackendAccess;
      backendNeedsToSpecifyCustomer := route.backendNeedsToSpecifyCustomer;
      since := 0;
      responseTime := None;
      backendUser := None;
      appSession := None;
      brands := [];
      customers := [];
      errors := [];
      writes := [];
      fetchLog := [];
    }

    // ## RESPONSES

    /** `writeToResponse` (lines 275-279). */
    method WriteToResponse(code: int, body: Body)
      modifies this`writes
      ensures writes == old(writes) + [Write(code, body)]
    {
      writes := writes + [Write(code, body)];
    }

    /** `sendError` (lines 198-212): nothing when a response has been sent;
        otherwise marks the response sent and writes {domain, code, message}
        with the given status. */
    method SendError(responseCode: int, message: string, errorDomain: Option<string>, errorCode: Option<int>)
      requires Valid()
      modifies this`writes, base`responseIsSent
      ensures Valid() && base.responseIsSent
      ensures writes == Deliver(old(writes), ErrorResponse(responseCode, message, errorDomain, errorCode, request.url))
    {
      if base.responseIsSent { return; }
      var code := ErrorCode(responseCode, errorCode);
      var domain := ErrorDomain(errorDomain, request.url);
      base.responseIsSent := true;
      WriteToResponse(responseCode, ErrorBody(ErrorInfo(domain, code, message)));
    }

    /** `sendDatabaseError` (lines 219-224). */
    method SendDatabaseError()
      requires Valid()
      modifies this`writes, base`responseIsSent
      ensures Valid() && base.responseIsSent
      ensures writes == Deliver(old(writes), ErrorResponse(500, "Error in database handling.", None, None, request.url))
    {
      SendError(500, "Error in database handling.", None, None);
    }

    /** `sendResponse` (lines 232-271): nothing when a response has been
        sent; otherwise marks it sent and writes the success body. */
    method SendResponse(code: int)
      requires Valid()
      modifies this`writes, base`responseIsSent
      ensures Valid() && base.responseIsSent
      ensures writes == Deliver(old(writes), SuccessResponse(code, responseData, responseTime, errors))
    {
      if base.responseIsSent { return; }
      var response := if responseData.Some? then Some(CustomizeResponseData(responseData.value)) else None;
      var warnings: Option<string> := None;
      if |errors| > 0 {
        var text := JoinWarnings(errors);
        warnings := Some(text);
      }
      var body := CustomizeResponse(SuccessBody(responseTime, warnings, response));
      assert body == SuccessResponse(code, responseData, responseTime, errors).body;
      base.responseIsSent := true;
      WriteToResponse(code, body);
    }

    /** The API handler's `handleRequest` (lines 621-626) replaces the base
        one: it sends the 200 response and does not call the callback. */
    method HandleRequest()
      requires Valid()
      modifies this`writes, base`responseIsSent
      ensures Valid() && base.responseIsSent
      ensures writes == Deliver(old(writes), SuccessResponse(200, responseData, responseTime, errors))
    {
      SendResponse(200);
    }

    // ## SETTING UP

    /** `setupBackendUserPermissionCheck` (lines 359-367). */
    method SetupBackendUserPermissionCheck()
      modifies base`middleWares
      ensures base.middleWares == old(base.middleWares) +
        AsEntries((if restrictBackendAccess then [BackendPermission] else []) + [FilterCustomerAndBrands])
    {
      if restrictBackendAccess {
        base.UseMiddleWare(Callable(BackendPermission));
      }
      base.UseMiddleWare(Callable(FilterCustomerAndBrands));
    }

    /** `setupAppSessionPermissionCheck` (lines 371-377). */
    method SetupAppSessionPermissionCheck()
      modifies base`middleWares
      ensures base.middleWares == old(base.middleWares) +
        AsEntries(if route.restrictAppAccess then [AppSessionPermission] else [])
    {
      if !route.restrictAppAccess { return; }
      base.UseMiddleWare(Callable(AppSessionPermission));
    }

    /** `setupAppUserPermissionCheck` (lines 381-385). */
    method SetupAppUserPermissionCheck()
      modifies base`middleWares
      ensures base.middleWares == old(base.middleWares) + AsEntries([AppUserPermissionCheck])
    {
      base.UseMiddleWare(Callable(AppUserPermissionCheck));
    }

    /** `setupMiddleWares` (lines 168-185). */
    method SetupMiddleWares()
      modifies base`middleWares
      ensures base.middleWares == old(base.middleWares) +
        AsEntries(Registration(IsMobileApp(request), route.restrictAppAccess, route.appUserRequired, restrictBackendAccess))
    {
      ghost var start := base.middleWares;
      var mobile := IsMobileApp(request);
      ghost var steps := Registration(mobile, route.restrictAppAccess, route.appUserRequired, restrictBackendAccess);
      if mobile {
        ghost var first := if route.restrictAppAccess then [AppSessionPermission] else [];
        SetupAppSessionPermissionCheck();
        assert base.middleWares == start + AsEntries(first);
        if route.appUserRequired {
          SetupAppUserPermissionCheck();
          assert steps == first + [AppUserPermissionCheck];
          AsEntriesAppend(first, [AppUserPermissionCheck]);
          assert base.middleWares == start + (AsEntries(first) + AsEntries([AppUserPermissionCheck]));
        } else {
          assert steps == first + [];
          assert first + [] == first;
        }
      } else {
        SetupBackendUserPermissionCheck();
      }
    }

    /** `setup` (lines 147-165): the route-access gate, then registration.
        A client kind the route does not admit gets a 401 and no middleware. */
    method Setup()
      requires Valid()
      modifies this`writes, base`responseIsSent, base`middleWares
      ensures Valid()
      ensures AccessDenial(IsMobileApp(request), route).Some? ==>
        && base.middleWares == old(base.middleWares)
        && writes == Deliver(old(writes),
             ErrorResponse(401, AccessDenial(IsMobileApp(request), route).value, None, None, request.url))
      ensures AccessDenial(IsMobileApp(request), route).None? ==>
        && base.middleWares == old(base.middleWares) +
             AsEntries(Registration(IsMobileApp(request), route.restrictAppAccess, route.appUserRequired, restrictBackendAccess))
        && writes == old(writes) && base.responseIsSent == old(base.responseIsSent)
    {
      var mobile := IsMobileApp(request);
      if mobile && !route.appHasAccess {
        SendError(401, "This route can not be accessed by mobile app.", None, None);
        return;
      } else if !mobile && !route.backendHasAccess {
        SendError(401, "This route can not be accessed by editor tool.", None, None);
        return;
      }
      SetupMiddleWares();
    }

    /** The `since` value is mandatory for this route and the body's is not
        a number (line 128). */
    ghost predicate SinceMissing()
      reads this
    {
      route.sinceValueIsMandatory && !request.body.sinceIsNumber
    }

    /** `initialize` (lines 109-142), given the time it runs at. */
    method Initialize(now: int, callbackIsFunction: bool, store: Lookup, login: LoginMiddleWare)
      requires Valid() && Pristine()
      modifies this`responseTime, this`restrictBackendAccess, this`since,
               this`brands, this`customers, this`backendUser, this`appSession,
               this`backendNeedsToSpecifyCustomer, this`fetchLog, this`writes,
               base`responseIsSent, base`middleWares, base`queue, base`snapshot, base`invoked
      ensures Valid()
      ensures responseTime == Some(now)
      ensures restrictBackendAccess == RestrictBackendAccessAfterInit(route.restrictBackendAccess, request)
      ensures base.invoked <= Callables(base.middleWares)
      ensures SinceMissing() ==>
        && writes == [ErrorResponse(400, "To give a since value is mandatory for this request", None, None, request.url)]
        && base.middleWares == [] && fetchLog == []
      ensures !SinceMissing() && AccessDenial(IsMobileApp(request), route).Some? ==>
        && writes == [ErrorResponse(401, AccessDenial(IsMobileApp(request), route).value, None, None, request.url)]
        && base.middleWares == [] && fetchLog == []
      ensures !SinceMissing() && AccessDenial(IsMobileApp(request), route).None? ==>
        && since == SinceOf(request.sinceParam)
        && base.middleWares ==
             AsEntries(Registration(IsMobileApp(request), route.restrictAppAccess, route.appUserRequired, restrictBackendAccess))
      ensures !callbackIsFunction ==> base.invoked == [] && Ctx().fetchLog == [] && Ctx().brands == []
    {
      var opt := request.httpMethod == "OPTIONS";
      var noBackendTokenNeeded := NoBackendTokenNeeded(request.url);
      responseTime := Some(now);
      if opt || noBackendTokenNeeded {
        restrictBackendAccess := false;
      }
      if route.sinceValueIsMandatory && !request.body.sinceIsNumber {
        SendError(400, "To give a since value is mandatory for this request", None, None);
        return;
      }
      since := SinceOf(request.sinceParam);
      SetupAndRun(callbackIsFunction, store, login);
    }

    /** Lines 135-141: `setup`, then the pipeline when a callback was given. */
    method SetupAndRun(callbackIsFunction: bool, store: Lookup, login: LoginMiddleWare)
      requires Valid() && Ctx() == FreshContext(route)
      requires base.middleWares == [] && base.invoked == []
      modifies this`brands, this`customers, this`backendUser, this`appSession,
               this`backendNeedsToSpecifyCustomer, this`fetchLog, this`writes,
               base`responseIsSent, base`middleWares, base`queue, base`snapshot, base`invoked
      ensures Valid()
      ensures base.invoked <= Callables(base.middleWares)
      ensures AccessDenial(IsMobileApp(request), route).Some? ==>
        && writes == [ErrorResponse(401, AccessDenial(IsMobileApp(request), route).value, None, None, request.url)]
        && base.middleWares == [] && fetchLog == []
      ensures AccessDenial(IsMobileApp(request), route).None? ==>
        base.middleWares ==
          AsEntries(Registration(IsMobileApp(request), route.restrictAppAccess, route.appUserRequired, restrictBackendAccess))
      ensures !callbackIsFunction ==> base.invoked == [] && Ctx().fetchLog == [] && Ctx().brands == []
    {
      ghost var denial := AccessDenial(IsMobileApp(request), route);
      ghost var entries :=
        AsEntries(Registration(IsMobileApp(request), route.restrictAppAccess, route.appUserRequired, restrictBackendAccess));
      Setup();
      assert denial.None? ==> base.middleWares == [] + entries;
      assert [] + entries == entries;
      if callbackIsFunction {
        PerformHandleRequest(callbackIsFunction, store, login);
      }
    }

    // ## MIDDLE WARES

    /** `backendPermissionMiddleWare` (lines 394-447). */
    method BackendPermissionMiddleWare(store: Lookup, login: LoginMiddleWare) returns (outcome: StepOutcome)
      requires Valid()
      modifies this`brands, this`backendUser, this`fetchLog, this`writes, base`responseIsSent
      ensures Valid()
      ensures (Ctx(), outcome) == BackendStep(EnvOf(store, login), old(Ctx()))
    {
      var key := request.referrer.authenticationKey;
      var verdict := BackendPermissionCheck(key, store);
      fetchLog := fetchLog + BackendIssued(key);
      match verdict
      case NoCredentials =>
        outcome := Outcome(login(LoginOptions(request.referrer, restrictBackendAccess, route.backendHasAccess, true)));
      case Denied(status, message) =>
        SendError(status, message, None, None);
        outcome := Stopped;
      case Granted(user, found) =>
        brands := found;
        backendUser := Some(user);
        outcome := Outcome(login(LoginOptions(request.referrer, restrictBackendAccess, route.backendHasAccess, false)));
    }

    /** `appSessionPermissionMiddleWare` (lines 453-501). */
    method AppSessionPermissionMiddleWare(store: Lookup) returns (outcome: StepOutcome)
      requires Valid()
      modifies this`brands, this`appSession, this`fetchLog, this`writes, base`responseIsSent
      ensures Valid()
      ensures (Ctx(), outcome) == AppSessionStep(request, store, old(Ctx()))
    {
      var key := request.referrer.authenticationKey;
      var verdict := AppSessionPermissionCheck(key, store);
      fetchLog := fetchLog + AppIssued(key);
      match verdict
      case NoCredentials =>
        assert false;
      case Denied(status, message) =>
        SendError(status, message, None, None);
        outcome := Stopped;
      case Granted(session, found) =>
        brands := found;
        appSession := Some(session);
        outcome := CalledNext;
    }

    /** `appUserPermissionCheckMiddleWare` (lines 505-513). */
    method AppUserPermissionCheckMiddleWare() returns (outcome: StepOutcome)
      requires Valid()
      modifies this`writes, base`responseIsSent
      ensures Valid()
      ensures (Ctx(), outcome) == AppUserStep(request, old(Ctx()))
    {
      match Permissions.AppUserPermissionCheck(appSession)
      case Throw =>
        outcome := Threw;
      case Deny(status, message) =>
        SendError(status, message, None, None);
        outcome := Stopped;
      case Pass =>
        outcome := CalledNext;
    }

    /** `filterCustomerAndBrandsMiddleWare` (lines 521-614). */
    method FilterCustomerAndBrandsMiddleWare(store: Lookup) returns (outcome: StepOutcome)
      requires Valid()
      modifies this`brands, this`customers, this`backendNeedsToSpecifyCustomer, this`fetchLog, this`writes, base`responseIsSent
      ensures Valid()
      ensures (Ctx(), outcome) == FilterStep(route, request, store, old(Ctx()))
    {
      var r := FilterScope(route.backendNeedsToSpecifyBrand, backendNeedsToSpecifyCustomer,
                           request.body.filter, brands, customers, store);
      backendNeedsToSpecifyCustomer := r.needsCustomer;
      fetchLog := fetchLog + r.fetches;
      brands := r.brands;
      customers := r.customers;
      match r.decision
      case Deny(status, message) =>
        SendError(status, message, None, None);
        outcome := Stopped;
      case Pass =>
        outcome := CalledNext;
      case Throw =>
        assert false;
    }

    /** Line 160: hand the request to one registered middleware. */
    method RunStep(step: Step, store: Lookup, login: LoginMiddleWare) returns (outcome: StepOutcome)
      requires Valid()
      modifies this`brands, this`customers, this`backendUser, this`appSession,
               this`backendNeedsToSpecifyCustomer, this`fetchLog, this`writes, base`responseIsSent
      ensures Valid()
      ensures (Ctx(), outcome) == Effect(EnvOf(store, login), step, old(Ctx()))
    {
      match step
      case BackendPermission =>
        outcome := BackendPermissionMiddleWare(store, login);
      case AppSessionPermission =>
        outcome := AppSessionPermissionMiddleWare(store);
      case AppUserPermissionCheck =>
        outcome := AppUserPermissionCheckMiddleWare();
      case FilterCustomerAndBrands =>
        outcome := FilterCustomerAndBrandsMiddleWare(store);
    }

    /** `performHandleRequest` (lines 101-164) with the API handler's
        `handleRequest`: the middlewares run one at a time, in registration
        order, each at most once, while each calls `next`; none runs once a
        response is sent; the success response is written only after every
        registered middleware has passed, and only with a callback. */
    method PerformHandleRequest(callbackIsFunction: bool, store: Lookup, login: LoginMiddleWare)
      requires Valid()
      modifies this`brands, this`customers, this`backendUser, this`appSession,
               this`backendNeedsToSpecifyCustomer, this`fetchLog, this`writes,
               base`responseIsSent, base`queue, base`snapshot, base`invoked
      ensures Valid()
      ensures base.middleWares == old(base.middleWares)
      ensures base.invoked <= Callables(base.middleWares)
      ensures old(base.responseIsSent) ==> base.invoked == [] && Ctx() == old(Ctx())
      ensures !old(base.responseIsSent) ==>
        Ctx() == Pipeline(EnvOf(store, login), Callables(base.middleWares), old(Ctx()),
                          callbackIsFunction, SuccessResponse(200, responseData, responseTime, errors))
    {
      ghost var target := Pipeline(EnvOf(store, login), Callables(base.middleWares), Ctx(),
                                   callbackIsFunction, SuccessResponse(200, responseData, responseTime, errors));
      base.BeginRun();
      var running := true;
      while running
        invariant Valid() && base.RunValid()
        invariant base.snapshot == base.middleWares == old(base.middleWares)
        invariant old(base.responseIsSent) ==> base.responseIsSent && base.invoked == [] && Ctx() == old(Ctx())
        invariant running ==> target == Pipeline(EnvOf(store, login), Callables(base.queue), Ctx(),
                                                 callbackIsFunction, SuccessResponse(200, responseData, responseTime, errors))
        invariant !running ==> Ctx() == target
        decreases |base.queue|, running
      {
        ghost var before := Callables(base.queue);
        ghost var ctx := Ctx();
        running := Advance(callbackIsFunction, store, login);
        if ctx.writes == [] {
          PipelineUnfold(EnvOf(store, login), before, ctx, callbackIsFunction,
                         SuccessResponse(200, responseData, responseTime, errors));
        }
      }
    }

    /** One call of `next` and, when it hands a middleware the request, that
        middleware. */
    method Advance(callbackIsFunction: bool, store: Lookup, login: LoginMiddleWare) returns (running: bool)
      requires Valid() && base.RunValid()
      modifies this`brands, this`customers, this`backendUser, this`appSession,
               this`backendNeedsToSpecifyCustomer, this`fetchLog, this`writes,
               base`responseIsSent, base`queue, base`invoked
      ensures Valid() && base.RunValid()
      ensures old(base.responseIsSent) ==>
        !running && base.responseIsSent && base.invoked == old(base.invoked) && Ctx() == old(Ctx())
      ensures |base.queue| <= old(|base.queue|) && (running ==> |base.queue| < old(|base.queue|))
      ensures !old(base.responseIsSent) && old(Callables(base.queue)) == [] ==>
        && !running
        && Ctx() == (if callbackIsFunction
                     then old(Ctx()).(writes := [SuccessResponse(200, responseData, responseTime, errors)])
                     else old(Ctx()))
      ensures !old(base.responseIsSent) && old(Callables(base.queue)) != [] ==>
        && old(Callables(base.queue))[1..] == Callables(base.queue)
        && var e := Effect(EnvOf(store, login), old(Callables(base.queue))[0], old(Ctx()));
           Ctx() == e.0 && running == (e.1 == CalledNext)
    {
      var action := base.Next(callbackIsFunction);
      match action
      case Halt =>
        running := false;
      case RunTerminal =>
        HandleRequest();
        running := false;
      case Invoke(step) =>
        var outcome := RunStep(step, store, login);
        running := outcome == CalledNext;
    }
  }

  lemma {:induction false} AsEntriesAppend(a: seq<Step>, b: seq<Step>)
    ensures AsEntries(a + b) == AsEntries(a) + AsEntries(b)
  {
    if a == [] {
      assert a + b == b;
    } else {
      assert (a + b)[1..] == a[1..] + b;
      AsEntriesAppend(a[1..], b);
    }
  }
}
