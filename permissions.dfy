/** What each permission middleware of the API handler decides
    (src/baseApiRequestHandler.js, lines 394-614), as functions of the
    handler's state, the request and the store's answers. The middlewares
    of the handler class carry these decisions out. */
module Permissions {
  import opened Store
  import opened ApiRequest

  /** The decision of a check that grants a principal: the login middleware
      takes over, the request is denied, or the principal and its brands are
      granted. */
  datatype Verdict =
    | NoCredentials
    | Denied(status: int, message: string)
    | Granted(principal: Entity, brands: seq<Entity>)

  /** How a middleware without a principal ends: it calls `next`, it denies,
      or it throws. */
  datatype Decision = Pass | Deny(status: int, message: string) | Throw

  // ----- backend permission (lines 394-447)

  /** Lines 401-403: the email of the backend credential, or None when the
      login middleware takes over (no key, or a user whose email is null).
      A key that is not a user record has no `email`; `undefined === null`
      is false, so the text "undefined" goes into the queries. */
  function BackendEmail(key: AuthKey): (email: Option<string>)
    ensures email.None? <==> key.NoKey? || (key.UserKey? && key.email.None?)
    ensures key.UserKey? ==> email == key.email
  {
    match key
    case NoKey => None
    case UserKey(e) => e
    case ApiKey(_) => Some("undefined")
  }

  /** Lines 411-415: the user by email, and the brands of that user without
      their sessions. */
  function BackendFetches(email: string): (requests: seq<FetchRequest>)
    ensures |requests| == 2
    ensures requests[0].entityName == "BackendUser" && requests[1].entityName == "Brand"
    ensures requests[0].selector == Where("$self.email=\"" + email + "\"")
    ensures requests[1].selector == Where("$self.users.email=\"" + email + "\"")
    ensures requests[1].ignoreRelations == ["sessions"]
  {
    [FetchRequest("BackendUser", Where("$self.email=\"" + email + "\""), []),
     FetchRequest("Brand", Where("$self.users.email=\"" + email + "\""), ["sessions"])]
  }

  /** The requests the backend check submits: none when the login
      middleware takes over. */
  function BackendIssued(key: AuthKey): (requests: seq<FetchRequest>)
    ensures BackendEmail(key).None? <==> requests == []
  {
    match BackendEmail(key)
    case None => []
    case Some(email) => BackendFetches(email)
  }

  /** Lines 403-439. The store error ends the check: the source sends the 500
      and, lacking a `return`, would read the missing result next. */
  function BackendPermissionCheck(key: AuthKey, store: Lookup): (v: Verdict)
    ensures v.NoCredentials? <==> BackendEmail(key).None?
    ensures v.Granted? ==> (
      && BackendEmail(key).Some?
      && var rs := BackendFetches(BackendEmail(key).value);
         && store(rs[0]).Rows? && store(rs[1]).Rows? && store(rs[0]).rows != []
         && v.principal == store(rs[0]).rows[0] && v.brands == store(rs[1]).rows && v.brands != [])
    ensures BackendEmail(key).Some? ==>
      var rs := BackendFetches(BackendEmail(key).value);
      var users := store(rs[0]);
      var brands := store(rs[1]);
      && (users.StoreError? || brands.StoreError? ==> v == Denied(500, "Error in database handling"))
      && (users.Rows? && brands.Rows? && users.rows == [] ==> v == Denied(400, "No user found for this key."))
      && (users.Rows? && brands.Rows? && users.rows != [] && brands.rows == [] ==>
            v == Denied(400, "No brand found for user."))
      && (users.Rows? && brands.Rows? && users.rows != [] && brands.rows != [] ==> v.Granted?)
  {
    match BackendEmail(key)
    case None => NoCredentials
    case Some(email) =>
      match PerformRequests(BackendFetches(email), store)
      case AggregateError => Denied(500, "Error in database handling")
      case AggregateRows(results) =>
        var users := results[0];
        var brands := results[1];
        if |users| < 1 then Denied(400, "No user found for this key.")
        else if |brands| < 1 then Denied(400, "No brand found for user.")
        else Granted(users[0], brands)
  }

  // ----- app session permission (lines 453-501)

  /** Line 460-462: the API key for the session check, or None for null. A
      key that is a user record turns into "[object Object]" when the queries
      are built. */
  function AppApiKey(key: AuthKey): (apiKey: Option<string>)
    ensures apiKey.None? <==> key.NoKey?
    ensures key.ApiKey? ==> apiKey == Some(key.key)
  {
    match key
    case NoKey => None
    case ApiKey(k) => Some(k)
    case UserKey(_) => Some("[object Object]")
  }

  /** Lines 467-473: the sessions with this key without their user content,
      and the brands of those sessions without their sessions. */
  function AppFetches(apiKey: string): (requests: seq<FetchRequest>)
    ensures |requests| == 2
    ensures requests[0].entityName == "Session" && requests[1].entityName == "Brand"
    ensures requests[0].ignoreRelations == ["ugcObjects", "likes"] && requests[1].ignoreRelations == ["sessions"]
    ensures requests[0].selector == Where("$self.apiKey=\"" + apiKey + "\"")
    ensures requests[1].selector == Where("$self.sessions.apiKey=\"" + apiKey + "\"")
  {
    [FetchRequest("Session", Where("$self.apiKey=\"" + apiKey + "\""), ["ugcObjects", "likes"]),
     FetchRequest("Brand", Where("$self.sessions.apiKey=\"" + apiKey + "\""), ["sessions"])]
  }

  /** The requests the session check submits: none without a key. */
  function AppIssued(key: AuthKey): (requests: seq<FetchRequest>)
    ensures AppApiKey(key).None? <==> requests == []
  {
    match AppApiKey(key)
    case None => []
    case Some(apiKey) => AppFetches(apiKey)
  }

  /** Lines 462-499. As in the backend check, the store error ends the check. */
  function AppSessionPermissionCheck(key: AuthKey, store: Lookup): (v: Verdict)
    ensures !v.NoCredentials?
    ensures AppApiKey(key).None? ==> v == Denied(401, "No API key submitted.")
    ensures v.Granted? ==> (
      && AppApiKey(key).Some?
      && var rs := AppFetches(AppApiKey(key).value);
         && store(rs[0]).Rows? && store(rs[1]).Rows? && store(rs[0]).rows != []
         && v.principal == store(rs[0]).rows[0] && v.brands == store(rs[1]).rows && v.brands != [])
    ensures AppApiKey(key).Some? ==>
      var rs := AppFetches(AppApiKey(key).value);
      var sessions := store(rs[0]);
      var brands := store(rs[1]);
      && (sessions.StoreError? || brands.StoreError? ==> v == Denied(500, "Error in database handling."))
      && (sessions.Rows? && brands.Rows? && sessions.rows == [] ==>
            v == Denied(401, "No user session found for this API key."))
      && (sessions.Rows? && brands.Rows? && sessions.rows != [] && brands.rows == [] ==>
            v == Denied(401, "No brand found for API key."))
      && (sessions.Rows? && brands.Rows? && sessions.rows != [] && brands.rows != [] ==> v.Granted?)
  {
    match AppApiKey(key)
    case None => Denied(401, "No API key submitted.")
    case Some(apiKey) =>
      match PerformRequests(AppFetches(apiKey), store)
      case AggregateError => Denied(500, "Error in database handling.")
      case AggregateRows(results) =>
        var sessions := results[0];
        var brands := results[1];
        if |sessions| < 1 then Denied(401, "No user session found for this API key.")
        else if |brands| < 1 then Denied(401, "No brand found for API key.")
        else Granted(sessions[0], brands)
  }

  // ----- linked app user (lines 505-513)

  /** Lines 508-512: the session must be linked to a user. Without a session
      at all (the route requires a user but does not restrict app access)
      `null.getUser()` throws. */
  function AppUserPermissionCheck(appSession: Option<Entity>): (d: Decision)
    ensures d.Throw? <==> appSession.None?
    ensures d.Pass? <==> appSession.Some? && appSession.value.user.Some?
    ensures d.Deny? ==> d == Deny(403, "You need to register to do this.")
  {
    if appSession.None? then Throw
    else if appSession.value.user.None? then Deny(403, "You need to register to do this.")
    else Pass
  }

  // ----- brand / customer scope (lines 521-614)

  /** Line 558-559: the brand with this id, without its sessions. */
  function BrandByIdFetch(id: string): FetchRequest {
    FetchRequest("Brand", FetchId(id), ["sessions"])
  }

  /** Line 574: the customer with this id. */
  function CustomerByIdFetch(id: string): FetchRequest {
    FetchRequest("Customer", FetchId(id), [])
  }

  /** What the scope filter leaves behind: the customer requirement as it
      now stands, the requests it submitted, the brand and customer lists,
      and how it ends. */
  datatype ScopeResult = ScopeResult(
    needsCustomer: bool,
    fetches: seq<FetchRequest>,
    brands: seq<Entity>,
    customers: seq<Entity>,
    decision: Decision)

  /** The scope filter (lines 524-613). Once a brand requirement has cleared
      the customer requirement (line 536), at most one of the two blocks
      (lines 548-562 and 564-577, and again 596-602 and 604-610) runs, so the
      queue holds at most one request and its result is the first. */
  function FilterScope(needsBrand: bool, needsCustomer: bool, filter: Option<Filter>,
                       brands: seq<Entity>, customers: seq<Entity>, store: Lookup): (r: ScopeResult)
    // neither requirement: straight on, nothing touched (530-533)
    ensures !needsBrand && !needsCustomer ==> r == ScopeResult(false, [], brands, customers, Pass)
    // a brand requirement waives the customer requirement (536)
    ensures needsBrand ==> !r.needsCustomer && r.customers == customers
    ensures !needsBrand ==> r.needsCustomer == needsCustomer && r.brands == brands
    ensures !r.decision.Throw?
    // a denial leaves both lists as they were (they are assigned only at 556, 572, 601, 609)
    ensures r.decision.Deny? ==> r.brands == brands && r.customers == customers
    ensures |r.fetches| <= 1
    ensures r.fetches != [] && needsBrand ==>
              filter.Some? && FilterId(filter.value.brand).Some? &&
              r.fetches == [BrandByIdFetch(FilterId(filter.value.brand).value)]
    ensures r.fetches != [] && !needsBrand ==>
              filter.Some? && FilterId(filter.value.customer).Some? &&
              r.fetches == [CustomerByIdFetch(FilterId(filter.value.customer).value)]
    // missing filter, missing ids (538-552, 564-567)
    ensures (needsBrand || needsCustomer) && filter.None? ==>
              r.decision == Deny(400, "No filter set but needed for this request.") && r.fetches == []
    ensures needsBrand && filter.Some? && FilterId(filter.value.brand).None? ==>
              r.decision == Deny(400, "No brand id specified on filter.brand.") && r.fetches == []
    ensures !needsBrand && needsCustomer && filter.Some? && FilterId(filter.value.customer).None? ==>
              r.decision == Deny(400, "No customer id specified on filter.customer.") && r.fetches == []
    // an entity already attached is used without a fetch (554-556, 570-572)
    ensures needsBrand && filter.Some? && FilterId(filter.value.brand).Some? &&
            FindIdInArray(FilterId(filter.value.brand).value, brands).Some? ==>
              r.fetches == [] && r.decision == Pass &&
              r.brands == [FindIdInArray(FilterId(filter.value.brand).value, brands).value]
    ensures !needsBrand && needsCustomer && filter.Some? && FilterId(filter.value.customer).Some? &&
            FindIdInArray(FilterId(filter.value.customer).value, customers).Some? ==>
              r.fetches == [] && r.decision == Pass &&
              r.customers == [FindIdInArray(FilterId(filter.value.customer).value, customers).value]
    // an id missing from the held list is fetched by id (557-561, 573-576)
    ensures needsBrand && filter.Some? && FilterId(filter.value.brand).Some? &&
            FindIdInArray(FilterId(filter.value.brand).value, brands).None? ==>
              r.fetches == [BrandByIdFetch(FilterId(filter.value.brand).value)]
    ensures !needsBrand && needsCustomer && filter.Some? && FilterId(filter.value.customer).Some? &&
            FindIdInArray(FilterId(filter.value.customer).value, customers).None? ==>
              r.fetches == [CustomerByIdFetch(FilterId(filter.value.customer).value)]
    // what a fetch yields (584-612)
    ensures r.fetches != [] && store(r.fetches[0]).StoreError? ==>
              r.decision == Deny(500, "Error in database handling.")
    ensures r.fetches != [] && store(r.fetches[0]).Rows? && store(r.fetches[0]).rows == [] && needsBrand ==>
              r.decision == Deny(400, "Brand not found for id " + FilterId(filter.value.brand).value)
    ensures r.fetches != [] && store(r.fetches[0]).Rows? && store(r.fetches[0]).rows == [] && !needsBrand ==>
              r.decision == Deny(400, "Customer not found for id " + FilterId(filter.value.customer).value)
    ensures r.fetches != [] && store(r.fetches[0]).Rows? && store(r.fetches[0]).rows != [] ==>
              r.decision == Pass &&
              (if needsBrand then r.brands else r.customers) == store(r.fetches[0]).rows
    // passing with a requirement leaves a non-empty list for it
    ensures r.decision.Pass? && needsBrand ==> r.brands != []
    ensures r.decision.Pass? && !needsBrand && needsCustomer ==> r.customers != []
  {
    if !needsCustomer && !needsBrand then ScopeResult(needsCustomer, [], brands, customers, Pass)
    else
      var needsCustomer' := if needsBrand then false else needsCustomer;
      if filter.None? then
        ScopeResult(needsCustomer', [], brands, customers, Deny(400, "No filter set but needed for this request."))
      else
        var brandId := FilterId(filter.value.brand);
        var customerId := FilterId(filter.value.customer);
        if needsBrand then
          if brandId.None? then
            ScopeResult(needsCustomer', [], brands, customers, Deny(400, "No brand id specified on filter.brand."))
          else
            match FindIdInArray(brandId.value, brands)
            case Some(brand) => ScopeResult(needsCustomer', [], [brand], customers, Pass)
            case None =>
              var request := BrandByIdFetch(brandId.value);
              match PerformRequests([request], store)
              case AggregateError => ScopeResult(needsCustomer', [request], brands, customers, Deny(500, "Error in database handling."))
              case AggregateRows(results) =>
                if |results[0]| <= 0 then
                  ScopeResult(needsCustomer', [request], brands, customers, Deny(400, "Brand not found for id " + brandId.value))
                else ScopeResult(needsCustomer', [request], results[0], customers, Pass)
        else
          if customerId.None? then
            ScopeResult(needsCustomer', [], brands, customers, Deny(400, "No customer id specified on filter.customer."))
          else
            match FindIdInArray(customerId.value, customers)
            case Some(customer) => ScopeResult(needsCustomer', [], brands, [customer], Pass)
            case None =>
              var request := CustomerByIdFetch(customerId.value);
              match PerformRequests([request], store)
              case AggregateError => ScopeResult(needsCustomer', [request], brands, customers, Deny(500, "Error in database handling."))
              case AggregateRows(results) =>
                if |results[0]| <= 0 then
                  ScopeResult(needsCustomer', [request], brands, customers, Deny(400, "Customer not found for id " + customerId.value))
                else ScopeResult(needsCustomer', [request], brands, results[0], Pass)
  }

  /** A route that requires both a brand and a customer, asked with a filter
      naming only a brand the handler already holds, passes without asking for
      a customer id and without a fetch. */
  lemma BrandWaivesCustomer(brand: Entity, others: seq<Entity>, customers: seq<Entity>, store: Lookup)
    requires brand.id != ""
    ensures var r := FilterScope(true, true, Some(Filter(Some(brand.id), None)), [brand] + others, customers, store);
            r.decision == Pass && r.fetches == [] && r.brands == [brand] && r.customers == customers
  {
  }
}
