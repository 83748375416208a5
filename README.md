# Request-handling core of an API server, in Dafny

This project models the two classes at the centre of the server's request
handling and proves properties of the model:

- `BaseRequestHandler` (src/baseRequestHandler.js) is a generic middleware
  pipeline. Middlewares are registered in order. One run copies the list and
  hands the request to each middleware in turn through a `next`
  continuation. The run stops once a response has been sent. When the list is
  exhausted, `handleRequest` calls the route's callback.
- `BaseApiRequestHandler` (src/baseApiRequestHandler.js) is the per-request
  API handler built on that engine. It:
  - records the request time;
  - clears the backend restriction for OPTIONS requests and for the login
    paths;
  - enforces a mandatory `since` value;
  - classifies the client as the mobile app or the backend editor tool, and
    refuses a client kind the route does not admit with a 401;
  - registers the permission middlewares for that kind of client, and runs
    them.

  There are four middlewares: the backend user check, the app session check,
  the linked-app-user check, and the brand/customer scope filter. Each one
  calls `next` or sends an error. The backend check can also hand over to
  the login middleware, which may end the run without calling `next` and
  without a write here. The linked-app-user check throws when there is no
  session. The handler's `handleRequest` sends the 200 success envelope.

The property every part serves: **a request receives at most one response**.
`sendError` and `sendResponse` do nothing once `responseIsSent` is set, and
setting it comes before the one write.

## Layout

- `store.dfy` (module `Store`): what the core sees of the entity store.
  - Entity records and fetch requests.
  - A store given as a function from request to answer.
  - The all-or-nothing outcome of a request queue.
  - `findIdInArray`.
- `base_request_handler.dfy` (module `BaseRequestHandler`): the engine as the
  class `RequestHandler<M>`.
  - The middleware list, `responseIsSent`, the run's queue copy, and a ghost
    log of the middlewares invoked.
  - `Next` is one call of the `next` continuation.
  - `PerformHandleRequest` runs a whole pipeline whose middlewares are known
    only by whether they call `next`. It is proved to invoke exactly the
    prefix `RunPrefix` of the callable entries.
- `api_request.dfy` (module `ApiRequest`): the request, the referrer
  information, the route's flags and the pure decisions taken before any
  middleware runs (client kind, access gate, registration list).
- `envelope.dfy` (module `Envelope`): the written envelopes (error and
  success), the at-most-once `Deliver`, and the warning text: the source's
  string-building loop, `JoinWarnings`, with JavaScript's `trim`.
- `permissions.dfy` (module `Permissions`): the decision of each permission
  middleware as a function of the handler state, the request and the store's
  answers.
- `api_request_handler.dfy` (module `BaseApiRequestHandler`):
  - the specification of a run: `Effect` of one middleware, and `Pipeline`
    of a whole run, with the at-most-once and success-iff-all-pass lemmas;
  - the class `ApiRequestHandler`.

  The class's methods follow the source's methods and change its fields in
  place. The subclassing becomes composition: the handler owns `base`, a
  `RequestHandler<Step>`. Its `PerformHandleRequest` drives `base.Next` and
  runs the handed-over middleware. It is proved equal to `Pipeline` over the
  registered middlewares. The handler keeps the invariant `Valid()`: at most
  one write, and `responseIsSent` exactly when there is one.

Collaborators the core calls but does not define are parameters of the model:
- the store, a `Lookup` from fetch request to answer;
- the login middleware (`AccessMiddleWare.loginMiddleWare`), a
  `LoginMiddleWare`: whether it calls `next`;
- the time `initialize` runs at;
- whether the callback given to `initialize` is a function.

The referrer information object is given as a value: whether it says "mobile
app", and its authentication key.

## Model

| member | source | states |
|---|---|---|
| Store.PerformRequests | src/baseApiRequestHandler.js:417-423 | a request queue succeeds exactly when every request of it succeeds, and then yields one result per request, each the store's answer to that request |
| Store.FindIdInArray | src/baseApiRequestHandler.js:554-556 | the result is an entity of the list with the id, and the first such; none exactly when no entity has the id |
| BaseRequestHandler.CallablesAppend | src/baseRequestHandler.js:86-91 | the callable entries of a concatenation are those of each part in order, so appending keeps earlier registrations in place |
| BaseRequestHandler.SkipNonCallable | src/baseRequestHandler.js:129-134 | skipping non-callable entries leaves a queue no longer than before that starts with a callable entry, or is empty, and loses no callable entry |
| BaseRequestHandler.SkipNonCallableIsSuffix | src/baseRequestHandler.js:129-134 | what the skipping leaves is a suffix of the queue: only entries at the head are taken off |
| BaseRequestHandler.RunPrefixIsPrefix | src/baseRequestHandler.js:101-164 | a run invokes a prefix of the callable middlewares; all of them when each calls `next`; otherwise it ends at a middleware that does not call `next`, after only ones that did |
| BaseRequestHandler.RunPrefixStep | src/baseRequestHandler.js:129-160 | one more middleware handed the request either extends the run (it calls `next`) or is its last |
| BaseRequestHandler.RequestHandler.constructor | src/baseRequestHandler.js:32-51 | a handler starts with its declared list, no response sent, no run in progress and no callback call |
| BaseRequestHandler.RequestHandler.UseMiddleWare | src/baseRequestHandler.js:86-91 | a callable middleware is appended at the end; anything else leaves the list as it was |
| BaseRequestHandler.RequestHandler.BeginRun | src/baseRequestHandler.js:106 | a run works on a copy of the list; nothing has been invoked yet |
| BaseRequestHandler.RequestHandler.SkipNonCallables | src/baseRequestHandler.js:129-134 | the copy loses exactly its leading non-callable entries |
| BaseRequestHandler.RequestHandler.Next | src/baseRequestHandler.js:108-160 | once a response is sent nothing happens; an exhausted copy runs `handleRequest` exactly when the callback is a function; otherwise the first callable entry is taken off and handed the request, and the invoked log grows by exactly it (the run invariant is kept) |
| BaseRequestHandler.RequestHandler.PerformHandleRequest | src/baseRequestHandler.js:101-164 | the registered list is unchanged; with no response sent, the middlewares invoked are exactly `RunPrefix` of the callable entries; the callback runs once exactly when all of them call `next` and it is a function, and never when a response was sent |
| BaseRequestHandler.RequestHandler.HandleRequest | src/baseRequestHandler.js:174-182 | the callback is called once when it is a function and not otherwise |
| ApiRequest.IsMobileApp | src/baseApiRequestHandler.js:344-353 | the client is the mobile app exactly when the referrer says so or either API-key field of the body is a non-empty string |
| ApiRequest.NoBackendTokenNeeded | src/baseApiRequestHandler.js:116-117 | a url needs no backend token only when it starts with one of the four login-related paths, so only urls under "/users/" |
| ApiRequest.RestrictBackendAccessAfterInit | src/baseApiRequestHandler.js:112-126 | the backend restriction survives initialisation exactly when declared, the method is not OPTIONS and the url does not start with a login path |
| ApiRequest.LoginPathExamples | src/baseApiRequestHandler.js:116-117 | the login-path pattern matches prefixes only and has no end anchor: "/users/loginx" matches, "/api/users/login" and "/users/logout" do not |
| ApiRequest.AccessDenial | src/baseApiRequestHandler.js:156-162 | a refusal happens exactly when the client kind is not admitted by the route, with the message for that kind |
| ApiRequest.DefaultRouteRegistration | src/baseApiRequestHandler.js:28-86 | a route on the base defaults admits both clients; the app gets the session check; a backend client gets the backend check and the scope filter, or the filter alone for OPTIONS and login paths |
| ApiRequest.ApiKeyOnBackendOnlyRoute | src/baseApiRequestHandler.js:150-158 | a request carrying an API key on a route that shuts the app out is refused as a mobile request whatever its referrer says |
| ApiRequest.Registration | src/baseApiRequestHandler.js:168-185 | the session check is registered exactly for a mobile client on a route restricting app access; the user check exactly for a mobile client when a user is required, and last; the backend check exactly for a backend client under restriction; the scope filter exactly for a backend client, and last; at most two middlewares |
| ApiRequest.RegistrationIsDuplicateFree | src/baseApiRequestHandler.js:168-185 | no middleware is registered twice |
| ApiRequest.AsEntries | src/baseApiRequestHandler.js:359-385 | the entries registered for a list of steps are as many as the steps and their callables are the steps, in order |
| ApiRequest.AsEntriesAreCallable | src/baseApiRequestHandler.js:359-385 | every registered entry is callable |
| ApiRequest.SinceOf | src/baseApiRequestHandler.js:115 | `since` is the parsed number, and 0 when the parameter does not parse |
| ApiRequest.FilterId | src/baseApiRequestHandler.js:545-546 | an id is kept exactly when it is a non-empty string |
| Envelope.Deliver | src/baseApiRequestHandler.js:203 | an attempt to send writes when nothing was written and leaves the log as it is otherwise |
| Envelope.DeliverAll | src/baseApiRequestHandler.js:198-271 | however many sends follow each other, a request that had no response gets exactly one, the first |
| Envelope.DeliverEachKeeps | src/baseApiRequestHandler.js:203 | once written, no later send changes the log |
| Envelope.ErrorCode | src/baseApiRequestHandler.js:205 | the error code is the one given unless it is absent or 0, and then the HTTP status |
| Envelope.ErrorDomain | src/baseApiRequestHandler.js:206 | the error domain is the one given unless it is absent or empty, and then the request url |
| Envelope.ErrorResponse | src/baseApiRequestHandler.js:198-212 | an error write carries the given status and exactly the domain, code and message; with no domain or code, the url and the status |
| Envelope.TrimEnd | src/baseApiRequestHandler.js:264 | the result is a prefix ending in no white space, and only white space was dropped |
| Envelope.TrimStart | src/baseApiRequestHandler.js:264 | the result is a suffix starting with no white space, and only white space was dropped |
| Envelope.Trim | src/baseApiRequestHandler.js:264 | neither end of the trimmed text is white space |
| Envelope.TrimRemovesOnlyEnds | src/baseApiRequestHandler.js:264 | the trimmed text is a slice of the input, and everything outside the slice is white space |
| Envelope.WarningLinesEndWithNewline | src/baseApiRequestHandler.js:257-262 | the loop's text is the warnings joined by newlines plus one trailing newline |
| Envelope.TrimEndDropsTrailingNewline | src/baseApiRequestHandler.js:264 | trimming ignores a trailing newline |
| Envelope.WarningTextIsJoined | src/baseApiRequestHandler.js:257-265 | the warning text equals the trimmed newline-joined warnings |
| Envelope.JoinWarnings | src/baseApiRequestHandler.js:257-265 | the loop's result is the trimmed text of the warnings, equal to the trimmed newline-joined warnings, with no white space at either end |
| Envelope.CustomizeResponseData | src/baseApiRequestHandler.js:299-303 | the base hook leaves the data as it is |
| Envelope.CustomizeResponse | src/baseApiRequestHandler.js:312-316 | the base hook leaves the envelope as it is |
| Envelope.SuccessResponse | src/baseApiRequestHandler.js:232-271 | a success write has the given status, the request-start time, a warning text exactly when there are warnings (the joined, trimmed warnings), and the route's data |
| Envelope.TwoWarnings | src/baseApiRequestHandler.js:257-265 | two warnings come out as two lines with no trailing newline |
| Permissions.BackendEmail | src/baseApiRequestHandler.js:401-403 | the login middleware takes over exactly for no key or a user with a null email; a user's email is used as given |
| Permissions.BackendFetches | src/baseApiRequestHandler.js:411-415 | the backend check asks for the backend user whose email is the key's, and then the brands whose users have that email, without their sessions |
| Permissions.BackendIssued | src/baseApiRequestHandler.js:403-417 | the backend check submits no request exactly when the login middleware takes over |
| Permissions.BackendPermissionCheck | src/baseApiRequestHandler.js:403-439 | the login middleware takes over exactly without an email; a store error is a 500; no user a 400; no brand a 400; otherwise the first user and all brands are granted |
| Permissions.AppApiKey | src/baseApiRequestHandler.js:460-467 | there is no key exactly for a null credential; an API key is used as given |
| Permissions.AppFetches | src/baseApiRequestHandler.js:467-473 | the session check asks for the sessions whose API key is the key, without their ugc objects and likes, and then the brands of sessions with that key, without their sessions |
| Permissions.AppIssued | src/baseApiRequestHandler.js:462-475 | the session check submits no request exactly without a key |
| Permissions.AppSessionPermissionCheck | src/baseApiRequestHandler.js:462-499 | no key is a 401; a store error a 500; no session a 401; no brand a 401; otherwise the first session and all brands are granted |
| Permissions.AppUserPermissionCheck | src/baseApiRequestHandler.js:508-512 | the check throws exactly without a session, passes exactly for a session linked to a user, and otherwise denies with the 403 |
| Permissions.FilterScope | src/baseApiRequestHandler.js:524-613 | with neither requirement nothing changes; a brand requirement waives the customer one; a missing filter or id is the matching 400 with no fetch; a denial leaves both lists as they were; an entity already held is narrowed to without a fetch; an id missing from the held list is fetched by id; at most one fetch, whose error is a 500, whose empty result is the matching 400 and whose rows replace the list; passing under a requirement leaves a non-empty list for it |
| Permissions.BrandWaivesCustomer | src/baseApiRequestHandler.js:535-536 | a route needing both brand and customer passes with a filter naming only a held brand, with no fetch |
| BaseApiRequestHandler.Outcome | src/baseApiRequestHandler.js:404-445 | the login middleware's answer leaves the pipeline by `next` exactly when it calls `next`, and never throws |
| BaseApiRequestHandler.FreshContext | src/baseApiRequestHandler.js:71-86 | a handler starts with no principal, no brands or customers, no fetch and no write, and the route's customer requirement |
| BaseApiRequestHandler.BackendStep | src/baseApiRequestHandler.js:394-447 | the user and brand queries are logged; without an email the login middleware decides and is handed the handler; a denial writes its error and stops; a granted user and its brands are kept and the login middleware decides; nothing else changes |
| BaseApiRequestHandler.AppSessionStep | src/baseApiRequestHandler.js:453-501 | the session and brand queries are logged; a denial writes its error and stops; a granted session and its brands are kept and the run goes on; it never throws |
| BaseApiRequestHandler.AppUserStep | src/baseApiRequestHandler.js:505-513 | only the writes can change; it throws exactly without a session, goes on exactly for a session linked to a user, and otherwise writes the 403 |
| BaseApiRequestHandler.FilterStep | src/baseApiRequestHandler.js:521-614 | the lists, the customer requirement and the fetch log become what `FilterScope` decides; the run goes on exactly when it passes, with no write; a denial writes its error |
| BaseApiRequestHandler.Effect | src/baseApiRequestHandler.js:394-614 | a middleware that calls `next` writes nothing; none overwrites a response; a write it adds is a single error envelope; the store sees every earlier request before its own |
| BaseApiRequestHandler.Pipeline | src/baseRequestHandler.js:101-164 | a whole run leaves a context that has a response as it is, and otherwise adds at most one write |
| BaseApiRequestHandler.PipelineWritesAtMostOnce | src/baseRequestHandler.js:101-164 | a whole run leaves a written context untouched and never produces a second write; the fetch log only grows |
| BaseApiRequestHandler.PipelineSucceedsIffAllPass | src/baseRequestHandler.js:122-126 | the route's success response is written exactly when a callback was given and every registered middleware called `next`; without a callback never |
| BaseApiRequestHandler.PipelineUnfold | src/baseRequestHandler.js:108-160 | a run with no response yet either ends (the terminal write with a callback) or runs the head middleware and goes on exactly when it called `next` |
| BaseApiRequestHandler.MobileSessionReachesHandler | src/baseApiRequestHandler.js:453-499 | a mobile key that finds one session and one brand reaches the route's handler with that session and brand, after the two session queries only |
| BaseApiRequestHandler.BackendKeyWithoutUser | src/baseApiRequestHandler.js:411-430 | a backend key that finds no user gets exactly the 400 "No user found for this key." and the scope filter never runs |
| BaseApiRequestHandler.AsEntriesAppend | src/baseApiRequestHandler.js:176-180 | registering two lists in turn registers their concatenation |
| BaseApiRequestHandler.ApiRequestHandler.constructor | src/baseApiRequestHandler.js:28-96 | a handler starts from the route's defaults, with fresh lists, no response and no middleware |
| BaseApiRequestHandler.ApiRequestHandler.WriteToResponse | src/baseApiRequestHandler.js:275-279 | one status-and-body write is appended |
| BaseApiRequestHandler.ApiRequestHandler.SendError | src/baseApiRequestHandler.js:198-212 | the error envelope is written unless a response was sent; afterwards a response is sent and there is at most one |
| BaseApiRequestHandler.ApiRequestHandler.SendDatabaseError | src/baseApiRequestHandler.js:219-224 | a database error is the 500 "Error in database handling." |
| BaseApiRequestHandler.ApiRequestHandler.SendResponse | src/baseApiRequestHandler.js:232-271 | the success envelope is written unless a response was sent; afterwards a response is sent and there is at most one |
| BaseApiRequestHandler.ApiRequestHandler.HandleRequest | src/baseApiRequestHandler.js:621-626 | the handler's last step is the 200 success response |
| BaseApiRequestHandler.ApiRequestHandler.SetupBackendUserPermissionCheck | src/baseApiRequestHandler.js:359-367 | the backend check is appended only under restriction, then the scope filter |
| BaseApiRequestHandler.ApiRequestHandler.SetupAppSessionPermissionCheck | src/baseApiRequestHandler.js:371-377 | the session check is appended only when app access is restricted |
| BaseApiRequestHandler.ApiRequestHandler.SetupAppUserPermissionCheck | src/baseApiRequestHandler.js:381-385 | the linked-user check is appended |
| BaseApiRequestHandler.ApiRequestHandler.SetupMiddleWares | src/baseApiRequestHandler.js:168-185 | the middlewares appended are exactly `Registration` for the client kind and the route's flags |
| BaseApiRequestHandler.ApiRequestHandler.Setup | src/baseApiRequestHandler.js:147-165 | a client kind the route does not admit gets the 401 and no middleware; an admitted one gets its registration and no write |
| BaseApiRequestHandler.ApiRequestHandler.Initialize | src/baseApiRequestHandler.js:109-142 | the request time is recorded; the backend restriction is as `RestrictBackendAccessAfterInit` says; a missing mandatory `since` is the only write (a 400) and nothing is registered or fetched; a refused client gets only the 401 and nothing is fetched; otherwise `since` is set and the registration is in place; without a callback no middleware runs; at most one write throughout |
| BaseApiRequestHandler.ApiRequestHandler.SetupAndRun | src/baseApiRequestHandler.js:137-141 | setup, then a run only when the callback is a function; a refused client gets only the 401 |
| BaseApiRequestHandler.ApiRequestHandler.BackendPermissionMiddleWare | src/baseApiRequestHandler.js:394-447 | the handler's state and outcome afterwards are those `BackendStep` gives for the state before |
| BaseApiRequestHandler.ApiRequestHandler.AppSessionPermissionMiddleWare | src/baseApiRequestHandler.js:453-501 | the handler's state and outcome afterwards are those `AppSessionStep` gives for the state before |
| BaseApiRequestHandler.ApiRequestHandler.AppUserPermissionCheckMiddleWare | src/baseApiRequestHandler.js:505-513 | the handler's state and outcome afterwards are those `AppUserStep` gives for the state before |
| BaseApiRequestHandler.ApiRequestHandler.FilterCustomerAndBrandsMiddleWare | src/baseApiRequestHandler.js:521-614 | the handler's state and outcome afterwards are those `FilterStep` gives for the state before |
| BaseApiRequestHandler.ApiRequestHandler.RunStep | src/baseRequestHandler.js:160 | running the handed-over middleware changes the handler's state as `Effect` says |
| BaseApiRequestHandler.ApiRequestHandler.PerformHandleRequest | src/baseRequestHandler.js:101-164 | the registered list is unchanged, the invoked middlewares are a prefix of it, and the handler's state afterwards is `Pipeline` of the registered middlewares from the state before; with a response already sent nothing runs and nothing changes |
| BaseApiRequestHandler.ApiRequestHandler.Advance | src/baseRequestHandler.js:108-160 | one `next` call: the success response when the list is exhausted and a callback was given, otherwise the `Effect` of the head middleware, going on exactly when it called `next` |

## Left out

- Logging: `log`, `logError`, `logWarn` with chalk and `timeStamp`, `console.trace` and `console.error`. Output has no effect on the handler's state.
- The prototype lookup that finds a middleware's name for the log line (src/baseRequestHandler.js:144-154). It is logging only.
- Asynchrony. Store answers and the login middleware are modelled as returning at once. Each middleware's effect is atomic, which is the order the source's callbacks produce within one request.
- The `Response` model, `makePlainResponseObject` and the JSON round trip of an envelope. A body is a Dafny value. The branch that sends "Fatal error in creating Response" as a status (src/baseApiRequestHandler.js:242-245) needs the `Response` model to return nothing. That model is not part of this model.
- `setResponseDataToResponse`. A route fills in the response data, so it is a constructor parameter here.
- `parseReferrerInformation` and `ApiRequestReferrerInformation`. The referrer information is given as a value: its mobile flag and its authentication key.
- The store client (`ApiFetchRequest`, `ApiFetchRequestQueue`, `resultForRequest`). A store is a function from request to answer; a queue fails when any of its requests fails.
- `AccessMiddleWare.loginMiddleWare`. It is a collaborator, given as a function telling whether it calls `next`. Its own writes and the handler it receives are not modelled; the options record it is given is.
- `Date` and `parseInt`. Times and `since` are integers, and an unparsable `since` is None.
- `permittedRoles` and `ignoreRelationShipsInFetches` (src/baseApiRequestHandler.js:66, 96). The core never reads them.
- `errors` (warnings). Routes fill this list in; the model keeps it as a field and sends it, but no core operation adds to it.
- src/Animal.js and Gruntfile.js. These are not part of the core.
- Permissions.BackendPermissionCheck: after a store error the source sends the 500 and, lacking a `return` (src/baseApiRequestHandler.js:421-423), reads the missing result. The model ends the check at the 500.
- Permissions.AppSessionPermissionCheck: the same missing `return` (src/baseApiRequestHandler.js:479-481) is modelled the same way.
- BaseApiRequestHandler.ApiRequestHandler.AppUserPermissionCheckMiddleWare: without an app session the source's `null.getUser()` throws. The model ends that middleware with the outcome `Threw`: no write, and the pipeline stops.
- BaseApiRequestHandler.ApiRequestHandler.constructor: the source keeps `middleWares`, `brands`, `customers` and `errors` on the prototype, shared by every instance. Each handler gets fresh lists here.
- BaseApiRequestHandler.ApiRequestHandler.HandleRequest: the API handler's `handleRequest` overrides the base one and never calls the callback. The callback only decides whether the run ends with the success response.
- BaseRequestHandler.RequestHandler.Next: after a non-callable entry the source calls `next` again, which checks `responseIsSent` again. Nothing can set the flag in between, so the model checks it once per call.
- BaseRequestHandler.RequestHandler.PerformHandleRequest: middlewares are abstract here, known only by whether they call `next`. The API handler's own `PerformHandleRequest` runs the real middlewares.
- BaseApiRequestHandler.ApiRequestHandler.Initialize: its contract states what initialisation decides and registers. It does not restate the run as `Pipeline`; that is stated by `PerformHandleRequest`, which `Initialize` reaches through `SetupAndRun`.
- BaseApiRequestHandler.ApiRequestHandler.SetupAndRun: for the same reason, its contract does not restate `Pipeline`.
