# Event registration backend — a Dafny model

This project models the request handling of a small event-registration REST
backend. The backend does the following:

- Attendees register with a name, an email and a designation.
- The public reads the sessions, each joined with its speaker, the speakers,
  and the attendee count.
- One administrator logs in with a shared password and receives a signed
  bearer token valid for 24 hours.
- Behind a gate that checks that token, the administrator lists attendees,
  reads a histogram of their designations, and creates or updates speakers
  and sessions.
- A separate to-do resource offers list, create, partial update and delete.
- The server wraps everything in a cross-origin middleware, taken here to
  answer every preflight itself. It dispatches on path and method. When a static directory
  exists, it also serves a single-page app. Its catch-all route takes every
  path that no earlier route takes, API paths included, and answers API
  paths with 404.

## How it is modelled

- **Collections.** Each database collection is a `Store.Collection<T>`, a
  class with one mutable field `docs: map<Id, Doc<T>>`.
  - A stored document either decodes into the record type or does not
    (`Doc.Undecodable`); the handlers skip or reject documents that do not.
  - Writes reassign `docs`. Each one is stated in full in the handler's
    `ensures`.
- **Listings.** The order in which the database yields a listing is an input,
  `Fetch<seq<Id>>`. It is either the keys in iteration order or a failed read.
  - Each listing handler is a method with a loop over those keys.
  - Each is proved against the specification function `Store.Entries`.
  - Lemmas about `Entries` say what a full enumeration yields: every decodable
    document, once, in order.
- **Outside inputs.** Anything the source takes from outside is a parameter:
  - the clock (`Time`, whole seconds);
  - the id the database gives a new document;
  - whether a write or a read fails;
  - the process environment;
  - the token library (`Auth.Jwt`), with `Auth.Sound` stating what is relied
    on from it;
  - the set of files in the static directory.
- **Composition.** `Server.Front` chains the cross-origin middleware, the
  router (`Routing.Dispatch`, first match wins) and the admin gate
  (`Auth.AdminAuthMiddleware`). `Server.Serve` runs the handler that `Front`
  chooses. `Server.Handled` states what each handler answers and writes.

The handlers, the router and the server are modelled as the code is written,
including the two places listed under Findings. For each of those, a
corrected definition stands beside the as-written one, with the intended
property proved about it. Other points where the code is followed:

- **Default credentials path.** `backend/config/config_test.go:44-49` expects
  a default credentials path when none is set. `LoadConfig` in
  `backend/config/config.go:25` leaves it empty, and the model does too.
- **To-do routes.** `backend/handlers/todos.go` implements list, create,
  update and delete, but `backend/main.go:30-43` registers none of their
  routes.
  - The four to-do handlers are modelled as written.
  - `Routing.TodoPathsUnrouted` proves that no request reaches them.
- **The email lookup.** Most database errors in the handlers answer 500, for
  example `backend/handlers/registration.go:60-63` and
  `backend/handlers/admin.go:112-114`. There are two exceptions, which the
  model follows:
  - a failed read of a to-do answers 404 "Todo not found"
    (`backend/handlers/todos.go:105-108`);
  - a failed speaker read in the session listing leaves that session without
    a speaker (`backend/handlers/sessions.go:39-41`).

  A failed email lookup in `backend/handlers/registration.go:45-50` answers
  nothing at all: the registration goes ahead. See Findings.

## Model

| member | source | states |
|---|---|---|
| Store.Entries | backend/handlers/admin.go:106-123 | An iteration yields, in order, only documents of the collection that decode, each paired with the key it is stored under, and never more than the number of keys read. |
| Store.EntriesDistinct | backend/handlers/admin.go:106-123 | Reading an enumeration without repeated keys lists no document twice. |
| Store.EntriesComplete | backend/handlers/admin.go:106-123 | Every decodable document among the keys read appears in the listing with its own value. |
| Store.EntriesCount | backend/handlers/admin.go:106-123 | Reading keys without repeats lists as many entries as there are decodable documents among those keys. |
| Store.EnumerationSize | backend/handlers/registration.go:77-89 | An iteration that yields every document exactly once has as many steps as the collection has documents. |
| Store.EntriesDescending | backend/handlers/todos.go:24-43 | Keys that come in descending rank give entries in descending rank, because reading keeps their order. |
| Configuration.LoadConfig | backend/config/config.go:14-37 | PORT and ADMIN_PASSWORD are used when set and not empty, and default to "8080" and "admin123" otherwise. The credentials path is FIRESTORE_CREDENTIALS_PATH or "". The client id is the fixed constant. Port, password and client id are never empty. |
| Configuration.LoadConfigReadsOnlyItsVariables | backend/config/config.go:15-29 | Two environments that agree on the three variables give the same configuration. |
| Configuration.LoadConfigRoundTrip | backend/config/config.go:14-37 | Writing a loaded configuration back into an environment and loading again gives the same configuration. |
| Configuration.LoadConfigDefaults | backend/config/config.go:15-25 | With nothing set, the result is port "8080", password "admin123" and an empty credentials path. |
| Auth.AdminLogin | backend/handlers/admin.go:26-62 | A preflight gets 200 with no body. An undecodable body gets 400. A password other than the configured one gets 401. Otherwise the claims are the admin flag and an expiry 24 hours from now: signing them gives 200 with the token, and a signing failure gives 500. A token is handed out only for the configured password. |
| Auth.EmptyPasswordRejected | backend/handlers/admin.go:43-47 | An empty password never logs in, whatever the environment. |
| Auth.ExtractToken | backend/handlers/admin.go:81-84 | A header longer than 7 characters that starts with "Bearer " yields what follows that prefix. Any other header yields the whole header. |
| Auth.BearerRoundTrip | backend/handlers/admin.go:81-84 | "Bearer " followed by a non-empty token gives back exactly that token. |
| Auth.AdminAuthMiddleware | backend/handlers/admin.go:64-97 | The request is forwarded exactly when it is not a preflight, the header is present and the extracted token verifies now. A preflight gets 200, a missing header gets 401 "Missing authorization header", and any other refusal is 401 "Invalid token". |
| Auth.GateRejectsWithUnauthorized | backend/handlers/admin.go:75-93 | Every refusal of a non-preflight request is a 401. |
| Auth.LoginTokenOpensGate | backend/handlers/admin.go:50-95 | Under a sound token library, logging in with the configured password yields a token. Sent as a bearer token, it opens the gate exactly until 24 hours after the login. |
| Auth.ExpiredTokenRejected | backend/handlers/admin.go:86-93 | A correctly signed token whose expiry has passed is refused. |
| Admin.GetAttendees | backend/handlers/admin.go:99-126 | A failed read gives 500. Otherwise the response is 200 with every decodable attendee in iteration order, each carrying the key it is stored under as its id. |
| Admin.Designations | backend/handlers/admin.go:146-150 | One designation per entry, in order. |
| Admin.Tally | backend/handlers/admin.go:134-150 | The histogram is built one designation at a time, each adding one to its count; `Admin.TallyCounts` and `Admin.TallyTotal` state what it holds. |
| Admin.TallyCounts | backend/handlers/admin.go:134-150 | The histogram's keys are exactly the designations that occur, and each count is the number of occurrences. |
| Admin.TotalSplit | backend/handlers/admin.go:134-150 | The sum of a histogram's counts splits at any designation. |
| Admin.TallyTotal | backend/handlers/admin.go:134-150 | The counts add up to the number of attendees tallied. |
| Admin.GetStats | backend/handlers/admin.go:128-154 | A failed read gives 500. Otherwise the response is 200 with the histogram of the designations of the decodable attendees, tallied one document at a time. |
| Admin.DesignationCount | backend/handlers/admin.go:134-150 | Reading keys without repeats, a designation occurs among the entries once for each decodable document that carries it. |
| Admin.DesignationOccurs | backend/handlers/admin.go:134-150 | Over a full enumeration, a designation occurs among the entries exactly when some decodable attendee of the collection carries it. |
| Admin.StatsSummary | backend/handlers/admin.go:128-154 | Over a full enumeration of the collection, the histogram's designations are exactly those of the decodable attendees. Each count is the number of decodable attendees of the collection with that designation, and the counts add up to the number of decodable attendees. |
| Admin.AddUpdateSpeaker | backend/handlers/admin.go:163-205 | An undecodable body or an empty name gives 400, and a failed write gives 500 "Failed to update speaker" or "Failed to create speaker". Otherwise the speaker is stored with an empty id field, under the request's id or under a fresh id when the request has none. The response is 200 with the speaker and that id. Any other status leaves the collection unchanged. Creating adds exactly one document. |
| Admin.AddUpdateSession | backend/handlers/admin.go:215-258 | The same as for speakers, with "Title is required". The speaker reference is stored as given. |
| Registration.EmailRegistered | backend/handlers/registration.go:42-50 | Some decodable stored attendee has exactly the requested email, which is what the lookup's first result stands for. |
| Registration.UniqueEmails | backend/handlers/registration.go:42-50 | No two decodable attendees share an email. |
| Registration.DecideAsWritten | backend/handlers/registration.go:14-58 | The handler's checks as written, in order: preflight gets 200; any method other than POST gets 405; an undecodable body gets 400; an empty field gets 400 "Missing required fields"; a lookup that answers with the email gets 409. An attendee with the request's fields and the current time is inserted exactly for a complete POST whose email lookup fails or finds nothing. |
| Registration.AsWrittenAdmitsDuplicate | backend/handlers/registration.go:45-50 | Concretely: a failed lookup lets a second attendee with an email already registered be inserted, breaking uniqueness. |
| Registration.Decide | backend/handlers/registration.go:45-50 | The corrected checks, not the code: the same order, except that a failed email lookup gets 500, with a message of the model's own ("Failed to check email"). An insertion happens only when the lookup answers and finds nothing. |
| Registration.SecondRegistrationConflicts | backend/handlers/registration.go:42-66 | After a registration answered 201, a complete registration with the same email gets 409 "Email already registered" whenever the lookup answers. |
| Registration.DecideAgreesWhenLookupAnswers | backend/handlers/registration.go:42-50 | Whenever the lookup answers, the corrected checks and the checks as written decide the same. |
| Registration.InsertKeepsEmailsUnique | backend/handlers/registration.go:42-60 | Inserting what the corrected checks admit keeps emails unique, whether or not the lookup fails. |
| Registration.RegisterAttendee | backend/handlers/registration.go:14-68 | Runs the checks as written. An answer from the checks is returned with the collection unchanged. An insertion that fails gives 500 with the collection unchanged. Otherwise the attendee is added under the new id, with 201 and "Registration successful"; this includes a failed email lookup. A 201 adds exactly one document. Unique emails stay unique whenever the lookup answers. |
| Registration.GetAttendeeCount | backend/handlers/registration.go:70-92 | A failed read gives 500. Otherwise the count is the number of documents iterated, decodable or not, which over a full enumeration is the size of the collection. |
| Registration.CountGrowsByOne | backend/handlers/registration.go:52-66 | After one successful registration, the count is one larger. |
| Sessions.ResolveSpeaker | backend/handlers/sessions.go:38-48 | A speaker is joined in exactly when the reference is not empty and names a decodable stored speaker; that speaker carries the referenced id. |
| Sessions.GetSessions | backend/handlers/sessions.go:11-54 | A failed read of the sessions gives 500. Otherwise the response is 200 with every decodable session in order, each with its key as id and joined with its speaker when one resolves. An unresolved speaker never fails the listing. |
| Sessions.SessionListingComplete | backend/handlers/sessions.go:27-51 | Over a full enumeration, every decodable session is listed with its join. |
| Sessions.SessionListingDistinct | backend/handlers/sessions.go:27-51 | Over a full enumeration, no session is listed twice. |
| Sessions.GetSpeakers | backend/handlers/sessions.go:56-80 | A failed read gives 500. Otherwise the response is 200 with every decodable speaker in order, each with its key as id. |
| Todos.GetTodos | backend/handlers/todos.go:16-46 | A failed read gives 500. Otherwise the response is 200 with every decodable todo in order, each with its key as id. When the database answers newest first, the listing is newest first. |
| Todos.CreateTodo | backend/handlers/todos.go:48-80 | An undecodable body or an empty title gives 400, and a failed write gives 500, each with the store unchanged. Otherwise the payload is stored under the new id, open and with both instants set to now. The response is 201 with the stored todo carrying the new id. Exactly one document is added. |
| Todos.ApplyPatch | backend/handlers/todos.go:119-129 | The id and creation instant are kept and the update instant becomes now. Each of title, description and completion either stays or takes the value the update gives it with the right JSON type. |
| Todos.PatchTakesEffect | backend/handlers/todos.go:119-128 | A member of the right type always sets its field. |
| Todos.EmptyPatchTouchesOnly | backend/handlers/todos.go:119-129 | An empty update changes only the update instant. |
| Todos.PatchIgnoresOtherMembers | backend/handlers/todos.go:119-128 | Members other than title, description and completed have no effect. |
| Todos.PatchIgnoresIllTyped | backend/handlers/todos.go:120-122 | A title of the wrong JSON type is as good as no title. |
| Todos.ToggleOnlyCompletion | backend/handlers/todos.go:126-129 | An update that carries only "completed" changes nothing but completion and the update instant. |
| Todos.PatchIdempotent | backend/handlers/todos.go:119-129 | Applying the same update twice at the same instant is applying it once. |
| Todos.UpdateTodo | backend/handlers/todos.go:82-139 | The checks run in order: an empty id gives 400; an undecodable body gives 400; a failed or absent read gives 404; an undecodable stored todo gives 500; a failed write gives 500. Only when all pass is the response 200. The stored todo, with its key as id and the update applied, then replaces the old one and is returned. No other document and no key changes. |
| Todos.DeleteTodo | backend/handlers/todos.go:141-164 | An empty id gives 400 and a failed delete gives 500, each with the store unchanged. Otherwise the key is removed, whether present or not, and the response is 204 with no body. |
| Todos.DeleteRemovesExactly | backend/handlers/todos.go:155-163 | After a delete the todo is gone, every other document is as it was, and deleting again changes nothing. |
| Todos.CreateThenDeleteRestores | backend/handlers/todos.go:71-77 | Creating a todo and deleting it under its new id gives back the collection. |
| Routing.RouteTable | backend/main.go:33-58 | The nine API routes come first, in registration order. The three static routes follow only when the static directory exists, and the catch-all, which takes every method, comes last. |
| Routing.Router.HandleFunc | backend/main.go:33-43 | Registering a handler appends an exact-path route with its methods to the table. |
| Routing.Router.PathPrefix | backend/main.go:51-58 | Registering a prefix appends a route for every path under it and every method. |
| Routing.SetupRouter | backend/main.go:30-78 | The router built at start-up holds the nine API routes in order, then, only when the static directory exists, the assets, icon and catch-all routes. |
| Routing.FirstMatch | backend/main.go:30-74 | The chosen route matches path and method, and no earlier route does. No route is chosen only when none matches. |
| Routing.Dispatch | backend/main.go:30-74 | A route is chosen exactly when one matches path and method, and it is the first that does. Failing that, the method is refused exactly when some route has the path, and the path is not found exactly when no route has it. `Routing.Unrouted` turns these into 405 with no body and 404 "404 page not found". The lemmas `ApiRouteReached`, `WrongMethodOnApiPath`, `TodoPathsUnrouted` and `NoStaticOnlyApi` apply this to the table. |
| Routing.ApiRouteGuard | backend/main.go:39-43 | An API route is wrapped in the admin gate exactly when it is an admin path other than login. |
| Routing.GuardedExactlyAdmin | backend/main.go:33-74 | In either table, the gate wraps exactly the admin paths other than login. |
| Routing.ApiMethods | backend/main.go:33-43 | Every API route accepts one method, GET or POST, and the preflight method. |
| Routing.ApiRouteReached | backend/main.go:33-43 | A request for an API path with one of its methods reaches that route, with or without the static routes. |
| Routing.StaticRoutesOnApiPath | backend/main.go:51-58 | Of the static routes, only the catch-all covers an API path. |
| Routing.WrongMethodOnApiPath | backend/main.go:33-74 | An API path with a method it does not accept gets "method not allowed" without the static routes, and falls to the catch-all with them. |
| Routing.TodoPathsUnrouted | backend/main.go:30-74 | The to-do paths are not found without the static routes and fall to the catch-all with them: no request reaches a to-do handler. |
| Routing.StaticCatchAllTakesAll | backend/main.go:58 | With the static routes, every path gets a route. |
| Routing.NoStaticOnlyApi | backend/main.go:33-43 | Without the static routes, the router answers anything other than "not found" only for the API paths. |
| Routing.FileServe | backend/main.go:48 | A regular file of the static directory is served with 200, and nothing else is. |
| Routing.AssetsAsWrittenReadsRoot | backend/main.go:51 | As written, /assets/ followed by a name gets 200 exactly when a file of that name lies at the root of the static directory, and that file is served. |
| Routing.AssetsAsWrittenMissesBuiltAsset | backend/main.go:51 | Every file under the static directory's assets folder that has no namesake at its root gets 404 through the assets route as written, and 200 through the corrected one. |
| Routing.ServeAssets | backend/main.go:51 | The corrected assets route serves exactly the files under the static directory that the path names. |
| Routing.SpaFallback | backend/main.go:58-74 | An API path gets 404. An existing file is served. Any other path gets the index page. |
| Routing.SpaFallbackServesPages | backend/main.go:58-74 | The catch-all gives 200 exactly for a non-API path when that file or the index page exists, and deep links get the index page. |
| Routing.ServeStatic | backend/main.go:48-74 | The static routes as written. The assets route gets 200 exactly when the name after /assets/ is a file at the root of the static directory. The icon route gets 200 exactly when the path is a file. The catch-all gets 200 exactly for a non-API path when that file or the index page exists. A 200 carries the file asked for, or the index page from the catch-all. Every other answer is 404 "404 page not found". |
| Server.RouteFacts | backend/main.go:33-58 | By position in the table, a route is gated exactly when it leads to an admin data handler. The static handlers are exactly the routes after the API. |
| Server.Front | backend/main.go:81 | Every preflight is answered by the cross-origin middleware. Otherwise the router's outcome decides: a 405 or 404 of its own; the gate's refusal on a gated route; or the chosen route's handler, which runs exactly when the route is ungated or the gate forwards. An admin data handler runs only behind a verified token. A static handler runs only when the directory exists. |
| Server.LoggedInAdminReachesHandler | backend/main.go:39-43 | A token from logging in, sent to an admin data route with its method, runs that route's handler exactly until 24 hours after the login, and gets 401 "Invalid token" afterwards. |
| Server.NoHeaderNoAdmin | backend/handlers/admin.go:75-79 | An admin data route without an Authorization header gets 401 "Missing authorization header". |
| Server.RunHandler | backend/main.go:33-74 | The handler answers and writes as its own contract states, each listing over the keys read and each write in full, and leaves the collections it does not write as they were. Attendees are written only by registration, speakers only by the speaker upsert, and sessions only by the session upsert. |
| Server.Serve | backend/main.go:81-85 | A request that the front answers leaves every collection unchanged. Otherwise the handler the front chose runs, with its full answer and writes. Attendees change only through registration. Speakers and sessions change only through their admin handlers, behind a header carrying a token that verifies now. |

## Left out

- **Cross-origin middleware.** The source of `middleware.CORS` is not part of this model. That it answers every OPTIONS request itself, without calling the router, is the model's assumption. Its test, `backend/middleware/middleware_test.go:19-27`, is consistent with it but cannot tell it apart from passing the request on, because the next handler in the test also answers 200.
  - It is modelled as answering every OPTIONS request with 200 and no body, before the router runs.
  - The headers it and the handlers set (`Access-Control-*`, `Content-Type`) are not modelled.
- **Unreachable handler branches.** They are modelled in the handlers all the same.
  - Because the cross-origin middleware answers every OPTIONS request first, the handlers' own preflight branches cannot be reached through the server.
  - Because the router filters on method before the handler runs, the 405 "Method not allowed" branch of `RegisterAttendee` cannot be reached either: a non-POST request to `/api/register` is refused by the router or taken by the catch-all.
- **The token library** (`github.com/golang-jwt/jwt/v5`) is not modelled. Signing and verification are the parameters of `Auth.Jwt`.
  - `Auth.Sound` states what the proofs rely on from them: a signed token is not empty and verifies exactly until its expiry.
  - The fixed signing secret does not appear in the model.
  - The gate never reads the admin claim, and the library accepts a correctly signed token without an expiry. The model's claim sets always carry both, so neither point can arise in it.
- **The database client** (`backend/firestore/client.go`) is not modelled: start-up, credentials and the tenant path.
  - Collections are in-memory maps.
  - Iteration order, failures and fresh ids are inputs.
- **Error texts.** Where the source appends the database or decoder error text after a colon, the model keeps the message before the colon.
- **JSON encoding and decoding** are not modelled. Bodies are decoded values, or None when decoding fails.
  - An empty listing encodes as JSON `null`, because the Go slice is nil. The model gives an empty sequence.
  - The session join's speaker is omitted from the JSON when absent, where the model has `None`.
- **Time** is an integer count of seconds. Sub-second precision and the ordering of instants with equal seconds are not modelled.
- **Concurrency.** Handlers run one request at a time in the model. The race between the email check and the insertion in `RegisterAttendee` is therefore not modelled.
- Registration.EmailRegistered: only documents that decode are taken to carry an email. The database query also matches documents that do not decode into an attendee.
- Sessions.ResolveSpeaker: any failed speaker read leaves the session without a speaker, as in the source. The model only produces this for an absent or undecodable speaker, and does not model other read failures separately.
- Routing.Dispatch: the router's path cleaning is not modelled: the redirect of unclean paths, and trailing-slash handling.
- Routing.FileServe: directory paths, index files inside directories, directory listings and the redirect of `/index.html` are not modelled. Only regular files are served.
- `main` itself is not modelled: loading `.env`, start-up logging, fatal start-up errors and the listening port.
- The frontend is not part of this model.

## Findings

| source | as written | input that shows it | evidently intended | confidence | as-written member | corrected member |
|---|---|---|---|---|---|---|
| backend/handlers/registration.go:45-50 | Only a lookup that returns a document rejects the email. A failed lookup is treated like an empty answer, and the attendee is inserted. | An attendee with ann@example.com is stored, the email lookup then fails, and a second registration with ann@example.com is inserted. | A failed lookup is answered with a server error, as the handler's other database failure, the insertion at registration.go:60-63, is. | medium, not executed | Registration.DecideAsWritten, run by Registration.RegisterAttendee and shown by Registration.AsWrittenAdmitsDuplicate | Registration.Decide, with Registration.InsertKeepsEmailsUnique |
| backend/main.go:51 | The assets route strips "/assets/" before a file server rooted at the static directory, so /assets/x is looked up as static/x. | Static files {/index.html, /assets/app.js}; a GET of /assets/app.js gets 404, as for every file that lies only under static/assets/. | The request names static/assets/app.js and gets it. | medium (assumes the build puts assets under static/assets/), not executed | Routing.ServeAssetsAsWritten, run by Routing.ServeStatic and shown by Routing.AssetsAsWrittenMissesBuiltAsset | Routing.ServeAssets |
