/** The server as a whole: the cross-origin middleware in front of the
    router, the admin gate in front of the admin handlers, and the handlers. */
module Server {
  import opened Common
  import opened Models
  import opened Http
  import opened Store
  import Configuration
  import opened Auth
  import Admin
  import Registration
  import Sessions
  import opened Routing

  /** A request: method, path, Authorization header ("" when absent), and
      its body as each handler's decoder reads it (None: it does not decode). */
  datatype Request = Request(
    httpMethod: string, path: string, authorization: string,
    login: Option<LoginRequest>, registration: Option<RegisterRequest>,
    speaker: Option<Admin.SpeakerRequest>, session: Option<Admin.SessionRequest>)

  /** What the environment contributes to one request: how the database
      answers (the order its listings come in, or failure; whether the email
      lookup and a write fail; the id an insertion gets), the clock, the
      process environment, the token library, and the regular files of the
      static directory, or None when there is no static directory. */
  datatype World = World(
    attendeeKeys: Fetch<seq<Id>>, speakerKeys: Fetch<seq<Id>>, sessionKeys: Fetch<seq<Id>>,
    lookupFails: bool, writeFails: bool, newId: Id, now: Time,
    env: Configuration.Env, jwt: Jwt, staticFiles: Option<set<string>>)

  /** The database answers about the collections it holds. */
  predicate Consistent(w: World, attendees: map<Id, Doc<Attendee>>, speakers: map<Id, Doc<Speaker>>,
                       sessions: map<Id, Doc<Session>>) {
    && (w.attendeeKeys.Fetched? ==> InCollection(w.attendeeKeys.value, attendees))
    && (w.speakerKeys.Fetched? ==> InCollection(w.speakerKeys.value, speakers))
    && (w.sessionKeys.Fetched? ==> InCollection(w.sessionKeys.value, sessions))
    && w.newId != "" && w.newId !in attendees && w.newId !in speakers && w.newId !in sessions
  }

  /** What one route leads to, by its position in the table: the admin gate
      wraps exactly the admin data routes, and the static targets are the
      routes after the API, the assets route carrying its prefix. */
  lemma RouteFacts(staticDirExists: bool, i: nat)
    requires i < |RouteTable(staticDirExists)|
    ensures var r := RouteTable(staticDirExists)[i];
            && (r.guarded <==> r.target in AdminTargets)
            && (r.target == Assets ==> r.pattern == Prefix("/assets/"))
            && (r.target in StaticTargets <==> i >= |ApiRoutes|)
  {
    var routes := RouteTable(staticDirExists);
    if i < |ApiRoutes| {
      assert routes[i] == ApiRoutes[i];
    } else {
      assert routes[i] == StaticRoutes[i - |ApiRoutes|];
    }
  }

  const AdminTargets: set<Target> := {AdminAttendees, AdminStats, AdminSpeakers, AdminSessions}
  const StaticTargets: set<Target> := {Assets, ViteIcon, SinglePageApp}

  /** What the front of the server does with a request: answer it, or run a handler. */
  datatype Step = Answer(response: Response) | Run(target: Target)

  /** The cross-origin middleware, the router and the admin gate, in that order. */
  function Front(req: Request, w: World): (s: Step)
    ensures req.httpMethod == MethodOptions ==> s == Answer(Preflight)
    ensures req.httpMethod != MethodOptions ==>
              var o := Dispatch(RouteTable(w.staticFiles.Some?), req.httpMethod, req.path);
              var gate := AdminAuthMiddleware(req.httpMethod, req.authorization, w.jwt, w.now);
              && (!o.Matched? ==> s == Answer(Unrouted(o)))
              && (o.Matched? && o.route.guarded && gate.Reject? ==> s == Answer(gate.response))
              && (s.Run? <==> o.Matched? && (!o.route.guarded || gate.Forward?))
              && (s.Run? ==> s.target == o.route.target && FullMatch(o.route, req.httpMethod, req.path))
    // an admin data handler runs only behind a token that verifies
    ensures s.Run? && s.target in AdminTargets ==>
              AdminAuthMiddleware(req.httpMethod, req.authorization, w.jwt, w.now).Forward?
    // the static handlers run only when the static directory exists, the
    // assets handler only under its prefix
    ensures s.Run? && s.target in StaticTargets ==> w.staticFiles.Some?
    ensures s.Run? && s.target == Assets ==> StartsWith(req.path, "/assets/")
  {
    if req.httpMethod == MethodOptions then Answer(Preflight)
    else
      var routes := RouteTable(w.staticFiles.Some?);
      var gate := AdminAuthMiddleware(req.httpMethod, req.authorization, w.jwt, w.now);
      match FirstMatch(routes, req.httpMethod, req.path)
      case None => Answer(Unrouted(Dispatch(routes, req.httpMethod, req.path)))
      case Some(i) =>
        RouteFacts(w.staticFiles.Some?, i);
        if routes[i].guarded && gate.Reject? then Answer(gate.response) else Run(routes[i].target)
  }

  /** A request to an admin data route, with that route's method. */
  predicate AdminRequest(req: Request, i: nat) {
    5 <= i < |ApiRoutes| && req.path == ApiRoutes[i].pattern.path && req.httpMethod == ApiRoutes[i].methods.value[0]
  }

  /** End to end: the token a login at `issued` hands out, sent as a bearer
      token to an admin data route, runs that route's handler exactly until
      24 hours after the login, and is refused with a 401 afterwards. */
  lemma LoggedInAdminReachesHandler(req: Request, w: World, i: nat, issued: Time)
    requires Sound(w.jwt) && w.jwt.sign(IssuedClaims(issued)).Some?
    requires AdminRequest(req, i)
    requires req.authorization == "Bearer " + AdminLogin(MethodPost, Some(LoginRequest(Configuration.LoadConfig(w.env).adminPassword)), w.env, w.jwt, issued).body.value.token
    ensures w.now < issued + TokenLifetime ==> Front(req, w) == Run(ApiRoutes[i].target)
    ensures issued + TokenLifetime <= w.now ==> Front(req, w) == Answer(Error(StatusUnauthorized, "Invalid token"))
  {
    assert req.httpMethod != MethodOptions;
    LoginTokenOpensGate(w.env, w.jwt, issued, req.httpMethod, w.now);
    ApiRouteReached(w.staticFiles.Some?, i, req.httpMethod);
    RouteFacts(w.staticFiles.Some?, i);
    assert RouteTable(w.staticFiles.Some?)[i] == ApiRoutes[i];
  }

  /** An admin data route without an Authorization header is refused. */
  lemma NoHeaderNoAdmin(req: Request, w: World, i: nat)
    requires AdminRequest(req, i) && req.authorization == ""
    ensures Front(req, w) == Answer(Error(StatusUnauthorized, "Missing authorization header"))
  {
    ApiRouteReached(w.staticFiles.Some?, i, req.httpMethod);
    RouteFacts(w.staticFiles.Some?, i);
    assert RouteTable(w.staticFiles.Some?)[i] == ApiRoutes[i];
  }

  /** The contents of the three collections. */
  datatype Db = Db(attendees: map<Id, Doc<Attendee>>, speakers: map<Id, Doc<Speaker>>, sessions: map<Id, Doc<Session>>)

  /** What running the handler `t` on `req` does: its answer and the new
      contents of the collections, as each handler states them; the
      collections the handler does not write are left as they were. */
  predicate Handled(t: Target, before: Db, after: Db, resp: Response, req: Request, w: World) {
    match t
    case PublicSessions =>
      after == before && Sessions.SessionsListed(resp, w.sessionKeys, before.sessions, before.speakers)
    case PublicSpeakers =>
      after == before && Sessions.SpeakersListed(resp, w.speakerKeys, before.speakers)
    case Register =>
      && after.speakers == before.speakers && after.sessions == before.sessions
      && Registration.Registered(before.attendees, after.attendees, resp, req.httpMethod, req.registration,
                                 w.lookupFails, w.writeFails, w.now, w.newId)
    case AttendeeCount =>
      after == before && Registration.Counted(resp, w.attendeeKeys)
    case Login =>
      after == before && resp == AdminLogin(req.httpMethod, req.login, w.env, w.jwt, w.now)
    case AdminAttendees =>
      after == before && Admin.AttendeesListed(resp, w.attendeeKeys, before.attendees)
    case AdminStats =>
      after == before && Admin.StatsAnswered(resp, w.attendeeKeys, before.attendees)
    case AdminSpeakers =>
      && after.attendees == before.attendees && after.sessions == before.sessions
      && Admin.SpeakerUpserted(before.speakers, after.speakers, resp, req.speaker, w.writeFails, w.newId)
    case AdminSessions =>
      && after.attendees == before.attendees && after.speakers == before.speakers
      && Admin.SessionUpserted(before.sessions, after.sessions, resp, req.session, w.writeFails, w.newId)
    case Assets =>
      && after == before && w.staticFiles.Some? && StartsWith(req.path, "/assets/")
      && resp == ServeStatic(Assets, w.staticFiles.value, req.path)
    case ViteIcon =>
      after == before && w.staticFiles.Some? && resp == ServeStatic(ViteIcon, w.staticFiles.value, req.path)
    case SinglePageApp =>
      after == before && w.staticFiles.Some? && resp == ServeStatic(SinglePageApp, w.staticFiles.value, req.path)
  }

  /** Runs one handler. Each collection is written only by its own handlers. */
  method RunHandler(target: Target, attendees: Collection<Attendee>, speakers: Collection<Speaker>,
                    sessions: Collection<Session>, req: Request, w: World) returns (resp: Response)
    requires Consistent(w, attendees.docs, speakers.docs, sessions.docs)
    requires target in StaticTargets ==> w.staticFiles.Some?
    requires target == Assets ==> StartsWith(req.path, "/assets/")
    modifies attendees, speakers, sessions
    ensures Handled(target, Db(old(attendees.docs), old(speakers.docs), old(sessions.docs)),
                    Db(attendees.docs, speakers.docs, sessions.docs), resp, req, w)
    ensures attendees.docs != old(attendees.docs) ==> target == Register
    ensures speakers.docs != old(speakers.docs) ==> target == AdminSpeakers
    ensures sessions.docs != old(sessions.docs) ==> target == AdminSessions
  {
    match target
    case PublicSessions =>
      resp := Sessions.GetSessions(sessions, speakers, w.sessionKeys);
    case PublicSpeakers =>
      resp := Sessions.GetSpeakers(speakers, w.speakerKeys);
    case Register =>
      resp := Registration.RegisterAttendee(attendees, req.httpMethod, req.registration, w.lookupFails,
                                            w.writeFails, w.now, w.newId);
    case AttendeeCount =>
      resp := Registration.GetAttendeeCount(attendees, w.attendeeKeys);
    case Login =>
      resp := AdminLogin(req.httpMethod, req.login, w.env, w.jwt, w.now);
    case AdminAttendees =>
      resp := Admin.GetAttendees(attendees, w.attendeeKeys);
    case AdminStats =>
      resp := Admin.GetStats(attendees, w.attendeeKeys);
    case AdminSpeakers =>
      resp := Admin.AddUpdateSpeaker(speakers, req.speaker, w.writeFails, w.newId);
    case AdminSessions =>
      resp := Admin.AddUpdateSession(sessions, req.session, w.writeFails, w.newId);
    case Assets =>
      resp := ServeStatic(Assets, w.staticFiles.value, req.path);
    case ViteIcon =>
      resp := ServeStatic(ViteIcon, w.staticFiles.value, req.path);
    case SinglePageApp =>
      resp := ServeStatic(SinglePageApp, w.staticFiles.value, req.path);
  }

  /** One request through the whole server. `handled` names the handler that
      ran, if any. */
  method Serve(attendees: Collection<Attendee>, speakers: Collection<Speaker>, sessions: Collection<Session>,
               req: Request, w: World) returns (resp: Response, handled: Option<Target>)
    requires Consistent(w, attendees.docs, speakers.docs, sessions.docs)
    modifies attendees, speakers, sessions
    ensures Front(req, w).Answer? ==>
              && resp == Front(req, w).response && handled.None?
              && attendees.docs == old(attendees.docs) && speakers.docs == old(speakers.docs)
              && sessions.docs == old(sessions.docs)
    ensures Front(req, w).Run? ==> handled == Some(Front(req, w).target)
    // a handler that runs answers and writes as it states
    ensures handled.Some? ==>
              Handled(handled.value, Db(old(attendees.docs), old(speakers.docs), old(sessions.docs)),
                      Db(attendees.docs, speakers.docs, sessions.docs), resp, req, w)
    // only registration writes attendees
    ensures attendees.docs != old(attendees.docs) ==> handled == Some(Register)
    // speakers and sessions are written only behind a token that verifies
    ensures (speakers.docs != old(speakers.docs) || sessions.docs != old(sessions.docs)) ==>
              && (handled == Some(AdminSpeakers) || handled == Some(AdminSessions))
              && req.httpMethod != MethodOptions && req.authorization != ""
              && w.jwt.verify(ExtractToken(req.authorization), w.now)
  {
    match Front(req, w)
    case Answer(r) =>
      resp, handled := r, None;
    case Run(t) =>
      handled := Some(t);
      resp := RunHandler(t, attendees, speakers, sessions, req, w);
  }
}
