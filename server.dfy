/**
 * The decisions the server's start-up code makes: the CORS origin it
 * allows, what an unmatched path gets, which port it listens on, and which
 * routes sit behind the admin authentication middleware.
 */
module Server {
  import opened Text
  import Configuration

  // ---------------------------------------------------------------------
  // CORS origin

  /** `strings.TrimSuffix(s, "/")`: drops one trailing slash, if there is one. */
  function TrimTrailingSlash(s: string): (r: string)
    ensures HasPrefix(s, r) && |s| - |r| <= 1
    ensures r != s <==> (|s| > 0 && s[|s| - 1] == '/')
  {
    if |s| > 0 && s[|s| - 1] == '/' then s[..|s| - 1] else s
  }

  /** Only one slash goes: trimming undoes exactly one appended slash. */
  lemma TrimUndoesOneSlash(s: string)
    ensures TrimTrailingSlash(s + "/") == s
    ensures TrimTrailingSlash(s + "//") == s + "/"
  {
    assert (s + "/")[..|s|] == s;
    assert (s + "//")[..|s| + 1] == s + "/";
  }

  // ---------------------------------------------------------------------
  // Unmatched paths

  datatype Fallback = ServeIndex | NotFoundJson(message: string)

  /** What an unmatched `path` gets; `indexExists` says whether the built front end is present. */
  function NoRoute(path: string, indexExists: bool): (r: Fallback)
    ensures HasPrefix(path, "/api") || HasPrefix(path, "/assets") ==> r == NotFoundJson("Not found")
    ensures r == ServeIndex <==> !HasPrefix(path, "/api") && !HasPrefix(path, "/assets") && indexExists
    ensures !HasPrefix(path, "/api") && !HasPrefix(path, "/assets") && !indexExists ==>
              r == NotFoundJson("Frontend not found")
  {
    if HasPrefix(path, "/api") || HasPrefix(path, "/assets") then NotFoundJson("Not found")
    else if indexExists then ServeIndex
    else NotFoundJson("Frontend not found")
  }

  /** The prefix test is on characters, not path segments: `/apiary` is treated as an API path. */
  lemma PrefixNotSegment(indexExists: bool)
    ensures NoRoute("/apiary", indexExists) == NotFoundJson("Not found")
    ensures NoRoute("/assetsfoo", indexExists) == NotFoundJson("Not found")
    ensures NoRoute("/", indexExists) == if indexExists then ServeIndex else NotFoundJson("Frontend not found")
  {
    assert HasPrefix("/apiary", "/api");
    assert HasPrefix("/assetsfoo", "/assets");
  }

  // ---------------------------------------------------------------------
  // Listening port

  /** `PORT` from the environment, else the configured port, else 8080. */
  function ServerPort(envPort: string, cfgPort: string): (p: string)
    ensures p != ""
    ensures envPort != "" ==> p == envPort
    ensures envPort == "" && cfgPort != "" ==> p == cfgPort
    ensures envPort == "" && cfgPort == "" ==> p == "8080"
  {
    var port := envPort;
    var port := if port == "" then cfgPort else port;
    if port == "" then "8080" else port
  }

  /**
   * With a configuration loaded from the same environment, the chain adds
   * nothing: the configured port already falls back to 8080, so the server
   * listens on the configured port.
   */
  lemma PortFromLoadedConfig(env: map<string, string>, io: Configuration.Platform)
    requires Configuration.Load(env, io).Success?
    ensures ServerPort(Configuration.Getenv(env, "PORT"), Configuration.Load(env, io).value.port)
            == Configuration.Load(env, io).value.port
            == if Configuration.Getenv(env, "PORT") == "" then "8080" else Configuration.Getenv(env, "PORT")
  {
  }

  // ---------------------------------------------------------------------
  // Route table and the authentication gate

  datatype Verb = GET | POST | PUT | DELETE

  datatype Endpoint =
    | Register | GetRegistrationCount | GetSpeakers | GetSessions
    | AdminLogin | GetAttendees | GetAttendee | CreateSpeaker | UpdateSpeaker | DeleteSpeaker
    | CreateSession | UpdateSession | DeleteSession | GetDesignationBreakdown

  /** A statement on a route group: add middleware to it, or register a route on it. */
  datatype GroupStep = Use | Handle(verb: Verb, path: string, endpoint: Endpoint)

  datatype Route = Route(verb: Verb, path: string, endpoint: Endpoint, gated: bool)

  /**
   * The routes a group registers. A route's handler chain is fixed when it is
   * registered, so it runs behind the middleware only if `Use` came first.
   */
  function Mount(prefix: string, steps: seq<GroupStep>, gated: bool): (routes: seq<Route>)
    ensures |routes| <= |steps|
  {
    if steps == [] then []
    else match steps[0]
      case Use => Mount(prefix, steps[1..], true)
      case Handle(verb, path, endpoint) => [Route(verb, prefix + path, endpoint, gated)] + Mount(prefix, steps[1..], gated)
  }

  /** Once the middleware is on, every later route is gated. */
  lemma {:induction false} MountAfterUseGated(prefix: string, steps: seq<GroupStep>, r: Route)
    requires r in Mount(prefix, steps, true)
    ensures r.gated
  {
    if steps != [] {
      match steps[0]
      case Use =>
        MountAfterUseGated(prefix, steps[1..], r);
      case Handle(verb, path, endpoint) =>
        if r != Route(verb, prefix + path, endpoint, true) {
          MountAfterUseGated(prefix, steps[1..], r);
        }
    }
  }

  /** Before any `Use`, no route is gated. */
  lemma {:induction false} MountBeforeUseOpen(prefix: string, steps: seq<GroupStep>, r: Route)
    requires Use !in steps
    requires r in Mount(prefix, steps, false)
    ensures !r.gated
  {
    if steps != [] {
      assert steps[0] in steps;
      match steps[0]
      case Handle(verb, path, endpoint) =>
        if r != Route(verb, prefix + path, endpoint, false) {
          assert forall i :: 0 <= i < |steps| - 1 ==> steps[1..][i] == steps[i + 1];
          MountBeforeUseOpen(prefix, steps[1..], r);
        }
    }
  }

  /** The public routes under `/api`. */
  const PublicGroup: seq<GroupStep> := [
    Handle(POST, "/register", Register),
    Handle(GET, "/registrations/count", GetRegistrationCount),
    Handle(GET, "/speakers", GetSpeakers),
    Handle(GET, "/sessions", GetSessions)]

  /** The admin routes under `/api/admin` before the middleware is added: only login. */
  const AdminOpen: seq<GroupStep> := [Handle(POST, "/login", AdminLogin)]

  /** The admin routes registered after the authentication middleware. */
  const AdminGated: seq<GroupStep> := [
    Handle(GET, "/attendees", GetAttendees),
    Handle(GET, "/attendees/:id", GetAttendee),
    Handle(GET, "/speakers", GetSpeakers),
    Handle(POST, "/speakers", CreateSpeaker),
    Handle(PUT, "/speakers/:id", UpdateSpeaker),
    Handle(DELETE, "/speakers/:id", DeleteSpeaker),
    Handle(GET, "/sessions", GetSessions),
    Handle(POST, "/sessions", CreateSession),
    Handle(PUT, "/sessions/:id", UpdateSession),
    Handle(DELETE, "/sessions/:id", DeleteSession),
    Handle(GET, "/analytics/designations", GetDesignationBreakdown)]

  /** The routes of the public group: one per registration. */
  function PublicRoutes(): (routes: seq<Route>)
    ensures |routes| == |PublicGroup| == 4
  {
    Mount("/api", PublicGroup, false)
  }

  /** The routes of the admin group: login, then the middleware, then the rest. */
  function AdminRoutes(): (routes: seq<Route>)
    ensures |routes| == |AdminOpen| + |AdminGated| == 12
  {
    MountSplit("/api/admin", AdminOpen, AdminGated);
    Mount("/api/admin", AdminOpen + [Use] + AdminGated, false)
  }

  /** Every mounted route comes from a `Handle` step of its group, under the group's prefix. */
  lemma {:induction false} MountOrigin(prefix: string, steps: seq<GroupStep>, gated: bool, r: Route)
    requires r in Mount(prefix, steps, gated)
    ensures exists p :: Handle(r.verb, p, r.endpoint) in steps && r.path == prefix + p
  {
    if steps != [] {
      match steps[0]
      case Use =>
        MountOrigin(prefix, steps[1..], true, r);
        var p :| Handle(r.verb, p, r.endpoint) in steps[1..] && r.path == prefix + p;
      case Handle(verb, path, endpoint) =>
        if r != Route(verb, prefix + path, endpoint, gated) {
          MountOrigin(prefix, steps[1..], gated, r);
          var p :| Handle(r.verb, p, r.endpoint) in steps[1..] && r.path == prefix + p;
        }
    }
  }

  /** Splitting a group at its `Use`: routes before it are open, routes after it gated. */
  lemma {:induction false} MountSplit(prefix: string, open: seq<GroupStep>, rest: seq<GroupStep>)
    requires Use !in open
    ensures Mount(prefix, open + [Use] + rest, false) == Mount(prefix, open, false) + Mount(prefix, rest, true)
  {
    if open == [] {
      assert open + [Use] + rest == [Use] + rest;
      assert ([Use] + rest)[1..] == rest;
    } else {
      assert (open + [Use] + rest)[0] == open[0];
      assert (open + [Use] + rest)[1..] == open[1..] + [Use] + rest;
      assert open[0] in open;
      MountSplit(prefix, open[1..], rest);
    }
  }

  /** Every route of a group lies under the group's prefix. */
  lemma MountUnderPrefix(prefix: string, steps: seq<GroupStep>, gated: bool, r: Route)
    requires r in Mount(prefix, steps, gated)
    ensures HasPrefix(r.path, prefix)
  {
    MountOrigin(prefix, steps, gated, r);
    var p :| Handle(r.verb, p, r.endpoint) in steps && r.path == prefix + p;
    assert r.path[..|prefix|] == prefix;
  }

  /** No public route is behind the middleware. */
  lemma PublicRoutesOpen()
    ensures forall r :: r in PublicRoutes() ==> !r.gated && HasPrefix(r.path, "/api")
  {
    forall r | r in PublicRoutes() ensures !r.gated && HasPrefix(r.path, "/api") {
      MountBeforeUseOpen("/api", PublicGroup, r);
      MountUnderPrefix("/api", PublicGroup, false, r);
    }
  }

  /** Login is the one admin route reachable without a token. */
  lemma AdminRoutesGated()
    ensures forall r :: r in AdminRoutes() ==> HasPrefix(r.path, "/api/admin") && (r.gated <==> r.endpoint != AdminLogin)
  {
    MountSplit("/api/admin", AdminOpen, AdminGated);
    forall r | r in AdminRoutes() ensures HasPrefix(r.path, "/api/admin") && (r.gated <==> r.endpoint != AdminLogin) {
      if r in Mount("/api/admin", AdminOpen, false) {
        LoginOpen(r);
      } else {
        OthersGated(r);
      }
    }
  }

  lemma LoginOpen(r: Route)
    requires r in Mount("/api/admin", AdminOpen, false)
    ensures HasPrefix(r.path, "/api/admin") && !r.gated && r.endpoint == AdminLogin
  {
    MountBeforeUseOpen("/api/admin", AdminOpen, r);
    MountUnderPrefix("/api/admin", AdminOpen, false, r);
    MountOrigin("/api/admin", AdminOpen, false, r);
  }

  lemma OthersGated(r: Route)
    requires r in Mount("/api/admin", AdminGated, true)
    ensures HasPrefix(r.path, "/api/admin") && r.gated && r.endpoint != AdminLogin
  {
    MountAfterUseGated("/api/admin", AdminGated, r);
    MountUnderPrefix("/api/admin", AdminGated, true, r);
    MountOrigin("/api/admin", AdminGated, true, r);
  }
}
