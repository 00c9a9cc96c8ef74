/**
 * The router's route metadata and its two global hooks: the `beforeEach` guard,
 * which keeps signed-in users off the guest pages and sends signed-out users from
 * protected pages to /login (remembering where they were going), and the
 * `afterEach` hook, which sends a user who lands on / or /profile on to that
 * remembered route once.
 */
module Router {
  import opened Common
  import opened WebStorage

  /** The `meta` of a route record; a route without meta has both flags false. */
  datatype RouteMeta = RouteMeta(requiresGuest: bool, requiresAuth: bool)

  datatype RouteRecord = RouteRecord(path: string, meta: RouteMeta)

  const NoMeta: RouteMeta := RouteMeta(false, false)
  const GuestOnly: RouteMeta := RouteMeta(true, false)
  const AuthOnly: RouteMeta := RouteMeta(false, true)

  const LoginPath: string := "/login"
  const ProfilePath: string := "/profile"
  const HomePath: string := "/"

  /** The static route records, in declaration order (the dynamic ones carry no meta). */
  const Routes: seq<RouteRecord> := [
    RouteRecord("/", NoMeta),
    RouteRecord("/login", GuestOnly),
    RouteRecord("/signup", GuestOnly),
    RouteRecord("/forgot-password", GuestOnly),
    RouteRecord("/reset-password", NoMeta),
    RouteRecord("/profile", AuthOnly),
    RouteRecord("/leaderboard", NoMeta),
    RouteRecord("/settings", NoMeta),
    RouteRecord("/privacy-policy", NoMeta),
    RouteRecord("/security-policy", NoMeta),
    RouteRecord("/terms-of-service", NoMeta)
  ]

  /** The meta of the first record whose path is `path`; none for every other path. */
  function MetaIn(routes: seq<RouteRecord>, path: string): (m: RouteMeta)
    ensures (forall i :: 0 <= i < |routes| ==> routes[i].path != path) ==> m == NoMeta
    ensures m != NoMeta ==> exists i :: 0 <= i < |routes| && routes[i].path == path && routes[i].meta == m
    decreases |routes|
  {
    if routes == [] then NoMeta
    else if routes[0].path == path then routes[0].meta
    else
      var m := MetaIn(routes[1..], path);
      assert m != NoMeta ==> exists i :: 0 <= i < |routes| && routes[i].path == path && routes[i].meta == m by {
        if m != NoMeta {
          var j :| 0 <= j < |routes| - 1 && routes[1..][j].path == path && routes[1..][j].meta == m;
          assert routes[j + 1] == routes[1..][j];
        }
      }
      m
  }

  function MetaOf(path: string): RouteMeta {
    MetaIn(Routes, path)
  }

  ghost predicate DistinctPaths(routes: seq<RouteRecord>) {
    forall i, j :: 0 <= i < j < |routes| ==> routes[i].path != routes[j].path
  }

  /** With distinct paths, a path's flag is set iff the record holding that path has it. */
  lemma {:induction false} MetaInFound(routes: seq<RouteRecord>, path: string)
    requires DistinctPaths(routes)
    ensures MetaIn(routes, path).requiresGuest <==>
      exists i :: 0 <= i < |routes| && routes[i].path == path && routes[i].meta.requiresGuest
    ensures MetaIn(routes, path).requiresAuth <==>
      exists i :: 0 <= i < |routes| && routes[i].path == path && routes[i].meta.requiresAuth
    decreases |routes|
  {
    if routes != [] {
      var rest := routes[1..];
      MetaInFound(rest, path);
      if routes[0].path == path {
        forall i | 0 < i < |routes| ensures routes[i].path != path {
          assert routes[0].path != routes[i].path;
        }
      } else {
        forall i | 0 < i < |routes| ensures routes[i] == rest[i - 1] {
        }
        if MetaIn(rest, path).requiresGuest {
          var j :| 0 <= j < |rest| && rest[j].path == path && rest[j].meta.requiresGuest;
          assert routes[j + 1] == rest[j];
        }
        if MetaIn(rest, path).requiresAuth {
          var j :| 0 <= j < |rest| && rest[j].path == path && rest[j].meta.requiresAuth;
          assert routes[j + 1] == rest[j];
        }
      }
    }
  }

  /** No two records of the table share a path. */
  lemma RoutesDistinct()
    ensures DistinctPaths(Routes)
  {
  }

  /** The flagged records of the table: 1, 2 and 3 are guest-only, 5 requires sign-in. */
  lemma FlaggedRecords()
    ensures forall i :: 0 <= i < |Routes| ==> (Routes[i].meta.requiresGuest <==> 1 <= i <= 3)
    ensures forall i :: 0 <= i < |Routes| ==> (Routes[i].meta.requiresAuth <==> i == 5)
  {
  }

  /** Exactly /login, /signup and /forgot-password are guest-only, and exactly /profile requires sign-in. */
  lemma MetaTable(path: string)
    ensures MetaOf(path).requiresGuest <==> path == "/login" || path == "/signup" || path == "/forgot-password"
    ensures MetaOf(path).requiresAuth <==> path == "/profile"
  {
    RoutesDistinct();
    FlaggedRecords();
    MetaInFound(Routes, path);
    assert Routes[1].path == "/login" && Routes[2].path == "/signup";
    assert Routes[3].path == "/forgot-password" && Routes[5].path == "/profile";
  }

  /** The target of a navigation: its path and its full path (with query and hash). */
  datatype Location = Location(path: string, fullPath: string)

  /** What the guard passes to `next`: proceed, or redirect to a path. */
  datatype Navigation = Proceed | Redirect(target: string)

  /** The guard's decision: where to go, and the route to remember for after login, if any. */
  datatype GuardOutcome = GuardOutcome(next: Navigation, remember: Option<string>)

  /** The `beforeEach` decision for a navigation to `to` with the given meta and sign-in state. */
  function Guard(meta: RouteMeta, authenticated: bool, to: Location): (g: GuardOutcome)
    ensures meta.requiresGuest && authenticated ==> g == GuardOutcome(Redirect(ProfilePath), None)
    ensures !(meta.requiresGuest && authenticated) && meta.requiresAuth && !authenticated ==>
      g.next == Redirect(LoginPath)
      && g.remember == (if to.path != LoginPath then Some(to.fullPath) else None)
    ensures !(meta.requiresGuest && authenticated) && !(meta.requiresAuth && !authenticated) ==>
      g == GuardOutcome(Proceed, None)
  {
    if meta.requiresGuest && authenticated then GuardOutcome(Redirect(ProfilePath), None)
    else if meta.requiresAuth && !authenticated then
      GuardOutcome(Redirect(LoginPath), if to.path != LoginPath then Some(to.fullPath) else None)
    else GuardOutcome(Proceed, None)
  }

  /** The guard only ever redirects to /profile or /login, and only remembers a route when it sends to /login. */
  lemma GuardTargets(meta: RouteMeta, authenticated: bool, to: Location)
    ensures Guard(meta, authenticated, to).next.Redirect? ==>
      Guard(meta, authenticated, to).next.target in {ProfilePath, LoginPath}
    ensures Guard(meta, authenticated, to).remember.Some? ==>
      Guard(meta, authenticated, to).next == Redirect(LoginPath) && !authenticated
  {
  }

  /** Signed-in users are never sent to /login, and signed-out users are never sent to /profile. */
  lemma GuardNeverLoops(to: Location, authenticated: bool)
    ensures Guard(MetaOf(to.path), authenticated, to).next == Redirect(LoginPath) ==> !authenticated && to.path == ProfilePath
    ensures Guard(MetaOf(to.path), authenticated, to).next == Redirect(ProfilePath) ==> authenticated && MetaOf(to.path).requiresGuest
  {
    MetaTable(to.path);
  }

  /** `router.beforeEach`: reads the token, decides, and remembers the intended route in `sessionStorage`. */
  method BeforeEach(to: Location, local: Storage, session: Storage) returns (next: Navigation)
    modifies session
    ensures var g := Guard(MetaOf(to.path), Truthy(local.GetItem(AuthTokenKey)), to);
      && next == g.next
      && session.items == (if g.remember.Some? then old(session.items)[IntendedRouteKey := g.remember.value] else old(session.items))
  {
    var token := local.GetItem(AuthTokenKey);
    var isAuthenticated := Truthy(token);
    var g := Guard(MetaOf(to.path), isAuthenticated, to);
    if g.remember.Some? {
      session.SetItem(IntendedRouteKey, g.remember.value);
    }
    next := g.next;
  }

  /** The `afterEach` rule: after landing on / or /profile, a remembered route other than the current path is followed. */
  function RestoreTarget(toPath: string, intended: Option<string>): (r: Option<string>)
    ensures r.Some? <==> (toPath == ProfilePath || toPath == HomePath) && Truthy(intended) && intended.value != toPath
    ensures r.Some? ==> r == intended
  {
    if (toPath == ProfilePath || toPath == HomePath) && Truthy(intended) && intended.value != toPath then intended
    else None
  }

  /** `router.afterEach`: consumes the remembered route and returns where `router.push` is sent. */
  method AfterEach(to: Location, session: Storage) returns (push: Option<string>)
    modifies session
    ensures push == RestoreTarget(to.path, old(session.GetItem(IntendedRouteKey)))
    ensures push.Some? ==> session.items == old(session.items) - {IntendedRouteKey}
    ensures push.None? ==> session.items == old(session.items)
    ensures push.Some? ==> RestoreTarget(to.path, session.GetItem(IntendedRouteKey)).None?
  {
    push := None;
    if to.path == ProfilePath || to.path == HomePath {
      var intendedRoute := session.GetItem(IntendedRouteKey);
      if Truthy(intendedRoute) && intendedRoute.value != to.path {
        session.RemoveItem(IntendedRouteKey);
        push := intendedRoute;
      }
    }
  }

  /** The remembered route is followed at most once: a second landing finds nothing to follow. */
  method LandTwice(to: Location, session: Storage) returns (first: Option<string>, second: Option<string>)
    modifies session
    ensures first.Some? ==> second.None?
  {
    first := AfterEach(to, session);
    second := AfterEach(to, session);
  }
}
