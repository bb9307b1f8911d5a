/**
 * The route table of src/App.jsx and its `ProtectedRoute` guard: a pure
 * decision over `(loading, user, allowedRoles)` and a constant path table.
 */
module App {
  import opened Wrappers
  import opened Domain

  /** What `ProtectedRoute` renders: the waiting view, a redirect, or its children. */
  datatype View = Waiting | RedirectTo(path: string) | Children

  /** `ProtectedRoute({children, allowedRoles})` under the session's `user` and `loading`. */
  function ProtectedRoute(loading: bool, user: Option<Identity>, allowedRoles: Option<seq<string>>): (v: View)
    ensures loading <==> v == Waiting
    ensures v == Children <==> !loading && user.Some? && (allowedRoles.None? || user.value.role in allowedRoles.value)
    ensures v != Waiting && v != Children ==> v == RedirectTo("/")
  {
    if loading then Waiting
    else if user.None? then RedirectTo("/")
    else if allowedRoles.Some? && user.value.role !in allowedRoles.value then RedirectTo("/")
    else Children
  }

  datatype Page =
    | LandingPage | CitizenLogin | CitizenRegister | OfficerLogin | AdminLogin
    | CitizenDashboard | ServiceApplication | RequestTracking | CitizenNotifications | CitizenProfile
    | OfficerDashboard | RequestDetail
    | AdminDashboard | ManageDepartments | ManageServices | ManageUsers | AdminReports | AdminNotifications
    | NotFound

  /** Whether a route's element is wrapped in `ProtectedRoute`, and with which `allowedRoles`. */
  datatype Guard = Public | Protected(allowedRoles: Option<seq<string>>)

  /** One segment of a route pattern: literal text, or the dynamic ":id". */
  datatype Segment = Lit(text: string) | Param

  /**
   * A route's pattern as its "/"-separated segments ("/" itself has none), the
   * page it renders and its guard.
   */
  datatype Route = Route(pattern: seq<Segment>, page: Page, guard: Guard)

  function Citizen(page: string, view: Page): Route { Route([Lit("citizen"), Lit(page)], view, Protected(Some([CitizenRole]))) }
  function Officer(page: string, view: Page): Route { Route([Lit("officer"), Lit(page)], view, Protected(Some([OfficerRole]))) }
  function Admin(page: string, view: Page): Route { Route([Lit("admin"), Lit(page)], view, Protected(Some([AdminRole]))) }

  /** The landing page and the four sign-in pages, the first `<Route>` children. */
  const PublicRoutes: seq<Route> := [
    Route([], LandingPage, Public),
    Route([Lit("citizen"), Lit("login")], CitizenLogin, Public),
    Route([Lit("citizen"), Lit("register")], CitizenRegister, Public),
    Route([Lit("officer"), Lit("login")], OfficerLogin, Public),
    Route([Lit("admin"), Lit("login")], AdminLogin, Public)
  ]

  const CitizenRoutes: seq<Route> := [
    Citizen("dashboard", CitizenDashboard),
    Citizen("apply", ServiceApplication),
    Citizen("requests", RequestTracking),
    Citizen("notifications", CitizenNotifications),
    Citizen("profile", CitizenProfile)
  ]

  const OfficerRoutes: seq<Route> := [
    Officer("dashboard", OfficerDashboard),
    Route([Lit("officer"), Lit("request"), Param], RequestDetail, Protected(Some([OfficerRole])))
  ]

  const AdminRoutes: seq<Route> := [
    Admin("dashboard", AdminDashboard),
    Admin("departments", ManageDepartments),
    Admin("services", ManageServices),
    Admin("users", ManageUsers),
    Admin("reports", AdminReports),
    Admin("notifications", AdminNotifications)
  ]

  /** The `<Routes>` children, in source order (the catch-all "*" is `NotFoundRoute`). */
  const Table: seq<Route> := PublicRoutes + CitizenRoutes + OfficerRoutes + AdminRoutes

  const NotFoundRoute := Route([Lit("*")], NotFound, Public)

  /** A path, as its segments, matches a pattern segment by segment; ":id" takes any non-empty segment. */
  predicate Matches(pattern: seq<Segment>, path: seq<string>) {
    if pattern == [] then path == []
    else path != [] && SegmentMatches(pattern[0], path[0]) && Matches(pattern[1..], path[1..])
  }

  predicate SegmentMatches(s: Segment, segment: string) {
    match s
    case Lit(t) => segment == t
    case Param => segment != ""
  }

  /** Matching, stated without recursion: as many segments as the pattern, each accepted by its pattern segment. */
  lemma {:induction false} MatchesSegmentwise(pattern: seq<Segment>, path: seq<string>)
    ensures Matches(pattern, path) <==> |pattern| == |path| && forall i :: 0 <= i < |path| ==> SegmentMatches(pattern[i], path[i])
  {
    if pattern != [] && path != [] {
      MatchesSegmentwise(pattern[1..], path[1..]);
      assert forall i :: 1 <= i < |path| ==> path[1..][i - 1] == path[i];
      assert forall i :: 1 <= i < |pattern| ==> pattern[1..][i - 1] == pattern[i];
    }
  }

  function FindRoute(routes: seq<Route>, path: seq<string>): (r: Option<Route>)
    ensures r.Some? ==> r.value in routes && Matches(r.value.pattern, path)
    ensures r.None? ==> forall i :: 0 <= i < |routes| ==> !Matches(routes[i].pattern, path)
  {
    if routes == [] then None
    else if Matches(routes[0].pattern, path) then Some(routes[0])
    else FindRoute(routes[1..], path)
  }

  /** The route found is the first one whose pattern matches. */
  lemma {:induction false} FindFirst(routes: seq<Route>, path: seq<string>, i: nat)
    requires i < |routes| && Matches(routes[i].pattern, path)
    requires forall j :: 0 <= j < i ==> !Matches(routes[j].pattern, path)
    ensures FindRoute(routes, path) == Some(routes[i])
  {
    if i > 0 {
      FindFirst(routes[1..], path, i - 1);
    }
  }

  /** The route rendered for `path`. */
  function Lookup(path: seq<string>): Route {
    FindRoute(Table, path).GetOr(NotFoundRoute)
  }

  /** The route rendered is a table entry that matches, or the catch-all exactly when no entry matches. */
  lemma LookupContract(path: seq<string>)
    ensures Lookup(path) in Table || Lookup(path) == NotFoundRoute
    ensures Lookup(path) in Table ==> Matches(Lookup(path).pattern, path)
    ensures Lookup(path) == NotFoundRoute <==> forall e :: e in Table ==> !Matches(e.pattern, path)
  {
    NoEntryIsNotFound();
    FindOrDefault(Table, path, NotFoundRoute);
  }

  /** The first match of `routes`, or a default whose page no entry renders. */
  lemma FindOrDefault(routes: seq<Route>, path: seq<string>, d: Route)
    requires forall e :: e in routes ==> e.page != d.page
    ensures var r := FindRoute(routes, path).GetOr(d);
      && (r in routes || r == d)
      && (r in routes ==> Matches(r.pattern, path))
      && (r == d <==> forall e :: e in routes ==> !Matches(e.pattern, path))
  {
  }

  /** The catch-all page is rendered by no table entry, so `NotFoundRoute` is not one of them. */
  lemma NoEntryIsNotFound()
    ensures forall e :: e in Table ==> e.page != NotFound
  {
    NoPublicNotFound();
    NoCitizenNotFound();
    NoOfficerNotFound();
    NoAdminNotFound();
  }

  lemma NoPublicNotFound() ensures forall e :: e in PublicRoutes ==> e.page != NotFound {}
  lemma NoCitizenNotFound() ensures forall e :: e in CitizenRoutes ==> e.page != NotFound {}
  lemma NoOfficerNotFound() ensures forall e :: e in OfficerRoutes ==> e.page != NotFound {}
  lemma NoAdminNotFound() ensures forall e :: e in AdminRoutes ==> e.page != NotFound {}

  /** Searching a concatenation searches the first part, then the second. */
  lemma {:induction false} FindAppend(a: seq<Route>, b: seq<Route>, path: seq<string>)
    ensures FindRoute(a + b, path) == if FindRoute(a, path).Some? then FindRoute(a, path) else FindRoute(b, path)
  {
    if a == [] {
      assert a + b == b;
    } else {
      assert (a + b)[0] == a[0];
      if !Matches(a[0].pattern, path) {
        assert (a + b)[1..] == a[1..] + b;
        FindAppend(a[1..], b, path);
      }
    }
  }

  /** Every route of `routes` begins with the literal segment `area`. */
  predicate InArea(routes: seq<Route>, area: string) {
    forall r :: r in routes ==> r.pattern != [] && r.pattern[0] == Lit(area)
  }

  /** No route of an area matches a path that begins elsewhere. */
  lemma OutsideArea(routes: seq<Route>, area: string, path: seq<string>)
    requires InArea(routes, area) && (path == [] || path[0] != area)
    ensures FindRoute(routes, path).None?
  {
    forall r | r in routes
      ensures !Matches(r.pattern, path)
    {
      assert r.pattern[0] == Lit(area);
    }
  }

  /** The routes of the area a path's first segment names; none for any other first segment. */
  function AreaRoutes(path: seq<string>): seq<Route> {
    if path == [] then []
    else if path[0] == "citizen" then CitizenRoutes
    else if path[0] == "officer" then OfficerRoutes
    else if path[0] == "admin" then AdminRoutes
    else []
  }

  /** Each area's routes begin with that area's segment; the public routes are "/" and the sign-in pages. */
  lemma AreasTagged()
    ensures forall r :: r in PublicRoutes ==> SignInOrLanding(r.pattern)
    ensures InArea(CitizenRoutes, "citizen") && InArea(OfficerRoutes, "officer") && InArea(AdminRoutes, "admin")
  {
    PublicRoutesSignIn();
    CitizenRoutesTagged();
    OfficerRoutesTagged();
    AdminRoutesTagged();
  }

  lemma PublicRoutesSignIn() ensures forall r :: r in PublicRoutes ==> SignInOrLanding(r.pattern) {}
  lemma CitizenRoutesTagged() ensures InArea(CitizenRoutes, "citizen") {}
  lemma OfficerRoutesTagged() ensures InArea(OfficerRoutes, "officer") {}
  lemma AdminRoutesTagged() ensures InArea(AdminRoutes, "admin") {}

  /** Four route lists searched in order, the last three each confined to its own area. */
  lemma SearchByArea(pub: seq<Route>, cit: seq<Route>, off: seq<Route>, adm: seq<Route>, path: seq<string>)
    requires InArea(cit, "citizen") && InArea(off, "officer") && InArea(adm, "admin")
    ensures FindRoute(pub + cit + off + adm, path) ==
      if FindRoute(pub, path).Some? then FindRoute(pub, path)
      else if path == [] then None
      else if path[0] == "citizen" then FindRoute(cit, path)
      else if path[0] == "officer" then FindRoute(off, path)
      else if path[0] == "admin" then FindRoute(adm, path)
      else None
  {
    FindAppend(pub, cit, path);
    FindAppend(pub + cit, off, path);
    FindAppend(pub + cit + off, adm, path);
    if path == [] || path[0] != "citizen" { OutsideArea(cit, "citizen", path); }
    if path == [] || path[0] != "officer" { OutsideArea(off, "officer", path); }
    if path == [] || path[0] != "admin" { OutsideArea(adm, "admin", path); }
  }

  /**
   * The table is searched as its public routes first and then the routes of the
   * path's own area alone: the other areas' routes never match.
   */
  lemma Dispatch(path: seq<string>)
    ensures Lookup(path) ==
      if FindRoute(PublicRoutes, path).Some? then FindRoute(PublicRoutes, path).value
      else FindRoute(AreaRoutes(path), path).GetOr(NotFoundRoute)
  {
    AreasTagged();
    SearchByArea(PublicRoutes, CitizenRoutes, OfficerRoutes, AdminRoutes, path);
  }

  /** Routes that are only "/" and sign-in pages match no path other than those. */
  lemma MissesSignIn(routes: seq<Route>, path: seq<string>)
    requires forall r :: r in routes ==> SignInOrLanding(r.pattern)
    requires path != [] && (|path| != 2 || path[1] !in {"login", "register"})
    ensures FindRoute(routes, path).None?
  {
    forall r | r in routes
      ensures !Matches(r.pattern, path)
    {
      if r.pattern != [] {
        MatchesPair(r.pattern, path);
      }
    }
  }

  /** A two-segment pattern matches only two-segment paths, and only those whose second segment it accepts. */
  lemma MatchesPair(q: seq<Segment>, path: seq<string>)
    requires |q| == 2
    ensures Matches(q, path) ==> |path| == 2 && SegmentMatches(q[1], path[1])
  {
    if Matches(q, path) {
      assert Matches(q[1..], path[1..]);
      assert q[1..][1..] == [];
      assert Matches(q[1..][1..], path[1..][1..]);
    }
  }

  /** A path that is neither "/" nor two segments ending in "login" or "register" matches no public route. */
  lemma NotSignIn(path: seq<string>)
    requires path != [] && (|path| != 2 || path[1] !in {"login", "register"})
    ensures FindRoute(PublicRoutes, path).None?
  {
    AreasTagged();
    MissesSignIn(PublicRoutes, path);
  }

  /** The role that owns an area by its first segment ("citizen", "officer", "admin"). */
  function AreaOf(first: string): Option<string> {
    if first == "citizen" then Some(CitizenRole)
    else if first == "officer" then Some(OfficerRole)
    else if first == "admin" then Some(AdminRole)
    else None
  }

  function AreaRole(path: seq<string>): Option<string> {
    if path == [] then None else AreaOf(path[0])
  }

  /** The landing page and the sign-in pages: no segment, or an area segment followed by "login" or "register". */
  predicate SignInOrLanding(pattern: seq<Segment>) {
    pattern == [] || (|pattern| == 2 && pattern[1] in {Lit("login"), Lit("register")})
  }

  /** What the router shows for `path`: public pages unconditionally, guarded ones through `ProtectedRoute`. */
  function Access(loading: bool, user: Option<Identity>, path: seq<string>): (v: View)
    ensures Lookup(path).guard.Public? ==> v == Children
    ensures Lookup(path).guard.Protected? ==>
      && (v == Waiting <==> loading)
      && (v == Children <==>
            && !loading && user.Some?
            && (Lookup(path).guard.allowedRoles.None? || user.value.role in Lookup(path).guard.allowedRoles.value))
      && (v != Waiting && v != Children ==> v == RedirectTo("/"))
  {
    match Lookup(path).guard
    case Public => Children
    case Protected(roles) => ProtectedRoute(loading, user, roles)
  }

  /** A route is public exactly when it is "/" or a sign-in page, and is otherwise guarded by the one role of its area. */
  predicate GuardFits(r: Route) {
    && (r.guard.Public? <==> SignInOrLanding(r.pattern))
    && (r.guard.Protected? ==>
      && r.pattern != [] && r.pattern[0].Lit?
      && AreaOf(r.pattern[0].text).Some?
      && r.guard.allowedRoles == Some([AreaOf(r.pattern[0].text).value]))
  }

  lemma PublicGuardsFit() ensures forall r :: r in PublicRoutes ==> GuardFits(r) {}
  lemma CitizenGuardsFit() ensures forall r :: r in CitizenRoutes ==> GuardFits(r) {}
  lemma OfficerGuardsFit() ensures forall r :: r in OfficerRoutes ==> GuardFits(r) {}
  lemma AdminGuardsFit() ensures forall r :: r in AdminRoutes ==> GuardFits(r) {}

  /** Every entry of the table: public exactly for "/" and the sign-in pages; otherwise guarded by the one role of its area. */
  lemma TableGuards()
    ensures forall r :: r in Table ==> GuardFits(r)
  {
    PublicGuardsFit();
    CitizenGuardsFit();
    OfficerGuardsFit();
    AdminGuardsFit();
  }

  /** Every guarded path requires exactly the one role of its area. */
  lemma GuardedPathNeedsAreaRole(path: seq<string>)
    requires Lookup(path).guard.Protected?
    ensures AreaRole(path).Some?
    ensures Lookup(path).guard.allowedRoles == Some([AreaRole(path).value])
  {
    TableGuards();
    var r := FindRoute(Table, path).value;
    assert path[0] == r.pattern[0].text;
  }

  /** A path no table entry matches renders NotFound, unguarded. */
  lemma UnmatchedIsNotFound(path: seq<string>)
    requires forall r :: r in Table ==> !Matches(r.pattern, path)
    ensures Lookup(path) == NotFoundRoute
  {
  }

  /** The landing and sign-in pages render without a guard, whatever the session. */
  lemma PublicPagesUnguarded(loading: bool, user: Option<Identity>, path: seq<string>)
    requires SignInOrLanding(Lookup(path).pattern)
    ensures Lookup(path).guard.Public? && Access(loading, user, path) == Children
  {
    TableGuards();
  }

  /** "/" and the four sign-in paths are routed to their pages, which have no guard. */
  lemma SignInPagesRouted()
    ensures Lookup([]).page == LandingPage && Lookup([]).guard.Public?
    ensures Lookup(["citizen", "login"]).page == CitizenLogin && Lookup(["citizen", "login"]).guard.Public?
    ensures Lookup(["citizen", "register"]).page == CitizenRegister && Lookup(["citizen", "register"]).guard.Public?
    ensures Lookup(["officer", "login"]).page == OfficerLogin && Lookup(["officer", "login"]).guard.Public?
    ensures Lookup(["admin", "login"]).page == AdminLogin && Lookup(["admin", "login"]).guard.Public?
  {
    LandingRouted();
    CitizenLoginRouted();
    CitizenRegisterRouted();
    OfficerLoginRouted();
    AdminLoginRouted();
  }

  lemma LandingRouted() ensures Lookup([]) == PublicRoutes[0] {
    SignInRouted([], 0);
  }

  lemma CitizenLoginRouted() ensures Lookup(["citizen", "login"]) == PublicRoutes[1] {
    SignInRouted(["citizen", "login"], 1);
  }

  lemma CitizenRegisterRouted() ensures Lookup(["citizen", "register"]) == PublicRoutes[2] {
    SignInRouted(["citizen", "register"], 2);
  }

  lemma OfficerLoginRouted() ensures Lookup(["officer", "login"]) == PublicRoutes[3] {
    SignInRouted(["officer", "login"], 3);
  }

  lemma AdminLoginRouted() ensures Lookup(["admin", "login"]) == PublicRoutes[4] {
    SignInRouted(["admin", "login"], 4);
  }

  /** The public route `i` is the first public route `path` matches. */
  lemma SignInRouted(path: seq<string>, i: nat)
    requires i < |PublicRoutes| && Matches(PublicRoutes[i].pattern, path)
    requires forall j :: 0 <= j < i ==> !Matches(PublicRoutes[j].pattern, path)
    ensures Lookup(path) == PublicRoutes[i]
  {
    FindFirst(PublicRoutes, path, i);
    Dispatch(path);
  }

  /** Past the public routes, the route `i` of the path's area is the first of them `path` matches. */
  lemma AreaRouted(path: seq<string>, i: nat)
    requires FindRoute(PublicRoutes, path).None?
    requires i < |AreaRoutes(path)| && Matches(AreaRoutes(path)[i].pattern, path)
    requires forall j :: 0 <= j < i ==> !Matches(AreaRoutes(path)[j].pattern, path)
    ensures Lookup(path) == AreaRoutes(path)[i]
  {
    FindFirst(AreaRoutes(path), path, i);
    Dispatch(path);
  }

  /** Once loading is over, a guarded path is shown exactly to a user holding the role of its area; everyone else is sent to "/". */
  lemma AccessByArea(user: Option<Identity>, path: seq<string>)
    requires Lookup(path).guard.Protected?
    ensures Access(false, user, path) == Children <==> user.Some? && Some(user.value.role) == AreaRole(path)
    ensures Access(false, user, path) != Children ==> Access(false, user, path) == RedirectTo("/")
  {
    GuardedPathNeedsAreaRole(path);
  }

  /** A request's detail path, "/officer/request/<id>", is routed to RequestDetail under the officer role. */
  lemma RequestDetailRouted(id: string)
    requires id != ""
    ensures Lookup(["officer", "request", id]).page == RequestDetail
    ensures Lookup(["officer", "request", id]).guard == Protected(Some([OfficerRole]))
  {
    var p: seq<string> := ["officer", "request", id];
    NotSignIn(p);
    assert Matches(OfficerRoutes[1].pattern[2..], p[2..]);
    AreaRouted(p, 1);
  }

  lemma CitizenDashboardRouted()
    ensures Lookup(["citizen", "dashboard"]) == Citizen("dashboard", CitizenDashboard)
  {
    var p: seq<string> := ["citizen", "dashboard"];
    NotSignIn(p);
    assert AreaRoutes(p) == CitizenRoutes;
    assert Matches(CitizenRoutes[0].pattern[1..], p[1..]);
    AreaRouted(p, 0);
  }

  lemma AdminDashboardRouted()
    ensures Lookup(["admin", "dashboard"]) == Admin("dashboard", AdminDashboard)
  {
    var p: seq<string> := ["admin", "dashboard"];
    NotSignIn(p);
    assert AreaRoutes(p) == AdminRoutes;
    assert Matches(AdminRoutes[0].pattern[1..], p[1..]);
    AreaRouted(p, 0);
  }

  /** A citizen session reaches the citizen dashboard but is sent to "/" from the admin dashboard. */
  lemma CitizenScenario()
    ensures var u := Some(Identity(1, "a@b.com", None, CitizenRole, None, None));
      && Access(false, u, ["citizen", "dashboard"]) == Children
      && Access(false, u, ["admin", "dashboard"]) == RedirectTo("/")
  {
    CitizenDashboardRouted();
    AdminDashboardRouted();
  }
}
