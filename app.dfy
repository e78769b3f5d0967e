/** The route table of src/App.jsx and react-router's path matching: paths
    match case-insensitively, trailing slashes are ignored, and `:id` stands
    for one non-empty segment. */
module AppRoutes {
  import opened Wrappers
  import opened Text
  import opened Lists
  import opened Auth
  import opened AdminRouteGuard
  import opened PrivateRouteGuard

  datatype Guard = Public | Private | AdminOnly

  datatype Page =
    | Landing | ServicesForm | BlogIndex | SignIn | SignUp | BlogPost
    | MyAppointments
    | AdminHome | ManageBlogs | ManageAppointments | ManageContacts | ManageClients

  predicate IsAdminPage(p: Page) {
    p.AdminHome? || p.ManageBlogs? || p.ManageAppointments? || p.ManageContacts? || p.ManageClients?
  }

  datatype Route = Route(path: string, guard: Guard, page: Page)

  /** The `<Route>` elements in source order, "/blog" twice as written. */
  const Table: seq<Route> := [
    Route("/", Public, Landing),
    Route("/services", Public, ServicesForm),
    Route("/blog", Public, BlogIndex),
    Route("/login", Public, SignIn),
    Route("/register", Public, SignUp),
    Route("/blog", Public, BlogIndex),
    Route("/blog/:id", Public, BlogPost),
    Route("/appointments", Private, MyAppointments),
    Route("/admin/dashboard", AdminOnly, AdminHome),
    Route("/admin/blogs", AdminOnly, ManageBlogs),
    Route("/admin/appointments", AdminOnly, ManageAppointments),
    Route("/admin/contacts", AdminOnly, ManageContacts),
    Route("/admin/clients", AdminOnly, ManageClients)
  ]

  /** Drops the trailing slashes that every pattern accepts after its end. */
  function TrimSlashes(s: string): (r: string)
    ensures |r| <= |s| && r == s[..|r|]
    ensures r == [] || r[|r| - 1] != '/'
    ensures forall k :: |r| <= k < |s| ==> s[k] == '/'
    decreases |s|
  {
    if s != [] && s[|s| - 1] == '/' then TrimSlashes(s[..|s| - 1]) else s
  }

  /** The pathname as the router compares it: lower-cased (its patterns
      carry the case-insensitive flag) and without trailing slashes. */
  function Normal(path: string): (t: string)
    ensures |t| <= |path| && t == Lower(path)[..|t|]
    ensures forall k :: |t| <= k < |path| ==> path[k] == '/'
    ensures t == [] || t[|t| - 1] != '/'
  {
    TrimSlashes(Lower(path))
  }

  /** A normalised pathname is already in lower case. */
  lemma NormalLowerCase(path: string)
    ensures Lower(Normal(path)) == Normal(path)
  {
    var t := Normal(path);
    LowerIdempotent(path);
    assert Lower(t) == Lower(path)[..|t|];
  }

  /** Whether a route pattern matches a normalised pathname. */
  predicate MatchesNormal(pattern: string, t: string) {
    if pattern == "/" then t == []
    else if pattern == "/blog/:id" then |t| > 6 && t[..6] == "/blog/" && '/' !in t[6..]
    else t == pattern
  }

  predicate Matches(pattern: string, path: string) {
    MatchesNormal(pattern, Normal(path))
  }

  function MatchBy(path: string): Route -> bool {
    (r: Route) => Matches(r.path, path)
  }

  /** The route `<Routes>` renders for a pathname, if any. */
  function Resolve(path: string): Option<Route> {
    Find(Table, MatchBy(path))
  }

  /** Two routes with the same pattern are the same route. */
  lemma PatternsIdentify(i: nat, j: nat)
    requires i < |Table| && j < |Table|
    requires Table[i].path == Table[j].path
    ensures Table[i] == Table[j]
  {
    assert |Table[i].path| == |Table[j].path|;
    if |Table[i].path| == 9 {
      assert Table[i].path[1] == Table[j].path[1];
    }
  }

  /** The three kinds of pattern in the table: the root, the single-post
      pattern, and static paths that cannot be mistaken for a single post. */
  predicate PatternShape(p: string) {
    p == "/" || p == "/blog/:id" || (p != [] && (|p| <= 6 || p[1] != 'b'))
  }

  /** Every pattern of the table has one of those shapes. */
  lemma StaticNotPost(i: nat)
    requires i < |Table|
    ensures PatternShape(Table[i].path)
  {
  }

  /** Two patterns of those shapes that match the same normalised pathname
      are the same pattern. */
  lemma ShapesUnique(p: string, q: string, t: string)
    requires PatternShape(p) && PatternShape(q)
    requires MatchesNormal(p, t) && MatchesNormal(q, t)
    ensures p == q
  {
  }

  /** Any normalised pathname matches at most one route. */
  lemma MatchesNormalUnique(t: string, i: nat, j: nat)
    requires i < |Table| && j < |Table|
    requires MatchesNormal(Table[i].path, t) && MatchesNormal(Table[j].path, t)
    ensures Table[i] == Table[j]
  {
    StaticNotPost(i);
    StaticNotPost(j);
    ShapesUnique(Table[i].path, Table[j].path, t);
    PatternsIdentify(i, j);
  }

  /** A pathname that matches a route resolves to exactly that route: the
      table has no two routes for one pathname, so the router's ranking and
      the order of the table do not matter. */
  lemma ResolveMatching(path: string, i: nat)
    requires i < |Table|
    requires Matches(Table[i].path, path)
    ensures Resolve(path) == Some(Table[i])
  {
    FindFirst(Table, MatchBy(path));
    assert MatchBy(path)(Table[i]);
    var k :| 0 <= k < |Table| && Table[k] == Resolve(path).value && MatchBy(path)(Table[k]);
    MatchesNormalUnique(Normal(path), i, k);
  }

  /** The Topbar's "/admin/team" link, in any letter case and with any
      trailing slashes, leads to no route: nothing is rendered. */
  lemma AdminTeamUnrouted(path: string)
    requires Normal(path) == "/admin/team"
    ensures Resolve(path).None?
  {
    FindFirst(Table, MatchBy(path));
    var t := Normal(path);
    assert |t| == 11 && t[1] == 'a';
    forall i | 0 <= i < |Table|
      ensures !MatchBy(path)(Table[i])
    {
      NoRouteOfLength11(t, i);
    }
  }

  /** No pattern matches a normalised pathname of eleven characters whose
      second one is 'a' (the static patterns of that length are "/register",
      "/services"... none of length eleven starts "/a"). */
  lemma NoRouteOfLength11(t: string, i: nat)
    requires i < |Table|
    requires |t| == 11 && t[1] == 'a'
    ensures !MatchesNormal(Table[i].path, t)
  {
    var p := Table[i].path;
    if p != "/" && p != "/blog/:id" {
      assert |p| != 11;
    }
  }

  function GuardView(g: Guard, s: AuthState): View {
    match g
    case Public => ShowChildren
    case Private => PrivateRoute(s.loading, s.user)
    case AdminOnly => AdminRoute(s.loading, s.user)
  }

  datatype Screen = Blank | Rendered(view: View, page: Page)

  /** What the app shows for a pathname under a given authentication state. */
  function Render(path: string, s: AuthState): Screen {
    match Resolve(path)
    case None => Blank
    case Some(r) => Rendered(GuardView(r.guard, s), r.page)
  }

  /** Every administrative page, and only those, sits behind the admin guard. */
  lemma AdminPagesGuarded(i: nat)
    requires i < |Table|
    ensures IsAdminPage(Table[i].page) <==> Table[i].guard == AdminOnly
  {
  }

  /** No pathname shows an administrative page to a visitor who is not
      signed in with role exactly "admin" or "superadmin". */
  lemma {:induction false} FailClosed(path: string, s: AuthState)
    requires s.user.None? || !IsAdminRole(s.user.value.role)
    ensures Render(path, s).Rendered? && IsAdminPage(Render(path, s).page) ==>
              Render(path, s).view != ShowChildren
  {
    FindFirst(Table, MatchBy(path));
    if Resolve(path).Some? {
      var k :| 0 <= k < |Table| && Table[k] == Resolve(path).value && MatchBy(path)(Table[k]);
      AdminPagesGuarded(k);
    }
  }

  /** The appointments page needs only a signed-in user. */
  lemma AppointmentsNeedSignIn(path: string, s: AuthState)
    requires Render(path, s) == Rendered(ShowChildren, MyAppointments)
    ensures !s.loading && s.user.Some?
  {
    FindFirst(Table, MatchBy(path));
    var k :| 0 <= k < |Table| && Table[k] == Resolve(path).value && MatchBy(path)(Table[k]);
    AppointmentsPrivate(k);
  }

  /** ... and a signed-in user, once loading is over, sees it at "/appointments"
      in any letter case and with any trailing slashes. */
  lemma AppointmentsOpenWhenSignedIn(path: string, s: AuthState)
    requires Normal(path) == "/appointments"
    requires !s.loading && s.user.Some?
    ensures Render(path, s) == Rendered(ShowChildren, MyAppointments)
  {
    var r := Table[7];
    assert r.path == "/appointments" && r.guard == Private && r.page == MyAppointments;
    assert Matches(r.path, path);
    ResolveMatching(path, 7);
    assert GuardView(r.guard, s) == ShowChildren;
  }

  lemma AppointmentsPrivate(i: nat)
    requires i < |Table|
    ensures Table[i].page == MyAppointments <==> Table[i].guard == Private
  {
  }

  /** Line 49: the admin layout is chosen by a case-sensitive prefix test. */
  predicate ShowsNavbar(path: string) {
    !StartsWith(path, "/admin")
  }

  lemma AdminPatternShape(i: nat)
    requires i < |Table| && IsAdminPage(Table[i].page)
    ensures Table[i].path != "/" && Table[i].path != "/blog/:id"
    ensures |Table[i].path| > 6 && Table[i].path[..6] == "/admin"
  {
  }

  /** A lower-case pathname that reaches an administrative page hides the
      public navbar. */
  lemma AdminPagesHideNavbar(path: string, i: nat)
    requires i < |Table| && IsAdminPage(Table[i].page)
    requires Matches(Table[i].path, path) && Lower(path) == path
    ensures !ShowsNavbar(path)
  {
    AdminPatternShape(i);
    var t := Normal(path);
    assert t == Table[i].path;
    assert t == path[..|t|];
    assert path[..6] == t[..6];
  }

  /** As written, a pathname with a capital in "/admin" reaches the admin
      dashboard, since routes match case-insensitively, but the
      case-sensitive prefix test still shows the public navbar above it. */
  lemma CapitalAdminShowsNavbar(path: string)
    requires Normal(path) == "/admin/dashboard" && |path| > 1 && path[1] == 'A'
    ensures Resolve(path) == Some(Table[8]) && Table[8].page == AdminHome
    ensures ShowsNavbar(path)
  {
    assert Table[8].path == "/admin/dashboard";
    ResolveMatching(path, 8);
    assert path[..6] != "/admin" by { assert path[..6][1] == 'A'; }
  }

  /** "/ADMIN/dashboard" is such a pathname. */
  lemma NormalCapitalDashboard()
    ensures Normal("/ADMIN/dashboard") == "/admin/dashboard"
  {
    LowerLetters("/ADMIN/dashboard", "/admin/dashboard");
  }

  /** A pathname whose characters lower-case one by one to a pattern without
      a trailing slash normalises to that pattern. */
  lemma LowerLetters(path: string, want: string)
    requires |path| == |want| && (want == [] || want[|want| - 1] != '/')
    requires forall i | 0 <= i < |path| :: LowerChar(path[i]) == want[i]
    ensures Normal(path) == want
  {
    assert Lower(path) == want;
  }

  /** The prefix test as evidently intended: on the lower-cased pathname,
      the way the router compares it. */
  predicate ShowsNavbarAnyCase(path: string) {
    !StartsWith(Lower(path), "/admin")
  }

  /** With that test, every pathname that reaches an administrative page, in
      any letter case, hides the public navbar. */
  lemma AdminPagesHideNavbarAnyCase(path: string, i: nat)
    requires i < |Table| && IsAdminPage(Table[i].page)
    requires Matches(Table[i].path, path)
    ensures !ShowsNavbarAnyCase(path)
  {
    AdminPatternShape(i);
    var t := Normal(path);
    assert t == Table[i].path;
    assert Lower(path)[..6] == t[..6];
  }
}
