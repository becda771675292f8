/** The static route table (src/App.jsx) and what a visit to a path shows. */
module App {
  import opened Wrappers
  import opened Records
  import ProtectedRoute

  /** The page components the table mounts. */
  datatype Page = AuthScreen | Home | CourseCatalog | CourseDetails | Dashboard

  /** react-router path patterns used by the table: a literal path, a literal prefix followed
      by one non-empty dynamic segment (`/course/:courseId`), and the catch-all `*`. */
  datatype Pattern = Exact(path: string) | Param(prefix: string) | Splat

  /** No guard, or the children of a `<ProtectedRoute roles=...>` layout route. */
  datatype Guard = Open | Protected(roles: Option<seq<string>>)

  /** What a matched route renders: a page, or `<Navigate to=... replace />`. */
  datatype Target = Render(page: Page) | NavigateTo(to: string)

  datatype Route = Route(pattern: Pattern, guard: Guard, target: Target)

  const Table: seq<Route> := [
    Route(Exact("/"), Open, Render(AuthScreen)),
    Route(Exact("/home"), Protected(None), Render(Home)),
    Route(Exact("/courses"), Protected(None), Render(CourseCatalog)),
    Route(Param("/course/"), Protected(None), Render(CourseDetails)),
    Route(Exact("/dashboard/student"), Protected(Some(["student"])), Render(Dashboard)),
    Route(Exact("/dashboard/teacher"), Protected(Some(["educator"])), Render(Dashboard)),
    Route(Splat, Open, NavigateTo("/"))
  ]

  predicate Matches(p: Pattern, path: string)
  {
    match p
    case Exact(s) => path == s
    case Param(prefix) =>
      |prefix| < |path| && path[..|prefix|] == prefix && '/' !in path[|prefix|..]
    case Splat => true
  }

  /** The first route of `routes` whose pattern matches `path`. */
  function FirstMatch(routes: seq<Route>, path: string): (r: Option<Route>)
    ensures r.Some? ==> Matches(r.value.pattern, path)
    ensures |routes| > 0 && routes[|routes| - 1].pattern == Splat ==> r.Some?
  {
    if routes == [] then None
    else if Matches(routes[0].pattern, path) then Some(routes[0])
    else FirstMatch(routes[1..], path)
  }

  /** A found route is one of the routes searched. */
  lemma {:induction false} FirstMatchIsListed(routes: seq<Route>, path: string)
    ensures FirstMatch(routes, path).Some? ==> FirstMatch(routes, path).value in routes
  {
    if routes != [] && !Matches(routes[0].pattern, path) {
      FirstMatchIsListed(routes[1..], path);
    }
  }

  /** No route is found exactly when no route matches. */
  lemma {:induction false} FirstMatchNoneExactly(routes: seq<Route>, path: string)
    ensures FirstMatch(routes, path).None? <==>
            forall i :: 0 <= i < |routes| ==> !Matches(routes[i].pattern, path)
  {
    if routes != [] && !Matches(routes[0].pattern, path) {
      FirstMatchNoneExactly(routes[1..], path);
      assert forall i :: 1 <= i < |routes| ==> routes[i] == routes[1..][i - 1];
    }
  }

  /** The route a path selects; the trailing catch-all makes this total. */
  function Lookup(path: string): (r: Route)
    ensures Matches(r.pattern, path)
  {
    FirstMatch(Table, path).value
  }

  /** What a selected route shows to `user`: its target when its guard admits, and the
      guard's redirect otherwise. */
  function Show(route: Route, user: Option<User>): (t: Target)
    ensures route.guard.Open? ==> t == route.target
    ensures route.guard.Protected? ==>
              t == if user.Some? && (route.guard.roles.None? || user.value.role in route.guard.roles.value)
                   then route.target else NavigateTo(ProtectedRoute.Root)
  {
    match route.guard
    case Open => route.target
    case Protected(roles) =>
      match ProtectedRoute.Decide(user, roles)
      case Admit => route.target
      case Redirect(to) => NavigateTo(to)
  }

  /** What visiting `path` shows to `user`. */
  function Visit(path: string, user: Option<User>): (t: Target)
    ensures t == Lookup(path).target || t == NavigateTo(ProtectedRoute.Root)
    ensures user.None? && Lookup(path).guard.Protected? ==> t == NavigateTo(ProtectedRoute.Root)
  {
    Show(Lookup(path), user)
  }

  predicate IsCourseDetailsPath(path: string)
  {
    Matches(Param("/course/"), path)
  }

  /** A course-details path is longer than every literal path of the table but the two
      dashboards, and its second character tells it apart from those. */
  lemma CourseDetailsShape(path: string)
    requires IsCourseDetailsPath(path)
    ensures |path| > 8 && path[1] == 'c'
  {
    assert path[..8][1] == path[1];
  }

  /** The route selected for a path is the first one whose pattern matches it. */
  lemma {:induction false} FirstMatchAt(routes: seq<Route>, path: string, k: nat)
    requires k < |routes| && Matches(routes[k].pattern, path)
    requires forall i :: 0 <= i < k ==> !Matches(routes[i].pattern, path)
    ensures FirstMatch(routes, path) == Some(routes[k])
  {
    if k > 0 {
      assert forall i :: 0 <= i < k - 1 ==> routes[1..][i] == routes[i + 1];
      FirstMatchAt(routes[1..], path, k - 1);
    }
  }

  /** The patterns in front of the catch-all never overlap, so declaration order among them
      does not matter and react-router's ranking selects the same route as FirstMatch. */
  lemma PatternsAreDisjoint(path: string, i: nat, j: nat)
    requires i < j < |Table| - 1
    requires Matches(Table[i].pattern, path)
    ensures !Matches(Table[j].pattern, path)
  {
    assert "/dashboard/student"[11] != "/dashboard/teacher"[11];
    if IsCourseDetailsPath(path) {
      CourseDetailsShape(path);
    }
  }

  /** A path matching route `k` (not the catch-all) selects route `k`. */
  lemma LookupSelects(path: string, k: nat)
    requires k < |Table| - 1 && Matches(Table[k].pattern, path)
    ensures Lookup(path) == Table[k]
  {
    forall i | 0 <= i < k ensures !Matches(Table[i].pattern, path) {
      if Matches(Table[i].pattern, path) {
        PatternsAreDisjoint(path, i, k);
      }
    }
    FirstMatchAt(Table, path, k);
  }

  /** What a path matching route `k` shows is what route `k` shows. */
  lemma VisitSelects(path: string, k: nat, user: Option<User>)
    requires k < |Table| - 1 && Matches(Table[k].pattern, path)
    ensures Visit(path, user) == Show(Table[k], user)
  {
    LookupSelects(path, k);
  }

  /** "/" is unguarded and shows the sign-in page to everyone. */
  lemma RootShowsAuthScreen(user: Option<User>)
    ensures Visit("/", user) == Render(AuthScreen)
  {
    LookupSelects("/", 0);
  }

  /** The member pages admit every signed-in user and send everyone else to "/". */
  lemma MemberPages(path: string, user: Option<User>)
    requires path == "/home" || path == "/courses" || IsCourseDetailsPath(path)
    ensures Visit(path, user) == if user.None? then NavigateTo("/")
                                 else if path == "/home" then Render(Home)
                                 else if path == "/courses" then Render(CourseCatalog)
                                 else Render(CourseDetails)
  {
    if path == "/home" {
      LookupSelects(path, 1);
    } else if path == "/courses" {
      LookupSelects(path, 2);
    } else {
      CourseDetailsShape(path);
      LookupSelects(path, 3);
    }
  }

  /** The student dashboard admits exactly users whose role is "student". */
  lemma StudentDashboard(user: Option<User>)
    ensures Visit("/dashboard/student", user) ==
            if user.Some? && user.value.role == "student" then Render(Dashboard) else NavigateTo("/")
  {
    VisitSelects("/dashboard/student", 4, user);
  }

  /** The teacher dashboard admits exactly users whose role is "educator". */
  lemma TeacherDashboard(user: Option<User>)
    ensures Visit("/dashboard/teacher", user) ==
            if user.Some? && user.value.role == "educator" then Render(Dashboard) else NavigateTo("/")
  {
    VisitSelects("/dashboard/teacher", 5, user);
  }

  /** Every path the table does not name is sent to "/", signed-in or not. */
  lemma UnmatchedGoesHome(path: string, user: Option<User>)
    requires path !in ["/", "/home", "/courses", "/dashboard/student", "/dashboard/teacher"]
    requires !IsCourseDetailsPath(path)
    ensures Visit(path, user) == NavigateTo("/")
  {
    FirstMatchAt(Table, path, 6);
  }

  /** Every redirect, from the guard or from the catch-all, goes to "/". */
  lemma RedirectsGoToRoot(path: string, user: Option<User>)
    ensures Visit(path, user).NavigateTo? ==> Visit(path, user).to == "/"
  {
    FirstMatchIsListed(Table, path);
  }

  /** Following a redirect always lands on a rendered page, so resolving a path takes at most
      one redirect. */
  lemma AtMostOneRedirect(path: string, user: Option<User>)
    ensures Visit(path, user).NavigateTo? ==> Visit(Visit(path, user).to, user) == Render(AuthScreen)
  {
    RedirectsGoToRoot(path, user);
    RootShowsAuthScreen(user);
  }
}
