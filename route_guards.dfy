/** The three route guards of the app shell and the route table that assigns
    one guard to each path pattern. A guard looks only at the session
    snapshot and decides between a loading spinner, rendering the wrapped
    page, and a history-replacing redirect. */
module RouteGuards {
  import opened Wrappers
  import opened Auth

  const LoginPath := "/login"
  const DashboardPath := "/dashboard"

  /** What a guard renders. `replace` records that the redirect replaces the
      current history entry instead of pushing a new one. */
  datatype Outcome = Spinner | RenderChildren | Redirect(to: string, replace: bool)

  /** Requires a signed-in user. */
  function ProtectedRoute(a: AuthState): (r: Outcome)
    ensures r == Spinner <==> a.isLoading
    ensures r == RenderChildren <==> !a.isLoading && a.isAuthenticated
    ensures r.Redirect? ==> r == Redirect(LoginPath, true)
  {
    if a.isLoading then Spinner
    else if a.isAuthenticated then RenderChildren
    else Redirect(LoginPath, true)
  }

  /** Requires a signed-in super-admin; other signed-in users are sent to the
      dashboard rather than shown an error. */
  function AdminRoute(a: AuthState): (r: Outcome)
    ensures r == Spinner <==> a.isLoading
    ensures r == RenderChildren <==> !a.isLoading && a.isAuthenticated && IsSuperAdmin(a.user)
    ensures r == Redirect(LoginPath, true) <==> !a.isLoading && !a.isAuthenticated
    ensures r == Redirect(DashboardPath, true) <==>
      !a.isLoading && a.isAuthenticated && !IsSuperAdmin(a.user)
  {
    if a.isLoading then Spinner
    else if !a.isAuthenticated then Redirect(LoginPath, true)
    else if !IsSuperAdmin(a.user) then Redirect(DashboardPath, true)
    else RenderChildren
  }

  /** Only for visitors who are not signed in (login, register). */
  function PublicRoute(a: AuthState): (r: Outcome)
    ensures r == Spinner <==> a.isLoading
    ensures r == RenderChildren <==> !a.isLoading && !a.isAuthenticated
    ensures r.Redirect? ==> r == Redirect(DashboardPath, true)
  {
    if a.isLoading then Spinner
    else if !a.isAuthenticated then RenderChildren
    else Redirect(DashboardPath, true)
  }

  /** The guard wrapped around a route's element; `Unguarded` routes render
      their page directly. */
  datatype Guard = Unguarded | Protected | Admin | PublicOnly

  function Render(g: Guard, a: AuthState): Outcome {
    match g
    case Unguarded => RenderChildren
    case Protected => ProtectedRoute(a)
    case Admin => AdminRoute(a)
    case PublicOnly => PublicRoute(a)
  }

  /** The access policy the guards implement, stated independently of them:
      who may see a page behind each kind of guard once the session is known. */
  predicate Permits(g: Guard, a: AuthState) {
    match g
    case Unguarded => true
    case Protected => a.isAuthenticated
    case Admin => a.isAuthenticated && a.user.Some? && a.user.value.role == SuperAdminRole
    case PublicOnly => !a.isAuthenticated
  }

  /** Where a guard sends a visitor it turns away. */
  function RedirectTarget(g: Guard, a: AuthState): string {
    match g
    case Admin => if a.isAuthenticated then DashboardPath else LoginPath
    case PublicOnly => DashboardPath
    case _ => LoginPath
  }

  /** Every guard, loading or not, and whatever the identity: the spinner
      while loading, the page exactly when the policy permits it, and
      otherwise a history-replacing redirect to the guard's target. A guard
      never falls through to either branch while the session is unresolved. */
  lemma GuardsFollowPolicy(g: Guard, a: AuthState)
    ensures a.isLoading && g != Unguarded ==> Render(g, a) == Spinner
    ensures !a.isLoading || g == Unguarded ==>
      Render(g, a) == if Permits(g, a) then RenderChildren else Redirect(RedirectTarget(g, a), true)
  {
  }

  /** A page the route table can show. */
  datatype Page =
    | HomePage | LoginPage | RegisterPage | BlogListPage | BlogPostPage | ExamplesPage
    | DashboardPage | NotesPage | NoteEditorPage | NoteDetailPage
    | BlogAdminPage | BlogEditorPage | FeatureFlagsPage | QStashPage
    | ProfilePage | SettingsPage | AccountsPage | TestPage | NotFoundPage

  /** One `<Route>`: its path pattern, the guard around its element, the
      page, and whether it sits inside the shared main layout. */
  datatype RouteEntry = RouteEntry(pattern: string, guard: Guard, page: Page, inMainLayout: bool)

  const Routes: seq<RouteEntry> := [
    RouteEntry("/", Unguarded, HomePage, false),
    RouteEntry("login", PublicOnly, LoginPage, true),
    RouteEntry("register", PublicOnly, RegisterPage, true),
    RouteEntry("blog", Unguarded, BlogListPage, true),
    RouteEntry("blog/:slug", Unguarded, BlogPostPage, true),
    RouteEntry("examples", Unguarded, ExamplesPage, true),
    RouteEntry("dashboard", Protected, DashboardPage, true),
    RouteEntry("notes", Protected, NotesPage, true),
    RouteEntry("notes/new", Protected, NoteEditorPage, true),
    RouteEntry("notes/:id", Protected, NoteDetailPage, true),
    RouteEntry("notes/:id/edit", Protected, NoteEditorPage, true),
    RouteEntry("admin/blog", Protected, BlogAdminPage, true),
    RouteEntry("admin/blog/new", Protected, BlogEditorPage, true),
    RouteEntry("admin/blog/:slug/edit", Protected, BlogEditorPage, true),
    RouteEntry("admin/feature-flags", Admin, FeatureFlagsPage, true),
    RouteEntry("admin/qstash", Admin, QStashPage, true),
    RouteEntry("profile", Protected, ProfilePage, true),
    RouteEntry("settings", Protected, SettingsPage, true),
    RouteEntry("accounts", Protected, AccountsPage, true),
    RouteEntry("test", Protected, TestPage, true),
    RouteEntry("*", Unguarded, NotFoundPage, true)
  ]

  /** The guard declared for a path pattern, if the table has it. */
  function GuardOf(pattern: string): (r: Option<Guard>)
    ensures r.None? <==> forall i :: 0 <= i < |Routes| ==> Routes[i].pattern != pattern
    ensures r.Some? ==> exists i :: 0 <= i < |Routes| && Routes[i].pattern == pattern && Routes[i].guard == r.value
  {
    LookupGuard(Routes, pattern)
  }

  function LookupGuard(routes: seq<RouteEntry>, pattern: string): (r: Option<Guard>)
    ensures r.None? <==> forall i :: 0 <= i < |routes| ==> routes[i].pattern != pattern
    ensures r.Some? ==> exists i :: 0 <= i < |routes| && routes[i].pattern == pattern && routes[i].guard == r.value
  {
    if routes == [] then None
    else if routes[0].pattern == pattern then Some(routes[0].guard)
    else
      var r := LookupGuard(routes[1..], pattern);
      assert forall i :: 1 <= i < |routes| ==> routes[i] == routes[1..][i - 1];
      assert r.Some? ==> exists i :: 0 <= i < |routes| && routes[i].pattern == pattern && routes[i].guard == r.value by {
        if r.Some? {
          var j :| 0 <= j < |routes[1..]| && routes[1..][j].pattern == pattern && routes[1..][j].guard == r.value;
          assert routes[j + 1] == routes[1..][j];
        }
      }
      r
  }

  /** Looking a declared pattern up finds the guard of its one entry. */
  lemma GuardOfEntry(i: nat)
    requires i < |Routes|
    ensures GuardOf(Routes[i].pattern) == Some(Routes[i].guard)
  {
    PatternsDistinct();
  }

  /** Only the feature-flag and task-queue admin pages sit behind the
      super-admin guard; the blog admin pages need only a signed-in user. */
  lemma AdminGuardedRoutes()
    ensures forall i :: 0 <= i < |Routes| ==>
      (Routes[i].guard == Admin <==> Routes[i].pattern == "admin/feature-flags" || Routes[i].pattern == "admin/qstash")
    ensures forall i :: 0 <= i < |Routes| && Routes[i].pattern in ["admin/blog", "admin/blog/new", "admin/blog/:slug/edit"] ==>
      Routes[i].guard == Protected
  {
  }

  /** The note editor is mounted at two patterns, both behind the signed-in
      guard; the home page, the public blog, the examples and the catch-all
      are the only unguarded routes. */
  lemma EditorAndUnguardedRoutes()
    ensures forall i :: 0 <= i < |Routes| ==>
      (Routes[i].page == NoteEditorPage <==> Routes[i].pattern == "notes/new" || Routes[i].pattern == "notes/:id/edit")
    ensures forall i :: 0 <= i < |Routes| && Routes[i].page == NoteEditorPage ==> Routes[i].guard == Protected
    ensures forall i :: 0 <= i < |Routes| ==>
      (Routes[i].guard == Unguarded <==>
        Routes[i].pattern in ["/", "blog", "blog/:slug", "examples", "*"])
  {
  }

  /** No pattern is declared twice. */
  lemma PatternsDistinct()
    ensures forall i, j :: 0 <= i < j < |Routes| ==> Routes[i].pattern != Routes[j].pattern
  {
  }

  /** The invariant the guards exist for: in every session, loading or not,
      a page behind the super-admin guard renders only for a signed-in
      super-admin, and a page behind any guard never renders while the
      session is still loading. */
  lemma GuardedPagesNeedTheirRole(i: nat, a: AuthState)
    requires i < |Routes| && Render(Routes[i].guard, a) == RenderChildren
    ensures Routes[i].guard != Unguarded ==> !a.isLoading
    ensures Routes[i].page == FeatureFlagsPage || Routes[i].page == QStashPage ==>
      a.isAuthenticated && IsSuperAdmin(a.user)
  {
    AdminGuardedRoutes();
  }

  /** A visitor who is not signed in is sent from the dashboard to the login
      page, which renders for them; once signed in, the login page sends
      them back to the dashboard. */
  lemma LoginRoundTrip(before: AuthState, after: AuthState)
    requires !before.isLoading && !before.isAuthenticated
    requires !after.isLoading && after.isAuthenticated
    ensures forall i :: 0 <= i < |Routes| && Routes[i].pattern == "dashboard" ==>
      Render(Routes[i].guard, before) == Redirect(LoginPath, true) && Render(Routes[i].guard, after) == RenderChildren
    ensures forall i :: 0 <= i < |Routes| && Routes[i].pattern == "login" ==>
      Render(Routes[i].guard, before) == RenderChildren && Render(Routes[i].guard, after) == Redirect(DashboardPath, true)
  {
  }
}
