/** The application's route table and the global navigation guard that
    runs before every transition (src/router/index.ts). The `token` cookie
    is read by the caller and passed in; `next(…)` becomes the returned
    Decision. */
module Router {
  import opened JsValues

  /** The route's `meta` flags; an absent flag is false. */
  datatype Meta = Meta(requiresAuth: bool, requiresGuest: bool)

  /** A record either redirects to another path or renders a view. */
  datatype Target = Redirect(to: string) | View(component: string)

  datatype Route = Route(path: string, name: string, target: Target, meta: Meta)

  /** What the guard hands to `next`: no argument, or a named route. */
  datatype Decision = Allow | RedirectTo(name: string)

  const LoginName: string := "Login"
  const DashboardName: string := "Dashboard"
  const NoFlags: Meta := Meta(false, false)

  /** The route table, in declaration order. */
  const Routes: seq<Route> := [
    Route("/", "Root", Redirect("/auth/login"), NoFlags),
    Route("/auth/login", LoginName, View("Login"), Meta(false, true)),
    Route("/auth/register", "Register", View("Register"), Meta(false, true)),
    Route("/dashboard", DashboardName, View("Dashboard"), Meta(true, false))
  ]

  /** The user counts as signed in exactly when the `token` cookie holds a
      non-empty string. */
  function IsAuthenticated(token: Option<string>): (authenticated: bool)
    ensures authenticated <==> exists s: string :: token == Some(s) && |s| > 0
  {
    assert token.Some? ==> token == Some(token.value);
    Present(token)
  }

  /** The `beforeEach` decision for a target with flags `meta`. A protected
      target seen while signed out goes to Login; a guest-only target seen
      while signed in goes to Dashboard; everything else proceeds. The
      `requiresAuth` test comes first, so a target carrying both flags is
      sent to Login when signed out. */
  function Decide(meta: Meta, authenticated: bool): (d: Decision)
    ensures d == RedirectTo(LoginName) <==> meta.requiresAuth && !authenticated
    ensures d == RedirectTo(DashboardName) <==> meta.requiresGuest && authenticated
    ensures d == Allow <==> !(meta.requiresAuth && !authenticated) && !(meta.requiresGuest && authenticated)
    ensures meta == NoFlags ==> d == Allow
  {
    if meta.requiresAuth && !authenticated then RedirectTo(LoginName)
    else if meta.requiresGuest && authenticated then RedirectTo(DashboardName)
    else Allow
  }

  /** Which field of a route a lookup matches on. */
  datatype Key = ByName | ByPath

  function KeyOf(r: Route, key: Key): string
  {
    match key
    case ByName => r.name
    case ByPath => r.path
  }

  /** The index of the first route whose `key` field equals `value`: how a
      named redirect such as `{ name: "Login" }` or a path is resolved
      against the table. vue-router itself keeps the last record added
      under a name and ranks paths by score rather than taking the first
      match; the answers agree on this table only because its names and
      paths are unique (RouteTableWellFormed). */
  function Find(routes: seq<Route>, key: Key, value: string): (i: Option<nat>)
    ensures i.Some? ==> i.value < |routes| && KeyOf(routes[i.value], key) == value
    ensures i.Some? ==> forall k :: 0 <= k < i.value ==> KeyOf(routes[k], key) != value
    ensures i.None? <==> forall k :: 0 <= k < |routes| ==> KeyOf(routes[k], key) != value
  {
    if routes == [] then None
    else if KeyOf(routes[0], key) == value then Some(0)
    else match Find(routes[1..], key, value)
      case None => None
      case Some(j) => Some(j + 1)
  }

  /** No two routes share a name (or a path). */
  ghost predicate UniqueBy(routes: seq<Route>, key: Key)
  {
    forall i, j :: 0 <= i < j < |routes| ==> KeyOf(routes[i], key) != KeyOf(routes[j], key)
  }

  /** Names and paths are unique, every route other than `/` carries exactly
      one of the two flags, and `/` is an unflagged redirect to the Login
      route's path. */
  lemma RouteTableWellFormed()
    ensures UniqueBy(Routes, ByName) && UniqueBy(Routes, ByPath)
    ensures forall i :: 0 <= i < |Routes| && Routes[i].path != "/" ==>
              Routes[i].meta.requiresAuth != Routes[i].meta.requiresGuest
    ensures Find(Routes, ByPath, "/") == Some(0)
    ensures Routes[0].target == Redirect("/auth/login") && Routes[0].meta == NoFlags
    ensures Find(Routes, ByPath, "/auth/login") == Find(Routes, ByName, LoginName) == Some(1)
  {
  }

  /** The guard never redirects in a loop: whatever the flags of the
      target, a redirect names a route of the table that the guard then
      allows under the same authentication state (Login is guest-only and
      is chosen only when signed out; Dashboard requires a sign-in and is
      chosen only when signed in). */
  lemma RedirectTargetIsAllowed(meta: Meta, authenticated: bool)
    ensures Decide(meta, authenticated).RedirectTo? ==>
      var j := Find(Routes, ByName, Decide(meta, authenticated).name);
      j.Some? && Decide(Routes[j.value].meta, authenticated) == Allow
  {
    assert Find(Routes, ByName, LoginName) == Some(1) by {
      assert Routes[0].name != LoginName && Routes[1].name == LoginName;
    }
    assert Find(Routes, ByName, DashboardName) == Some(3) by {
      assert Routes[3].name == DashboardName;
      assert forall k :: 0 <= k < 3 ==> Routes[k].name != DashboardName;
    }
  }
}
