/** The single-page app's route table and its global navigation guard. */
module Router {
  import opened Wrappers

  /** A route record: its path pattern, its redirect if any, and `meta.requiresAuth`
      (`None` when the record has no meta). */
  datatype RouteRecord = RouteRecord(path: string, redirect: Option<string>, requiresAuth: Option<bool>)

  const LoginPath: string := "/login"
  const TicketsPath: string := "/tickets"

  /** The route table, in declaration order. */
  const Routes: seq<RouteRecord> := [
    RouteRecord("/", Some(LoginPath), None),
    RouteRecord(LoginPath, None, Some(false)),
    RouteRecord(TicketsPath, None, Some(true)),
    RouteRecord("/tickets/:id", None, Some(true))]

  /** `/tickets/:id`: one non-empty segment after `/tickets/`. */
  predicate IsTicketDetailPath(p: string)
  {
    |p| > 9 && p[..9] == "/tickets/" && '/' !in p[9..]
  }

  /** The record a concrete path matches, if any. */
  function Match(p: string): (r: Option<RouteRecord>)
    ensures r.Some? ==> r.value in Routes
    ensures p == LoginPath ==> r == Some(Routes[1])
    ensures p == TicketsPath ==> r == Some(Routes[2])
    ensures IsTicketDetailPath(p) ==> r == Some(Routes[3])
    ensures r.None? <==> p != "/" && p != LoginPath && p != TicketsPath && !IsTicketDetailPath(p)
  {
    if p == "/" then Some(Routes[0])
    else if p == LoginPath then Some(Routes[1])
    else if p == TicketsPath then Some(Routes[2])
    else if IsTicketDetailPath(p) then Some(Routes[3])
    else None
  }

  /** Where a navigation lands before the guard runs: `to.path` and
      `to.meta.requiresAuth`, an absent flag reading as false. */
  datatype Location = Location(path: string, requiresAuth: bool)

  function LocationOf(p: string): Location
  {
    match Match(p)
    case Some(rec) => Location(p, GetOr(rec.requiresAuth, false))
    case None => Location(p, false)
  }

  /** A record's redirect is followed before any guard runs. */
  function Resolve(p: string): (to: Location)
    ensures p == "/" ==> to == Location(LoginPath, false)
    ensures p != "/" ==> to.path == p
  {
    match Match(p)
    case Some(rec) => if rec.redirect.Some? then LocationOf(rec.redirect.value) else LocationOf(p)
    case None => LocationOf(p)
  }

  /** What the guard passes to `next`: nothing, or a path to go to instead. */
  datatype NavDecision = Proceed | RedirectTo(path: string)

  /** `router.beforeEach` */
  function BeforeEach(to: Location, isAuthenticated: bool): (d: NavDecision)
    ensures to.requiresAuth && !isAuthenticated ==> d == RedirectTo(LoginPath)
    ensures to.path == LoginPath && isAuthenticated ==> d == RedirectTo(TicketsPath)
    ensures d == Proceed <==> (isAuthenticated || !to.requiresAuth) && !(isAuthenticated && to.path == LoginPath)
  {
    if to.requiresAuth && !isAuthenticated then RedirectTo(LoginPath)
    else if to.path == LoginPath && isAuthenticated then RedirectTo(TicketsPath)
    else Proceed
  }

  /** The guard never sends a user round in a loop: the page it redirects to
      passes the guard. */
  lemma GuardRedirectPasses(to: Location, isAuthenticated: bool)
    ensures BeforeEach(to, isAuthenticated).RedirectTo? ==>
      BeforeEach(Resolve(BeforeEach(to, isAuthenticated).path), isAuthenticated) == Proceed
  {
  }

  /** A whole navigation to `p`: resolve, run the guard, and on a redirect resolve the
      new target, which the guard lets through. */
  function Navigate(p: string, isAuthenticated: bool): (r: Location)
    ensures BeforeEach(r, isAuthenticated) == Proceed
    ensures !isAuthenticated ==> !r.requiresAuth
    ensures isAuthenticated ==> r.path != LoginPath
    ensures BeforeEach(Resolve(p), isAuthenticated) == Proceed ==> r == Resolve(p)
  {
    var first := Resolve(p);
    match BeforeEach(first, isAuthenticated)
    case Proceed => first
    case RedirectTo(q) =>
      GuardRedirectPasses(first, isAuthenticated);
      Resolve(q)
  }

  /** `/` lands on the login page, or on the ticket list for a signed-in user; a
      signed-out user asking for the ticket list lands on the login page. */
  lemma RootAndProtectedRoutes()
    ensures Navigate("/", false) == Location(LoginPath, false)
    ensures Navigate("/", true) == Location(TicketsPath, true)
    ensures Navigate(TicketsPath, false) == Location(LoginPath, false)
    ensures Navigate(TicketsPath, true) == Location(TicketsPath, true)
  {
  }

  /** A ticket's detail page needs a login: signed out it ends on the login page,
      signed in it opens. */
  lemma DetailPagesNeedLogin(p: string)
    requires IsTicketDetailPath(p)
    ensures Navigate(p, false) == Location(LoginPath, false)
    ensures Navigate(p, true) == Location(p, true)
  {
  }
}
