/** The frontend router: its route table (names and meta flags) and the `beforeEach`
    guard, which first lets the auth store restore a saved session and then makes one
    of three decisions. */
module Router {
  import opened Common
  import opened AuthStore

  /** A route's meta; a route without meta has both flags false. */
  datatype Meta = Meta(requiresAuth: bool, guest: bool)

  const NoMeta := Meta(false, false)
  const AuthOnly := Meta(true, false)
  const GuestOnly := Meta(false, true)

  /** The named routes; every path no other route matches reaches NotFound. */
  datatype RouteName =
    | Dashboard | DashboardAlt | Login | Register | OAuthCallback
    | Contacts | ContactCreate | ContactDetail | ContactEdit
    | Properties | PropertyCreate | PropertyDetail | PropertyEdit
    | Leases | LeaseCreate | LeaseDetail | LeaseEdit
    | Reminders | Emails | Profile | Reports
    | NotFound

  /** The meta of each route in the table. */
  function MetaOf(r: RouteName): Meta {
    match r
    case Login | Register | OAuthCallback => GuestOnly
    case NotFound => NoMeta
    case _ => AuthOnly
  }

  /** The target of a navigation. */
  datatype Target = Target(route: RouteName, fullPath: string)

  /** The one `next` call the guard makes. */
  datatype Decision = Proceed | ToLogin(redirect: string) | ToDashboard

  /** The guard's decision for a target with this meta. */
  function Decide(to: Target, meta: Meta, authenticated: bool): Decision {
    if meta.requiresAuth && !authenticated then ToLogin(to.fullPath)
    else if meta.guest && authenticated then ToDashboard
    else Proceed
  }

  /** No route is both protected and guest-only, so for a route of the table the decision
      is: login exactly for a protected route without a session (carrying the target's
      full path), the dashboard exactly for a guest route with one, and otherwise go on. */
  lemma DecideCases(to: Target, authenticated: bool)
    ensures !(MetaOf(to.route).requiresAuth && MetaOf(to.route).guest)
    ensures Decide(to, MetaOf(to.route), authenticated) == ToLogin(to.fullPath) <==> MetaOf(to.route).requiresAuth && !authenticated
    ensures Decide(to, MetaOf(to.route), authenticated) == ToDashboard <==> MetaOf(to.route).guest && authenticated
    ensures Decide(to, MetaOf(to.route), authenticated) == Proceed <==>
      !(MetaOf(to.route).requiresAuth && !authenticated) && !(MetaOf(to.route).guest && authenticated)
  {
  }

  /** A redirect lands on a route the guard lets through in the same state: the login
      page proceeds without a session and the dashboard with one. The catch-all route
      always proceeds. */
  lemma RedirectsSettle(path: string, authenticated: bool)
    ensures !authenticated ==> Decide(Target(Login, path), MetaOf(Login), authenticated) == Proceed
    ensures authenticated ==> Decide(Target(Dashboard, path), MetaOf(Dashboard), authenticated) == Proceed
    ensures Decide(Target(NotFound, path), MetaOf(NotFound), authenticated) == Proceed
  {
  }

  /** beforeEach: when no user is loaded but a token is stored, initializeAuth runs first;
      then the decision is made on the resulting session. */
  method BeforeEach(auth: Auth, to: Target) returns (d: Decision)
    modifies auth
    ensures old(auth.user).None? && Present(Lookup(old(auth.storage), "token")) && Present(Lookup(old(auth.storage), "user")) ==>
      && auth.token == Lookup(old(auth.storage), "token") && auth.user == Lookup(old(auth.storage), "user")
      && auth.authHeader == Some(Bearer(old(auth.storage)["token"]))
    ensures !(old(auth.user).None? && Present(Lookup(old(auth.storage), "token")) && Present(Lookup(old(auth.storage), "user"))) ==>
      auth.token == old(auth.token) && auth.user == old(auth.user) && auth.authHeader == old(auth.authHeader)
    ensures auth.storage == old(auth.storage) && auth.loading == old(auth.loading)
    ensures d == Decide(to, MetaOf(to.route), auth.IsAuthenticated())
  {
    if auth.user.None? && Present(Lookup(auth.storage, "token")) {
      auth.InitializeAuth();
    }
    d := Decide(to, MetaOf(to.route), auth.IsAuthenticated());
  }
}
