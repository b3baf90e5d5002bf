/**
 * The frontend router's `beforeEach` guard as a decision on the target
 * route's meta data, the target path and the two login flags of the user
 * store, together with the route table it runs over. The page title and
 * the error toast are side effects and not part of the decision.
 */
module RouteGuard {
  import opened Wrappers
  import opened JavaText

  /** The two meta flags the guard reads; None is an absent key. */
  datatype Meta = Meta(requiresAuth: Option<bool>, requiresAdmin: Option<bool>)

  datatype Decision = Proceed | Redirect(path: string)

  const LOGIN: string := "/login"
  const DASHBOARD: string := "/dashboard"

  /** `meta.requiresAuth !== false`: only an explicit false opens a route. */
  predicate NeedsLogin(meta: Meta) {
    meta.requiresAuth != Some(false)
  }

  /** The guard: login first, then the admin check, then the bounce off the login page. */
  function Guard(meta: Meta, path: string, loggedIn: bool, isAdmin: bool): (d: Decision)
    ensures d == Proceed <==>
      (!NeedsLogin(meta) || (loggedIn && (meta.requiresAdmin != Some(true) || isAdmin)))
      && !(path == LOGIN && loggedIn)
    ensures d.Redirect? ==> d.path == LOGIN || d.path == DASHBOARD
    ensures d == Redirect(LOGIN) <==> NeedsLogin(meta) && !loggedIn
  {
    if NeedsLogin(meta) && !loggedIn then Redirect(LOGIN)
    else if NeedsLogin(meta) && meta.requiresAdmin == Some(true) && !isAdmin then Redirect(DASHBOARD)
    else if path == LOGIN && loggedIn then Redirect(DASHBOARD)
    else Proceed
  }

  /** Vue Router's merge of a parent's meta into a child's: the child's keys win. */
  function Merge(parent: Meta, child: Meta): Meta {
    Meta(if child.requiresAuth.Some? then child.requiresAuth else parent.requiresAuth,
         if child.requiresAdmin.Some? then child.requiresAdmin else parent.requiresAdmin)
  }

  const NO_META: Meta := Meta(None, None)
  const LOGIN_META: Meta := Meta(Some(false), None)
  const DASHBOARD_META: Meta := Meta(Some(true), None)
  const ADMIN_META: Meta := Meta(None, Some(true))

  /**
   * The form in which the route table compares a path. The router is created
   * with the default matcher options, which ignore ASCII case and accept one
   * trailing "/"; the root route "/" then matches exactly the key "".
   */
  function MatchKey(path: string): (k: string)
    ensures |k| <= |path|
    ensures k == ToLower(path) || (|path| > 0 && path[|path| - 1] == '/' && k == ToLower(path[..|path| - 1]))
  {
    ToLower(if |path| > 0 && path[|path| - 1] == '/' then path[..|path| - 1] else path)
  }

  /** The path navigation ends at: the root redirects to the dashboard. */
  function Resolve(path: string): string {
    if MatchKey(path) == "" then DASHBOARD else path
  }

  /** The merged meta of a resolved path; a path no route matches has none. */
  function MetaOf(path: string): Meta {
    var key := MatchKey(path);
    if key == LOGIN then LOGIN_META
    else if key in {DASHBOARD, "/download", "/statistics"} then Merge(DASHBOARD_META, NO_META)
    else if key in {"/account-manage", "/create-account", "/system-settings"} then Merge(DASHBOARD_META, ADMIN_META)
    else NO_META
  }

  /** The decision for navigating to `path` under the route table; the guard
      sees the path as written, the table its match key. */
  function Navigate(path: string, loggedIn: bool, isAdmin: bool): Decision {
    var target := Resolve(path);
    Guard(MetaOf(target), target, loggedIn, isAdmin)
  }

  /** The redirect targets are their own match keys. */
  lemma TargetKeys()
    ensures MatchKey(LOGIN) == LOGIN && MatchKey(DASHBOARD) == DASHBOARD
  {
    ToLowerFixed(LOGIN);
    ToLowerFixed(DASHBOARD);
  }

  /** A logged-out user reaches only the login page, in whatever case and with
      or without a trailing "/"; every other path sends them there. */
  lemma LoggedOutReachesOnlyLogin(path: string, isAdmin: bool)
    ensures Navigate(path, false, isAdmin) == Proceed <==> MatchKey(path) == LOGIN
    ensures MatchKey(path) != LOGIN ==> Navigate(path, false, isAdmin) == Redirect(LOGIN)
  {
    TargetKeys();
  }

  /** Paths with the same match key lead to the same decision, except that
      the bounce off the login page looks at the path as written. */
  lemma SameKeySameDecision(p: string, q: string, loggedIn: bool, isAdmin: bool)
    requires MatchKey(p) == MatchKey(q) && p != LOGIN && q != LOGIN
    ensures Navigate(p, loggedIn, isAdmin) == Navigate(q, loggedIn, isAdmin)
  {
  }

  /** Case and a trailing "/" do not matter to the table, but only the exact
      "/login" is bounced for a logged-in user. */
  lemma KeyExamples(isAdmin: bool)
    ensures Navigate("/LOGIN", false, isAdmin) == Proceed
    ensures Navigate("/login/", false, isAdmin) == Proceed
    ensures Navigate("/system-settings/", true, false) == Redirect(DASHBOARD)
    ensures Navigate("/LOGIN", true, isAdmin) == Proceed
  {
    TargetKeys();
    assert MatchKey("/LOGIN") == LOGIN;
    assert MatchKey("/login/") == LOGIN;
    assert MatchKey("/system-settings/") == "/system-settings";
  }

  /** A logged-in user who is not an administrator never reaches an admin page. */
  lemma AdminPagesNeedAdmin(path: string)
    requires MetaOf(Resolve(path)).requiresAdmin == Some(true)
    ensures Navigate(path, true, false) == Redirect(DASHBOARD)
    ensures Navigate(path, true, true) == Proceed
  {
  }

  /** A logged-in user is sent from the login page to the dashboard. */
  lemma LoginPageBounces(isAdmin: bool)
    ensures Navigate(LOGIN, true, isAdmin) == Redirect(DASHBOARD)
  {
  }

  /** Following a redirect never redirects again, so navigation cannot loop. */
  lemma {:induction false} NoRedirectLoop(path: string, loggedIn: bool, isAdmin: bool)
    ensures Navigate(path, loggedIn, isAdmin).Redirect? ==>
      Navigate(Navigate(path, loggedIn, isAdmin).path, loggedIn, isAdmin) == Proceed
  {
    var d := Navigate(path, loggedIn, isAdmin);
    if d.Redirect? {
      TargetKeys();
      assert d.path == LOGIN <==> !loggedIn;
      assert MetaOf(DASHBOARD) == DASHBOARD_META;
    }
  }
}
