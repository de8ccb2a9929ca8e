/**
 * The application shell: the route table, which decides for a session and
 * a location whether to render a page or redirect, and the "who am I"
 * effect, which refreshes the session from the backend's answer or clears it.
 *
 * A location is its list of non-empty path segments (`/user/wallet` is
 * `["user", "wallet"]`, `/` is `[]`).
 */
module App {
  import opened Common
  import opened AuthSlice

  datatype Page =
    | Home | About | Features | Contact | Faq
    | LoginForm | RegisterForm
    | UserDashboard | AgentDashboard | AdminDashboard

  /** The route element's outcome; a redirect names the target's segments (`/login` is `["login"]`). */
  datatype Outcome = Render(page: Page) | Redirect(to: seq<string>)

  /** The dashboard a role is allowed to see. */
  function DashboardOf(r: Role): (p: Page)
    ensures p == UserDashboard || p == AgentDashboard || p == AdminDashboard
  {
    match r
    case UserRole => UserDashboard
    case AgentRole => AgentDashboard
    case AdminRole => AdminDashboard
  }

  predicate IsDashboard(p: Page) {
    p == UserDashboard || p == AgentDashboard || p == AdminDashboard
  }

  /** The public page a single segment names, if any. */
  function PublicPage(segment: string): Option<Page>
  {
    var s := segment;
    if s == "about" then Some(About)
    else if s == "features" then Some(Features)
    else if s == "contact" then Some(Contact)
    else if s == "faq" then Some(Faq)
    else None
  }

  /** The role whose dashboard subtree a first segment opens (the `user`, `agent` and `admin` subtrees), if any. */
  function DashboardRole(segment: string): Option<Role>
  {
    var s := segment;
    if s == "user" then Some(UserRole)
    else if s == "agent" then Some(AgentRole)
    else if s == "admin" then Some(AdminRole)
    else None
  }

  /** A signed-in user on the login or register page goes to their own dashboard. */
  function AuthForm(user: Option<Principal>, form: Page): Outcome
  {
    if user.Some? then Redirect([RoleName(user.value.role)]) else Render(form)
  }

  /** A dashboard subtree renders only for a user of its role; anyone else goes to the login page. */
  function Protected(user: Option<Principal>, r: Role): Outcome
  {
    if user.Some? && user.value.role == r then Render(DashboardOf(r)) else Redirect(["login"])
  }

  /** The route table. */
  function Route(user: Option<Principal>, path: seq<string>): Outcome
  {
    if path == [] then Render(Home)
    else if |path| == 1 && PublicPage(path[0]).Some? then Render(PublicPage(path[0]).value)
    else if |path| == 1 && path[0] == "login" then AuthForm(user, LoginForm)
    else if |path| == 1 && path[0] == "register" then AuthForm(user, RegisterForm)
    else if DashboardRole(path[0]).Some? then Protected(user, DashboardRole(path[0]).value)
    else Redirect([])
  }

  /** The paths the table lists; every other path falls through to the catch-all. */
  predicate Listed(path: seq<string>) {
    || path == []
    || (|path| == 1 && (PublicPage(path[0]).Some? || path[0] == "login" || path[0] == "register"))
    || (|path| >= 1 && DashboardRole(path[0]).Some?)
  }

  /** The home and public information pages render whoever is signed in. */
  lemma PublicPagesRender(user: Option<Principal>, segment: string)
    ensures Route(user, []) == Render(Home)
    ensures PublicPage(segment).Some? ==> Route(user, [segment]) == Render(PublicPage(segment).value)
    ensures Route(user, ["about"]) == Render(About) && Route(user, ["features"]) == Render(Features)
    ensures Route(user, ["contact"]) == Render(Contact) && Route(user, ["faq"]) == Render(Faq)
  {
  }

  /** The login and register forms show only when no one is signed in; a signed-in user goes to `/<role>`. */
  lemma AuthFormsRedirectSignedIn(user: Option<Principal>)
    ensures user.None? ==> Route(user, ["login"]) == Render(LoginForm) && Route(user, ["register"]) == Render(RegisterForm)
    ensures user.Some? ==>
              Route(user, ["login"]) == Redirect([RoleName(user.value.role)]) &&
              Route(user, ["register"]) == Redirect([RoleName(user.value.role)])
  {
  }

  /**
   * Anywhere under `/<role>` the dashboard renders exactly when the signed-in user
   * has that role; anyone else, signed in with another role or not at all,
   * goes to `/login`.
   */
  lemma DashboardIffRole(user: Option<Principal>, r: Role, rest: seq<string>)
    ensures Route(user, [RoleName(r)] + rest) == Render(DashboardOf(r)) <==> user.Some? && user.value.role == r
    ensures !(user.Some? && user.value.role == r) ==> Route(user, [RoleName(r)] + rest) == Redirect(["login"])
  {
    var path := [RoleName(r)] + rest;
    assert path[0] == RoleName(r);
  }

  /** Every path the table does not list redirects to `/`. */
  lemma UnlistedGoesHome(user: Option<Principal>, path: seq<string>)
    ensures !Listed(path) <==> Route(user, path) == Redirect([])
  {
  }

  /** A dashboard is only ever rendered for a signed-in user of its role. */
  lemma DashboardNeedsRole(user: Option<Principal>, path: seq<string>)
    ensures Route(user, path).Render? && IsDashboard(Route(user, path).page) ==>
              user.Some? && Route(user, path).page == DashboardOf(user.value.role)
  {
  }

  /** From `path`, the page renders or its redirect target renders. */
  predicate RendersWithinOneHop(user: Option<Principal>, path: seq<string>) {
    Route(user, path).Render? || Route(user, Route(user, path).to).Render?
  }

  /** Following the redirects reaches a rendered page after at most two hops. */
  lemma RedirectsSettle(user: Option<Principal>, path: seq<string>)
    ensures Route(user, path).Redirect? ==> RendersWithinOneHop(user, Route(user, path).to)
  {
    var o := Route(user, path);
    if o.Redirect? && o.to != [] {
      if o.to == ["login"] {
        if user.Some? {
          DashboardIffRole(user, user.value.role, []);
          assert [RoleName(user.value.role)] + [] == [RoleName(user.value.role)];
        }
      } else {
        var r := user.value.role;
        DashboardIffRole(user, r, []);
        assert [RoleName(r)] + [] == [RoleName(r)];
      }
    }
  }

  // ---------------------------------------------------------------------
  // The "who am I" request and the effect that revalidates the session
  // ---------------------------------------------------------------------

  /** The request is skipped when there is no token (`skip: !token`): a null or empty token. */
  predicate MeSkipped(token: Option<string>) {
    token.None? || token.value == ""
  }

  /**
   * The effect run after the "who am I" query settles. A skipped query has
   * neither data nor an error, so the effect does nothing; a reply refreshes
   * the user under the current token; an error (with no reply) logs out.
   * A reply takes precedence over an error flag.
   */
  method Revalidate(store: AuthStore, data: Option<Principal>, isError: bool)
    modifies store, store.storage
    ensures MeSkipped(old(store.token)) || (data.None? && !isError) ==>
              store.user == old(store.user) && store.token == old(store.token) &&
              store.storage.items == old(store.storage.items)
    ensures !MeSkipped(old(store.token)) && data.Some? ==>
              store.user == data && store.token == old(store.token) &&
              store.storage.items == old(store.storage.items)[TokenKey := old(store.token).value]
    ensures !MeSkipped(old(store.token)) && data.None? && isError ==>
              store.user == None && store.token == None &&
              store.storage.items == old(store.storage.items) - {TokenKey}
    ensures old(store.Valid()) ==> store.Valid()
  {
    if MeSkipped(store.token) {
      return;
    }
    if data.Some? {
      store.SetCredentials(data.value, store.token.value);
    } else if isError {
      store.Logout();
    }
  }

  /**
   * The effect does not ask whose reply it is. A reply fetched for an earlier
   * session that settles after someone else has signed in replaces the new
   * user, and stays under the new token.
   */
  method StaleReplyReplacesUser(store: AuthStore, earlier: Principal, current: Principal, currentToken: string)
    requires currentToken != ""
    modifies store, store.storage
    ensures store.user == Some(earlier) && store.token == Some(currentToken)
    ensures earlier != current ==> store.user != Some(current)
  {
    store.SetCredentials(current, currentToken);
    Revalidate(store, Some(earlier), false);
  }
}
