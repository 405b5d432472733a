// The application shell: the authentication flag, the login form's submit,
// the route guard, and the sidebar's active-link rule.

module App {
  import opened Common
  import opened Session

  // ---------------------------------------------------------------------------
  // Routes

  /** The pages the layout shows. */
  datatype Page = DashboardView | ItemsView | UsersView | LocationsView | HistoryView

  /** What the router renders for a path: the login form, a redirect, or the layout around a page. */
  datatype Screen = LoginView | Redirect(to: string) | Layout(page: Page)

  const Root := "/"

  /** The layout's inner routes; any other path is sent back to the dashboard. */
  function InnerRoute(pathname: string): (page: Option<Page>)
    ensures page.Some? <==> pathname in {"/", "/items", "/users", "/locations", "/history"}
    ensures page == Some(DashboardView) <==> pathname == "/"
  {
    if pathname == "/" then Some(DashboardView)
    else if pathname == "/items" then Some(ItemsView)
    else if pathname == "/users" then Some(UsersView)
    else if pathname == "/locations" then Some(LocationsView)
    else if pathname == "/history" then Some(HistoryView)
    else None
  }

  /**
   * The top-level routes: `/login` shows the form only to a visitor without a
   * session; every other path needs a session, and the layout resolves it.
   */
  function Route(isAuthenticated: bool, pathname: string): (s: Screen)
    ensures s == LoginView <==> !isAuthenticated && pathname == LoginPath
    ensures s.Layout? <==> isAuthenticated && pathname != LoginPath && InnerRoute(pathname).Some?
    ensures s.Layout? ==> Some(s.page) == InnerRoute(pathname)
    ensures !isAuthenticated && pathname != LoginPath ==> s == Redirect(LoginPath)
    ensures isAuthenticated && (pathname == LoginPath || InnerRoute(pathname).None?) ==> s == Redirect(Root)
  {
    if pathname == LoginPath then
      if !isAuthenticated then LoginView else Redirect(Root)
    else if !isAuthenticated then Redirect(LoginPath)
    else match InnerRoute(pathname)
      case Some(p) => Layout(p)
      case None => Redirect(Root)
  }

  /** A redirect always lands on a screen that is not itself a redirect. */
  lemma RedirectsSettle(isAuthenticated: bool, pathname: string)
    requires Route(isAuthenticated, pathname).Redirect?
    ensures !Route(isAuthenticated, Route(isAuthenticated, pathname).to).Redirect?
  {
  }

  // ---------------------------------------------------------------------------
  // Sidebar

  datatype MenuItem = MenuItem(name: string, path: string)

  const MenuItems: seq<MenuItem> := [
    MenuItem("Dashboard", "/"),
    MenuItem("Items", "/items"),
    MenuItem("Usuarios", "/users"),
    MenuItem("Ubicaciones", "/locations"),
    MenuItem("Historial", "/history")]

  /** A link is highlighted exactly when the current path is its path. */
  predicate IsActive(pathname: string, item: MenuItem) {
    pathname == item.path
  }

  /** Every link leads to a page of the layout, each to a different one, so at most one link is highlighted. */
  lemma MenuCoversPages(pathname: string)
    ensures forall i :: 0 <= i < |MenuItems| ==> InnerRoute(MenuItems[i].path).Some?
    ensures forall i, j :: 0 <= i < j < |MenuItems| ==> InnerRoute(MenuItems[i].path) != InnerRoute(MenuItems[j].path)
    ensures forall i, j :: 0 <= i < |MenuItems| && 0 <= j < |MenuItems| && IsActive(pathname, MenuItems[i]) && IsActive(pathname, MenuItems[j]) ==> i == j
  {
  }

  // ---------------------------------------------------------------------------
  // The authentication flag

  class AppComponent {
    var isAuthenticated: bool

    /** The flag starts from the stored token. */
    constructor(env: Env)
      ensures isAuthenticated == HasToken(env.storage)
    {
      isAuthenticated := AuthTokenKey in env.storage && env.storage[AuthTokenKey] != "";
    }

    /** `handleLogin`, called by the login form once the session is stored. */
    method HandleLogin()
      modifies this
      ensures isAuthenticated
    {
      isAuthenticated := true;
    }

    /** `handleLogout`: forget the token and the user, then drop the flag. */
    method HandleLogout(env: Env)
      modifies this, env`storage
      ensures env.storage == old(env.storage) - {AuthTokenKey, UserKey}
      ensures !isAuthenticated
    {
      env.storage := env.storage - {AuthTokenKey};
      env.storage := env.storage - {UserKey};
      isAuthenticated := false;
    }

    function Screen(pathname: string): Screen
      reads this
    {
      Route(isAuthenticated, pathname)
    }
  }

  /** After a logout, even a reloaded app starts without a session and only the login form is reachable. */
  method LogoutEndsSession(env: Env, pathname: string) returns (app: AppComponent, reloaded: AppComponent)
    modifies env`storage
    ensures !app.isAuthenticated && !reloaded.isAuthenticated
    ensures !reloaded.Screen(pathname).Layout?
  {
    app := new AppComponent(env);
    app.HandleLogout(env);
    reloaded := new AppComponent(env);
  }

  // ---------------------------------------------------------------------------
  // The login form

  const LoginFailed := "Error en el login"
  const CannotConnect := "Error al conectar con el servidor"

  /**
   * What the login call gives back: a parsed response (`ok`, `data.error`,
   * `data.token`, `data.user` as JSON text), or an exception thrown on the
   * way (no connection, a body that is not JSON) with its message.
   */
  datatype LoginResponse = LoginResponse(ok: bool, dataError: Option<string>, token: Option<string>, userJson: Option<string>)
  datatype LoginOutcome = Responded(response: LoginResponse) | Thrown(message: string)

  /** The POST the form sends. */
  datatype LoginRequest = LoginRequest(url: string, username: string, pin: string)

  /** What `localStorage.setItem` stores for a value: `undefined` is written as the text "undefined". */
  function Stored(v: Option<string>): (text: string)
    ensures v.Some? ==> text == v.value
    ensures v.None? ==> text == "undefined"
  {
    v.GetOr("undefined")
  }

  /**
   * The error shown after a failed attempt: a refused login shows the server's
   * `error` or the generic refusal; a thrown error its message, or the
   * connection text when the message is empty.
   */
  function LoginError(outcome: LoginOutcome): (msg: string)
    ensures msg != ""
    ensures outcome.Responded? ==> msg == OrElse(outcome.response.dataError, LoginFailed)
    ensures outcome.Thrown? ==> msg == OrElse(Some(outcome.message), CannotConnect)
  {
    match outcome
    case Responded(r) => OrElse(Some(OrElse(r.dataError, LoginFailed)), CannotConnect)
    case Thrown(m) => OrElse(Some(m), CannotConnect)
  }

  class LoginPage {
    var username: string
    var pin: string
    var error: string
    var loading: bool

    constructor()
      ensures username == "" && pin == "" && error == "" && !loading
    {
      username, pin, error, loading := "", "", "", false;
    }

    /** The first half of `handleLogin`: clear the error, raise `loading`, send the credentials. */
    method BeginLogin(configured: Option<string>) returns (req: LoginRequest)
      modifies this`error, this`loading
      ensures error == "" && loading
      ensures req == LoginRequest(BaseUrl(configured) + "/auth/login", username, pin)
    {
      error := "";
      loading := true;
      req := LoginRequest(BaseUrl(configured) + "/auth/login", username, pin);
    }

    /**
     * The second half: an accepted login stores the token and the user and then
     * tells the app; anything else shows an error and stores nothing. `loading`
     * is cleared either way.
     */
    method CompleteLogin(env: Env, app: AppComponent, outcome: LoginOutcome) returns (loggedIn: bool)
      modifies this`error, this`loading, env`storage, app
      ensures loggedIn <==> outcome.Responded? && outcome.response.ok
      ensures loggedIn ==> env.storage == old(env.storage)[AuthTokenKey := Stored(outcome.response.token)][UserKey := Stored(outcome.response.userJson)]
      ensures loggedIn ==> app.isAuthenticated && error == old(error)
      ensures !loggedIn ==> env.storage == old(env.storage) && app.isAuthenticated == old(app.isAuthenticated)
      ensures !loggedIn ==> error == LoginError(outcome)
      ensures !loading
    {
      if outcome.Responded? && outcome.response.ok {
        env.storage := env.storage[AuthTokenKey := Stored(outcome.response.token)];
        env.storage := env.storage[UserKey := Stored(outcome.response.userJson)];
        app.HandleLogin();
        loggedIn := true;
      } else {
        var message := if outcome.Thrown? then outcome.message else OrElse(outcome.response.dataError, LoginFailed);
        error := OrElse(Some(message), CannotConnect);
        loggedIn := false;
      }
      loading := false;
    }
  }
}
