/** The session store (app/stores/auth.ts): an object whose `login` and
    `logout` actions assign its fields step by step and write the token
    cookie. The login request's outcome is a parameter; toasts and router
    pushes are returned as effects. */
module AuthStore {
  import opened Common
  import Roles

  /** The cookie the store writes the token to. */
  const AUTH_COOKIE_NAME := "proyecto2sa-user-token"

  datatype User = User(username: Option<string>)

  /** What the login request resolves to; `None` fields were absent. */
  datatype LoginResponse = LoginResponse(token: Option<string>, username: Option<string>, employee: Option<Roles.Employee>)

  /** The outcome of the login request: a response, or the message of the
      error it raised. */
  datatype LoginOutcome = Succeeded(response: LoginResponse) | Failed(message: string)

  /** `{ response, error: false }`. */
  datatype LoginReturn = LoginReturn(response: LoginResponse, error: bool)

  /** A side effect of an action, in the order it happens. */
  datatype Effect = ToastSuccess(text: string) | ToastError(text: string) | Navigate(path: string)

  /** A snapshot of the store and of the browser's cookies. */
  datatype Session = Session(
    authenticated: bool,
    loading: bool,
    user: Option<User>,
    employee: Option<Roles.Employee>,
    staffRoles: seq<string>,
    cookies: map<string, string>)

  /** Assigning a cookie's value: `null` or `undefined` removes it. */
  function SetCookie(jar: map<string, string>, name: string, value: Option<string>): (j: map<string, string>)
    ensures value.Some? ==> name in j && j[name] == value.value
    ensures value.None? ==> name !in j
    ensures forall n :: n != name ==> (n in j <==> n in jar) && (n in jar ==> j[n] == jar[n])
  {
    if value.Some? then jar[name := value.value] else jar - {name}
  }

  /** The state `state()` starts in, over whatever cookies the browser holds. */
  function InitialSession(cookies: map<string, string>): Session {
    Session(false, false, None, None, [], cookies)
  }

  /** The snapshot after `login` with the given outcome. */
  function AfterLogin(s: Session, outcome: LoginOutcome): (t: Session)
    ensures !t.loading && t.staffRoles == s.staffRoles
    ensures outcome.Succeeded? ==>
      var resp := outcome.response;
      && t.authenticated
      && t.user == Some(User(resp.username))
      && t.employee == resp.employee
      && t.cookies == SetCookie(s.cookies, AUTH_COOKIE_NAME, resp.token)
    ensures outcome.Failed? ==> t == s.(loading := false)
  {
    match outcome
    case Succeeded(resp) =>
      s.(cookies := SetCookie(s.cookies, AUTH_COOKIE_NAME, resp.token),
         user := Some(User(resp.username)),
         employee := resp.employee,
         authenticated := true,
         loading := false)
    case Failed(_) => s.(loading := false)
  }

  /** The snapshot after `logout`. */
  function AfterLogout(s: Session): (t: Session)
    ensures !t.authenticated && !t.loading && t.user.None? && t.employee.None?
    ensures AUTH_COOKIE_NAME !in t.cookies
    ensures t.staffRoles == s.staffRoles
    ensures forall n :: n != AUTH_COOKIE_NAME ==> (n in t.cookies <==> n in s.cookies)
    ensures forall n :: n != AUTH_COOKIE_NAME && n in s.cookies ==> t.cookies[n] == s.cookies[n]
  {
    s.(cookies := SetCookie(s.cookies, AUTH_COOKIE_NAME, None),
       user := None, employee := None, authenticated := false, loading := false)
  }

  class AuthStore {
    var authenticated: bool
    var loading: bool
    var user: Option<User>
    var employee: Option<Roles.Employee>
    var staffRoles: seq<string>
    /** The browser's cookies, written through `useCookie`. */
    var cookies: map<string, string>

    function State(): Session
      reads this
    {
      Session(authenticated, loading, user, employee, staffRoles, cookies)
    }

    constructor (browserCookies: map<string, string>)
      ensures State() == InitialSession(browserCookies)
    {
      authenticated := false;
      loading := false;
      user := None;
      employee := None;
      staffRoles := [];
      cookies := browserCookies;
    }

    /** `login`: on success stores the token and the user, and returns the
        response; on failure only clears `loading` and returns nothing. */
    method Login(outcome: LoginOutcome) returns (result: Option<LoginReturn>, effects: seq<Effect>)
      modifies this
      ensures State() == AfterLogin(old(State()), outcome)
      ensures outcome.Succeeded? ==> result == Some(LoginReturn(outcome.response, false))
      ensures outcome.Succeeded? ==> effects == [ToastSuccess("Bienvenido!"), Navigate("/")]
      ensures outcome.Failed? ==> result.None? && effects == [ToastError(outcome.message)]
    {
      loading := true;
      match outcome
      case Succeeded(response) =>
        cookies := SetCookie(cookies, AUTH_COOKIE_NAME, response.token);
        user := Some(User(response.username));
        employee := response.employee;
        authenticated := true;
        effects := [ToastSuccess("Bienvenido!"), Navigate("/")];
        loading := false;
        result := Some(LoginReturn(response, false));
      case Failed(message) =>
        effects := [ToastError(message)];
        loading := false;
        result := None;
    }

    /** `logout`: clears the cookie and the session fields whatever they
        were, then sends the user to the login page. */
    method Logout() returns (effects: seq<Effect>)
      modifies this
      ensures State() == AfterLogout(old(State()))
      ensures effects == [Navigate("/login")]
    {
      loading := true;
      cookies := SetCookie(cookies, AUTH_COOKIE_NAME, None);
      user := None;
      employee := None;
      authenticated := false;
      loading := false;
      effects := [Navigate("/login")];
    }
  }

  /** A failed login changes nothing but `loading`, which ends false. */
  lemma FailedLoginKeepsSession(s: Session, message: string)
    ensures var t := AfterLogin(s, Failed(message));
      t.authenticated == s.authenticated && t.user == s.user
      && t.employee == s.employee && t.cookies == s.cookies && !t.loading
  {
  }

  /** After a successful login the store's cookie holds the token when the
      response had one, and is gone when it had none. */
  lemma LoginStoresToken(s: Session, resp: LoginResponse)
    ensures var t := AfterLogin(s, Succeeded(resp));
      (resp.token.Some? ==> AUTH_COOKIE_NAME in t.cookies && t.cookies[AUTH_COOKIE_NAME] == resp.token.value)
      && (resp.token.None? ==> AUTH_COOKIE_NAME !in t.cookies)
  {
  }

  /** Logging out twice is logging out once. */
  lemma LogoutIdempotent(s: Session)
    ensures AfterLogout(AfterLogout(s)) == AfterLogout(s)
  {
  }

  /** Logout forgets the prior session: two states that differ only in the
      session fields and the store's cookie end up the same. */
  lemma LogoutForgetsSession(s1: Session, s2: Session)
    requires s1.staffRoles == s2.staffRoles
    requires s1.cookies - {AUTH_COOKIE_NAME} == s2.cookies - {AUTH_COOKIE_NAME}
    ensures AfterLogout(s1) == AfterLogout(s2)
  {
  }

  /** Logging out after any login gives the same state as logging out
      directly. */
  lemma LogoutUndoesLogin(s: Session, outcome: LoginOutcome)
    ensures AfterLogout(AfterLogin(s, outcome)) == AfterLogout(s)
  {
  }
}
