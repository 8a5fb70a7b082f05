/** The global route middleware (app/middleware/01.auth.global.ts) as a
    decision: early-return rules over the target route, the token cookie,
    the rendering context and the stored employee's role. A `navigateTo`
    and its toast become a `Redirect`; returning nothing is `Allow`. */
module AuthGuard {
  import opened Common
  import opened Text
  import opened Roles
  import AuthStore

  /** The cookie the middleware reads the token from. */
  const GUARD_TOKEN_COOKIE := "proyecto1sa-user-token"

  /** The target route: `to.path` and `to.fullPath` (path with query and hash). */
  datatype Route = Route(path: string, fullPath: string)

  datatype Decision = Allow | Redirect(target: string, toast: Option<string>)

  const LOGIN_REQUIRED := "Debes loguearte para acceder al sitio"

  /** The prefix and the denial message of each guarded group, in the order
      the middleware checks them. */
  function GroupPrefix(g: RouteGroup): string {
    match g
    case AdminGroup => "/admin"
    case ReservacionesGroup => "/reservaciones"
    case OrdenesGroup => "/ordenes"
    case ReportesGroup => "/reportes"
  }

  function DeniedMessage(g: RouteGroup): string {
    match g
    case AdminGroup => "No tienes permisos para acceder a Administración"
    case ReservacionesGroup => "No tienes permisos para acceder a Reservaciones"
    case OrdenesGroup => "No tienes permisos para acceder a Ordenes"
    case ReportesGroup => "No tienes permisos para acceder a Reportes"
  }

  /** `useCookie(name).value` is truthy. */
  predicate HasToken(cookies: map<string, string>) {
    GUARD_TOKEN_COOKIE in cookies && cookies[GUARD_TOKEN_COOKIE] != ""
  }

  /** Routes let through before the token is looked at. */
  predicate IsPublic(to: Route) {
    to.path == "/example" || Includes(to.fullPath, "public") || Includes(to.fullPath, "juegos")
  }

  /** The four prefix checks that run on the client. */
  function RoleCheck(path: string, role: RoleName): (d: Decision)
    ensures d.Redirect? ==>
      d.target == "/"
      && exists g :: StartsWith(path, GroupPrefix(g)) && !CanAccess(g, role) && d.toast == Some(DeniedMessage(g))
    ensures d.Allow? <==> forall g :: StartsWith(path, GroupPrefix(g)) ==> CanAccess(g, role)
  {
    if StartsWith(path, "/admin") && !CanAccessAdmin(role) then
      Redirect("/", Some(DeniedMessage(AdminGroup)))
    else if StartsWith(path, "/reservaciones") && !CanAccessReservaciones(role) then
      Redirect("/", Some(DeniedMessage(ReservacionesGroup)))
    else if StartsWith(path, "/ordenes") && !CanAccessOrdenes(role) then
      Redirect("/", Some(DeniedMessage(OrdenesGroup)))
    else if StartsWith(path, "/reportes") && !CanAccessReportes(role) then
      Redirect("/", Some(DeniedMessage(ReportesGroup)))
    else Allow
  }

  /** The middleware's decision for a navigation to `to`. */
  function Guard(to: Route, cookies: map<string, string>, isClient: bool, employee: Option<Employee>): (d: Decision)
    ensures d.Redirect? ==> d.target == "/login" || d.target == "/"
    ensures IsPublic(to) ==> d == Allow
    ensures !IsPublic(to) && !HasToken(cookies) && !Includes(to.fullPath, "login") ==>
      d == Redirect("/login", Some(LOGIN_REQUIRED))
    ensures !IsPublic(to) && HasToken(cookies) && Includes(to.fullPath, "login") ==>
      d == Redirect("/", None)
  {
    if to.path == "/example" then Allow
    else if Includes(to.fullPath, "public") then Allow
    else if Includes(to.fullPath, "juegos") then Allow
    else if !HasToken(cookies) && !Includes(to.fullPath, "login") then
      Redirect("/login", Some(LOGIN_REQUIRED))
    else if HasToken(cookies) && Includes(to.fullPath, "login") then
      Redirect("/", None)
    else if isClient then
      RoleCheck(to.path, RoleNameFromEmployee(employee))
    else Allow
  }

  /** Outside the client a tokened navigation away from the login page is
      always allowed: no role is checked during server rendering. */
  lemma ServerSkipsRoleChecks(to: Route, cookies: map<string, string>, employee: Option<Employee>)
    requires HasToken(cookies) && !Includes(to.fullPath, "login")
    ensures Guard(to, cookies, false, employee) == Allow
  {
  }

  /** On the client, a tokened non-public navigation away from login is
      refused, with a send home, exactly when its path starts with a guarded
      prefix whose predicate rejects the role. */
  lemma ClientRoleChecks(to: Route, cookies: map<string, string>, employee: Option<Employee>)
    requires !IsPublic(to) && HasToken(cookies) && !Includes(to.fullPath, "login")
    ensures var d := Guard(to, cookies, true, employee);
      var role := RoleNameFromEmployee(employee);
      && (d.Redirect? <==> exists g :: StartsWith(to.path, GroupPrefix(g)) && !CanAccess(g, role))
      && (d.Redirect? ==> d.target == "/")
  {
  }

  /** A tokened ADMIN on the client is only ever redirected away from the
      login page. */
  lemma AdminNeverRedirected(to: Route, cookies: map<string, string>, employee: Option<Employee>)
    requires HasToken(cookies) && RoleNameFromEmployee(employee) == Some(ADMIN)
    ensures Guard(to, cookies, true, employee).Redirect? ==>
      Includes(to.fullPath, "login") && Guard(to, cookies, true, employee) == Redirect("/", None)
  {
    var d := Guard(to, cookies, true, employee);
    if !IsPublic(to) && !Includes(to.fullPath, "login") {
      forall g | true ensures CanAccess(g, Some(ADMIN)) { AdminPassesAll(g); }
    }
  }

  /** Matching is by plain prefix: on the client, every tokened non-public
      path that starts with "/admin" and is no login page, whatever follows
      the prefix, sends a role that may not enter the admin group home. */
  lemma PrefixMatchIsTextual(to: Route, cookies: map<string, string>, employee: Option<Employee>)
    requires StartsWith(to.path, "/admin") && !Includes(to.fullPath, "login") && !IsPublic(to)
    requires HasToken(cookies) && !CanAccessAdmin(RoleNameFromEmployee(employee))
    ensures Guard(to, cookies, true, employee) == Redirect("/", Some(DeniedMessage(AdminGroup)))
  {
  }

  /** So "/administracion", which only shares the prefix, is refused to a
      hotel employee like "/admin" itself. */
  lemma AdministracionRefused(cookies: map<string, string>, employee: Option<Employee>)
    requires HasToken(cookies) && RoleNameFromEmployee(employee) == Some(STAFF_HOTEL)
    ensures Guard(Route("/administracion", "/administracion"), cookies, true, employee)
      == Redirect("/", Some(DeniedMessage(AdminGroup)))
  {
    var path := "/administracion";
    AdministracionNotPublic(path);
    AdministracionIsGuarded(path);
    assert !CanAccessAdmin(Some(STAFF_HOTEL));
    PrefixMatchIsTextual(Route(path, path), cookies, employee);
  }

  /** "/administracion" is not a public route. */
  lemma AdministracionNotPublic(path: string)
    requires path == "/administracion"
    ensures !IsPublic(Route(path, path))
  {
    MissingCharNotIncluded(path, "public", 'p');
    MissingCharNotIncluded(path, "juegos", 'j');
    assert path != "/example" by { assert |path| != |"/example"|; }
  }

  /** "/administracion" is not a login page, and starts with "/admin". */
  lemma AdministracionIsGuarded(path: string)
    requires path == "/administracion"
    ensures !Includes(path, "login")
    ensures StartsWith(path, "/admin")
  {
    MissingCharNotIncluded(path, "login", 'l');
    assert path[..|"/admin"|] == "/admin";
  }

  /** Without a token the login page itself is reachable: none of the
      guarded prefixes matches "/login". */
  lemma LoginPageOpenWithoutToken(fullPath: string, cookies: map<string, string>, isClient: bool, employee: Option<Employee>)
    requires !HasToken(cookies) && Includes(fullPath, "login")
    ensures Guard(Route("/login", fullPath), cookies, isClient, employee) == Allow
  {
    var path := "/login";
    assert !StartsWith(path, "/admin") by { assert path[1] != "/admin"[1]; }
    assert !StartsWith(path, "/reservaciones");
    assert !StartsWith(path, "/ordenes") by { assert path[1] != "/ordenes"[1]; }
    assert !StartsWith(path, "/reportes");
  }

  /** The store writes its token to "proyecto2sa-user-token" while the
      middleware reads "proyecto1sa-user-token": a successful login alone
      does not satisfy the middleware, which keeps sending a browser without
      the other cookie to the login page. */
  lemma LoginTokenNotSeenByGuard(s: AuthStore.Session, resp: AuthStore.LoginResponse, to: Route, isClient: bool)
    requires GUARD_TOKEN_COOKIE !in s.cookies
    requires !IsPublic(to) && !Includes(to.fullPath, "login")
    ensures var t := AuthStore.AfterLogin(s, AuthStore.Succeeded(resp));
      t.authenticated
      && Guard(to, t.cookies, isClient, t.employee) == Redirect("/login", Some(LOGIN_REQUIRED))
  {
    var t := AuthStore.AfterLogin(s, AuthStore.Succeeded(resp));
    assert GUARD_TOKEN_COOKIE != AuthStore.AUTH_COOKIE_NAME;
    assert GUARD_TOKEN_COOKIE !in t.cookies;
  }
}
