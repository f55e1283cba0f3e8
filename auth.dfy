/**
 * Session checks: each role's home page, the page guards `requireSession`
 * and `requireRole`, and the credential check of the sign-in provider with
 * the password comparison as a parameter.
 */
module Auth {
  import opened Wrappers
  import opened Domain
  import opened Strings
  import opened Store
  import opened Validators
  import opened Middleware

  /** A `redirect(location)` thrown by a page guard. */
  datatype Redirect = Redirect(location: string)

  const LOGIN_PAGE: string := "/login"

  /** `ROLE_HOME`; every role has an entry, so `getHomeRouteByRole` never falls back to the login page. */
  function HomeRouteByRole(role: Role): (r: string)
    ensures r != LOGIN_PAGE
  {
    match role
    case ADMIN => "/admin/dashboard"
    case SUPPLIER => "/supplier/dashboard"
    case VIEWER => "/viewer/dashboard"
  }

  /**
   * Each role's home lies inside that role's own section of the page gate,
   * so the gate lets the role in and keeps every other role out.
   */
  lemma HomeInOwnSection(role: Role, other: Role)
    ensures SectionRole(HomeRouteByRole(role)) == Some(role)
    ensures Admits(Some(role), HomeRouteByRole(role))
    ensures other != role ==> !Admits(Some(other), HomeRouteByRole(role)) && HomeRouteByRole(other) != HomeRouteByRole(role)
  {
    var home := HomeRouteByRole(role);
    match role {
      case ADMIN => assert home[..|"/admin/"|] == "/admin/";
      case SUPPLIER => assert home[..|"/supplier/"|] == "/supplier/";
      case VIEWER => assert home[..|"/viewer/"|] == "/viewer/";
    }
    SectionGate(Some(other), home);
    SectionGate(Some(role), home);
  }

  /** `requireSession`: the signed-in user, or a redirect to the login page. */
  function RequireSession(session: Option<SessionUser>): (r: Result<SessionUser, Redirect>)
    ensures session.None? <==> r == Failure(Redirect(LOGIN_PAGE))
    ensures session.Some? ==> r == Success(session.value)
  {
    match session
    case None => Failure(Redirect(LOGIN_PAGE))
    case Some(u) => Success(u)
  }

  /** `requireRole`: a signed-in user with an allowed role, or a redirect. */
  function RequireRole(session: Option<SessionUser>, allowedRoles: seq<Role>): (r: Result<SessionUser, Redirect>)
    ensures session.None? ==> r == Failure(Redirect(LOGIN_PAGE))
    ensures session.Some? ==> (r.Success? <==> session.value.role in allowedRoles)
    ensures r.Success? ==> session == Some(r.value)
    ensures session.Some? && r.Failure? ==> r.error == Redirect(HomeRouteByRole(session.value.role))
  {
    match RequireSession(session)
    case Failure(e) => Failure(e)
    case Success(u) => if u.role in allowedRoles then Success(u) else Failure(Redirect(HomeRouteByRole(u.role)))
  }

  /**
   * A user turned away by a guard is sent to a page the gate lets them into
   * and whose own guard (allowing their role) lets them through: no loop.
   */
  lemma RoleRedirectSettles(u: SessionUser, allowedRoles: seq<Role>)
    requires RequireRole(Some(u), allowedRoles).Failure?
    ensures var home := RequireRole(Some(u), allowedRoles).error.location;
      home != LOGIN_PAGE && Admits(Some(u.role), home) && RequireRole(Some(u), [u.role]).Success?
  {
    HomeInOwnSection(u.role, u.role);
  }

  /** What the provider puts in the token for a signed-in user. */
  datatype AuthorizedUser = AuthorizedUser(id: Id, name: string, email: string, role: Role)

  /**
   * `authorize`: the credentials must have the login shape, name a stored
   * user by lower-cased e-mail, and pass the password comparison.
   */
  function Authorize(users: map<Id, User>, credentials: LoginBody, c: Coercions, passwordMatches: (string, string) -> bool): (r: Option<AuthorizedUser>)
    requires UniqueEmails(users)
    ensures r.Some? <==>
      && ParseLogin(credentials, c).Some?
      && exists id :: id in users && users[id].email == ToLower(ParseLogin(credentials, c).value.email)
           && passwordMatches(ParseLogin(credentials, c).value.password, users[id].passwordHash)
    ensures r.Some? ==>
      && r.value.id in users
      && users[r.value.id].email == ToLower(ParseLogin(credentials, c).value.email)
      && r.value == AuthorizedUser(r.value.id, users[r.value.id].name, users[r.value.id].email, users[r.value.id].role)
  {
    match ParseLogin(credentials, c)
    case None => None
    case Some(login) =>
      match UserByEmail(users, ToLower(login.email))
      case None => None
      case Some(id) =>
        var user := users[id];
        if !passwordMatches(login.password, user.passwordHash) then None
        else Some(AuthorizedUser(id, user.name, user.email, user.role))
  }
}
