/** Sign-in with email and password: the credentials provider's
    `authorize` check, and the `jwt` and `session` callbacks that carry the
    user's id and role from the sign-in into the token and from the token
    into the session. bcrypt's `compare` is a parameter. */
module Auth {
  import opened Wrappers
  import opened Strings
  import opened Rbac
  import opened Users

  /** The submitted form: either field may be missing. */
  datatype Credentials = Credentials(email: Option<string>, password: Option<string>)

  /** The user object a successful sign-in yields. */
  datatype AuthUser = AuthUser(id: string, email: string, name: string, role: Role)

  /** The token claims the callbacks read and write; `name` and `email`
      stand for the claims the library fills in itself. */
  datatype Token = Token(name: Option<string>, email: Option<string>, id: Option<string>, role: Option<Role>)

  datatype SessionUser = SessionUser(name: Option<string>, email: Option<string>, id: Option<string>, role: Option<Role>)
  datatype Session = Session(user: Option<SessionUser>)

  /** The display name of a row: first and last name with one space
      between. */
  function DisplayName(u: User): string {
    u.firstName + " " + u.lastName
  }

  /** `authorize(credentials)`. It succeeds exactly when both fields are
      present and non-empty, a row has that email, the row has a non-empty
      hashed password and `compare` accepts the password against it; the
      result then carries that row's id, email and role and its display
      name. */
  function Authorize(creds: Credentials, store: UserStore, compare: (string, string) -> bool): (r: Option<AuthUser>)
    ensures !Truthy(creds.email) || !Truthy(creds.password) ==> r.None?
    ensures r.Some? <==>
      && Truthy(creds.email) && Truthy(creds.password)
      && creds.email.value in store
      && Truthy(store[creds.email.value].hashedPassword)
      && compare(creds.password.value, store[creds.email.value].hashedPassword.value)
    ensures r.Some? ==>
      var u := store[creds.email.value];
      r.value == AuthUser(u.id, u.email, u.firstName + " " + u.lastName, u.role)
  {
    if !Truthy(creds.email) || !Truthy(creds.password) then None
    else
      match FindUnique(store, creds.email.value)
      case None => None
      case Some(user) =>
        if !Truthy(user.hashedPassword) then None
        else if !compare(creds.password.value, user.hashedPassword.value) then None
        else Some(AuthUser(user.id, user.email, DisplayName(user), user.role))
  }

  /** The `jwt` callback: with a user (at sign-in) the token takes its id and
      role; without one (on every later request) the token is returned
      unchanged. The other claims are never touched. */
  function Jwt(token: Token, user: Option<AuthUser>): (t: Token)
    ensures user.None? ==> t == token
    ensures user.Some? ==> t.id == Some(user.value.id) && t.role == Some(user.value.role)
    ensures t.name == token.name && t.email == token.email
  {
    if user.Some? then token.(id := Some(user.value.id), role := Some(user.value.role)) else token
  }

  /** The `session` callback: a session with a user takes the token's id
      and role; a session without one is returned unchanged. */
  function SessionFor(session: Session, token: Token): (s: Session)
    ensures session.user.None? ==> s == session
    ensures session.user.Some? ==>
      && s.user.Some?
      && s.user.value.id == token.id && s.user.value.role == token.role
      && s.user.value.name == session.user.value.name && s.user.value.email == session.user.value.email
  {
    match session.user
    case None => session
    case Some(u) => Session(Some(u.(id := token.id, role := token.role)))
  }

  /** After a successful sign-in, the session built on the token carries the
      signed-in row's id and role, and still carries them on a later
      request, when the callback runs again without a user. */
  lemma SignedInSessionCarriesUser(
    creds: Credentials, store: UserStore, compare: (string, string) -> bool,
    token: Token, session: Session)
    requires Authorize(creds, store, compare).Some?
    requires session.user.Some?
    ensures var u := store[creds.email.value];
      var signedIn := Jwt(token, Authorize(creds, store, compare));
      && SessionFor(session, signedIn).user.value.id == Some(u.id)
      && SessionFor(session, signedIn).user.value.role == Some(u.role)
      && SessionFor(session, Jwt(signedIn, None)).user.value.id == Some(u.id)
      && SessionFor(session, Jwt(signedIn, None)).user.value.role == Some(u.role)
  {
  }

  /** The role a signed-in session carries decides the permission checks
      made with it: a permission is held exactly when the signed-in row's
      role lists it in the permission table. */
  lemma SignedInPermissions(
    creds: Credentials, store: UserStore, compare: (string, string) -> bool,
    token: Token, session: Session, p: Permission)
    requires Authorize(creds, store, compare).Some?
    requires session.user.Some?
    ensures var signedIn := Jwt(token, Authorize(creds, store, compare));
      var role := SessionFor(session, Jwt(signedIn, None)).user.value.role;
      HasPermission(role, p) <==> p in RolePermissions(store[creds.email.value].role)
  {
    SignedInSessionCarriesUser(creds, store, compare, token, session);
  }
}
