/** Login and the per-request authentication gate of the ticket backend.
    Password hashing (bcrypt) and token signing (JWT) are foreign code: they
    enter as function parameters `verify`, `encode` and `decode`, about which
    nothing is assumed beyond their types. The clock enters as `now`, in
    seconds. */
module Auth {
  import opened Http

  /** A stored user document: its name, its password digest and its role. */
  datatype User = User(name: string, passwordHash: string, role: string)

  /** The users collection, looked up by the `name` field. */
  type Users = map<string, User>

  /** A value inside a token payload: a string claim, or a JWT NumericDate
      (seconds since the epoch) such as `exp`. */
  datatype ClaimValue = Text(text: string) | NumericDate(seconds: int)

  /** A token payload: claim names to claim values. */
  type Claims = map<string, ClaimValue>

  /** Lifetime of a token when the caller gives none: 30 minutes. */
  const DefaultLifetime := 30 * 60

  /** Every user document is filed under its own name. */
  ghost predicate WellKeyed(users: Users)
  {
    forall n :: n in users ==> users[n].name == n
  }

  /** The user named `username` if it exists and `password` verifies against
      its stored digest; otherwise nothing. */
  function AuthenticateUser(users: Users, username: string, password: string,
                            verify: (string, string) -> bool): (r: Option<User>)
    ensures r.Some? <==> username in users && verify(password, users[username].passwordHash)
    ensures r.Some? ==> r.value == users[username]
  {
    if username in users && verify(password, users[username].passwordHash)
    then Some(users[username])
    else None
  }

  /** The payload a token is signed over: a copy of `data` with `exp` set to
      `now` plus the lifetime. A missing lifetime, and a zero one (a zero
      timedelta is false in Python), both mean the default lifetime. */
  function CreateAccessToken(data: Claims, now: int, expiresDelta: Option<int>): (payload: Claims)
    ensures payload.Keys == data.Keys + {"exp"}
    ensures forall k :: k in data && k != "exp" ==> payload[k] == data[k]
    ensures expiresDelta.None? ==> payload["exp"] == NumericDate(now + DefaultLifetime)
    ensures expiresDelta == Some(0) ==> payload["exp"] == NumericDate(now + DefaultLifetime)
    ensures expiresDelta.Some? && expiresDelta.value != 0 ==>
              payload["exp"] == NumericDate(now + expiresDelta.value)
  {
    var lifetime := if expiresDelta.None? || expiresDelta.value == 0
                    then DefaultLifetime else expiresDelta.value;
    data["exp" := NumericDate(now + lifetime)]
  }

  /** The payload of the token issued at login: the user's name as subject,
      the user's role, and an expiry 30 minutes after `now`. */
  function LoginClaims(user: User, now: int): (payload: Claims)
    ensures payload.Keys == {"sub", "role", "exp"}
    ensures payload["sub"] == Text(user.name)
    ensures payload["role"] == Text(user.role)
    ensures payload["exp"] == NumericDate(now + DefaultLifetime)
  {
    CreateAccessToken(map["sub" := Text(user.name), "role" := Text(user.role)], now, None)
  }

  /** The body of a successful login response. */
  datatype LoginResponse = LoginResponse(accessToken: string, tokenType: string, role: string)

  /** The login route: a bearer token for a user whose password verifies,
      and a 400 for an unknown name or a wrong password alike. */
  function Login(users: Users, username: string, password: string,
                 verify: (string, string) -> bool, encode: Claims -> string,
                 now: int): (r: Result<LoginResponse>)
    ensures r.Ok? <==> AuthenticateUser(users, username, password, verify).Some?
    ensures r.Err? ==> r.error == IncorrectLogin
    ensures r.Ok? ==> r.value.tokenType == "bearer" && r.value.role == users[username].role
    ensures r.Ok? ==> r.value.accessToken == encode(LoginClaims(users[username], now))
  {
    match AuthenticateUser(users, username, password, verify)
    case None => Err(IncorrectLogin)
    case Some(user) =>
      Ok(LoginResponse(encode(LoginClaims(user, now)), "bearer", user.role))
  }

  /** The `sub` claim of a payload when it is a string. */
  function Subject(payload: Claims): Option<string>
  {
    if "sub" in payload && payload["sub"].Text? then Some(payload["sub"].text) else None
  }

  /** The authentication gate: the stored user named by the token's subject.
      The role used for authorisation is the stored one; the token's own
      `role` claim plays no part. */
  function GetCurrentUser(users: Users, token: string, decode: string -> Option<Claims>): (r: Result<User>)
    ensures decode(token).None? ==> r == Err(InvalidToken)
    ensures r.Err? ==> r.error.status == 401
    ensures decode(token).Some? && r.Err? ==> r == Err(InvalidCredentials)
    ensures r.Ok? <==> decode(token).Some? && Subject(decode(token).value).Some?
                       && Subject(decode(token).value).value in users
    ensures r.Ok? ==> r.value == users[Subject(decode(token).value).value]
  {
    match decode(token)
    case None => Err(InvalidToken)
    case Some(payload) =>
      match Subject(payload)
      case None => Err(InvalidCredentials)
      case Some(username) =>
        if username in users then Ok(users[username]) else Err(InvalidCredentials)
  }

  /** A token issued by login and accepted by the token library authenticates
      the user who logged in, with that user's stored role. */
  lemma LoginThenAuthenticate(users: Users, username: string, password: string,
                              verify: (string, string) -> bool, encode: Claims -> string,
                              decode: string -> Option<Claims>, now: int)
    requires WellKeyed(users)
    requires Login(users, username, password, verify, encode, now).Ok?
    requires decode(Login(users, username, password, verify, encode, now).value.accessToken)
             == Some(LoginClaims(users[username], now))
    ensures GetCurrentUser(users, Login(users, username, password, verify, encode, now).value.accessToken, decode)
            == Ok(users[username])
    ensures users[username].role == Login(users, username, password, verify, encode, now).value.role
  {
  }

  /** Two payloads that differ only in their `role` claim authenticate the
      same way: the gate never reads that claim. */
  lemma GateIgnoresRoleClaim(users: Users, decode: string -> Option<Claims>,
                             token: string, forged: string, role: ClaimValue)
    requires decode(token).Some?
    requires decode(forged) == Some(decode(token).value["role" := role])
    ensures GetCurrentUser(users, forged, decode) == GetCurrentUser(users, token, decode)
  {
  }

  /** A later change of the stored role is what the gate reports, whatever
      role the token was issued with. */
  lemma GateUsesStoredRole(users: Users, decode: string -> Option<Claims>, token: string,
                           name: string, newRole: string)
    requires name in users
    requires decode(token).Some? && Subject(decode(token).value) == Some(name)
    ensures GetCurrentUser(users[name := users[name].(role := newRole)], token, decode).Ok?
    ensures GetCurrentUser(users[name := users[name].(role := newRole)], token, decode).value.role == newRole
  {
  }
}
