/** The auth service (services/auth-service/app.py): the user table,
    registration and login outcome rules, bearer-token extraction, the
    profile lookup and the admin-only user listing. bcrypt and JWT are opaque
    functions passed in; salts, the clock and the token lifetime are parameters. */
module AuthService {
  import opened Common

  datatype User = User(username: string, passwordHash: string, email: string, role: string,
                       createdAt: Option<string>)

  /** The JSON body of /register and /login; `None` is an absent key. */
  datatype Credentials = Credentials(username: Option<string>, password: Option<string>,
                                     email: Option<string>, role: Option<string>)

  /** `not data or not data.get('username') or not data.get('password')` */
  predicate MissingCredentials(data: Option<Credentials>) {
    data.None? || !Given(data.value.username) || !Given(data.value.password)
  }

  // ---------------------------------------------------------------------
  // Login
  // ---------------------------------------------------------------------

  /** The claims a token carries; `exp` in seconds since the epoch. */
  datatype Claims = Claims(username: string, role: string, exp: int)

  datatype Session = Session(token: string, username: string, role: string, expiresIn: int)

  /** POST /login. Unknown user and wrong password give the same 401 reply;
      a session carries the stored role and lasts `hours` hours. */
  function Login(users: map<string, User>, data: Option<Credentials>, checkpw: (string, string) -> bool,
                 sign: Claims -> string, now: int, hours: int): (r: Reply<Session>)
    ensures MissingCredentials(data) ==> r == Error(400, "Username and password required")
    ensures !MissingCredentials(data) && data.value.username.value !in users ==>
              r == Error(401, "Invalid credentials")
    ensures r.Ok? <==> !MissingCredentials(data) && data.value.username.value in users
                       && checkpw(data.value.password.value, users[data.value.username.value].passwordHash)
    ensures r.Err? && r.status == 401 ==> r == Error(401, "Invalid credentials")
    ensures r.Ok? ==>
              var u := users[data.value.username.value];
              && r.status == 200
              && r.value.username == data.value.username.value && r.value.role == u.role
              && r.value.expiresIn == hours * 3600
              && r.value.token == sign(Claims(data.value.username.value, u.role, now + hours * 3600))
  {
    if MissingCredentials(data) then Error(400, "Username and password required")
    else
      var username := data.value.username.value;
      var password := data.value.password.value;
      if username !in users then Error(401, "Invalid credentials")
      else
        var user := users[username];
        if !checkpw(password, user.passwordHash) then Error(401, "Invalid credentials")
        else
          var token := sign(Claims(username, user.role, now + hours * 3600));
          Ok(200, Session(token, username, user.role, hours * 3600))
  }

  // ---------------------------------------------------------------------
  // Tokens: the Authorization header
  // ---------------------------------------------------------------------

  /** The token in an Authorization header: `None` when the header is absent
      or empty, the rest after a leading 'Bearer ', else the header verbatim. */
  function BearerToken(header: Option<string>): (t: Option<string>)
    ensures t.None? <==> !Given(header)
    ensures t.Some? && StartsWith(header.value, "Bearer ") ==> "Bearer " + t.value == header.value
    ensures t.Some? && !StartsWith(header.value, "Bearer ") ==> t.value == header.value
  {
    if !Given(header) then None
    else if StartsWith(header.value, "Bearer ") then Some(header.value[7..])
    else Some(header.value)
  }

  /** How `jwt.decode` went. */
  datatype Decoded = Decoded(claims: Claims) | Expired | InvalidToken

  /** The `token_required` decorator: the current user's name, or a 401. */
  function Authenticate(header: Option<string>, decode: string -> Decoded): (r: Reply<string>)
    ensures !Given(header) ==> r == Error(401, "Token is missing")
    ensures r.Ok? <==> Given(header) && decode(BearerToken(header).value).Decoded?
    ensures r.Ok? ==> r.status == 200 && r.value == decode(BearerToken(header).value).claims.username
    ensures r.Err? ==> r.status == 401
  {
    match BearerToken(header)
    case None => Error(401, "Token is missing")
    case Some(token) =>
      match decode(token)
      case Expired => Error(401, "Token has expired")
      case InvalidToken => Error(401, "Invalid token")
      case Decoded(claims) => Ok(200, claims.username)
  }

  function Invalid(msg: string): Json {
    JObj([("valid", JBool(false)), ("error", JStr(msg))])
  }

  /** POST /validate: the claims of a good token, else a 401 with `valid: false`. */
  function ValidateToken(header: Option<string>, decode: string -> Decoded): (r: Reply<Json>)
    ensures !Given(header) ==> r == Err(401, Invalid("Token missing"))
    ensures r.Ok? <==> Authenticate(header, decode).Ok?
    ensures r.Ok? <==> Given(header) && decode(BearerToken(header).value).Decoded?
    ensures r.Ok? ==>
              var c := decode(BearerToken(header).value).claims;
              r == Ok(200, JObj([("valid", JBool(true)), ("username", JStr(c.username)), ("role", JStr(c.role))]))
    ensures r.Err? ==> r.status == 401
  {
    match BearerToken(header)
    case None => Err(401, Invalid("Token missing"))
    case Some(token) =>
      match decode(token)
      case Expired => Err(401, Invalid("Token expired"))
      case InvalidToken => Err(401, Invalid("Invalid token"))
      case Decoded(claims) =>
        Ok(200, JObj([("valid", JBool(true)), ("username", JStr(claims.username)), ("role", JStr(claims.role))]))
  }

  // ---------------------------------------------------------------------
  // Profile and the admin listing
  // ---------------------------------------------------------------------

  datatype Profile = Profile(username: string, email: string, role: string, createdAt: string)

  /** GET /profile: 404 when the token's user is not in the table. */
  function GetProfile(users: map<string, User>, header: Option<string>, decode: string -> Decoded): (r: Reply<Profile>)
    ensures Authenticate(header, decode).Err? ==> r == Err(401, Authenticate(header, decode).body)
    ensures Authenticate(header, decode).Ok? && Authenticate(header, decode).value !in users ==>
              r == Error(404, "User not found")
    ensures r.Ok? ==>
              var name := Authenticate(header, decode).value;
              name in users && r.status == 200
              && r.value == Profile(users[name].username, users[name].email, users[name].role,
                                    GetOr(users[name].createdAt, ""))
  {
    match Authenticate(header, decode)
    case Err(status, body) => Err(status, body)
    case Ok(_, name) =>
      if name !in users then Error(404, "User not found")
      else
        var u := users[name];
        Ok(200, Profile(u.username, u.email, u.role, GetOr(u.createdAt, "")))
  }

  /** What the listing exposes of a user: no password hash. */
  datatype UserView = UserView(username: string, email: string, role: string)

  function View(u: User): UserView {
    UserView(u.username, u.email, u.role)
  }

  /** GET /users over the table `users` whose keys in insertion order are
      `order`. Non-admins get 403; a token naming no stored user raises a
      KeyError in the source, answered 500 by the service's error handler. */
  function ListUsers(users: map<string, User>, order: seq<string>, header: Option<string>,
                     decode: string -> Decoded): (r: Reply<seq<UserView>>)
    requires forall k :: k in order ==> k in users
    ensures Authenticate(header, decode).Err? ==> r == Err(401, Authenticate(header, decode).body)
    ensures Authenticate(header, decode).Ok? ==>
              var name := Authenticate(header, decode).value;
              && (name !in users ==> r == Error(500, "Internal server error"))
              && (name in users && users[name].role != "admin" ==> r == Error(403, "Unauthorized"))
              && (r.Ok? <==> name in users && users[name].role == "admin")
    ensures r.Ok? ==> r.status == 200 && |r.value| == |order|
                      && forall i :: 0 <= i < |order| ==> r.value[i] == View(users[order[i]])
  {
    match Authenticate(header, decode)
    case Err(status, body) => Err(status, body)
    case Ok(_, name) =>
      if name !in users then Error(500, "Internal server error")
      else if users[name].role != "admin" then Error(403, "Unauthorized")
      else Ok(200, seq(|order|, i requires 0 <= i < |order| => View(users[order[i]])))
  }

  // ---------------------------------------------------------------------
  // The user table
  // ---------------------------------------------------------------------

  class UserTable {
    /** The `users` dict, keyed by username. */
    var users: map<string, User>
    /** Its keys in insertion order (the order `users.values()` yields). */
    var order: seq<string>

    ghost predicate Valid()
      reads this
    {
      && (forall k :: k in order <==> k in users)
      && (forall i, j :: 0 <= i < j < |order| ==> order[i] != order[j])
      && (forall k :: k in users ==> users[k].username == k)
    }

    /** The two seeded accounts; their passwords are stored hashed with fresh salts. */
    constructor (hashpw: (string, string) -> string, salt1: string, salt2: string)
      ensures Valid()
      ensures order == ["admin", "user1"]
      ensures users == map["admin" := User("admin", hashpw("admin123", salt1), "admin@example.com", "admin", None),
                           "user1" := User("user1", hashpw("password123", salt2), "user1@example.com", "user", None)]
    {
      users := map["admin" := User("admin", hashpw("admin123", salt1), "admin@example.com", "admin", None),
                   "user1" := User("user1", hashpw("password123", salt2), "user1@example.com", "user", None)];
      order := ["admin", "user1"];
    }

    /** POST /register: 400 on missing fields and 409 for a taken name, with
        the table unchanged; otherwise exactly one entry added under the name,
        storing only the password's hash, with email '' and role 'user' by default. */
    method Register(data: Option<Credentials>, hashpw: (string, string) -> string, salt: string, now: string)
      returns (r: Reply<Json>)
      requires Valid()
      modifies this
      ensures Valid()
      ensures MissingCredentials(data) ==>
                r == Error(400, "Username and password required") && users == old(users) && order == old(order)
      ensures !MissingCredentials(data) && data.value.username.value in old(users) ==>
                r == Error(409, "User already exists") && users == old(users) && order == old(order)
      ensures !MissingCredentials(data) && data.value.username.value !in old(users) ==>
                var d := data.value;
                var name := d.username.value;
                && users == old(users)[name := User(name, hashpw(d.password.value, salt), GetOr(d.email, ""),
                                                    GetOr(d.role, "user"), Some(now))]
                && order == old(order) + [name]
                && r == Ok(201, JObj([("message", JStr("User registered successfully")), ("username", JStr(name))]))
    {
      if MissingCredentials(data) {
        return Error(400, "Username and password required");
      }
      var d := data.value;
      var name := d.username.value;
      if name in users {
        return Error(409, "User already exists");
      }
      users := users[name := User(name, hashpw(d.password.value, salt), GetOr(d.email, ""),
                                  GetOr(d.role, "user"), Some(now))];
      order := order + [name];
      r := Ok(201, JObj([("message", JStr("User registered successfully")), ("username", JStr(name))]));
    }
  }

  /** A user registered with some password can log in with it exactly when
      bcrypt's `checkpw` accepts that password against the hash stored for it. */
  lemma LoginAfterRegister(users: map<string, User>, name: string, password: string, email: Option<string>,
                           role: Option<string>, hashpw: (string, string) -> string, salt: string, created: string,
                           checkpw: (string, string) -> bool, sign: Claims -> string, now: int, hours: int)
    requires name != "" && password != ""
    ensures var table := users[name := User(name, hashpw(password, salt), GetOr(email, ""), GetOr(role, "user"), Some(created))];
            var r := Login(table, Some(Credentials(Some(name), Some(password), None, None)), checkpw, sign, now, hours);
            && (r.Ok? <==> checkpw(password, hashpw(password, salt)))
            && (r.Ok? ==> r.value.role == GetOr(role, "user") && r.value.expiresIn == hours * 3600)
  {
  }
}
