/** `POST /api/auth/login` (src/app/api/auth/login/route.ts): check that both credentials
    were sent, look the email up, compare the password with the stored hash, and on success
    answer with the user (without its hash) and a fresh session token, which is also set as
    the `token` cookie. The handler only reads the users table, so it is a function of a
    database snapshot. */
module LoginRoute {
  import opened Js
  import opened Http
  import opened Bcrypt
  import opened Jwt
  import opened Database

  /** The parsed JSON body, its fields absent when missing. `None` when the body cannot be
      parsed or is `null`, so that destructuring it throws. */
  datatype LoginBody = LoginBody(email: Option<string>, password: Option<string>)

  /** The selected columns `id, email, full_name, role, position, avatar_url`, with
      `password_hash` taken out. */
  datatype LoginUser = LoginUser(id: nat, email: string, fullName: string, role: string,
                                 position: Option<string>, avatarUrl: Option<string>)

  const MissingCredentials := "Email và mật khẩu là bắt buộc"
  const InvalidCredentials := "Email hoặc mật khẩu không đúng"
  const LoginFailed := "Đã xảy ra lỗi khi đăng nhập"

  /** The row as the answer carries it: its selected columns, and nothing of its hash. */
  function WithoutPassword(u: UserRow): (l: LoginUser)
    ensures l.id == u.id && l.email == u.email && l.fullName == u.fullName && l.role == u.role
    ensures l.position == u.position && l.avatarUrl == u.avatarUrl
  {
    LoginUser(u.id, u.email, u.fullName, u.role, u.position, u.avatarUrl)
  }

  /** Two rows that differ only in their hash or their timestamps give the same answer. */
  lemma HashIsNotAnswered(u: UserRow, h: Digest, createdAt: Date, updatedAt: Date)
    ensures WithoutPassword(u.(passwordHash := h, createdAt := createdAt, updatedAt := updatedAt)) ==
            WithoutPassword(u)
  {
  }

  /** Neither `!email` nor `!password` holds. */
  predicate HasCredentials(body: Option<LoginBody>) {
    body.Some? && Truthy(body.value.email) && Truthy(body.value.password)
  }

  /** The stored user the credentials belong to, if the email is known and the password matches. */
  function Authenticate(users: seq<UserRow>, email: string, password: string): (r: Option<UserRow>)
    ensures r.Some? <==> FindUserByEmail(users, email).Some? &&
                         Compare(password, FindUserByEmail(users, email).value.passwordHash)
    ensures r.Some? ==> r.value in users && r.value.email == email
  {
    match FindUserByEmail(users, email)
    case None => None
    case Some(u) => if Compare(password, u.passwordHash) then Some(u) else None
  }

  function Login(s: Snapshot, body: Option<LoginBody>, now: nat, secret: string, mac: Mac,
                 production: bool): (r: Response<AuthData<LoginUser>>)
    ensures r.status in {200, 400, 401, 500}
    ensures r.status == 400 <==> body.Some? && !HasCredentials(body)
    ensures r.status == 400 ==> r == Error(400, MissingCredentials)
    ensures r.status == 500 <==> body.None? || (HasCredentials(body) && !s.up)
    ensures r.status == 500 ==> r == Error(500, LoginFailed)
    ensures r.status == 401 ==> r == Error(401, InvalidCredentials)
    ensures r.status == 200 <==>
              HasCredentials(body) && s.up &&
              Authenticate(s.users, body.value.email.value, body.value.password.value).Some?
    ensures r.status == 200 ==>
              r.body.Success? &&
              r.body.data.user ==
                WithoutPassword(Authenticate(s.users, body.value.email.value, body.value.password.value).value) &&
              r.cookie == Some(SessionCookie(r.body.data.token, production))
    ensures r.status != 200 ==> r.cookie.None?
  {
    match body
    case None => Error(500, LoginFailed)
    case Some(b) =>
      if !Truthy(b.email) || !Truthy(b.password) then Error(400, MissingCredentials)
      else if !s.up then Error(500, LoginFailed)
      else
        match FindUserByEmail(s.users, b.email.value)
        case None => Error(401, InvalidCredentials)
        case Some(u) =>
          if !Compare(b.password.value, u.passwordHash) then Error(401, InvalidCredentials)
          else
            var token := Sign(Claims(u.id, u.email, u.role), now, secret, mac);
            Response(200, Success(AuthData(WithoutPassword(u), token)),
                     Some(SessionCookie(token, production)))
  }

  /** An unknown email and a wrong password for a known one get the very same answer, so a
      caller cannot tell which accounts exist. */
  lemma UnknownEmailAndWrongPasswordLookAlike(s: Snapshot, unknown: string, known: string,
                                              wrong: string, password: string, now: nat,
                                              secret: string, mac: Mac, production: bool)
    requires s.up && unknown != "" && known != "" && wrong != "" && password != ""
    requires FindUserByEmail(s.users, unknown).None?
    requires FindUserByEmail(s.users, known).Some?
    requires !Compare(wrong, FindUserByEmail(s.users, known).value.passwordHash)
    ensures Login(s, Some(LoginBody(Some(unknown), Some(password))), now, secret, mac, production) ==
            Login(s, Some(LoginBody(Some(known), Some(wrong))), now, secret, mac, production)
    ensures Login(s, Some(LoginBody(Some(unknown), Some(password))), now, secret, mac, production) ==
            Error(401, InvalidCredentials)
  {
  }

  /** The token a successful login hands out names the user it authenticated, and
      verifies under the server's key for seven days from the login. */
  lemma LoginTokenVerifies(s: Snapshot, body: Option<LoginBody>, now: nat, later: nat,
                           secret: string, mac: Mac, production: bool)
    requires Login(s, body, now, secret, mac, production).status == 200
    ensures var r := Login(s, body, now, secret, mac, production);
            var u := Authenticate(s.users, body.value.email.value, body.value.password.value).value;
            Verify(r.body.data.token, secret, later, mac) ==
              if later < now + ExpiresIn then Verified(Claims(u.id, u.email, u.role))
              else Rejected(Expired)
  {
    var u := Authenticate(s.users, body.value.email.value, body.value.password.value).value;
    SignThenVerify(Claims(u.id, u.email, u.role), now, later, secret, mac);
  }
}
