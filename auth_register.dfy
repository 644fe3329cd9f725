/** `POST /api/auth/register` (src/app/api/auth/register/route.ts): check the required
    fields, refuse an email that is already taken, store the new user with the role 'user'
    and a bcrypt hash of the password, and answer 201 with the new user and a session token,
    which is also set as the `token` cookie.

    `RegisterSpec` states the outcome on a database snapshot; the method `Register` performs
    it on a `Db`, checking and then inserting as the handler does. */
module RegisterRoute {
  import opened Js
  import opened Http
  import opened Bcrypt
  import opened Jwt
  import opened Database

  /** The parsed JSON body, its fields absent when missing. `None` when the body cannot be
      parsed or is `null`, so that destructuring it throws. */
  datatype RegisterBody = RegisterBody(email: Option<string>, password: Option<string>,
                                       fullName: Option<string>, position: Option<string>)

  const MissingFields := "Email, mật khẩu và họ tên là bắt buộc"
  const EmailTaken := "Email đã được sử dụng"
  const RegistrationFailed := "Đã xảy ra lỗi khi đăng ký"

  /** None of `!email`, `!password`, `!full_name` holds. */
  predicate HasFields(body: Option<RegisterBody>) {
    body.Some? && Truthy(body.value.email) && Truthy(body.value.password) && Truthy(body.value.fullName)
  }

  /** The response and the database after the handler, from the database before it.
      `salt` is the salt bcrypt draws; `now` is the time of the request. */
  function RegisterSpec(s: Snapshot, body: Option<RegisterBody>, salt: nat, now: nat,
                        secret: string, mac: Mac, production: bool)
    : (r: (Response<AuthData<PublicUser>>, Snapshot))
    ensures r.0.status in {201, 400, 409, 500}
    ensures r.0.status == 400 <==> body.Some? && !HasFields(body)
    ensures r.0.status == 400 ==> r.0 == Error(400, MissingFields)
    ensures r.0.status == 500 <==> body.None? || (HasFields(body) && !s.up)
    ensures r.0.status == 500 ==> r.0 == Error(500, RegistrationFailed)
    ensures r.0.status == 409 <==>
              HasFields(body) && s.up && FindUserByEmail(s.users, body.value.email.value).Some?
    ensures r.0.status == 409 ==> r.0 == Error(409, EmailTaken)
    ensures r.0.status != 201 ==> r.1 == s
    ensures r.0.status == 201 ==>
              HasFields(body) && s.up &&
              |r.1.users| == |s.users| + 1 && r.1.users[..|s.users|] == s.users &&
              r.1 == s.(users := r.1.users, nextUserId := s.nextUserId + 1) &&
              var u := r.1.users[|s.users|];
              u.id == s.nextUserId && u.email == body.value.email.value &&
              u.fullName == body.value.fullName.value && u.role == "user" &&
              u.position == OrNull(body.value.position) && u.avatarUrl.None? &&
              Compare(body.value.password.value, u.passwordHash) &&
              r.0.body.Success? && r.0.body.data.user == Profile(u) &&
              r.0.cookie == Some(SessionCookie(r.0.body.data.token, production))
  {
    match body
    case None => (Error(500, RegistrationFailed), s)
    case Some(b) =>
      if !Truthy(b.email) || !Truthy(b.password) || !Truthy(b.fullName) then
        (Error(400, MissingFields), s)
      else if !s.up then (Error(500, RegistrationFailed), s)
      else if FindUserByEmail(s.users, b.email.value).Some? then (Error(409, EmailTaken), s)
      else
        var u := UserRow(s.nextUserId, b.email.value, Hash(b.password.value, salt), b.fullName.value,
                         "user", None, OrNull(b.position), now, now);
        var token := Sign(Claims(u.id, u.email, u.role), now, secret, mac);
        assert (s.users + [u])[..|s.users|] == s.users;
        (Response(201, Success(AuthData(Profile(u), token)), Some(SessionCookie(token, production))),
         s.(users := s.users + [u], nextUserId := s.nextUserId + 1))
  }

  /** The handler itself, on a live database. */
  method Register(db: Db, body: Option<RegisterBody>, salt: nat, now: nat, secret: string,
                  mac: Mac, production: bool) returns (r: Response<AuthData<PublicUser>>)
    requires db.Valid()
    modifies db
    ensures db.Valid()
    ensures (r, db.Contents()) == RegisterSpec(old(db.Contents()), body, salt, now, secret, mac, production)
  {
    if body.None? {
      return Error(500, RegistrationFailed);
    }
    var b := body.value;
    if !Truthy(b.email) || !Truthy(b.password) || !Truthy(b.fullName) {
      return Error(400, MissingFields);
    }
    if !db.up {
      return Error(500, RegistrationFailed);
    }
    if FindUserByEmail(db.users, b.email.value).Some? {
      return Error(409, EmailTaken);
    }
    var passwordHash := Hash(b.password.value, salt);
    var user := db.InsertUser(b.email.value, passwordHash, b.fullName.value, "user",
                              OrNull(b.position), None, now);
    var token := Sign(Claims(user.id, user.email, user.role), now, secret, mac);
    r := Response(201, Success(AuthData(Profile(user), token)), Some(SessionCookie(token, production)));
  }
}
