/** How the three authentication handlers fit together: an account made by `register`
    can log in with the same password, a second registration under the same email is
    refused, and the token either handler issues is resolved by `me` to the same user
    for seven days. */
module Session {
  import opened Js
  import opened Http
  import opened Bcrypt
  import opened Jwt
  import opened Database
  import opened LoginRoute
  import opened MeRoute
  import opened RegisterRoute

  /** The credentials of a registration, as a login body. */
  function CredentialsOf(b: RegisterBody): LoginBody {
    LoginBody(b.email, b.password)
  }

  /** After a successful registration, logging in with the same email and password
      succeeds, as the new user. */
  lemma RegisterThenLogin(s: Snapshot, body: RegisterBody, salt: nat, now: nat, later: nat,
                          secret: string, mac: Mac, production: bool)
    requires RegisterSpec(s, Some(body), salt, now, secret, mac, production).0.status == 201
    ensures var s' := RegisterSpec(s, Some(body), salt, now, secret, mac, production).1;
            var r := Login(s', Some(CredentialsOf(body)), later, secret, mac, production);
            r.status == 200 && r.body.data.user.id == s.nextUserId &&
            r.body.data.user.role == "user"
  {
    var s' := RegisterSpec(s, Some(body), salt, now, secret, mac, production).1;
    var u := s'.users[|s.users|];
    assert s'.users == s.users + [u];
    FindAppended(s.users, UserEmail, u);
  }

  /** Once an email is registered, registering it again is refused with 409 and changes
      nothing, whatever the other fields say. */
  lemma SecondRegistrationConflicts(s: Snapshot, body: RegisterBody, again: RegisterBody,
                                    salt: nat, salt2: nat, now: nat, now2: nat,
                                    secret: string, mac: Mac, production: bool)
    requires RegisterSpec(s, Some(body), salt, now, secret, mac, production).0.status == 201
    requires again.email == body.email
    requires Truthy(again.password) && Truthy(again.fullName)
    ensures var s' := RegisterSpec(s, Some(body), salt, now, secret, mac, production).1;
            RegisterSpec(s', Some(again), salt2, now2, secret, mac, production) ==
              (Error(409, EmailTaken), s')
  {
    var s' := RegisterSpec(s, Some(body), salt, now, secret, mac, production).1;
    var u := s'.users[|s.users|];
    assert s'.users == s.users + [u];
    FindAppended(s.users, UserEmail, u);
  }

  /** The users table keeps unique emails and SERIAL ids across a registration. */
  lemma RegisterKeepsTableValid(s: Snapshot, body: Option<RegisterBody>, salt: nat, now: nat,
                                secret: string, mac: Mac, production: bool)
    requires UniqueEmails(s.users) && SerialIds(UserIds(s.users), s.nextUserId)
    ensures var s' := RegisterSpec(s, body, salt, now, secret, mac, production).1;
            UniqueEmails(s'.users) && SerialIds(UserIds(s'.users), s'.nextUserId)
  {
    var r := RegisterSpec(s, body, salt, now, secret, mac, production);
    if r.0.status == 201 {
      var u := r.1.users[|s.users|];
      assert r.1.users == s.users + [u];
      AppendUserKeepsValid(s.users, s.nextUserId, u);
    }
  }

  /** The token from a successful login opens `me` as the logged-in user until seven days
      after the login, and is refused as invalid from then on. */
  lemma LoginThenMe(s: Snapshot, body: LoginBody, now: nat, later: nat, secret: string,
                    mac: Mac, production: bool)
    requires SerialIds(UserIds(s.users), s.nextUserId)
    requires Login(s, Some(body), now, secret, mac, production).status == 200
    ensures var token := Login(s, Some(body), now, secret, mac, production).body.data.token;
            var u := Authenticate(s.users, body.email.value, body.password.value).value;
            Me(s, Some(token), later, secret, mac) ==
              if later < now + ExpiresIn then Ok(200, Profile(u)) else Error(401, InvalidToken)
  {
    var token := Login(s, Some(body), now, secret, mac, production).body.data.token;
    var u := Authenticate(s.users, body.email.value, body.password.value).value;
    LoginTokenVerifies(s, Some(body), now, later, secret, mac, production);
    assert '.' in token by {
      SplitSigned(EncodePayload(Payload(Claims(u.id, u.email, u.role), now, now + ExpiresIn)),
                  mac(secret, EncodePayload(Payload(Claims(u.id, u.email, u.role), now, now + ExpiresIn))));
    }
    var k :| 0 <= k < |s.users| && s.users[k] == u;
    FindStoredId(s.users, s.nextUserId, k);
  }

  /** The token from a successful registration opens `me` as the new user until seven days
      after the registration. */
  lemma RegisterThenMe(s: Snapshot, body: RegisterBody, salt: nat, now: nat, later: nat,
                       secret: string, mac: Mac, production: bool)
    requires SerialIds(UserIds(s.users), s.nextUserId)
    requires RegisterSpec(s, Some(body), salt, now, secret, mac, production).0.status == 201
    ensures var r := RegisterSpec(s, Some(body), salt, now, secret, mac, production);
            var u := r.1.users[|s.users|];
            Me(r.1, Some(r.0.body.data.token), later, secret, mac) ==
              if later < now + ExpiresIn then Ok(200, Profile(u)) else Error(401, InvalidToken)
  {
    var r := RegisterSpec(s, Some(body), salt, now, secret, mac, production);
    var u := r.1.users[|s.users|];
    assert r.1.users == s.users + [u];
    var claims := Claims(u.id, u.email, u.role);
    var payload := EncodePayload(Payload(claims, now, now + ExpiresIn));
    assert r.0.body.data.token == Sign(claims, now, secret, mac);
    SignThenVerify(claims, now, later, secret, mac);
    SplitSigned(payload, mac(secret, payload));
    NextIdIsFree(s.users, s.nextUserId);
    FindAppended(s.users, UserId, u);
  }
}
