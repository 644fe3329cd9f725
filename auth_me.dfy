/** `GET /api/auth/me` (src/app/api/auth/me/route.ts): read the `token` cookie, verify it,
    and answer with the user its `userId` names. Every exception (a rejected token, a
    failing query) lands in the same catch, which answers 401. The handler only reads the
    users table. */
module MeRoute {
  import opened Js
  import opened Http
  import opened Jwt
  import opened Database

  const NotLoggedIn := "Chưa đăng nhập"
  const UnknownUser := "Người dùng không tồn tại"
  const InvalidToken := "Token không hợp lệ"

  /** `token` is the value of the `token` cookie, if any. */
  function Me(s: Snapshot, token: Option<string>, now: nat, secret: string, mac: Mac): (r: Response<PublicUser>)
    ensures r.status in {200, 401, 404} && r.cookie.None?
    ensures r == Error(401, NotLoggedIn) <==> !Truthy(token)
    ensures r == Error(401, InvalidToken) <==>
              Truthy(token) && (Verify(token.value, secret, now, mac).Rejected? || !s.up)
    ensures r.status == 404 <==>
              Truthy(token) && s.up && Verify(token.value, secret, now, mac).Verified? &&
              FindUserById(s.users, Verify(token.value, secret, now, mac).claims.userId).None?
    ensures r.status == 404 ==> r == Error(404, UnknownUser)
    ensures r.status == 200 <==>
              Truthy(token) && s.up && Verify(token.value, secret, now, mac).Verified? &&
              FindUserById(s.users, Verify(token.value, secret, now, mac).claims.userId).Some?
    ensures r.status == 200 ==>
              r == Ok(200, Profile(FindUserById(s.users, Verify(token.value, secret, now, mac).claims.userId).value))
    ensures r.status == 200 ==>
              Truthy(token) && s.up && Verify(token.value, secret, now, mac).Verified? &&
              exists u :: u in s.users && u.id == Verify(token.value, secret, now, mac).claims.userId &&
                          r.body == Success(Profile(u))
  {
    if !Truthy(token) then Error(401, NotLoggedIn)
    else
      match Verify(token.value, secret, now, mac)
      case Rejected(_) => Error(401, InvalidToken)
      case Verified(claims) =>
        if !s.up then Error(401, InvalidToken)
        else
          match FindUserById(s.users, claims.userId)
          case None => Error(404, UnknownUser)
          case Some(u) => Ok(200, Profile(u))
  }

  /** Each way `jwt.verify` can fail gives the same 401 answer. */
  lemma RejectedTokensLookAlike(s: Snapshot, t1: string, t2: string, now: nat, secret: string, mac: Mac)
    requires t1 != "" && t2 != ""
    requires Verify(t1, secret, now, mac).Rejected? && Verify(t2, secret, now, mac).Rejected?
    ensures Me(s, Some(t1), now, secret, mac) == Me(s, Some(t2), now, secret, mac) ==
            Error(401, InvalidToken)
  {
  }
}
