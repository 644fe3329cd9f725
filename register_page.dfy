/** The sign-up form (src/app/register/page.tsx): `handleSubmit` checks the two password
    fields, shapes the request body, and on the reply either stores the user and goes to the
    dashboard or shows an error. The reply of the request is a parameter; `localStorage`
    and the router are the fields `storedUser` and `location`. */
module RegisterPage {
  import opened Js
  import opened Database
  import RegisterRoute
  import Jwt

  /** `formData`. */
  datatype Form = Form(fullName: string, email: string, password: string,
                       confirmPassword: string, position: string)

  /** The JSON body sent to `POST /api/auth/register`; there is no confirmation field. */
  datatype SignupRequest = SignupRequest(email: string, password: string, fullName: string,
                                         position: Option<string>)

  const PasswordMismatch := "Mật khẩu xác nhận không khớp"
  const PasswordTooShort := "Mật khẩu phải có ít nhất 6 ký tự"
  const SignupFailed := "Đăng ký thất bại"
  const ConnectionFailed := "Không thể kết nối đến server"
  const MinPasswordLength := 6

  datatype Check = Rejected(message: string) | Send(request: SignupRequest)

  /** The checks before the request: the confirmation first, then the length; the body
      carries `position || null`. */
  function Validate(f: Form): (c: Check)
    ensures f.password != f.confirmPassword <==> c == Rejected(PasswordMismatch)
    ensures c == Rejected(PasswordTooShort) <==>
              f.password == f.confirmPassword && |f.password| < MinPasswordLength
    ensures c.Send? <==> f.password == f.confirmPassword && |f.password| >= MinPasswordLength
    ensures c.Send? ==> c.request == SignupRequest(f.email, f.password, f.fullName,
                                                  if f.position == "" then None else Some(f.position))
  {
    if f.password != f.confirmPassword then Rejected(PasswordMismatch)
    else if |f.password| < MinPasswordLength then Rejected(PasswordTooShort)
    else Send(SignupRequest(f.email, f.password, f.fullName, OrNull(Some(f.position))))
  }

  /** The reply: `{success: true, data: {user, token}}`, `{success: false, error}`, or none
      (the fetch or the JSON parse threw). */
  datatype SignupReply = Registered(user: PublicUser) | Refused(error: Option<string>) | NoConnection

  class SignupView {
    var error: string
    var loading: bool
    /** `localStorage.getItem('user')`, as the stored user. */
    var storedUser: Option<PublicUser>
    /** Where `router.push` last sent the page, if anywhere. */
    var location: Option<string>

    constructor ()
      ensures error == "" && !loading && storedUser.None? && location.None?
    {
      error, loading, storedUser, location := "", false, None, None;
    }

    /** `handleSubmit`. Returns the request body sent, if one was. */
    method HandleSubmit(f: Form, reply: SignupReply) returns (sent: Option<SignupRequest>)
      modifies this
      ensures Validate(f).Rejected? ==>
                sent.None? && error == Validate(f).message && loading == old(loading) &&
                storedUser == old(storedUser) && location == old(location)
      ensures Validate(f).Send? ==> sent == Some(Validate(f).request) && !loading
      ensures Validate(f).Send? && reply.Registered? ==>
                storedUser == Some(reply.user) && location == Some("/dashboard") && error == ""
      ensures Validate(f).Send? && reply.Refused? ==>
                error == Or(reply.error, SignupFailed) &&
                storedUser == old(storedUser) && location == old(location)
      ensures Validate(f).Send? && reply == NoConnection ==>
                error == ConnectionFailed && storedUser == old(storedUser) && location == old(location)
    {
      error := "";
      if f.password != f.confirmPassword {
        error := PasswordMismatch;
        return None;
      }
      if |f.password| < MinPasswordLength {
        error := PasswordTooShort;
        return None;
      }
      loading := true;
      var request := SignupRequest(f.email, f.password, f.fullName, OrNull(Some(f.position)));
      sent := Some(request);
      match reply {
        case Registered(user) =>
          storedUser := Some(user);
          location := Some("/dashboard");
        case Refused(e) =>
          error := Or(e, SignupFailed);
        case NoConnection =>
          error := ConnectionFailed;
      }
      loading := false;
    }
  }

  /** The body as the register handler parses it. */
  function AsBody(r: SignupRequest): RegisterRoute.RegisterBody {
    RegisterRoute.RegisterBody(Some(r.email), Some(r.password), Some(r.fullName), r.position)
  }

  /** A form the page lets through, with an email and a name, is one the handler accepts
      whenever the email is free; the new account's position is the form's, empty as null. */
  lemma AcceptedFormRegisters(f: Form, s: Snapshot, salt: nat, now: nat, secret: string,
                              mac: Jwt.Mac, production: bool)
    requires Validate(f).Send? && f.email != "" && f.fullName != ""
    requires s.up && FindUserByEmail(s.users, f.email).None?
    ensures var r := RegisterRoute.RegisterSpec(s, Some(AsBody(Validate(f).request)), salt, now,
                                                secret, mac, production);
            r.0.status == 201 &&
            r.1.users[|s.users|].position == (if f.position == "" then None else Some(f.position))
  {
  }
}
