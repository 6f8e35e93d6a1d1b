/** The authentication endpoints: login, checking a one-time code, sending a
    new one, the forgotten-password flow, changing a password, and the two
    token endpoints. A non-string field where the handler calls `.lower()`,
    `.strip()` or measures a password raises, and `handle_db_error` answers
    500. */
module AuthRoutes {
  import opened Wrappers
  import opened Text
  import opened Json
  import opened UserModel
  import opened Db
  import opened Http
  import Helpers
  import Validators
  import OtpService
  import AuthUtils
  import UsersApi

  const InvalidEmailFormat: string := "Invalid email format"

  /** A body that is present and has every required field. */
  predicate Present(data: Dict, fields: seq<string>)
  {
    data != [] && Validators.MissingFields(data, fields) == []
  }

  /** A `login` body that passes the required-field check and holds strings
      where the handler uses them as strings. */
  predicate LoginBody(data: Dict)
  {
    Present(data, ["email", "password"]) && Get(data, "email").Str? && Get(data, "password").Str?
  }

  /** A `verify-otp` body that passes the required-field check and holds strings
      where the handler uses them as strings. */
  predicate OtpBody(data: Dict)
  {
    Present(data, ["email", "otp"]) && Get(data, "email").Str? && Get(data, "otp").Str?
  }

  /** A `reset-password` body that passes the required-field check and holds strings
      where the handler uses them as strings. */
  predicate ResetBody(data: Dict)
  {
    && Present(data, ["email", "reset_code", "new_password"])
    && Get(data, "email").Str? && Get(data, "reset_code").Str? && Get(data, "new_password").Str?
  }

  /** A `change-password` body that passes the required-field check and holds strings
      where the handler uses them as strings. */
  predicate ChangeBody(data: Dict)
  {
    Present(data, ["current_password", "new_password"]) && Get(data, "current_password").Str? && Get(data, "new_password").Str?
  }

  /** A `resend-otp` and `forgot-password` body that passes the required-field check and holds strings
      where the handler uses them as strings. */
  predicate EmailBody(data: Dict)
  {
    Present(data, ["email"]) && Get(data, "email").Str?
  }

  /** `data['email'].lower().strip()`. */
  function EmailOf(data: Dict): string
    requires Get(data, "email").Str?
  {
    Strip(Lower(Get(data, "email").s))
  }

  /** The active account of the request's email, or |users|. */
  function AccountOf(users: seq<User>, data: Dict): (k: nat)
    requires Get(data, "email").Str?
    ensures k <= |users|
  {
    ActiveEmailIndex(users, EmailOf(data))
  }

  // ---------------------------------------------------------------- POST /auth/login

  /** `login`: body, required fields, email format, then `authenticate_user`.
      The tokens and the profile dictionary are not modelled; the reply carries
      the account. */
  function Login(users: seq<User>, data: Dict, emailOk: string -> bool): (r: Reply<User>)
    ensures data == [] ==> r == Fail(400, NoDataProvided)
    ensures data != [] && Validators.MissingFields(data, ["email", "password"]) != [] ==>
      r == FailWith(400, MissingRequiredFields, Validators.MissingFields(data, ["email", "password"]))
    ensures LoginBody(data) && !emailOk(EmailOf(data)) ==> r == Fail(400, InvalidEmailFormat)
    ensures LoginBody(data) && emailOk(EmailOf(data))
            && AuthUtils.Authenticate(users, EmailOf(data), Get(data, "password").s).Err? ==>
      r == Fail(401, AuthUtils.Authenticate(users, EmailOf(data), Get(data, "password").s).msg)
    ensures r.status == 200 <==>
      LoginBody(data) && emailOk(EmailOf(data))
      && AuthUtils.Authenticate(users, EmailOf(data), Get(data, "password").s).Ok?
    ensures r.status == 200 ==>
      && r.message == "Login successful" && r.body.Some? && r.body.value in users
      && CanLogin(r.body.value) && r.body.value.life.isActive
      && r.body.value.email == EmailOf(data) && CheckPassword(r.body.value, Get(data, "password").s)
  {
    if data == [] then Fail(400, NoDataProvided)
    else
      var missing := Validators.MissingFields(data, ["email", "password"]);
      if missing != [] then FailWith(400, MissingRequiredFields, missing)
      else if !Get(data, "email").Str? then Fail(500, DatabaseOperationFailed)
      else
        var email := EmailOf(data);
        var password := Get(data, "password");
        NormalisedIsLower(Get(data, "email").s);
        if !emailOk(email) then Fail(400, InvalidEmailFormat)
        else if !password.Str? then
          // `authenticate_user` looks the account up before `check_password`
          // meets the non-string password and raises.
          if ActiveEmailIndex(users, Lower(email)) == |users| then Fail(401, AuthUtils.MsgInvalidCredentials)
          else Fail(500, DatabaseOperationFailed)
        else
          match AuthUtils.Authenticate(users, email, password.s)
          case Ok(k) => Done(200, "Login successful", users[k])
          case Err(msg) => Fail(401, msg)
  }

  /** An unknown email and a wrong password get the same reply, so a login
      attempt does not reveal which accounts exist. */
  lemma LoginDoesNotRevealAccounts(users: seq<User>, data: Dict, emailOk: string -> bool)
    requires LoginBody(data) && emailOk(EmailOf(data))
    requires ActiveEmailIndex(users, EmailOf(data)) == |users|
             || !CheckPassword(users[ActiveEmailIndex(users, EmailOf(data))], Get(data, "password").s)
    ensures Login(users, data, emailOk) == Fail(401, "Invalid email or password")
  {
    NormalisedIsLower(Get(data, "email").s);
    NormalisedEmpty(Get(data, "email").s);
    assert !Validators.Missing(data, "email") && !Validators.Missing(data, "password") by {
      assert Validators.MissingFields(data, ["email", "password"]) == [];
    }
    AuthUtils.UnknownEmailLooksLikeWrongPassword(users, EmailOf(data), Get(data, "password").s);
  }

  // ---------------------------------------------------------------- POST /auth/verify-otp

  /** `verify_otp_endpoint`: body, required `email` and `otp`, the active
      account, the ten-minute code check; then the requested channels are
      marked verified and the code is cleared. */
  method VerifyOtp(db: Store, data: Dict, now: int) returns (r: Reply<()>)
    requires db.Valid()
    modifies db
    ensures db.Valid()
    ensures db.animals == old(db.animals) && db.records == old(db.records)
    ensures data == [] ==> r == Fail(400, NoDataProvided)
    ensures data != [] && Validators.MissingFields(data, ["email", "otp"]) != [] ==>
      r == FailWith(400, MissingRequiredFields, Validators.MissingFields(data, ["email", "otp"]))
    ensures OtpBody(data) && AccountOf(old(db.users), data) == |old(db.users)| ==>
      r == Fail(404, UsersApi.UserNotFound)
    ensures OtpBody(data) && AccountOf(old(db.users), data) < |old(db.users)| ==>
      var u := old(db.users)[AccountOf(old(db.users), data)];
      var check := OtpService.VerifyOtp(u, Str(Strip(Get(data, "otp").s)), Helpers.OtpValidityMinutes, now);
      && (check != OtpService.OtpOk ==> r == Fail(400, OtpService.OtpMessage(check)))
      && (check == OtpService.OtpOk ==>
            && r == Reply(200, "Account verified successfully", [], None)
            && db.users == old(db.users)[AccountOf(old(db.users), data) :=
                                           OtpService.Cleared(AuthUtils.MarkVerified(u, UsersApi.KindOf(data)))])
    ensures r.status != 200 ==> db.users == old(db.users)
  {
    if data == [] {
      return Fail(400, NoDataProvided);
    }
    var ok, missing := Validators.ValidateRequiredFields(data, ["email", "otp"]);
    if !ok {
      return FailWith(400, MissingRequiredFields, missing);
    }
    var email := Get(data, "email");
    var otp := Get(data, "otp");
    if !email.Str? || !otp.Str? {
      return Fail(500, DatabaseOperationFailed);
    }
    var k := ActiveEmailIndex(db.users, Strip(Lower(email.s)));
    if k == |db.users| {
      return Fail(404, UsersApi.UserNotFound);
    }
    var check := OtpService.VerifyOtp(db.users[k], Str(Strip(otp.s)), Helpers.OtpValidityMinutes, now);
    if check != OtpService.OtpOk {
      return Fail(400, OtpService.OtpMessage(check));
    }
    VerifyAndClear(db, k, UsersApi.KindOf(data));
    r := Reply(200, "Account verified successfully", [], None);
  }

  /** Marks the account verified, then spends its code. */
  method VerifyAndClear(db: Store, k: int, kind: Value)
    requires db.Valid() && 0 <= k < |db.users|
    modifies db
    ensures db.Valid()
    ensures db.users == old(db.users)[k := OtpService.Cleared(AuthUtils.MarkVerified(old(db.users)[k], kind))]
    ensures db.animals == old(db.animals) && db.records == old(db.records)
  {
    var _ := AuthUtils.VerifyUserAccount(db, k, kind);
    OtpService.ClearUserOtp(db, k);
  }

  /** A code is good for one verification: afterwards the slot is empty, and
      verifying both channels leaves an account that can log in. */
  lemma VerifiedCodeIsSpent(u: User, kind: Value, provided: Value, validityMinutes: int, now: int)
    ensures OtpService.VerifyOtp(OtpService.Cleared(AuthUtils.MarkVerified(u, kind)), provided, validityMinutes, now)
            == OtpService.NoOtp
    ensures kind == Str("both") ==> CanLogin(OtpService.Cleared(AuthUtils.MarkVerified(u, kind)))
  {
    OtpService.ClearedHasNoOtp(AuthUtils.MarkVerified(u, kind), provided, validityMinutes, now);
    AuthUtils.VerifyBothActivatesFromAnyStatus(u);
  }

  // ---------------------------------------------------------------- POST /auth/resend-otp

  /** `resend_otp`: body, required `email`, the active account, which must
      not be verified yet; then a fresh six-digit code replaces the old one. */
  method ResendOtp(db: Store, data: Dict, draw: nat -> nat, now: int) returns (r: Reply<()>)
    requires db.Valid()
    modifies db
    ensures db.Valid()
    ensures db.animals == old(db.animals) && db.records == old(db.records)
    ensures data == [] ==> r == Fail(400, NoDataProvided)
    ensures !UsersApi.ResendAdmitted(old(db.users), data) ==> r.status != 200 && db.users == old(db.users)
    ensures EmailBody(data) && AccountOf(old(db.users), data) == |old(db.users)| ==>
      r == Fail(404, UsersApi.UserNotFound)
    ensures EmailBody(data) && AccountOf(old(db.users), data) < |old(db.users)|
            && IsVerified(old(db.users)[AccountOf(old(db.users), data)]) ==>
      r == Fail(400, UsersApi.AlreadyVerified)
    ensures UsersApi.ResendAdmitted(old(db.users), data) ==>
      && r == Reply(200, "OTP sent successfully", [], None)
      && db.users == old(db.users)[AccountOf(old(db.users), data) :=
           OtpService.Issued(old(db.users)[AccountOf(old(db.users), data)], Helpers.GenerateOtp(Helpers.OtpLength, draw), now)]
  {
    if data == [] {
      return Fail(400, NoDataProvided);
    }
    var ok, missing := Validators.ValidateRequiredFields(data, ["email"]);
    if !ok {
      return FailWith(400, MissingRequiredFields, missing);
    }
    var email := Get(data, "email");
    if !email.Str? {
      return Fail(500, DatabaseOperationFailed);
    }
    var k := ActiveEmailIndex(db.users, Strip(Lower(email.s)));
    if k == |db.users| {
      return Fail(404, UsersApi.UserNotFound);
    }
    if IsVerified(db.users[k]) {
      return Fail(400, UsersApi.AlreadyVerified);
    }
    var _ := OtpService.GenerateOtpForUser(db, k, "verification", Helpers.OtpLength, draw, now);
    r := Reply(200, "OTP sent successfully", [], None);
  }

  // ---------------------------------------------------------------- POST /auth/forgot-password

  const ResetMaybeSent: string := "If the email exists, a reset code has been sent"
  const ResetSent: string := "Password reset code sent"

  /** `forgot_password`: body, required `email`; an unknown email is answered
      with success and nothing is stored, a known one gets a fresh code. */
  method ForgotPassword(db: Store, data: Dict, draw: nat -> nat, now: int) returns (r: Reply<()>)
    requires db.Valid()
    modifies db
    ensures db.Valid()
    ensures db.animals == old(db.animals) && db.records == old(db.records)
    ensures data == [] ==> r == Fail(400, NoDataProvided)
    ensures !(EmailBody(data)) ==> r.status != 200 && db.users == old(db.users)
    ensures EmailBody(data) && AccountOf(old(db.users), data) == |old(db.users)| ==>
      r == Reply(200, ResetMaybeSent, [], None) && db.users == old(db.users)
    ensures EmailBody(data) && AccountOf(old(db.users), data) < |old(db.users)| ==>
      && r == Reply(200, ResetSent, [], None)
      && db.users == old(db.users)[AccountOf(old(db.users), data) :=
           OtpService.Issued(old(db.users)[AccountOf(old(db.users), data)], Helpers.GenerateOtp(Helpers.OtpLength, draw), now)]
  {
    if data == [] {
      return Fail(400, NoDataProvided);
    }
    var ok, missing := Validators.ValidateRequiredFields(data, ["email"]);
    if !ok {
      return FailWith(400, MissingRequiredFields, missing);
    }
    var email := Get(data, "email");
    if !email.Str? {
      return Fail(500, DatabaseOperationFailed);
    }
    var k := ActiveEmailIndex(db.users, Strip(Lower(email.s)));
    if k == |db.users| {
      return Reply(200, ResetMaybeSent, [], None);
    }
    var _ := OtpService.GenerateOtpForUser(db, k, "password_reset", Helpers.OtpLength, draw, now);
    r := Reply(200, ResetSent, [], None);
  }

  // ---------------------------------------------------------------- POST /auth/reset-password

  const WeakPassword: string := "Password does not meet requirements"
  const InvalidResetCode: string := "Invalid reset code"

  /** `reset_password`: body, required fields, the strength of the new
      password (before any lookup), the active account, the thirty-minute
      code check; then the new password is set and the code cleared. */
  method ResetPassword(db: Store, data: Dict, now: int) returns (r: Reply<()>)
    requires db.Valid()
    modifies db
    ensures db.Valid()
    ensures db.animals == old(db.animals) && db.records == old(db.records)
    ensures data == [] ==> r == Fail(400, NoDataProvided)
    ensures data != [] && Validators.MissingFields(data, ["email", "reset_code", "new_password"]) != [] ==>
      r == FailWith(400, MissingRequiredFields, Validators.MissingFields(data, ["email", "reset_code", "new_password"]))
    ensures ResetBody(data)
            && Validators.PasswordErrors(Get(data, "new_password").s) != [] ==>
      r == FailWith(400, WeakPassword, Validators.PasswordErrors(Get(data, "new_password").s))
    ensures ResetBody(data)
            && Validators.PasswordErrors(Get(data, "new_password").s) == []
            && AccountOf(old(db.users), data) == |old(db.users)| ==>
      r == Fail(400, InvalidResetCode)
    ensures ResetBody(data)
            && Validators.PasswordErrors(Get(data, "new_password").s) == []
            && AccountOf(old(db.users), data) < |old(db.users)| ==>
      var k := AccountOf(old(db.users), data);
      var check := OtpService.VerifyOtp(old(db.users)[k], Str(Strip(Get(data, "reset_code").s)), Helpers.ResetValidityMinutes, now);
      && (check != OtpService.OtpOk ==> r == Fail(400, OtpService.OtpMessage(check)))
      && (check == OtpService.OtpOk ==>
            && r == Reply(200, "Password reset successfully", [], None)
            && db.users == old(db.users)[k := OtpService.Cleared(old(db.users)[k].(credential := Get(data, "new_password").s))])
    ensures r.status != 200 ==> db.users == old(db.users)
  {
    if data == [] {
      return Fail(400, NoDataProvided);
    }
    var ok, missing := Validators.ValidateRequiredFields(data, ["email", "reset_code", "new_password"]);
    if !ok {
      return FailWith(400, MissingRequiredFields, missing);
    }
    var email := Get(data, "email");
    var code := Get(data, "reset_code");
    var newPassword := Get(data, "new_password");
    if !email.Str? || !code.Str? || !newPassword.Str? {
      return Fail(500, DatabaseOperationFailed);
    }
    var strong, errors := Validators.ValidatePasswordStrength(newPassword.s);
    if !strong {
      return FailWith(400, WeakPassword, errors);
    }
    var k := ActiveEmailIndex(db.users, Strip(Lower(email.s)));
    if k == |db.users| {
      return Fail(400, InvalidResetCode);
    }
    var check := OtpService.VerifyOtp(db.users[k], Str(Strip(code.s)), Helpers.ResetValidityMinutes, now);
    if check != OtpService.OtpOk {
      return Fail(400, OtpService.OtpMessage(check));
    }
    ResetAndClear(db, k, newPassword.s);
    r := Reply(200, "Password reset successfully", [], None);
  }

  /** Sets the new password, then spends the reset code. */
  method ResetAndClear(db: Store, k: int, newPassword: string)
    requires db.Valid() && 0 <= k < |db.users|
    modifies db
    ensures db.Valid()
    ensures db.users == old(db.users)[k := OtpService.Cleared(old(db.users)[k].(credential := newPassword))]
    ensures db.animals == old(db.animals) && db.records == old(db.records)
  {
    var _ := AuthUtils.ResetUserPassword(db, k, newPassword);
    OtpService.ClearUserOtp(db, k);
  }

  /** After a reset the new password logs in where the account may log in,
      and the reset code cannot be used a second time. */
  lemma ResetCodeIsSpent(u: User, newPassword: string, provided: Value, validityMinutes: int, now: int)
    ensures CheckPassword(OtpService.Cleared(u.(credential := newPassword)), newPassword)
    ensures OtpService.VerifyOtp(OtpService.Cleared(u.(credential := newPassword)), provided, validityMinutes, now)
            == OtpService.NoOtp
  {
    OtpService.ClearedHasNoOtp(u.(credential := newPassword), provided, validityMinutes, now);
  }

  // ---------------------------------------------------------------- POST /auth/change-password

  const WrongCurrentPassword: string := "Current password is incorrect"
  const WeakNewPassword: string := "New password does not meet requirements"
  const SamePassword: string := "New password must be different from current password"

  /** `change_password` for the authenticated user at position `k`: body,
      required fields, the current password, the strength of the new one, and
      that it differs; then it is set. */
  method ChangePassword(db: Store, k: int, data: Dict) returns (r: Reply<()>)
    requires db.Valid() && 0 <= k < |db.users|
    modifies db
    ensures db.Valid()
    ensures db.animals == old(db.animals) && db.records == old(db.records)
    ensures data == [] ==> r == Fail(400, NoDataProvided)
    ensures data != [] && Validators.MissingFields(data, ["current_password", "new_password"]) != [] ==>
      r == FailWith(400, MissingRequiredFields, Validators.MissingFields(data, ["current_password", "new_password"]))
    ensures ChangeBody(data) ==>
      var u := old(db.users)[k];
      var current := Get(data, "current_password").s;
      var next := Get(data, "new_password").s;
      && (!CheckPassword(u, current) ==> r == Fail(400, WrongCurrentPassword))
      && (CheckPassword(u, current) && Validators.PasswordErrors(next) != [] ==>
            r == FailWith(400, WeakNewPassword, Validators.PasswordErrors(next)))
      && (CheckPassword(u, current) && Validators.PasswordErrors(next) == [] && CheckPassword(u, next) ==>
            r == Fail(400, SamePassword))
      && (CheckPassword(u, current) && Validators.PasswordErrors(next) == [] && !CheckPassword(u, next) ==>
            r == Reply(200, "Password changed successfully", [], None)
            && db.users == old(db.users)[k := u.(credential := next)])
    ensures r.status != 200 ==> db.users == old(db.users)
    ensures r.status == 200 ==>
      ChangeBody(data) && old(db.users)[k].credential != Get(data, "new_password").s
  {
    if data == [] {
      return Fail(400, NoDataProvided);
    }
    var ok, missing := Validators.ValidateRequiredFields(data, ["current_password", "new_password"]);
    if !ok {
      return FailWith(400, MissingRequiredFields, missing);
    }
    var current := Get(data, "current_password");
    var next := Get(data, "new_password");
    if !current.Str? {
      return Fail(500, DatabaseOperationFailed);
    }
    if !CheckPassword(db.users[k], current.s) {
      return Fail(400, WrongCurrentPassword);
    }
    if !next.Str? {
      return Fail(500, DatabaseOperationFailed);
    }
    var strong, errors := Validators.ValidatePasswordStrength(next.s);
    if !strong {
      return FailWith(400, WeakNewPassword, errors);
    }
    if CheckPassword(db.users[k], next.s) {
      return Fail(400, SamePassword);
    }
    var _ := AuthUtils.ResetUserPassword(db, k, next.s);
    r := Reply(200, "Password changed successfully", [], None);
  }

  // ---------------------------------------------------------------- the token endpoints

  /** `refresh`: the token's user must be an active account that can log in;
      the new access token is not modelled. */
  function Refresh(users: seq<User>, identity: string): (r: Reply<User>)
    ensures r.status == 200 <==> ActiveUserIndex(users, identity) < |users| && CanLogin(users[ActiveUserIndex(users, identity)])
    ensures r.status != 200 ==> r == Fail(401, "Invalid user or user cannot login")
    ensures r.status == 200 ==>
      r.message == "Token refreshed successfully" && r.body.Some? && r.body.value in users && r.body.value.id == identity && CanLogin(r.body.value)
  {
    var k := ActiveUserIndex(users, identity);
    if k == |users| || !CanLogin(users[k]) then Fail(401, "Invalid user or user cannot login")
    else Done(200, "Token refreshed successfully", users[k])
  }

  /** `validate_token`: the same test; the claims echoed back come from the
      token and are not modelled. */
  function ValidateToken(users: seq<User>, identity: string): (r: Reply<string>)
    ensures r.status == 200 <==> ActiveUserIndex(users, identity) < |users| && CanLogin(users[ActiveUserIndex(users, identity)])
    ensures r.status != 200 ==> r == Fail(401, "Invalid token or user")
    ensures r.status == 200 ==> r == Done(200, "Token is valid", identity)
  {
    var k := ActiveUserIndex(users, identity);
    if k == |users| || !CanLogin(users[k]) then Fail(401, "Invalid token or user")
    else Done(200, "Token is valid", identity)
  }

  /** A token outlives the account's right to log in: once the account is
      suspended, deactivated or loses a verification flag, both endpoints
      refuse it. */
  lemma TokensFollowTheAccount(users: seq<User>, identity: string)
    requires forall i :: 0 <= i < |users| && users[i].id == identity && users[i].life.isActive ==> !CanLogin(users[i])
    ensures Refresh(users, identity).status == 401
    ensures ValidateToken(users, identity).status == 401
  {
  }
}
