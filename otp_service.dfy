/** The one-time-code slot of a user: one code and one issue instant.
    Issuing overwrites the slot whatever the code is for, checking looks at
    presence, then equality, then the validity window, and clearing empties it. */
module OtpService {
  import opened Wrappers
  import opened Json
  import opened Text
  import opened UserModel
  import opened Db
  import Helpers

  /** The outcome of checking a code, with the message each one carries. */
  datatype OtpCheck = NoOtp | InvalidOtp | ExpiredOtp | OtpOk

  function OtpMessage(c: OtpCheck): string
  {
    match c
    case NoOtp => "No OTP found for this user"
    case InvalidOtp => "Invalid OTP"
    case ExpiredOtp => "OTP has expired"
    case OtpOk => "OTP verified successfully"
  }

  /** The slot holds a code: a non-empty code and an issue instant. */
  predicate HasOtp(u: User)
  {
    u.otpCode.Some? && u.otpCode.value != "" && u.otpCreatedAt.Some?
  }

  /** The slot after a code is stored at `now`. */
  function Issued(u: User, code: string, now: int): (r: User)
    ensures r.otpCode == Some(code) && r.otpCreatedAt == Some(now)
    ensures r == u.(otpCode := r.otpCode, otpCreatedAt := r.otpCreatedAt)
  {
    u.(otpCode := Some(code), otpCreatedAt := Some(now))
  }

  /** The slot after `clear_otp`. */
  function Cleared(u: User): (r: User)
    ensures r.otpCode.None? && r.otpCreatedAt.None?
    ensures r == u.(otpCode := None, otpCreatedAt := None)
  {
    u.(otpCode := None, otpCreatedAt := None)
  }

  /** `verify_otp(user, provided_otp, validity_minutes)` and
      `OTPService.verify_user_otp`: the first failing check decides. */
  function VerifyOtp(u: User, provided: Value, validityMinutes: int, now: int): OtpCheck
  {
    if !HasOtp(u) then NoOtp
    else if provided != Str(u.otpCode.value) then InvalidOtp
    else if !Helpers.IsOtpValid(u.otpCreatedAt, validityMinutes, now) then ExpiredOtp
    else OtpOk
  }

  /** Success means: a code is stored, the caller gave exactly that code, and
      its window is still open. */
  lemma VerifyOtpOkExactly(u: User, provided: Value, validityMinutes: int, now: int)
    ensures VerifyOtp(u, provided, validityMinutes, now) == OtpOk <==>
      && HasOtp(u) && provided == Str(u.otpCode.value)
      && now < u.otpCreatedAt.value + validityMinutes * Helpers.MicrosPerMinute
  {
  }

  /** A wrong code is reported as wrong, never as expired, whatever the time. */
  lemma WrongCodeBeforeExpiry(u: User, provided: Value, validityMinutes: int, now: int)
    requires HasOtp(u) && provided != Str(u.otpCode.value)
    ensures VerifyOtp(u, provided, validityMinutes, now) == InvalidOtp
  {
  }

  /** After a new code is issued, only that code can succeed: every earlier code fails. */
  lemma OnlyLatestCodeValidates(u: User, code: string, issuedAt: int, provided: Value, validityMinutes: int, now: int)
    requires VerifyOtp(Issued(u, code, issuedAt), provided, validityMinutes, now) == OtpOk
    ensures provided == Str(code)
    ensures u.otpCode.Some? && u.otpCode.value != code ==> provided != Str(u.otpCode.value)
  {
  }

  /** A freshly issued non-empty code is accepted until its window closes and
      rejected as expired from the closing instant on, even when it matches. */
  lemma IssuedCodeLifetime(u: User, code: string, issuedAt: int, validityMinutes: int, now: int)
    requires code != "" && issuedAt <= now
    ensures now < issuedAt + validityMinutes * Helpers.MicrosPerMinute ==>
      VerifyOtp(Issued(u, code, issuedAt), Str(code), validityMinutes, now) == OtpOk
    ensures now >= issuedAt + validityMinutes * Helpers.MicrosPerMinute ==>
      VerifyOtp(Issued(u, code, issuedAt), Str(code), validityMinutes, now) == ExpiredOtp
  {
  }

  /** After clearing, every check reports that no code exists. */
  lemma ClearedHasNoOtp(u: User, provided: Value, validityMinutes: int, now: int)
    ensures VerifyOtp(Cleared(u), provided, validityMinutes, now) == NoOtp
  {
  }

  /** The slot does not record what a code was issued for: a password-reset
      code issued at `issuedAt` passes the account-verification check (10-minute
      window) as long as that window is open. */
  lemma ResetCodeVerifiesAccount(u: User, code: string, issuedAt: int, now: int)
    requires code != "" && issuedAt <= now < issuedAt + Helpers.OtpValidityMinutes * Helpers.MicrosPerMinute
    ensures VerifyOtp(Issued(u, code, issuedAt), Str(code), Helpers.OtpValidityMinutes, now) == OtpOk
    ensures VerifyOtp(Issued(u, code, issuedAt), Str(code), Helpers.ResetValidityMinutes, now) == OtpOk
  {
  }

  /** `is_otp_expired(user, validity_minutes)`. */
  predicate IsOtpExpired(u: User, validityMinutes: int, now: int)
  {
    u.otpCreatedAt.None? || !Helpers.IsOtpValid(u.otpCreatedAt, validityMinutes, now)
  }

  /** `get_otp_remaining_time(user, validity_minutes)`: whole seconds left,
      never negative (`int()` truncates the fraction). */
  function OtpRemainingTime(u: User, validityMinutes: int, now: int): (r: int)
    ensures r >= 0
    ensures u.otpCreatedAt.None? ==> r == 0
  {
    match u.otpCreatedAt
    case None => 0
    case Some(t) =>
      var remaining := t + validityMinutes * Helpers.MicrosPerMinute - now;
      if remaining <= 0 then 0 else remaining / Helpers.MicrosPerSecond
  }

  /** An expired slot has no time left, and time left means not expired; the
      converse fails in the last second of the window. */
  lemma RemainingTimeAgreesWithExpiry(u: User, validityMinutes: int, now: int)
    ensures IsOtpExpired(u, validityMinutes, now) ==> OtpRemainingTime(u, validityMinutes, now) == 0
    ensures OtpRemainingTime(u, validityMinutes, now) > 0 ==> !IsOtpExpired(u, validityMinutes, now)
    ensures u.otpCreatedAt.Some? && !IsOtpExpired(u, validityMinutes, now) ==>
      u.otpCreatedAt.value + validityMinutes * Helpers.MicrosPerMinute - now
        < (OtpRemainingTime(u, validityMinutes, now) + 1) * Helpers.MicrosPerSecond
  {
  }

  /** A code with half a second left is still valid yet reports no time left. */
  lemma LastSecondReportsZero(u: User)
    requires u.otpCreatedAt == Some(0)
    ensures !IsOtpExpired(u, 1, Helpers.MicrosPerMinute - 500_000)
    ensures OtpRemainingTime(u, 1, Helpers.MicrosPerMinute - 500_000) == 0
  {
  }

  /** `OTPService.generate_otp_for_user(user, purpose, length)` and
      `generate_and_store_otp(user, purpose)` (length 6): draw a code, store it
      with the current instant, return it. The purpose is not stored. */
  method GenerateOtpForUser(db: Store, k: int, purpose: string, length: int, draw: nat -> nat, now: int)
    returns (code: string)
    requires db.Valid() && 0 <= k < |db.users|
    modifies db
    ensures db.Valid()
    ensures code == Helpers.GenerateOtp(length, draw)
    ensures db.users == old(db.users)[k := Issued(old(db.users)[k], code, now)]
    ensures db.animals == old(db.animals) && db.records == old(db.records)
  {
    code := Helpers.GenerateOtp(length, draw);
    var u := db.users[k];
    u := u.(otpCode := Some(code));
    u := u.(otpCreatedAt := Some(now));
    db.PutUser(k, u);
  }

  /** `OTPService.clear_user_otp(user)` and `clear_otp(user)`. */
  method ClearUserOtp(db: Store, k: int)
    requires db.Valid() && 0 <= k < |db.users|
    modifies db
    ensures db.Valid()
    ensures db.users == old(db.users)[k := Cleared(old(db.users)[k])]
    ensures db.animals == old(db.animals) && db.records == old(db.records)
  {
    var u := db.users[k];
    u := u.(otpCode := None);
    u := u.(otpCreatedAt := None);
    db.PutUser(k, u);
  }
}
