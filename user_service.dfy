/** Account management: registration of the three roles, verification by
    one-time code, profile edits through a whitelist, deactivation and
    reactivation. Each operation is one transaction on the store. */
module UserService {
  import opened Wrappers
  import opened Json
  import opened Text
  import opened BaseModel
  import opened UserModel
  import opened Db
  import Helpers
  import Validators
  import OtpService
  import AuthUtils

  // ---------------------------------------------------------------- registration

  function Noun(role: Role): string
  {
    match role
    case Farmer => "farmer"
    case Veterinarian => "veterinarian"
    case Admin => "admin"
  }

  /** The context of the `except` branch of each registration. */
  function FailedToCreate(role: Role): string
  {
    "Failed to create " + Noun(role)
  }

  function RequiredFields(role: Role): seq<string>
  {
    ["name", "email", "phone", "password"] +
    match role
    case Farmer => []
    case Veterinarian => ["license_no"]
    case Admin => ["employee_id"]
  }

  /** The nullable descriptive columns of each role, kept in `profile`. */
  function ProfileColumns(role: Role): seq<string>
  {
    ["address", "profile_image"] +
    match role
    case Farmer => ["farm_name", "farm_size", "farm_type", "district", "state", "pincode"]
    case Veterinarian => ["specialization", "qualification", "experience_years", "clinic_name", "clinic_address", "consultation_fee"]
    case Admin => ["department", "designation"]
  }

  /** The profile a registration stores: every descriptive column from the
      request (`user_data.get`), the profile image left empty. */
  function CreatedProfile(role: Role, data: Dict): (p: map<string, Value>)
    ensures forall k :: k in p <==> k in ProfileColumns(role)
  {
    map k | k in ProfileColumns(role) :: if k == "profile_image" then Null else Get(data, k)
  }

  /** A value a column can be bound to; lists and objects make the commit fail. */
  predicate Scalar(v: Value)
  {
    !v.List? && !v.Obj?
  }

  predicate ProfileStorable(p: map<string, Value>)
  {
    forall k :: k in p ==> Scalar(p[k])
  }

  /** Any user, deleted ones included, already has this email or phone. */
  predicate Taken(users: seq<User>, email: string, phone: string)
  {
    exists i :: 0 <= i < |users| && (users[i].email == email || users[i].phone == phone)
  }

  predicate LicenseTaken(users: seq<User>, license: Value)
  {
    exists i :: 0 <= i < |users| && users[i].data.VetData? && users[i].data.licenseNo == license
  }

  predicate EmployeeIdTaken(users: seq<User>, employeeId: Value)
  {
    exists i :: 0 <= i < |users| && users[i].data.AdminData? && users[i].data.employeeId == employeeId
  }

  /** The admin `permissions` column from `user_data.get('permissions', default)`:
      the default list when absent, NULL for null, the text and its parse for a
      string; anything else cannot be bound (None). */
  function AdminPermissions(data: Dict, parseJson: string -> Option<Value>): Option<Option<PermissionText>>
  {
    if !HasKey(data, "permissions") then Some(Some(DefaultAdminPermissions))
    else
      match Get(data, "permissions")
      case Null => Some(None)
      case Str(s) => Some(Some(PermissionText(s, parseJson(s))))
      case _ => None
  }

  /** The subclass row of a new user, or None when a value cannot be stored. */
  function RoleColumns(role: Role, data: Dict, parseJson: string -> Option<Value>): (r: Option<RoleData>)
    ensures r.Some? ==> (role == Farmer <==> r.value.FarmerData?) && (role == Veterinarian <==> r.value.VetData?)
  {
    match role
    case Farmer =>
      var a := Get(data, "aadhar_no");
      if Scalar(a) then Some(FarmerData(a)) else None
    case Veterinarian =>
      var l := Get(data, "license_no");
      if Scalar(l) then Some(VetData(l)) else None
    case Admin =>
      var e := Get(data, "employee_id");
      var p := AdminPermissions(data, parseJson);
      if Scalar(e) && p.Some? then Some(AdminData(e, p.value)) else None
  }

  /** The row a successful registration inserts. Admins start active and verified. */
  function NewAccount(role: Role, id: string, name: string, email: string, phone: string, password: string,
                      rd: RoleData, data: Dict, now: int): (u: User)
  {
    var u := NewUser(id, Strip(name), Strip(Lower(email)), phone, password, rd, CreatedProfile(role, data), now);
    if role == Admin then u.(status := Active, emailVerified := true, phoneVerified := true) else u
  }

  /** The stored phone is the normalised form of the given one and passes validation. */
  predicate FormatPhoneNumberOk(given: string, stored: string)
  {
    Helpers.FormatPhoneNumber(given) == Some(stored) && Validators.ValidatePhoneNumber(stored)
  }

  /** What the input checks hand on: the email as given, the normalised phone
      and the password. */
  datatype Checked = Checked(email: string, phone: string, password: string)

  /** The first five steps of every registration, in source order: required
      fields, email format, phone, password strength, and (farmers) the
      optional Aadhar number. A value of the wrong type raises. */
  function CheckInput(role: Role, data: Dict, emailOk: string -> bool): (r: Result<Checked>)
    ensures r.Ok? ==>
      && Validators.MissingFields(data, RequiredFields(role)) == []
      && Get(data, "email") == Str(r.value.email) && emailOk(r.value.email)
      && Get(data, "phone").Str? && FormatPhoneNumberOk(Get(data, "phone").s, r.value.phone)
      && Get(data, "password") == Str(r.value.password) && Validators.PasswordErrors(r.value.password) == []
  {
    var email := Get(data, "email");
    var phone := Get(data, "phone");
    var password := Get(data, "password");
    var aadhar := Get(data, "aadhar_no");
    var missing := Validators.MissingFields(data, RequiredFields(role));
    if missing != [] then Err(Validators.MissingFieldsMessage(missing))
    else if !email.Str? then Crash(FailedToCreate(role))
    else if !emailOk(email.s) then Err("Invalid email format")
    else if !phone.Str? then Crash(FailedToCreate(role))
    else
      var formatted := Helpers.FormatPhoneNumber(phone.s);
      if formatted.None? then Crash(FailedToCreate(role))
      else if !Validators.ValidatePhoneNumber(formatted.value) then Err("Invalid phone number format")
      else if !password.Str? then Crash(FailedToCreate(role))
      else if Validators.PasswordErrors(password.s) != [] then
        Err("Password requirements not met: " + Validators.PasswordErrorText(password.s))
      else if role == Farmer && !Falsy(aadhar) && !aadhar.Str? then Crash(FailedToCreate(role))
      else if role == Farmer && !Falsy(aadhar) && !Validators.ValidateAadharNumber(aadhar.s) then
        Err("Invalid Aadhar number format")
      else Ok(Checked(email.s, formatted.value, password.s))
  }

  /** The duplicate lookups, over every account including deactivated ones:
      the email or phone first, then the role's own unique key. */
  function DuplicateMessage(users: seq<User>, role: Role, data: Dict, c: Checked): (r: Option<string>)
    ensures r.None? ==> !Taken(users, Lower(c.email), c.phone)
  {
    if Taken(users, Lower(c.email), c.phone) then Some("User with this email or phone already exists")
    else if role == Veterinarian && LicenseTaken(users, Get(data, "license_no")) then
      Some("Veterinarian with this license number already exists")
    else if role == Admin && EmployeeIdTaken(users, Get(data, "employee_id")) then
      Some("Admin with this employee ID already exists")
    else None
  }

  /** Building the row and committing it: a non-string name raises on
      `strip()`, and a value no column accepts or a unique column already
      taken fails the commit. */
  function Admission(users: seq<User>, role: Role, data: Dict, parseJson: string -> Option<Value>,
                     c: Checked, id: string, now: int): (r: Result<User>)
    ensures r.Ok? ==>
      && r.value.id == id && RoleOf(r.value) == role
      && r.value.email == Strip(Lower(c.email)) && r.value.phone == c.phone && CheckPassword(r.value, c.password)
      && (role == Admin ==> r.value.status == Active && IsVerified(r.value))
      && (role != Admin ==> r.value.status == Pending && !r.value.emailVerified && !r.value.phoneVerified)
      && r.value.otpCode.None? && r.value.otpCreatedAt.None? && r.value.life == Fresh()
      && CanInsertUser(users, r.value)
  {
    var name := Get(data, "name");
    if !name.Str? then Crash(FailedToCreate(role))
    else
      match RoleColumns(role, data, parseJson)
      case None => Crash(FailedToCreate(role))
      case Some(rd) =>
        var u := NewAccount(role, id, name.s, c.email, c.phone, c.password, rd, data, now);
        if ProfileStorable(u.profile) && CanInsertUser(users, u) then Ok(u) else Crash(FailedToCreate(role))
  }

  /** `create_farmer`, `create_veterinarian` and `create_admin`: the input
      checks, the duplicate lookups, then the insert; the first failure decides. */
  function Registration(users: seq<User>, role: Role, data: Dict, emailOk: string -> bool,
                        parseJson: string -> Option<Value>, id: string, now: int): (r: Result<User>)
    ensures r.Ok? ==>
      && Get(data, "email").Str? && emailOk(Get(data, "email").s)
      && r.value.email == Strip(Lower(Get(data, "email").s))
      && Get(data, "phone").Str? && FormatPhoneNumberOk(Get(data, "phone").s, r.value.phone)
      && Get(data, "password").Str? && Validators.PasswordErrors(Get(data, "password").s) == []
      && CheckPassword(r.value, Get(data, "password").s)
      && !Taken(users, Lower(Get(data, "email").s), r.value.phone)
      && r.value.id == id && RoleOf(r.value) == role
      && (role == Admin ==> r.value.status == Active && IsVerified(r.value))
      && (role != Admin ==> r.value.status == Pending && !r.value.emailVerified && !r.value.phoneVerified)
      && r.value.otpCode.None? && r.value.life == Fresh()
      && CanInsertUser(users, r.value)
  {
    match CheckInput(role, data, emailOk)
    case Err(m) => Err(m)
    case Crash(m) => Crash(m)
    case Ok(c) =>
      var dup := DuplicateMessage(users, role, data, c);
      if dup.Some? then Err(dup.value) else Admission(users, role, data, parseJson, c, id, now)
  }

  /** The checks run in source order: missing fields are reported before
      anything else, a bad email before the phone, the phone before the
      password, and all of them before the duplicate lookups. */
  lemma RegistrationOrder(users: seq<User>, role: Role, data: Dict, emailOk: string -> bool,
                          parseJson: string -> Option<Value>, id: string, now: int)
    ensures var r := Registration(users, role, data, emailOk, parseJson, id, now);
      var missing := Validators.MissingFields(data, RequiredFields(role));
      var email := Get(data, "email");
      var phone := Get(data, "phone");
      var password := Get(data, "password");
      && (missing != [] ==> r == Err(Validators.MissingFieldsMessage(missing)))
      && (missing == [] && email.Str? && !emailOk(email.s) ==> r == Err("Invalid email format"))
      && (missing == [] && email.Str? && emailOk(email.s) && phone.Str? && phone.s != ""
          && !Validators.ValidatePhoneNumber(Helpers.FormatPhoneNumber(phone.s).value)
          ==> r == Err("Invalid phone number format"))
      && (missing == [] && email.Str? && emailOk(email.s) && phone.Str? && phone.s != ""
          && Validators.ValidatePhoneNumber(Helpers.FormatPhoneNumber(phone.s).value)
          && password.Str? && Validators.PasswordErrors(password.s) != []
          ==> r == Err("Password requirements not met: " + Validators.PasswordErrorText(password.s)))
  {
  }

  /** An email or phone held by any account, a deactivated one included,
      blocks a new registration of any role. */
  lemma DeactivatedAccountsBlockRegistration(users: seq<User>, k: int, role: Role, data: Dict,
                                             emailOk: string -> bool, parseJson: string -> Option<Value>,
                                             id: string, now: int)
    requires 0 <= k < |users| && !users[k].life.isActive
    requires Get(data, "email").Str? && users[k].email == Lower(Get(data, "email").s)
    ensures !Registration(users, role, data, emailOk, parseJson, id, now).Ok?
  {
  }

  /** The input checks as the services run them, appending to error lists in
      the validators' loops. */
  method ValidateInput(role: Role, data: Dict, emailOk: string -> bool) returns (r: Result<Checked>)
    ensures r == CheckInput(role, data, emailOk)
  {
    var ok, missing := Validators.ValidateRequiredFields(data, RequiredFields(role));
    if !ok {
      return Err(Validators.MissingFieldsMessage(missing));
    }
    var email := Get(data, "email");
    if !email.Str? {
      return Crash(FailedToCreate(role));
    }
    if !emailOk(email.s) {
      return Err("Invalid email format");
    }
    var phone := Get(data, "phone");
    if !phone.Str? {
      return Crash(FailedToCreate(role));
    }
    var formatted := Helpers.FormatPhoneNumber(phone.s);
    if formatted.None? {
      return Crash(FailedToCreate(role));
    }
    if !Validators.ValidatePhoneNumber(formatted.value) {
      return Err("Invalid phone number format");
    }
    var password := Get(data, "password");
    if !password.Str? {
      return Crash(FailedToCreate(role));
    }
    var strong, errors := Validators.ValidatePasswordStrength(password.s);
    if !strong {
      return Err("Password requirements not met: " + Join(errors, "; "));
    }
    var aadhar := Get(data, "aadhar_no");
    if role == Farmer && !Falsy(aadhar) {
      if !aadhar.Str? {
        return Crash(FailedToCreate(role));
      }
      if !Validators.ValidateAadharNumber(aadhar.s) {
        return Err("Invalid Aadhar number format");
      }
    }
    r := Ok(Checked(email.s, formatted.value, password.s));
  }

  /** `create_farmer`, `create_veterinarian`, `create_admin` on the store:
      nothing is stored unless every step passes, and then exactly the new row. */
  method CreateUser(db: Store, role: Role, data: Dict, emailOk: string -> bool,
                    parseJson: string -> Option<Value>, id: string, now: int) returns (r: Result<User>)
    requires db.Valid()
    modifies db
    ensures db.Valid()
    ensures r == Registration(old(db.users), role, data, emailOk, parseJson, id, now)
    ensures db.users == if r.Ok? then old(db.users) + [r.value] else old(db.users)
    ensures db.animals == old(db.animals) && db.records == old(db.records)
  {
    var checked := ValidateInput(role, data, emailOk);
    if checked.Err? {
      return Err(checked.msg);
    }
    if checked.Crash? {
      return Crash(checked.context);
    }
    var c := checked.value;
    var dup := DuplicateMessage(db.users, role, data, c);
    if dup.Some? {
      return Err(dup.value);
    }
    assert Registration(db.users, role, data, emailOk, parseJson, id, now)
        == Admission(db.users, role, data, parseJson, c, id, now);
    r := Admit(db, role, data, parseJson, c, id, now);
  }

  /** The insert that follows the checks: build the row, then commit it. */
  method Admit(db: Store, role: Role, data: Dict, parseJson: string -> Option<Value>, c: Checked,
               id: string, now: int) returns (r: Result<User>)
    requires db.Valid()
    modifies db
    ensures db.Valid()
    ensures r == Admission(old(db.users), role, data, parseJson, c, id, now)
    ensures db.users == if r.Ok? then old(db.users) + [r.value] else old(db.users)
    ensures db.animals == old(db.animals) && db.records == old(db.records)
  {
    var name := Get(data, "name");
    if !name.Str? {
      return Crash(FailedToCreate(role));
    }
    var rd := RoleColumns(role, data, parseJson);
    if rd.None? {
      return Crash(FailedToCreate(role));
    }
    var u := NewAccount(role, id, name.s, c.email, c.phone, c.password, rd.value, data, now);
    if !ProfileStorable(u.profile) || !CanInsertUser(db.users, u) {
      return Crash(FailedToCreate(role));
    }
    db.AddUser(u);
    r := Ok(u);
  }

  // ---------------------------------------------------------------- verification

  /** The channels `initiate_user_verification` reports, given which sends
      succeeded; the code is stored whether or not any message went out. */
  function VerificationNotice(kind: Value, smsSent: bool, emailSent: bool): (r: Result<string>)
    ensures r.Ok? <==> (kind in [Str("phone"), Str("both")] && smsSent) || (kind in [Str("email"), Str("both")] && emailSent)
    ensures r.Crash? == false
  {
    var notes := (if kind in [Str("phone"), Str("both")] && smsSent then ["OTP sent to phone"] else [])
               + (if kind in [Str("email"), Str("both")] && emailSent then ["OTP sent to email"] else []);
    if notes != [] then Ok(Join(notes, "; ")) else Err("Failed to send verification code")
  }

  /** `initiate_user_verification(user, verification_type)`: a fresh code is
      stored first, then the requested channels are tried. The send results
      are inputs. */
  method InitiateUserVerification(db: Store, k: int, kind: Value, draw: nat -> nat, now: int,
                                  smsSent: bool, emailSent: bool) returns (r: Result<string>, code: Option<string>)
    requires db.Valid() && 0 <= k < |db.users|
    modifies db
    ensures db.Valid()
    ensures r == VerificationNotice(kind, smsSent, emailSent)
    ensures code == if r.Ok? then Some(Helpers.GenerateOtp(Helpers.OtpLength, draw)) else None
    ensures db.users == old(db.users)[k := OtpService.Issued(old(db.users)[k], Helpers.GenerateOtp(Helpers.OtpLength, draw), now)]
    ensures db.animals == old(db.animals) && db.records == old(db.records)
  {
    var otp := OtpService.GenerateOtpForUser(db, k, "verification", Helpers.OtpLength, draw, now);
    var notes: seq<string> := [];
    if kind in [Str("phone"), Str("both")] && smsSent {
      notes := notes + ["OTP sent to phone"];
    }
    if kind in [Str("email"), Str("both")] && emailSent {
      notes := notes + ["OTP sent to email"];
    }
    if notes != [] {
      r, code := Ok(Join(notes, "; ")), Some(otp);
    } else {
      r, code := Err("Failed to send verification code"), None;
    }
  }

  /** A verification request of an unrecognised kind sends nothing and
      reports failure. */
  lemma UnknownKindSendsNothing(kind: Value, smsSent: bool, emailSent: bool)
    requires kind !in [Str("phone"), Str("email"), Str("both")]
    ensures VerificationNotice(kind, smsSent, emailSent) == Err("Failed to send verification code")
  {
  }

  /** The row after a successful `UserService.verify_user_account`: flags
      marked, activation when both are set, the code cleared. */
  function Verified(u: User, kind: Value): (r: User)
    ensures r == OtpService.Cleared(AuthUtils.MarkVerified(u, kind))
    ensures r.emailVerified == (u.emailVerified || kind in [Str("email"), Str("both")])
    ensures r.phoneVerified == (u.phoneVerified || kind in [Str("phone"), Str("both")])
    ensures r.status == if IsVerified(r) then Active else u.status
    ensures r.otpCode.None? && r.otpCreatedAt.None?
  {
    OtpService.Cleared(AuthUtils.MarkVerified(u, kind))
  }

  /** `UserService.verify_user_account(user, otp_code, verification_type)`:
      a failed code check changes nothing and reports why; success marks the
      channels and clears the code in the same transaction. */
  method VerifyUserAccount(db: Store, k: int, provided: Value, kind: Value, now: int) returns (r: Result<string>)
    requires db.Valid() && 0 <= k < |db.users|
    modifies db
    ensures db.Valid()
    ensures var check := OtpService.VerifyOtp(old(db.users)[k], provided, Helpers.OtpValidityMinutes, now);
      && (check == OtpService.OtpOk ==>
            (r == Ok("Account verified successfully") && db.users == old(db.users)[k := Verified(old(db.users)[k], kind)]))
      && (check != OtpService.OtpOk ==> r == Err(OtpService.OtpMessage(check)) && db.users == old(db.users))
    ensures db.animals == old(db.animals) && db.records == old(db.records)
  {
    var check := OtpService.VerifyOtp(db.users[k], provided, Helpers.OtpValidityMinutes, now);
    if check != OtpService.OtpOk {
      return Err(OtpService.OtpMessage(check));
    }
    var u := db.users[k];
    if kind in [Str("email"), Str("both")] {
      u := u.(emailVerified := true);
    }
    if kind in [Str("phone"), Str("both")] {
      u := u.(phoneVerified := true);
    }
    if u.emailVerified && u.phoneVerified {
      u := u.(status := Active);
    }
    db.PutUser(k, u);
    OtpService.ClearUserOtp(db, k);
    r := Ok("Account verified successfully");
  }

  /** A code cannot be used twice: after a successful verification the same
      code finds no code stored. */
  lemma VerificationConsumesCode(u: User, kind: Value, provided: Value, now: int)
    ensures OtpService.VerifyOtp(Verified(u, kind), provided, Helpers.OtpValidityMinutes, now) == OtpService.NoOtp
  {
  }

  // ---------------------------------------------------------------- profile

  /** The fields `update_user_profile` may set for a role: the name and the
      role's descriptive columns. */
  function Updatable(role: Role): seq<string>
  {
    ["name"] + ProfileColumns(role)
  }

  /** The state of the `setattr` loop: the row so far, the fields set in
      order, and whether the last name assigned is a string (the column is
      NOT NULL text). */
  datatype Edit = Edit(user: User, fields: seq<string>, nameOk: bool)

  /** One pass of the loop body. */
  function Step(e: Edit, role: Role, field: string, v: Value): Edit
  {
    if field !in Updatable(role) then e
    else if field == "name" then Edit(e.user.(name := if v.Str? then v.s else e.user.name), e.fields + [field], v.Str?)
    else Edit(e.user.(profile := e.user.profile[field := v]), e.fields + [field], e.nameOk)
  }

  /** The loop over `update_data.items()`, as a function of the items seen so far. */
  function ApplyUpdates(u: User, update: Dict): Edit
  {
    if update == [] then Edit(u, [], true)
    else
      var last := update[|update| - 1];
      Step(ApplyUpdates(u, update[..|update| - 1]), RoleOf(u), last.0, last.1)
  }

  /** The loop touches nothing but the name and whitelisted profile columns,
      records only whitelisted fields, and drops no profile key. */
  lemma {:induction false} ApplyUpdatesFrame(u: User, update: Dict)
    ensures var e := ApplyUpdates(u, update);
      && e.user == u.(name := e.user.name, profile := e.user.profile)
      && (forall i :: 0 <= i < |e.fields| ==> e.fields[i] in Updatable(RoleOf(u)))
      && (forall f :: f in e.user.profile && (f !in u.profile || e.user.profile[f] != u.profile[f]) ==> f in ProfileColumns(RoleOf(u)))
      && (forall f :: f in u.profile ==> f in e.user.profile)
  {
    if update != [] {
      ApplyUpdatesFrame(u, update[..|update| - 1]);
    }
  }

  /** The loop records a field exactly when the request holds a whitelisted
      one, and with none it leaves the row as it was. */
  lemma {:induction false} ApplyUpdatesNothing(u: User, update: Dict)
    ensures var e := ApplyUpdates(u, update);
      && (e.fields == [] <==> forall i :: 0 <= i < |update| ==> update[i].0 !in Updatable(RoleOf(u)))
      && (e.fields == [] ==> e.user == u && e.nameOk)
  {
    if update != [] {
      var front := update[..|update| - 1];
      ApplyUpdatesNothing(u, front);
      assert forall i :: 0 <= i < |front| ==> front[i] == update[i];
    }
  }

  function ProfileUpdatedMessage(fields: seq<string>): string
  {
    "Profile updated: " + Join(fields, ", ")
  }

  /** `update_user_profile(user, update_data)`: whitelisted fields are set in
      request order; with none the call fails and nothing changes; a commit
      that the name or a value type breaks is rolled back. */
  method UpdateUserProfile(db: Store, k: int, update: Dict) returns (r: Result<seq<string>>)
    requires db.Valid() && 0 <= k < |db.users|
    modifies db
    ensures db.Valid()
    ensures var e := ApplyUpdates(old(db.users)[k], update);
      && (e.fields == [] ==> r == Err("No valid fields to update") && db.users == old(db.users))
      && (e.fields != [] && !(e.nameOk && ProfileStorable(e.user.profile)) ==>
            r == Crash("Profile update failed") && db.users == old(db.users))
      && (e.fields != [] && e.nameOk && ProfileStorable(e.user.profile) ==>
            r == Ok(e.fields) && db.users == old(db.users)[k := e.user])
    ensures db.animals == old(db.animals) && db.records == old(db.records)
  {
    var u0 := db.users[k];
    var role := RoleOf(u0);
    var e := Edit(u0, [], true);
    var i := 0;
    while i < |update|
      invariant 0 <= i <= |update|
      invariant e == ApplyUpdates(u0, update[..i])
    {
      assert update[..i + 1][..i] == update[..i];
      var (field, v) := update[i];
      if field in Updatable(role) {
        if field == "name" {
          e := Edit(e.user.(name := if v.Str? then v.s else e.user.name), e.fields + [field], v.Str?);
        } else {
          e := Edit(e.user.(profile := e.user.profile[field := v]), e.fields + [field], e.nameOk);
        }
      }
      i := i + 1;
    }
    assert update[..|update|] == update;
    if e.fields == [] {
      return Err("No valid fields to update");
    }
    if !e.nameOk || !ProfileStorable(e.user.profile) {
      return Crash("Profile update failed");
    }
    ApplyUpdatesFrame(u0, update);
    db.PutUser(k, e.user);
    r := Ok(e.fields);
  }

  // ---------------------------------------------------------------- deactivation

  /** The row after `deactivate_user`: INACTIVE and hidden; `deleted_at` is not set. */
  function Deactivated(u: User): (r: User)
    ensures r.status == Inactive && !r.life.isActive && r.life.deletedAt == u.life.deletedAt
    ensures r == u.(status := Inactive, life := r.life)
  {
    u.(status := Inactive, life := u.life.(isActive := false))
  }

  /** The row after `reactivate_user`: visible again, ACTIVE when verified and
      PENDING otherwise. */
  function Reactivated(u: User): (r: User)
    ensures r.life.isActive && r.life.deletedAt == u.life.deletedAt
    ensures r.status == if IsVerified(u) then Active else Pending
    ensures r == u.(status := r.status, life := r.life)
  {
    u.(status := if IsVerified(u) then Active else Pending, life := u.life.(isActive := true))
  }

  /** Deactivating twice is deactivating once, and a deactivated account cannot log in. */
  lemma DeactivateIdempotent(u: User)
    ensures Deactivated(Deactivated(u)) == Deactivated(u)
    ensures !CanLogin(Deactivated(u))
  {
  }

  /** Reactivation gives back the ability to log in exactly to verified
      accounts, and a deactivate-reactivate round trip restores a verified
      active account. */
  lemma ReactivateRestoresLogin(u: User)
    ensures CanLogin(Reactivated(u)) <==> IsVerified(u)
    ensures CanLogin(u) && u.life.isActive ==> Reactivated(Deactivated(u)) == u
  {
  }

  /** `deactivate_user(user, reason)`. */
  method DeactivateUser(db: Store, k: int) returns (r: Result<string>)
    requires db.Valid() && 0 <= k < |db.users|
    modifies db
    ensures db.Valid() && r == Ok("User account deactivated")
    ensures db.users == old(db.users)[k := Deactivated(old(db.users)[k])]
    ensures db.animals == old(db.animals) && db.records == old(db.records)
  {
    var u := db.users[k];
    u := u.(status := Inactive);
    u := u.(life := u.life.(isActive := false));
    db.PutUser(k, u);
    r := Ok("User account deactivated");
  }

  /** `reactivate_user(user)`. */
  method ReactivateUser(db: Store, k: int) returns (r: Result<string>)
    requires db.Valid() && 0 <= k < |db.users|
    modifies db
    ensures db.Valid() && r == Ok("User account reactivated")
    ensures db.users == old(db.users)[k := Reactivated(old(db.users)[k])]
    ensures db.animals == old(db.animals) && db.records == old(db.records)
  {
    var u := db.users[k];
    if IsVerified(u) {
      u := u.(status := Active);
    } else {
      u := u.(status := Pending);
    }
    u := u.(life := u.life.(isActive := true));
    db.PutUser(k, u);
    r := Ok("User account reactivated");
  }
}
