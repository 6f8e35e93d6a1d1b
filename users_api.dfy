/** The user endpoints: registration, verification, reading and listing
    accounts, profile edits, the admins' status changes and deletions, and
    the account statistics. `actor` is the user the decorator admitted. */
module UsersApi {
  import opened Wrappers
  import opened Json
  import opened Text
  import opened UserModel
  import opened Db
  import opened Http
  import Tables
  import Helpers
  import Validators
  import Policy
  import OtpService
  import UserService

  const UserNotFound: string := "User not found"

  // ---------------------------------------------------------------- registration

  function Registered(role: Role): string
  {
    match role
    case Farmer => "Farmer registered successfully. Please verify your account."
    case Veterinarian => "Veterinarian registered successfully. Please verify your account and wait for admin approval."
    case Admin => "Admin created successfully"
  }

  /** `register_farmer`, `register_veterinarian` and `register_admin` (the
      last behind `admin_required`): the body is required, the service
      creates the account, and a farmer or veterinarian is then sent a code
      for both channels. The reply is 201 whether or not a code went out. */
  method Register(db: Store, role: Role, data: Dict, emailOk: string -> bool, parseJson: string -> Option<Value>,
                  id: string, now: int, draw: nat -> nat, smsSent: bool, emailSent: bool)
    returns (r: Reply<User>)
    requires db.Valid()
    modifies db
    ensures db.Valid()
    ensures db.animals == old(db.animals) && db.records == old(db.records)
    ensures data == [] ==> r == Fail(400, NoDataProvided) && db.users == old(db.users)
    ensures var reg := UserService.Registration(old(db.users), role, data, emailOk, parseJson, id, now);
      && (data != [] && !reg.Ok? ==> r == Fail(400, ServiceMessage(reg)) && db.users == old(db.users))
      && (data != [] && reg.Ok? ==>
            && r == Done(201, Registered(role), reg.value)
            && db.users == old(db.users) + [Enrolled(reg.value, role, draw, now)])
  {
    if data == [] {
      return Fail(400, NoDataProvided);
    }
    var res := Enrol(db, role, data, emailOk, parseJson, id, now, draw, smsSent, emailSent);
    if !res.Ok? {
      return Fail(400, ServiceMessage(res));
    }
    r := Done(201, Registered(role), res.value);
  }

  /** The account row the registration stores, with its first code for a
      farmer or veterinarian. */
  function Enrolled(u: User, role: Role, draw: nat -> nat, now: int): User
  {
    if role == Admin then u else OtpService.Issued(u, Helpers.GenerateOtp(Helpers.OtpLength, draw), now)
  }

  /** The service calls of a registration: create, then (not for admins)
      `initiate_user_verification(user)` for both channels. */
  method Enrol(db: Store, role: Role, data: Dict, emailOk: string -> bool, parseJson: string -> Option<Value>,
               id: string, now: int, draw: nat -> nat, smsSent: bool, emailSent: bool)
    returns (res: Result<User>)
    requires db.Valid()
    modifies db
    ensures db.Valid()
    ensures db.animals == old(db.animals) && db.records == old(db.records)
    ensures res == UserService.Registration(old(db.users), role, data, emailOk, parseJson, id, now)
    ensures db.users == if res.Ok? then old(db.users) + [Enrolled(res.value, role, draw, now)] else old(db.users)
  {
    var users0 := db.users;
    res := UserService.CreateUser(db, role, data, emailOk, parseJson, id, now);
    if res.Ok? && role != Admin {
      var u := res.value;
      assert db.users == users0 + [u];
      var notice, code := UserService.InitiateUserVerification(db, |users0|, Str("both"), draw, now,
                                                               smsSent, emailSent);
      Tables.UpdateLast(users0, u, Enrolled(u, role, draw, now));
    }
  }

  /** A farmer or veterinarian leaves registration PENDING with a code
      waiting; only an admin-created admin can log in straight away. */
  lemma RegisteredAccountsWaitForVerification(users: seq<User>, role: Role, data: Dict, emailOk: string -> bool,
                                              parseJson: string -> Option<Value>, id: string, now: int,
                                              draw: nat -> nat)
    requires role != Admin
    requires UserService.Registration(users, role, data, emailOk, parseJson, id, now).Ok?
    ensures var u := Enrolled(UserService.Registration(users, role, data, emailOk, parseJson, id, now).value,
                              role, draw, now);
      u.status == Pending && !CanLogin(u) && OtpService.HasOtp(u)
  {
    var reg := UserService.Registration(users, role, data, emailOk, parseJson, id, now).value;
    assert reg.status == Pending;
  }

  // ---------------------------------------------------------------- POST /users/verify and resend

  /** `data.get('type', 'both')`. */
  function KindOf(data: Dict): Value
  {
    match Lookup(data, "type")
    case Some(v) => v
    case None => Str("both")
  }

  /** `verify_user`: body, required `email` and `otp`, the active account of
      the normalised email, then `UserService.verify_user_account`. A
      non-string email or code raises, which `handle_db_error` answers with 500. */
  method VerifyUser(db: Store, data: Dict, now: int) returns (r: Reply<User>)
    requires db.Valid()
    modifies db
    ensures db.Valid()
    ensures db.animals == old(db.animals) && db.records == old(db.records)
    ensures data == [] ==> r == Fail(400, NoDataProvided)
    ensures data != [] && Validators.MissingFields(data, ["email", "otp"]) != [] ==>
      r == FailWith(400, MissingRequiredFields, Validators.MissingFields(data, ["email", "otp"]))
    ensures r.status == 200 ==>
      && Get(data, "email").Str? && Get(data, "otp").Str?
      && var k := ActiveEmailIndex(old(db.users), Strip(Lower(Get(data, "email").s)));
      && k < |old(db.users)|
      && OtpService.VerifyOtp(old(db.users)[k], Str(Strip(Get(data, "otp").s)), Helpers.OtpValidityMinutes, now)
         == OtpService.OtpOk
      && db.users == old(db.users)[k := UserService.Verified(old(db.users)[k], KindOf(data))]
      && r.body == Some(db.users[k])
    ensures r.status != 200 ==> db.users == old(db.users)
  {
    if data == [] {
      return Fail(400, NoDataProvided);
    }
    var missing := Validators.MissingFields(data, ["email", "otp"]);
    if missing != [] {
      return FailWith(400, MissingRequiredFields, missing);
    }
    var email := Get(data, "email");
    var otp := Get(data, "otp");
    if !email.Str? || !otp.Str? {
      return Fail(500, DatabaseOperationFailed);
    }
    var k := ActiveEmailIndex(db.users, Strip(Lower(email.s)));
    if k == |db.users| {
      return Fail(404, UserNotFound);
    }
    var res := UserService.VerifyUserAccount(db, k, Str(Strip(otp.s)), KindOf(data), now);
    if !res.Ok? {
      return Fail(400, ServiceMessage(res));
    }
    r := Done(200, res.value, db.users[k]);
  }

  const AlreadyVerified: string := "User is already verified"

  /** The account `resend_verification` sends a code to: the active account
      of the normalised email, when the request names one and it is not
      verified yet. */
  predicate ResendAdmitted(users: seq<User>, data: Dict)
  {
    && data != [] && Validators.MissingFields(data, ["email"]) == [] && Get(data, "email").Str?
    && ActiveEmailIndex(users, Strip(Lower(Get(data, "email").s))) < |users|
    && !IsVerified(users[ActiveEmailIndex(users, Strip(Lower(Get(data, "email").s)))])
  }

  /** `resend_verification`: body, required `email`, the active account of
      the normalised email, which must not be verified yet; then a fresh code
      replaces the old one and the requested channels are tried. The code is
      stored even when no message goes out. */
  method ResendVerification(db: Store, data: Dict, draw: nat -> nat, now: int, smsSent: bool, emailSent: bool)
    returns (r: Reply<string>)
    requires db.Valid()
    modifies db
    ensures db.Valid()
    ensures db.animals == old(db.animals) && db.records == old(db.records)
    ensures data == [] ==> r == Fail(400, NoDataProvided)
    ensures !ResendAdmitted(old(db.users), data) ==> r.status != 200 && db.users == old(db.users)
    ensures ResendAdmitted(old(db.users), data) ==>
      var k := ActiveEmailIndex(old(db.users), Strip(Lower(Get(data, "email").s)));
      var notice := UserService.VerificationNotice(KindOf(data), smsSent, emailSent);
      && db.users == old(db.users)[k := OtpService.Issued(old(db.users)[k], Helpers.GenerateOtp(Helpers.OtpLength, draw), now)]
      && (notice.Ok? ==> r == Done(200, "Verification code sent", notice.value))
      && (!notice.Ok? ==> r == Fail(500, ServiceMessage(notice)))
    ensures (&& data != [] && Validators.MissingFields(data, ["email"]) == [] && Get(data, "email").Str?
             && ActiveEmailIndex(old(db.users), Strip(Lower(Get(data, "email").s))) < |old(db.users)|
             && !ResendAdmitted(old(db.users), data)) ==> r == Fail(400, AlreadyVerified)
  {
    if data == [] {
      return Fail(400, NoDataProvided);
    }
    var missing := Validators.MissingFields(data, ["email"]);
    if missing != [] {
      return FailWith(400, MissingRequiredFields, missing);
    }
    var email := Get(data, "email");
    if !email.Str? {
      return Fail(500, DatabaseOperationFailed);
    }
    var k := ActiveEmailIndex(db.users, Strip(Lower(email.s)));
    if k == |db.users| {
      return Fail(404, UserNotFound);
    }
    if IsVerified(db.users[k]) {
      return Fail(400, AlreadyVerified);
    }
    var notice, code := UserService.InitiateUserVerification(db, k, KindOf(data), draw, now, smsSent, emailSent);
    if notice.Ok? {
      return Done(200, "Verification code sent", notice.value);
    }
    r := Fail(500, ServiceMessage(notice));
  }

  /** The verification failure message is never the decorator's 500 text. */
  lemma NoticeFailureIsNotDatabaseFailure(kind: Value, smsSent: bool, emailSent: bool)
    requires !UserService.VerificationNotice(kind, smsSent, emailSent).Ok?
    ensures ServiceMessage(UserService.VerificationNotice(kind, smsSent, emailSent)) != DatabaseOperationFailed
  {
    assert ServiceMessage(UserService.VerificationNotice(kind, smsSent, emailSent))[0] == 'F';
    assert DatabaseOperationFailed[0] == 'D';
  }

  // ---------------------------------------------------------------- GET /users/<id>

  /** The test of `get_user` and `update_user_profile`: admins see anyone,
      everyone else only themselves. */
  function SelfOrAdmin(actor: User, userId: string): (refusal: Option<string>)
    ensures refusal.Some? ==> refusal.value == AccessDenied
  {
    if RoleOf(actor) != Admin && actor.id != userId then Some(AccessDenied) else None
  }

  lemma SelfOrAdminIsPolicy(actor: User, userId: string, op: Policy.Op)
    requires op == Policy.ReadUser || op == Policy.UpdateUserProfile
    ensures SelfOrAdmin(actor, userId).None? <==> Policy.Decide(actor, op, Policy.Person(userId))
  {
  }

  function GetUser(users: seq<User>, actor: User, userId: string): (r: Reply<User>)
    ensures SelfOrAdmin(actor, userId).Some? ==> r == Fail(403, AccessDenied)
    ensures SelfOrAdmin(actor, userId).None? && ActiveUserIndex(users, userId) == |users| ==> r == Fail(404, UserNotFound)
    ensures r.status == 200 <==> SelfOrAdmin(actor, userId).None? && ActiveUserIndex(users, userId) < |users|
    ensures r.status == 200 ==> r.body.Some? && r.body.value in users && r.body.value.id == userId && r.body.value.life.isActive
  {
    match SelfOrAdmin(actor, userId)
    case Some(m) => Fail(403, m)
    case None =>
      var k := ActiveUserIndex(users, userId);
      if k == |users| then Fail(404, UserNotFound) else Done(200, "User retrieved successfully", users[k])
  }

  // ---------------------------------------------------------------- GET /users

  datatype UserQuery = UserQuery(role: Option<Role>, status: Option<Status>, term: Option<string>)

  /** The filters of `list_users`: a type or status argument counts only when
      it is one of the enumeration's values, and the search term when non-empty. */
  function ListQuery(typeArg: Option<string>, statusArg: Option<string>, search: Option<string>): (q: UserQuery)
    ensures q.role.Some? <==> typeArg.Some? && typeArg.value in {"farmer", "veterinarian", "admin"}
    ensures q.role.Some? ==> RoleValue(q.role.value) == typeArg.value
    ensures q.status.Some? <==> statusArg.Some? && statusArg.value in {"active", "inactive", "pending", "suspended"}
    ensures q.status.Some? ==> StatusValue(q.status.value) == statusArg.value
    ensures q.term.Some? <==> search.Some? && search.value != ""
  {
    RoleValuesRoundTrip(Farmer, if typeArg.Some? then typeArg.value else "");
    StatusValuesRoundTrip(Active, if statusArg.Some? then statusArg.value else "");
    UserQuery(if typeArg.Some? then ParseRole(typeArg.value) else None,
              if statusArg.Some? then ParseStatus(statusArg.value) else None,
              if search.Some? && search.value != "" then search else None)
  }

  /** Whether an account passes the query of `list_users`. */
  predicate UserMatches(u: User, q: UserQuery)
  {
    && u.life.isActive
    && (q.role.Some? ==> RoleOf(u) == q.role.value)
    && (q.status.Some? ==> u.status == q.status.value)
    && (q.term.Some? ==> ContainsIgnoringCase(u.name, q.term.value) || ContainsIgnoringCase(u.email, q.term.value))
  }

  function UserSelection(users: seq<User>, q: UserQuery): (r: seq<User>)
    ensures forall i :: 0 <= i < |r| ==> r[i] in users && UserMatches(r[i], q)
    ensures forall i :: 0 <= i < |users| && UserMatches(users[i], q) ==> users[i] in r
  {
    Tables.Filter(users, (u: User) => UserMatches(u, q))
  }

  /** The rows `list_users` pages through: the matching accounts, newest first. */
  function UserRows(users: seq<User>, q: UserQuery): (r: seq<User>)
    ensures multiset(r) == multiset(UserSelection(users, q))
    ensures forall i, j :: 0 <= i < j < |r| ==> r[i].createdAt >= r[j].createdAt
  {
    Tables.SortBy(UserSelection(users, q), NewestUserFirst)
  }

  /** The rows are every matching account, and only those. */
  lemma UserRowsAreTheQuery(users: seq<User>, q: UserQuery, x: User)
    ensures x in UserRows(users, q) <==> x in users && UserMatches(x, q)
  {
    Tables.SortedSelection(users, (u: User) => UserMatches(u, q), NewestUserFirst);
  }

  /** `list_users` (admin only): the matching active accounts, newest first,
      one page; a zero page size divides by zero, which `auth_required`
      answers with 401. */
  function ListUsers(users: seq<User>, typeArg: Option<string>, statusArg: Option<string>, search: Option<string>,
                     page: int, perPage: int)
    : (r: Reply<Helpers.Page<User>>)
    ensures r.status == 200 <==> perPage != 0
    ensures r.status != 200 ==> r == FailWith(401, AuthenticationFailed, [ZeroDivisionText])
    ensures r.status == 200 ==>
      && r.body == Helpers.Paginate(UserRows(users, ListQuery(typeArg, statusArg, search)), page, perPage, 100)
      && r.body.value.total == |UserSelection(users, ListQuery(typeArg, statusArg, search))|
      && forall x :: x in r.body.value.items ==> x in users && UserMatches(x, ListQuery(typeArg, statusArg, search))
  {
    var sel := UserSelection(users, ListQuery(typeArg, statusArg, search));
    var rows := UserRows(users, ListQuery(typeArg, statusArg, search));
    assert forall x :: x in rows ==> x in multiset(sel);
    Paged(rows, page, perPage, "Users retrieved successfully")
  }

  /** An unrecognised type or status argument is ignored rather than refused. */
  lemma UnknownFiltersIgnored(users: seq<User>, typeArg: Option<string>, statusArg: Option<string>,
                              search: Option<string>, page: int, perPage: int)
    requires typeArg.Some? && typeArg.value !in {"farmer", "veterinarian", "admin"}
    requires statusArg.Some? && statusArg.value !in {"active", "inactive", "pending", "suspended"}
    ensures ListUsers(users, typeArg, statusArg, search, page, perPage) == ListUsers(users, None, None, search, page, perPage)
  {
    assert ListQuery(typeArg, statusArg, search) == ListQuery(None, None, search);
  }

  // ---------------------------------------------------------------- PUT /users/<id>/profile

  /** `update_user_profile` (the route): access, body, the active account,
      then the service; the reply carries the account as it now is. */
  method UpdateUserProfile(db: Store, actor: User, userId: string, data: Dict) returns (r: Reply<User>)
    requires db.Valid()
    modifies db
    ensures db.Valid()
    ensures db.animals == old(db.animals) && db.records == old(db.records)
    ensures SelfOrAdmin(actor, userId).Some? ==> r == Fail(403, AccessDenied)
    ensures SelfOrAdmin(actor, userId).None? && data == [] ==> r == Fail(400, NoDataProvided)
    ensures r.status == 200 ==>
      var k := ActiveUserIndex(old(db.users), userId);
      && SelfOrAdmin(actor, userId).None? && k < |old(db.users)|
      && var e := UserService.ApplyUpdates(old(db.users)[k], data);
      && e.fields != []
      && r == Done(200, UserService.ProfileUpdatedMessage(e.fields), e.user)
      && db.users == old(db.users)[k := e.user]
    ensures r.status != 200 ==> db.users == old(db.users)
  {
    var refusal := SelfOrAdmin(actor, userId);
    if refusal.Some? {
      return Fail(403, refusal.value);
    }
    if data == [] {
      return Fail(400, NoDataProvided);
    }
    var k := ActiveUserIndex(db.users, userId);
    if k == |db.users| {
      return Fail(404, UserNotFound);
    }
    var res := UserService.UpdateUserProfile(db, k, data);
    if !res.Ok? {
      return Fail(400, ServiceMessage(res));
    }
    r := Done(200, UserService.ProfileUpdatedMessage(res.value), db.users[k]);
  }

  // ---------------------------------------------------------------- PUT /users/<id>/status

  /** The row after `update_user_status`: the new status; INACTIVE hides the
      account, ACTIVE and PENDING show it, SUSPENDED leaves visibility as it
      was. The verification flags are not touched. */
  function StatusChanged(u: User, s: Status): (r: User)
    ensures r.status == s
    ensures r.life.isActive == match s
      case Inactive => false
      case Active => true
      case Pending => true
      case Suspended => u.life.isActive
    ensures r == u.(status := s, life := r.life) && r.life.deletedAt == u.life.deletedAt
  {
    match s
    case Inactive => u.(status := s, life := u.life.(isActive := false))
    case Active => u.(status := s, life := u.life.(isActive := true))
    case Pending => u.(status := s, life := u.life.(isActive := true))
    case Suspended => u.(status := s)
  }

  /** An admin can make an unverified account ACTIVE; it still cannot log in,
      because activation does not mark it verified. */
  lemma ActivationSkipsVerification(u: User)
    ensures IsVerified(StatusChanged(u, Active)) == IsVerified(u)
    ensures CanLogin(StatusChanged(u, Active)) <==> IsVerified(u)
  {
  }

  /** `status` must be one of the four values, as a string. */
  function RequestedStatus(v: Value): (r: Option<Status>)
    ensures r.Some? <==> v.Str? && v.s in {"active", "inactive", "pending", "suspended"}
    ensures r.Some? ==> StatusValue(r.value) == v.s
  {
    StatusValuesRoundTrip(Active, if v.Str? then v.s else "");
    if v.Str? then ParseStatus(v.s) else None
  }

  /** `update_user_status` (admin only): body, required `status`, a known
      status, the active account; then status and visibility change together. */
  method UpdateUserStatus(db: Store, userId: string, data: Dict) returns (r: Reply<User>)
    requires db.Valid()
    modifies db
    ensures db.Valid()
    ensures db.animals == old(db.animals) && db.records == old(db.records)
    ensures data == [] ==> r == Fail(400, NoDataProvided)
    ensures data != [] && Validators.MissingFields(data, ["status"]) == [] && RequestedStatus(Get(data, "status")).None? ==>
      r == Fail(400, "Invalid status")
    ensures r.status == 200 <==>
      && data != [] && Validators.MissingFields(data, ["status"]) == [] && RequestedStatus(Get(data, "status")).Some?
      && ActiveUserIndex(old(db.users), userId) < |old(db.users)|
    ensures r.status == 200 ==>
      var k := ActiveUserIndex(old(db.users), userId);
      var s := RequestedStatus(Get(data, "status")).value;
      && r == Done(200, "User status updated to " + StatusValue(s), StatusChanged(old(db.users)[k], s))
      && db.users == old(db.users)[k := StatusChanged(old(db.users)[k], s)]
    ensures r.status != 200 ==> db.users == old(db.users)
  {
    if data == [] {
      return Fail(400, NoDataProvided);
    }
    var missing := Validators.MissingFields(data, ["status"]);
    if missing != [] {
      return FailWith(400, MissingRequiredFields, missing);
    }
    var s := RequestedStatus(Get(data, "status"));
    if s.None? {
      return Fail(400, "Invalid status");
    }
    var k := ActiveUserIndex(db.users, userId);
    if k == |db.users| {
      return Fail(404, UserNotFound);
    }
    var u := db.users[k];
    u := u.(status := s.value);
    if s.value == Inactive {
      u := u.(life := u.life.(isActive := false));
    } else if s.value == Active || s.value == Pending {
      u := u.(life := u.life.(isActive := true));
    }
    db.PutUser(k, u);
    r := Done(200, "User status updated to " + StatusValue(s.value), u);
  }

  /** With unique ids, an account whose row at `k` is hidden is no longer
      found by id. */
  lemma HiddenAccountIsGone(users: seq<User>, k: int, u: User)
    requires UsersUnique(users) && 0 <= k < |users| && u.id == users[k].id && !u.life.isActive
    ensures ActiveUserIndex(users[k := u], u.id) == |users|
  {
    var after := users[k := u];
    forall i | 0 <= i < |after| ensures !(after[i].id == u.id && after[i].life.isActive) {
      if i != k && users[i].id == u.id {
        UniqueUserId(users, i, k);
      }
    }
  }

  /** After an account is set INACTIVE, the next status change for it finds no
      account. */
  lemma InactiveAccountsAreUnreachable(users: seq<User>, userId: string)
    requires UsersUnique(users) && ActiveUserIndex(users, userId) < |users|
    ensures var k := ActiveUserIndex(users, userId);
      ActiveUserIndex(users[k := StatusChanged(users[k], Inactive)], userId) == |users|
  {
    var k := ActiveUserIndex(users, userId);
    HiddenAccountIsGone(users, k, StatusChanged(users[k], Inactive));
  }

  // ---------------------------------------------------------------- DELETE /users/<id>

  const CannotDeleteAdmins: string := "Cannot delete other admin users"

  /** The rule `delete_user` adds after the lookup: no admin deletes another admin. */
  function DeletionRefusal(actor: User, target: User): (refusal: Option<string>)
    ensures refusal.Some? ==> refusal.value == CannotDeleteAdmins
  {
    if RoleOf(target) == Admin && target.id != actor.id then Some(CannotDeleteAdmins) else None
  }

  lemma DeletionRefusalIsPolicy(actor: User, target: User)
    requires RoleOf(actor) == Admin
    ensures DeletionRefusal(actor, target).None? <==>
      Policy.Decide(actor, Policy.DeleteUser, Policy.Account(target.id, RoleOf(target)))
  {
  }

  /** `delete_user` (admin only): the active account, the admin rule, then
      `deactivate_user`. */
  method DeleteUser(db: Store, actor: User, userId: string) returns (r: Reply<()>)
    requires db.Valid()
    modifies db
    ensures db.Valid()
    ensures db.animals == old(db.animals) && db.records == old(db.records)
    ensures ActiveUserIndex(old(db.users), userId) == |old(db.users)| ==> r == Fail(404, UserNotFound)
    ensures r.status == 200 <==>
      && ActiveUserIndex(old(db.users), userId) < |old(db.users)|
      && DeletionRefusal(actor, old(db.users)[ActiveUserIndex(old(db.users), userId)]).None?
    ensures r.status == 200 ==>
      var k := ActiveUserIndex(old(db.users), userId);
      && r.message == "User deleted successfully"
      && db.users == old(db.users)[k := UserService.Deactivated(old(db.users)[k])]
      && ActiveUserIndex(db.users, userId) == |db.users|
    ensures r.status != 200 ==> db.users == old(db.users)
  {
    var k := ActiveUserIndex(db.users, userId);
    if k == |db.users| {
      return Fail(404, UserNotFound);
    }
    var refusal := DeletionRefusal(actor, db.users[k]);
    if refusal.Some? {
      return Fail(403, refusal.value);
    }
    HiddenAccountIsGone(db.users, k, UserService.Deactivated(db.users[k]));
    var res := UserService.DeactivateUser(db, k);
    r := Reply(200, "User deleted successfully", [], None);
  }

  // ---------------------------------------------------------------- GET /users/stats

  datatype UserStats = UserStats(total: nat, active: nat, pending: nat, farmers: nat, vets: nat, admins: nat,
                                 verified: nat)

  function ActiveUsers(users: seq<User>): (r: seq<User>)
    ensures forall x :: x in r ==> x in users && x.life.isActive
  {
    BaseModel.GetActive(users, (u: User) => u.life)
  }

  function StatusOf(u: User): Status
  {
    u.status
  }

  predicate StatusIsActive(u: User) { u.status == Active }
  predicate StatusIsPending(u: User) { u.status == Pending }
  predicate IsFarmerAccount(u: User) { RoleOf(u) == Farmer }
  predicate IsVetAccount(u: User) { RoleOf(u) == Veterinarian }
  predicate IsAdminAccount(u: User) { RoleOf(u) == Admin }

  /** `get_user_stats` (admin only): counts over the active accounts. Each
      figure is the number of active accounts with that status, that role, or
      both the email and the phone verified. */
  function GetUserStats(users: seq<User>): (s: UserStats)
    ensures var xs := ActiveUsers(users);
      && s.total == |xs|
      && s.active == Tables.Count(xs, StatusIsActive)
      && s.pending == Tables.Count(xs, StatusIsPending)
      && s.farmers == Tables.Count(xs, IsFarmerAccount)
      && s.vets == Tables.Count(xs, IsVetAccount)
      && s.admins == Tables.Count(xs, IsAdminAccount)
      && s.verified == Tables.Count(xs, IsVerified)
    ensures s.farmers + s.vets + s.admins == s.total
    ensures s.active + s.pending <= s.total
    ensures s.verified <= s.total
  {
    var xs := ActiveUsers(users);
    RolesAddUp(xs);
    StatusesBounded(xs);
    Tables.TallyIsCount(xs, StatusOf, Active, StatusIsActive);
    Tables.TallyIsCount(xs, StatusOf, Pending, StatusIsPending);
    Tables.TallyIsCount(xs, RoleOf, Farmer, IsFarmerAccount);
    Tables.TallyIsCount(xs, RoleOf, Veterinarian, IsVetAccount);
    Tables.TallyIsCount(xs, RoleOf, Admin, IsAdminAccount);
    UserStats(|xs|, Tables.Tally(xs, StatusOf, Active), Tables.Tally(xs, StatusOf, Pending),
              Tables.Tally(xs, RoleOf, Farmer), Tables.Tally(xs, RoleOf, Veterinarian), Tables.Tally(xs, RoleOf, Admin),
              Tables.Count(xs, IsVerified))
  }

  const AllRoles: seq<Role> := [Farmer, Veterinarian, Admin]
  const SomeStatuses: seq<Status> := [Active, Pending]

  /** Each account has one role, so the role counts add up to the total. */
  lemma RolesAddUp(xs: seq<User>)
    ensures Tables.Tally(xs, RoleOf, Farmer) + Tables.Tally(xs, RoleOf, Veterinarian) + Tables.Tally(xs, RoleOf, Admin) == |xs|
  {
    forall i | 0 <= i < |xs| ensures Tables.Occurrences(AllRoles, RoleOf(xs[i])) == 1 {
      assert AllRoles[1..][1..][1..] == [];
    }
    Tables.SumTallyBound(xs, RoleOf, AllRoles);
    assert AllRoles[1..][1..][1..] == [];
  }

  /** The active and pending counts, two of four statuses, add up to at most the total. */
  lemma StatusesBounded(xs: seq<User>)
    ensures Tables.Tally(xs, StatusOf, Active) + Tables.Tally(xs, StatusOf, Pending) <= |xs|
  {
    forall i | 0 <= i < |xs| ensures Tables.Occurrences(SomeStatuses, StatusOf(xs[i])) <= 1 {
      assert SomeStatuses[1..][1..] == [];
    }
    Tables.SumTallyBound(xs, StatusOf, SomeStatuses);
    assert SomeStatuses[1..][1..] == [];
  }
}
