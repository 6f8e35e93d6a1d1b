/** Authentication decisions and account-flag updates shared by the routes:
    credential checks, marking channels verified, password reset and the
    permission table. */
module AuthUtils {
  import opened Wrappers
  import opened Json
  import opened Text
  import opened UserModel
  import opened Db

  const MsgCredentialsRequired: string := "Email and password are required"
  const MsgInvalidCredentials: string := "Invalid email or password"

  /** Why a user with the right password still may not log in. */
  function CannotLoginMessage(u: User): string
  {
    match u.status
    case Pending => "Account is pending verification"
    case Inactive => "Account is inactive"
    case Suspended => "Account is suspended"
    case Active => "Account verification required"
  }

  /** `authenticate_user(email, password)`: the position of the user, or the message. */
  function Authenticate(users: seq<User>, email: string, password: string): (r: Result<nat>)
    ensures r.Ok? ==> r.value < |users| && CanLogin(users[r.value]) && users[r.value].email == Lower(email)
                      && users[r.value].life.isActive && CheckPassword(users[r.value], password)
    ensures r.Crash? == false
  {
    if email == "" || password == "" then Err(MsgCredentialsRequired)
    else
      var k := ActiveEmailIndex(users, Lower(email));
      if k == |users| then Err(MsgInvalidCredentials)
      else if !CheckPassword(users[k], password) then Err(MsgInvalidCredentials)
      else if !CanLogin(users[k]) then Err(CannotLoginMessage(users[k]))
      else Ok(k)
  }

  /** Empty credentials are refused before the table is consulted. */
  lemma EmptyCredentialsRefused(users: seq<User>, other: seq<User>, email: string, password: string)
    requires email == "" || password == ""
    ensures Authenticate(users, email, password) == Authenticate(other, email, password) == Err(MsgCredentialsRequired)
  {
  }

  /** An unknown email and a wrong password are indistinguishable to the caller. */
  lemma UnknownEmailLooksLikeWrongPassword(users: seq<User>, email: string, password: string)
    requires email != "" && password != ""
    requires ActiveEmailIndex(users, Lower(email)) == |users|
             || !CheckPassword(users[ActiveEmailIndex(users, Lower(email))], password)
    ensures Authenticate(users, email, password) == Err(MsgInvalidCredentials)
  {
  }

  /** The right password on an account that cannot log in gives the status's
      own message; an active account that is not verified gets the
      verification message. */
  lemma StatusMessages(users: seq<User>, email: string, password: string)
    requires email != "" && password != ""
    requires ActiveEmailIndex(users, Lower(email)) < |users|
    requires CheckPassword(users[ActiveEmailIndex(users, Lower(email))], password)
    ensures var u := users[ActiveEmailIndex(users, Lower(email))];
      && (u.status == Pending ==> Authenticate(users, email, password) == Err("Account is pending verification"))
      && (u.status == Inactive ==> Authenticate(users, email, password) == Err("Account is inactive"))
      && (u.status == Suspended ==> Authenticate(users, email, password) == Err("Account is suspended"))
      && (u.status == Active && !IsVerified(u) ==> Authenticate(users, email, password) == Err("Account verification required"))
      && (CanLogin(u) ==> Authenticate(users, email, password).Ok?)
  {
  }

  /** `verify_user_account(user, verification_type)` on the row: mark the
      named channels, then activate when both are verified. */
  function MarkVerified(u: User, kind: Value): (r: User)
    ensures r.emailVerified == (u.emailVerified || kind in [Str("email"), Str("both")])
    ensures r.phoneVerified == (u.phoneVerified || kind in [Str("phone"), Str("both")])
    ensures r.status == if IsVerified(r) then Active else u.status
    ensures r == u.(emailVerified := r.emailVerified, phoneVerified := r.phoneVerified, status := r.status)
  {
    var e := if kind in [Str("email"), Str("both")] then true else u.emailVerified;
    var p := if kind in [Str("phone"), Str("both")] then true else u.phoneVerified;
    var st := if e && p then Active else u.status;
    u.(emailVerified := e, phoneVerified := p, status := st)
  }

  /** Verifying both channels makes any account able to log in, suspended or
      inactive ones included. */
  lemma VerifyBothActivatesFromAnyStatus(u: User)
    ensures CanLogin(MarkVerified(u, Str("both")))
  {
  }

  /** Once both channels are verified, a verification of any kind, even an
      unrecognised one, re-activates the account. */
  lemma VerifiedAccountReactivatedByAnyKind(u: User, kind: Value)
    requires IsVerified(u)
    ensures MarkVerified(u, kind).status == Active
  {
  }

  /** Verifying a single channel leaves a half-verified account's status alone. */
  lemma SingleChannelKeepsStatus(u: User)
    requires !u.phoneVerified
    ensures MarkVerified(u, Str("email")).status == u.status
  {
  }

  /** `verify_user_account` on the store. The commit touches no constrained
      column, so it always succeeds. */
  method VerifyUserAccount(db: Store, k: int, kind: Value) returns (ok: bool)
    requires db.Valid() && 0 <= k < |db.users|
    modifies db
    ensures db.Valid() && ok
    ensures db.users == old(db.users)[k := MarkVerified(old(db.users)[k], kind)]
    ensures db.animals == old(db.animals) && db.records == old(db.records)
  {
    var u := db.users[k];
    if kind in [Str("email"), Str("both")] {
      u := u.(emailVerified := true);
    }
    if kind in [Str("phone"), Str("both")] {
      u := u.(phoneVerified := true);
    }
    if u.emailVerified && u.phoneVerified {
      u := u.(status := Active);
    }
    db.PutUser(k, u);
    ok := true;
  }

  /** `reset_user_password(user, new_password)`. */
  method ResetUserPassword(db: Store, k: int, newPassword: string) returns (ok: bool)
    requires db.Valid() && 0 <= k < |db.users|
    modifies db
    ensures db.Valid() && ok
    ensures db.users == old(db.users)[k := old(db.users)[k].(credential := newPassword)]
    ensures db.animals == old(db.animals) && db.records == old(db.records)
  {
    db.PutUser(k, db.users[k].(credential := newPassword));
    ok := true;
  }

  /** The fixed permission table for users without an admin row. */
  function RolePermissions(r: Role): seq<string>
  {
    match r
    case Farmer => ["view_own_animals", "update_own_profile", "view_own_treatments"]
    case Veterinarian => ["view_assigned_animals", "create_treatments", "update_animal_health", "view_farmer_contacts"]
    case Admin => ["all"]
  }

  /** Whether one permission is granted: admins through their permission
      text, everyone else through the table. */
  predicate Granted(u: User, permission: string)
  {
    if u.data.AdminData? then HasPermission(u, permission)
    else permission in RolePermissions(RoleOf(u)) || "all" in RolePermissions(RoleOf(u))
  }

  /** `check_user_permissions(user, required_permissions)`. */
  method CheckUserPermissions(u: User, required: seq<string>) returns (ok: bool)
    ensures ok <==> forall i :: 0 <= i < |required| ==> Granted(u, required[i])
  {
    var k := 0;
    while k < |required|
      invariant 0 <= k <= |required|
      invariant forall i :: 0 <= i < k ==> Granted(u, required[i])
    {
      if !Granted(u, required[k]) {
        return false;
      }
      k := k + 1;
    }
    return true;
  }

  /** A farmer holds exactly the three farmer permissions. */
  lemma FarmerPermissions(u: User, permission: string)
    requires u.data.FarmerData?
    ensures Granted(u, permission) <==> permission in {"view_own_animals", "update_own_profile", "view_own_treatments"}
  {
  }
}
