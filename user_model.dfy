/** Accounts: the three roles, the four account statuses, the verification
    flags, the one-time-code slot and the per-role columns. */
module UserModel {
  import opened Wrappers
  import opened Json
  import opened Text
  import opened BaseModel

  datatype Role = Farmer | Veterinarian | Admin

  datatype Status = Active | Inactive | Pending | Suspended

  function RoleValue(r: Role): string
  {
    match r
    case Farmer => "farmer"
    case Veterinarian => "veterinarian"
    case Admin => "admin"
  }

  /** `UserRole(s)`: the role whose value is exactly `s`. */
  function ParseRole(s: string): (r: Option<Role>)
    ensures r.Some? ==> RoleValue(r.value) == s
  {
    if s == "farmer" then Some(Farmer)
    else if s == "veterinarian" then Some(Veterinarian)
    else if s == "admin" then Some(Admin)
    else None
  }

  /** A role is named by exactly one value, and that value names only it. */
  lemma RoleValuesRoundTrip(r: Role, s: string)
    ensures ParseRole(RoleValue(r)) == Some(r)
    ensures ParseRole(s).Some? <==> s in {"farmer", "veterinarian", "admin"}
  {
  }

  function StatusValue(s: Status): string
  {
    match s
    case Active => "active"
    case Inactive => "inactive"
    case Pending => "pending"
    case Suspended => "suspended"
  }

  /** `UserStatus(s)`: the status whose value is exactly `s`. */
  function ParseStatus(s: string): (r: Option<Status>)
    ensures r.Some? ==> StatusValue(r.value) == s
  {
    if s == "active" then Some(Active)
    else if s == "inactive" then Some(Inactive)
    else if s == "pending" then Some(Pending)
    else if s == "suspended" then Some(Suspended)
    else None
  }

  lemma StatusValuesRoundTrip(st: Status, s: string)
    ensures ParseStatus(StatusValue(st)) == Some(st)
    ensures ParseStatus(s).Some? <==> s in {"active", "inactive", "pending", "suspended"}
  {
  }

  /** The admins' `permissions` text column together with what `json.loads`
      makes of it (None when it does not parse). */
  datatype PermissionText = PermissionText(text: string, parsed: Option<Value>)

  /** The columns of the table a user's role adds (the joined subclass table). */
  datatype RoleData =
    | FarmerData(aadharNo: Value)
    | VetData(licenseNo: Value)
    | AdminData(employeeId: Value, permissions: Option<PermissionText>)

  /** A row of `users` with its subclass row. `credential` stands for
      `password_hash`; `profile` holds the nullable descriptive columns
      (address, profile image, farm and clinic details) by column name. */
  datatype User = User(
    id: string,
    name: string,
    email: string,
    phone: string,
    credential: string,
    data: RoleData,
    status: Status,
    emailVerified: bool,
    phoneVerified: bool,
    otpCode: Option<string>,
    otpCreatedAt: Option<int>,
    profile: map<string, Value>,
    life: Lifecycle,
    createdAt: int)

  function RoleOf(u: User): (r: Role)
    ensures r == Farmer <==> u.data.FarmerData?
    ensures r == Veterinarian <==> u.data.VetData?
    ensures r == Admin <==> u.data.AdminData?
  {
    match u.data
    case FarmerData(_) => Farmer
    case VetData(_) => Veterinarian
    case AdminData(_, _) => Admin
  }

  /** `is_verified()`. */
  predicate IsVerified(u: User)
  {
    u.emailVerified && u.phoneVerified
  }

  /** `order_by(created_at.desc())` on users. */
  function NewestUserFirst(u: User): int
  {
    -u.createdAt
  }

  /** A profile column `ILIKE '%term%'`; a NULL or non-string column never matches. */
  predicate ProfileMatches(profile: map<string, Value>, column: string, term: string)
  {
    column in profile && profile[column].Str? && ContainsIgnoringCase(profile[column].s, term)
  }

  /** `can_login()`. */
  predicate CanLogin(u: User)
  {
    u.status == Active && IsVerified(u)
  }

  /** Only an active account with both channels verified may log in. */
  lemma CanLoginExactly(u: User)
    ensures CanLogin(u) <==> u.status == Active && u.emailVerified && u.phoneVerified
    ensures u.status in {Pending, Inactive, Suspended} ==> !CanLogin(u)
  {
  }

  /** `check_password(password)`; hashing is abstracted to comparing credentials. */
  predicate CheckPassword(u: User, password: string)
  {
    u.credential == password
  }

  /** A row as the constructor leaves it before the service sets anything else:
      the column defaults. */
  function NewUser(id: string, name: string, email: string, phone: string, credential: string,
                   data: RoleData, profile: map<string, Value>, now: int): (u: User)
    ensures u.status == Pending && !u.emailVerified && !u.phoneVerified
    ensures u.otpCode.None? && u.otpCreatedAt.None?
    ensures u.life.isActive && u.life.deletedAt.None?
    ensures !CanLogin(u)
    ensures u.id == id && u.email == email && u.phone == phone && u.data == data
  {
    User(id, name, email, phone, credential, data, Pending, false, false, None, None, profile, Fresh(), now)
  }

  /** Python's `x in container` when `container` came out of `json.loads`:
      membership for a list, a key for an object, a substring for a string;
      for numbers, booleans and null it raises, which is None here. */
  function JsonContains(container: Value, x: string): (r: Option<bool>)
    ensures r.None? <==> !(container.List? || container.Obj? || container.Str?)
  {
    match container
    case List(items) => Some(Str(x) in items)
    case Obj(fields) => Some(HasKey(fields, x))
    case Str(s) => Some(IsInfix(x, s))
    case _ => None
  }

  /** `Admin.has_permission(permission)`; any exception yields False. */
  predicate HasPermission(u: User, permission: string)
  {
    && u.data.AdminData?
    && u.data.permissions.Some? && u.data.permissions.value.text != ""
    && u.data.permissions.value.parsed.Some?
    && var perms := u.data.permissions.value.parsed.value;
       JsonContains(perms, permission).Some?
       && (JsonContains(perms, permission).value || JsonContains(perms, "all").value)
  }

  /** No permission text, an empty one or one that does not parse grants
      nothing; a parsed list grants exactly its members, or everything when it
      lists "all". */
  lemma HasPermissionMeaning(u: User, permission: string)
    requires u.data.AdminData?
    ensures u.data.permissions.None? ==> !HasPermission(u, permission)
    ensures u.data.permissions.Some? && u.data.permissions.value.text == "" ==> !HasPermission(u, permission)
    ensures u.data.permissions.Some? && u.data.permissions.value.parsed.None? ==> !HasPermission(u, permission)
    ensures u.data.permissions.Some? && u.data.permissions.value.text != ""
            && u.data.permissions.value.parsed.Some? && u.data.permissions.value.parsed.value.List?
            ==> (HasPermission(u, permission) <==>
                 Str(permission) in u.data.permissions.value.parsed.value.items
                 || Str("all") in u.data.permissions.value.parsed.value.items)
  {
  }

  /** A permission text holding a JSON number, boolean or null grants nothing,
      because the membership test raises. */
  lemma ScalarPermissionsGrantNothing(u: User, permission: string)
    requires u.data.AdminData? && u.data.permissions.Some?
    requires u.data.permissions.value.parsed.Some?
    requires var p := u.data.permissions.value.parsed.value; p.Null? || p.Bool? || p.Int? || p.Float?
    ensures !HasPermission(u, permission)
  {
  }

  /** The permissions a new admin gets when none are supplied. */
  const DefaultAdminPermissions: PermissionText :=
    PermissionText("[\"user_management\", \"system_admin\"]",
                   Some(List([Str("user_management"), Str("system_admin")])))

  /** `to_dict()` of a serialised row: the row without its password hash and
      code. `row` is what `BaseModel.to_dict` reads from `self.__table__`; for
      a farmer, veterinarian or admin that is the role's own joined table, so
      the columns of the users table are not in it. */
  function ToDict(row: map<string, Value>): (r: map<string, Value>)
    ensures "password_hash" !in r && "otp_code" !in r
    ensures forall k :: k in row && k != "password_hash" && k != "otp_code" ==> k in r && r[k] == row[k]
    ensures forall k :: k in r ==> k in row
  {
    row - {"password_hash", "otp_code"}
  }
}
