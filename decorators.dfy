/** The decorators that stand in front of the handlers, as decisions: either
    the handler runs with the authenticated user (its position in `users`),
    or the decorator answers itself. The token has already been decoded;
    `identity` is its subject. */
module Decorators {
  import opened Wrappers
  import opened UserModel
  import opened AnimalModel
  import opened Db
  import opened Http

  datatype Gate = Admit(k: nat) | Refuse(reply: Reply<()>)

  const UserNotFoundOrInactive: string := "User not found or inactive"
  const AccountCannotLogin: string := "User account is not active or not verified"
  const VerificationRequired: string := "Account verification required. Please verify your email and phone number."
  const OwnDataOnly: string := "Access denied. You can only access your own data."

  /** `auth_required`: the active user the token names, who must be able to log in. */
  function AuthRequired(users: seq<User>, identity: string): (g: Gate)
    ensures g.Admit? <==> ActiveUserIndex(users, identity) < |users| && CanLogin(users[ActiveUserIndex(users, identity)])
    ensures g.Admit? ==> g.k == ActiveUserIndex(users, identity)
    ensures ActiveUserIndex(users, identity) == |users| ==> g == Refuse(Fail(401, UserNotFoundOrInactive))
    ensures ActiveUserIndex(users, identity) < |users| && !g.Admit? ==> g == Refuse(Fail(403, AccountCannotLogin))
  {
    var k := ActiveUserIndex(users, identity);
    if k == |users| then Refuse(Fail(401, UserNotFoundOrInactive))
    else if !CanLogin(users[k]) then Refuse(Fail(403, AccountCannotLogin))
    else Admit(k)
  }

  /** Whoever `auth_required` admits is an active, verified, logged-in user. */
  lemma AdmittedUserCanLogin(users: seq<User>, identity: string)
    requires AuthRequired(users, identity).Admit?
    ensures var u := users[AuthRequired(users, identity).k];
      u.id == identity && u.life.isActive && u.status == Active && u.emailVerified && u.phoneVerified
  {
    CanLoginExactly(users[AuthRequired(users, identity).k]);
  }

  function RoleValues(roles: seq<Role>): (r: seq<string>)
    ensures |r| == |roles|
  {
    if roles == [] then [] else [RoleValue(roles[0])] + RoleValues(roles[1..])
  }

  /** The text of the refusal, listing the allowed roles' values as Python prints a list. */
  function RolesDenied(allowed: seq<Role>): string
  {
    "Access denied. Required roles: " + PyStrList(RoleValues(allowed))
  }

  /** `role_required(*allowed)`: `auth_required`, then the role test. */
  function RoleRequired(users: seq<User>, identity: string, allowed: seq<Role>): (g: Gate)
    ensures g.Admit? <==> AuthRequired(users, identity).Admit? && RoleOf(users[AuthRequired(users, identity).k]) in allowed
    ensures g.Admit? ==> g == AuthRequired(users, identity)
    ensures AuthRequired(users, identity).Refuse? ==> g == AuthRequired(users, identity)
    ensures AuthRequired(users, identity).Admit? && g.Refuse? ==> g.reply == Fail(403, RolesDenied(allowed))
  {
    match AuthRequired(users, identity)
    case Refuse(reply) => Refuse(reply)
    case Admit(k) => if RoleOf(users[k]) in allowed then Admit(k) else Refuse(Fail(403, RolesDenied(allowed)))
  }

  function AdminRequired(users: seq<User>, identity: string): Gate
  {
    RoleRequired(users, identity, [Admin])
  }

  function VetRequired(users: seq<User>, identity: string): Gate
  {
    RoleRequired(users, identity, [Veterinarian])
  }

  function FarmerRequired(users: seq<User>, identity: string): Gate
  {
    RoleRequired(users, identity, [Farmer])
  }

  function VetOrAdminRequired(users: seq<User>, identity: string): Gate
  {
    RoleRequired(users, identity, [Veterinarian, Admin])
  }

  /** `admin_required` admits exactly the logged-in admins, and refuses
      everyone else with the list `['admin']`. */
  lemma AdminRequiredExactly(users: seq<User>, identity: string)
    ensures var g := AdminRequired(users, identity);
      && (g.Admit? <==> AuthRequired(users, identity).Admit? && users[AuthRequired(users, identity).k].data.AdminData?)
      && (AuthRequired(users, identity).Admit? && g.Refuse? ==> g.reply.message == "Access denied. Required roles: ['admin']")
  {
    assert RoleValues([Admin]) == ["admin"];
  }

  /** `vet_or_admin_required` never admits a farmer. */
  lemma VetOrAdminRequiredExactly(users: seq<User>, identity: string)
    ensures var g := VetOrAdminRequired(users, identity);
      g.Admit? <==> AuthRequired(users, identity).Admit? && !users[AuthRequired(users, identity).k].data.FarmerData?
  {
  }

  /** `verified_user_required`: `auth_required`, then the verification test. */
  function VerifiedUserRequired(users: seq<User>, identity: string): (g: Gate)
    ensures AuthRequired(users, identity).Refuse? ==> g == AuthRequired(users, identity)
  {
    match AuthRequired(users, identity)
    case Refuse(reply) => Refuse(reply)
    case Admit(k) => VerifiedCheck(users[k], k)
  }

  /** The test `verified_user_required` adds, on the user at position `k`. */
  function VerifiedCheck(u: User, k: nat): (g: Gate)
    ensures g.Admit? <==> IsVerified(u)
  {
    if !IsVerified(u) then Refuse(Fail(403, VerificationRequired)) else Admit(k)
  }

  /** The message `active_user_required` gives for a status other than active. */
  function StatusRefusal(s: Status): string
  {
    match s
    case Pending => "Account is pending approval"
    case Inactive => "Account is inactive"
    case Suspended => "Account is suspended"
    case Active => "Account is not active"
  }

  /** `active_user_required`: `auth_required`, then the status test. */
  function ActiveUserRequired(users: seq<User>, identity: string): (g: Gate)
    ensures AuthRequired(users, identity).Refuse? ==> g == AuthRequired(users, identity)
  {
    match AuthRequired(users, identity)
    case Refuse(reply) => Refuse(reply)
    case Admit(k) => ActiveCheck(users[k], k)
  }

  /** The test `active_user_required` adds, on the user at position `k`. */
  function ActiveCheck(u: User, k: nat): (g: Gate)
    ensures g.Admit? <==> u.status == Active
  {
    if u.status != Active then Refuse(Fail(403, StatusRefusal(u.status))) else Admit(k)
  }

  /** The three status messages are distinct, but `auth_required` lets only
      verified active users through, so both extra gates decide exactly as
      `auth_required` does: their own refusals are unreachable. */
  lemma StatusGatesAddNothing(users: seq<User>, identity: string)
    ensures VerifiedUserRequired(users, identity) == AuthRequired(users, identity)
    ensures ActiveUserRequired(users, identity) == AuthRequired(users, identity)
    ensures StatusRefusal(Pending) != StatusRefusal(Inactive) && StatusRefusal(Inactive) != StatusRefusal(Suspended)
            && StatusRefusal(Suspended) != StatusRefusal(Pending)
  {
    if AuthRequired(users, identity).Admit? {
      CanLoginExactly(users[AuthRequired(users, identity).k]);
    }
  }

  /** `same_user_or_admin_required` for the target id in the URL. */
  function SameUserOrAdminRequired(users: seq<User>, identity: string, targetId: string): (g: Gate)
    ensures g.Admit? <==> AuthRequired(users, identity).Admit?
                          && (users[AuthRequired(users, identity).k].data.AdminData? || identity == targetId)
    ensures AuthRequired(users, identity).Admit? && g.Refuse? ==> g.reply == Fail(403, OwnDataOnly)
  {
    match AuthRequired(users, identity)
    case Refuse(reply) => Refuse(reply)
    case Admit(k) =>
      if RoleOf(users[k]) == Admin then Admit(k)
      else if users[k].id != targetId then Refuse(Fail(403, OwnDataOnly))
      else Admit(k)
  }
}
