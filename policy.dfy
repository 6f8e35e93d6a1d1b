/** The authorization rules of the endpoints, collected in one table: who may
    do what to which target. The handlers test these rules inline, one
    `if` chain each; every handler's test is proved equal to `Decide` beside
    the handler, and the lemmas here state what the table implies. */
module Policy {
  import opened Wrappers
  import opened UserModel

  datatype Op =
    | CreateAnimalFor | ReadAnimal | UpdateAnimal | ReadAnimalRecords | AssignVet | DeleteAnimal | CreateRecord
    | ViewFarmerSummary | ViewVetAssignments | ViewAnimalStats
    | ReadUser | UpdateUserProfile | ListUsers | ChangeUserStatus | DeleteUser
    | ListFarmers | ReadFarmer | ListFarmerAnimals | ViewFarmerDashboard
    | ListVets | ReadVet | ViewVetDashboard | ListVetRecords | ViewVetSchedule

  /** What an operation is applied to: an animal (by its owner and its vet),
      a person named in the URL, a user row (with its role), or nothing. */
  datatype Target =
    | Nothing
    | AnimalOf(farmerId: string, vetId: Option<string>)
    | Person(id: string)
    | Account(id: string, role: Role)

  predicate Owns(actor: User, t: Target)
  {
    t.AnimalOf? && t.farmerId == actor.id
  }

  predicate Tends(actor: User, t: Target)
  {
    t.AnimalOf? && t.vetId == Some(actor.id)
  }

  predicate IsSelf(actor: User, t: Target)
  {
    (t.Person? || t.Account?) && t.id == actor.id
  }

  /** Whether `actor` may perform `op` on `t`. */
  predicate Decide(actor: User, op: Op, t: Target)
  {
    var role := RoleOf(actor);
    match op
    case ReadAnimal | UpdateAnimal | ReadAnimalRecords =>
      t.AnimalOf? && (role == Admin || (role == Farmer && Owns(actor, t)) || (role == Veterinarian && Tends(actor, t)))
    case AssignVet | DeleteAnimal =>
      t.AnimalOf? && (role == Admin || (role == Farmer && Owns(actor, t)))
    case CreateRecord =>
      t.AnimalOf? && (role == Admin || (role == Veterinarian && Tends(actor, t)))
    case CreateAnimalFor =>
      t.Person? && (role == Admin || (role == Farmer && IsSelf(actor, t)))
    case ViewFarmerSummary | ReadFarmer | ListFarmerAnimals =>
      t.Person? && (role != Farmer || IsSelf(actor, t))
    case ViewFarmerDashboard =>
      t.Person? && (role == Admin || (role == Farmer && IsSelf(actor, t)))
    case ViewVetAssignments | ViewVetDashboard | ListVetRecords | ViewVetSchedule =>
      t.Person? && (role == Admin || (role == Veterinarian && IsSelf(actor, t)))
    case ReadVet =>
      t.Person? && (role != Veterinarian || IsSelf(actor, t))
    case ListVets =>
      role != Veterinarian
    case ReadUser | UpdateUserProfile =>
      t.Person? && (role == Admin || IsSelf(actor, t))
    case DeleteUser =>
      t.Account? && role == Admin && (t.role != Admin || IsSelf(actor, t))
    case ListUsers | ChangeUserStatus | ListFarmers | ViewAnimalStats =>
      role == Admin
  }

  predicate OnAnimal(op: Op)
  {
    op in {ReadAnimal, UpdateAnimal, ReadAnimalRecords, AssignVet, DeleteAnimal, CreateRecord}
  }

  /** A farmer never reads, changes or deletes another farmer's animal. */
  lemma FarmerConfinedToOwnAnimals(actor: User, op: Op, farmerId: string, vetId: Option<string>)
    requires RoleOf(actor) == Farmer && farmerId != actor.id && OnAnimal(op)
    ensures !Decide(actor, op, AnimalOf(farmerId, vetId))
  {
  }

  /** A veterinarian touches no animal that is not assigned to them, their
      own farm's animals included. */
  lemma VetConfinedToAssignedAnimals(actor: User, op: Op, farmerId: string, vetId: Option<string>)
    requires RoleOf(actor) == Veterinarian && vetId != Some(actor.id) && OnAnimal(op)
    ensures !Decide(actor, op, AnimalOf(farmerId, vetId))
  {
  }

  /** An assigned veterinarian may read and update the animal and add records,
      but never reassign or delete it. */
  lemma AssignedVetRights(actor: User, farmerId: string)
    requires RoleOf(actor) == Veterinarian
    ensures var t := AnimalOf(farmerId, Some(actor.id));
      && Decide(actor, ReadAnimal, t) && Decide(actor, UpdateAnimal, t) && Decide(actor, CreateRecord, t)
      && !Decide(actor, AssignVet, t) && !Decide(actor, DeleteAnimal, t)
  {
  }

  /** A farmer never adds health records, even to their own animals. */
  lemma FarmersWriteNoRecords(actor: User, t: Target)
    requires RoleOf(actor) == Farmer
    ensures !Decide(actor, CreateRecord, t)
  {
  }

  /** An admin may do anything to any animal. */
  lemma AdminUnrestrictedOnAnimals(actor: User, op: Op, farmerId: string, vetId: Option<string>)
    requires RoleOf(actor) == Admin && OnAnimal(op)
    ensures Decide(actor, op, AnimalOf(farmerId, vetId))
  {
  }

  /** An admin may delete non-admin accounts and their own, and no other admin's. */
  lemma AdminDeletionRule(actor: User, id: string, role: Role)
    requires RoleOf(actor) == Admin
    ensures Decide(actor, DeleteUser, Account(id, role)) <==> role != Admin || id == actor.id
  {
  }

  /** Only admins delete accounts, and a non-admin reads or updates only their own record. */
  lemma NonAdminsSelfOnly(actor: User, id: string, role: Role)
    requires RoleOf(actor) != Admin
    ensures !Decide(actor, DeleteUser, Account(id, role))
    ensures Decide(actor, ReadUser, Person(id)) <==> id == actor.id
    ensures Decide(actor, UpdateUserProfile, Person(id)) <==> id == actor.id
  {
  }

  /** Another farmer's summary is open to every veterinarian, assigned or not,
      while the farmer's dashboard is closed to all veterinarians. */
  lemma VetsSeeSummariesNotDashboards(actor: User, farmerId: string)
    requires RoleOf(actor) == Veterinarian
    ensures Decide(actor, ViewFarmerSummary, Person(farmerId))
    ensures !Decide(actor, ViewFarmerDashboard, Person(farmerId))
  {
  }

  /** The admin-only operations admit nobody else. */
  lemma AdminOnlyOperations(actor: User, op: Op, t: Target)
    requires op in {ListUsers, ChangeUserStatus, ListFarmers, ViewAnimalStats, DeleteUser}
    ensures Decide(actor, op, t) ==> RoleOf(actor) == Admin
  {
  }
}
