/** The database: the `users` table (with its farmer, veterinarian and admin
    subclass rows), `animals` and `health_records`, each in insertion order.
    `Valid` is the set of unique and not-null constraints the schema declares;
    a write that would break one fails at commit, and the service's `except`
    branch rolls it back. */
module Db {
  import opened Wrappers
  import opened Json
  import opened UserModel
  import opened AnimalModel
  import Tables

  // ---------------------------------------------------------------- constraints

  /** Both farmers and both non-null: the unique `aadhar_no` column distinguishes them. */
  predicate AadharClash(a: User, b: User)
  {
    a.data.FarmerData? && b.data.FarmerData? && a.data.aadharNo != Null && a.data.aadharNo == b.data.aadharNo
  }

  predicate LicenseClash(a: User, b: User)
  {
    a.data.VetData? && b.data.VetData? && a.data.licenseNo == b.data.licenseNo
  }

  predicate EmployeeIdClash(a: User, b: User)
  {
    a.data.AdminData? && b.data.AdminData? && a.data.employeeId != Null && a.data.employeeId == b.data.employeeId
  }

  /** Two rows that the `users` constraints forbid side by side. */
  predicate UserClash(a: User, b: User)
  {
    a.id == b.id || a.email == b.email || AadharClash(a, b) || LicenseClash(a, b) || EmployeeIdClash(a, b)
  }

  /** A row the `NOT NULL` columns accept on their own. */
  predicate UserRowOk(u: User)
  {
    u.data.VetData? ==> u.data.licenseNo != Null
  }

  predicate UsersUnique(users: seq<User>)
  {
    && (forall i :: 0 <= i < |users| ==> UserRowOk(users[i]))
    && (forall i, j :: 0 <= i < j < |users| ==> !UserClash(users[i], users[j]))
  }

  predicate AnimalsUnique(animals: seq<Animal>)
  {
    forall i, j :: 0 <= i < j < |animals| ==>
      animals[i].id != animals[j].id && animals[i].tagId != animals[j].tagId
  }

  predicate RecordsUnique(records: seq<HealthRecord>)
  {
    forall i, j :: 0 <= i < j < |records| ==> records[i].id != records[j].id
  }

  /** Whether a new user row can be committed beside the existing ones. */
  predicate CanInsertUser(users: seq<User>, u: User)
  {
    UserRowOk(u) && forall i :: 0 <= i < |users| ==> !UserClash(users[i], u)
  }

  predicate CanInsertAnimal(animals: seq<Animal>, a: Animal)
  {
    forall i :: 0 <= i < |animals| ==> animals[i].id != a.id && animals[i].tagId != a.tagId
  }

  predicate CanInsertRecord(records: seq<HealthRecord>, r: HealthRecord)
  {
    forall i :: 0 <= i < |records| ==> records[i].id != r.id
  }

  /** What the constraints look at in a user row. */
  predicate SameUserKeys(a: User, b: User)
  {
    a.id == b.id && a.email == b.email && a.data == b.data
  }

  lemma InsertUserKeepsUnique(users: seq<User>, u: User)
    requires UsersUnique(users) && CanInsertUser(users, u)
    ensures UsersUnique(users + [u])
  {
  }

  lemma ReplaceUserKeepsUnique(users: seq<User>, k: int, u: User)
    requires UsersUnique(users) && 0 <= k < |users| && SameUserKeys(users[k], u)
    ensures UsersUnique(users[k := u])
  {
    var r := users[k := u];
    forall i, j | 0 <= i < j < |r| ensures !UserClash(r[i], r[j]) {
      assert !UserClash(users[i], users[j]);
    }
  }

  lemma ReplaceAnimalKeepsUnique(animals: seq<Animal>, k: int, a: Animal)
    requires AnimalsUnique(animals) && 0 <= k < |animals|
    requires animals[k].id == a.id && animals[k].tagId == a.tagId
    ensures AnimalsUnique(animals[k := a])
  {
  }

  // ---------------------------------------------------------------- queries

  /** `User.query.filter_by(id=id, is_active=True).first()`, as a position
      (|users| when there is none). */
  function ActiveUserIndex(users: seq<User>, id: string): (k: nat)
    ensures k <= |users|
    ensures k < |users| ==> users[k].id == id && users[k].life.isActive
    ensures k == |users| ==> forall i :: 0 <= i < |users| ==> !(users[i].id == id && users[i].life.isActive)
  {
    Tables.FirstIndex(users, (u: User) => u.id == id && u.life.isActive)
  }

  /** The same query restricted to one role's table (`Farmer.query`, `Veterinarian.query`). */
  function ActiveRoleIndex(users: seq<User>, id: string, role: Role): (k: nat)
    ensures k <= |users|
    ensures k < |users| ==> users[k].id == id && users[k].life.isActive && RoleOf(users[k]) == role
    ensures k == |users| ==> forall i :: 0 <= i < |users| ==>
      !(users[i].id == id && users[i].life.isActive && RoleOf(users[i]) == role)
  {
    Tables.FirstIndex(users, (u: User) => u.id == id && u.life.isActive && RoleOf(u) == role)
  }

  /** `User.query.filter_by(email=email, is_active=True).first()`. */
  function ActiveEmailIndex(users: seq<User>, email: string): (k: nat)
    ensures k <= |users|
    ensures k < |users| ==> users[k].email == email && users[k].life.isActive
    ensures k == |users| ==> forall i :: 0 <= i < |users| ==> !(users[i].email == email && users[i].life.isActive)
  {
    Tables.FirstIndex(users, (u: User) => u.email == email && u.life.isActive)
  }

  /** `User.query.filter_by(id=id).first()` (deleted rows included). */
  function UserIndex(users: seq<User>, id: string): (k: nat)
    ensures k <= |users|
    ensures k < |users| ==> users[k].id == id
    ensures k == |users| ==> forall i :: 0 <= i < |users| ==> users[i].id != id
  {
    Tables.FirstIndex(users, (u: User) => u.id == id)
  }

  /** `Animal.query.filter_by(id=id, is_active=True).first()`. */
  function ActiveAnimalIndex(animals: seq<Animal>, id: string): (k: nat)
    ensures k <= |animals|
    ensures k < |animals| ==> animals[k].id == id && animals[k].life.isActive
    ensures k == |animals| ==> forall i :: 0 <= i < |animals| ==> !(animals[i].id == id && animals[i].life.isActive)
  {
    Tables.FirstIndex(animals, (a: Animal) => a.id == id && a.life.isActive)
  }

  /** `Animal.query.get(id)` (deleted rows included). */
  function AnimalIndex(animals: seq<Animal>, id: string): (k: nat)
    ensures k <= |animals|
    ensures k < |animals| ==> animals[k].id == id
    ensures k == |animals| ==> forall i :: 0 <= i < |animals| ==> animals[i].id != id
  {
    Tables.FirstIndex(animals, (a: Animal) => a.id == id)
  }

  /** With unique ids, the position an id query finds is the only row with that id. */
  lemma UniqueUserId(users: seq<User>, i: int, j: int)
    requires UsersUnique(users) && 0 <= i < |users| && 0 <= j < |users| && users[i].id == users[j].id
    ensures i == j
  {
    if i < j { assert UserClash(users[i], users[j]); }
    if j < i { assert UserClash(users[j], users[i]); }
  }

  // ---------------------------------------------------------------- the store

  class Store {
    var users: seq<User>
    var animals: seq<Animal>
    var records: seq<HealthRecord>

    ghost predicate Valid()
      reads this
    {
      UsersUnique(users) && AnimalsUnique(animals) && RecordsUnique(records)
    }

    constructor ()
      ensures Valid() && users == [] && animals == [] && records == []
    {
      users, animals, records := [], [], [];
    }

    /** Commit a new user row the constraints accept. */
    method AddUser(u: User)
      requires Valid() && CanInsertUser(users, u)
      modifies this
      ensures Valid()
      ensures users == old(users) + [u]
      ensures animals == old(animals) && records == old(records)
    {
      InsertUserKeepsUnique(users, u);
      users := users + [u];
    }

    /** Commit a new animal row the constraints accept. */
    method AddAnimal(a: Animal)
      requires Valid() && CanInsertAnimal(animals, a)
      modifies this
      ensures Valid()
      ensures animals == old(animals) + [a]
      ensures users == old(users) && records == old(records)
    {
      animals := animals + [a];
    }

    /** Commit a new health record the constraints accept. */
    method AddRecord(r: HealthRecord)
      requires Valid() && CanInsertRecord(records, r)
      modifies this
      ensures Valid()
      ensures records == old(records) + [r]
      ensures users == old(users) && animals == old(animals)
    {
      records := records + [r];
    }

    /** Write back one user row whose constrained columns are unchanged. */
    method PutUser(k: int, u: User)
      requires Valid() && 0 <= k < |users| && SameUserKeys(users[k], u)
      modifies this
      ensures Valid()
      ensures users == old(users)[k := u]
      ensures animals == old(animals) && records == old(records)
    {
      ReplaceUserKeepsUnique(users, k, u);
      users := users[k := u];
    }

    /** Write back one animal row whose id and tag are unchanged. */
    method PutAnimal(k: int, a: Animal)
      requires Valid() && 0 <= k < |animals| && animals[k].id == a.id && animals[k].tagId == a.tagId
      modifies this
      ensures Valid()
      ensures animals == old(animals)[k := a]
      ensures users == old(users) && records == old(records)
    {
      ReplaceAnimalKeepsUnique(animals, k, a);
      animals := animals[k := a];
    }
  }
}
