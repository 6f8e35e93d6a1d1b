/** The animal endpoints: each handler's access test, then the service call
    and the reply it becomes. `actor` is the user `auth_required` admitted. */
module AnimalsApi {
  import opened Wrappers
  import opened Json
  import opened Text
  import opened BaseModel
  import opened UserModel
  import opened AnimalModel
  import opened Db
  import opened Http
  import Tables
  import Helpers
  import Validators
  import Policy
  import S = AnimalService

  const AnimalNotFound: string := "Animal not found"

  /** `str()` of an optional id column: Python prints a missing one as "None". */
  function IdText(o: Option<string>): string
  {
    if o.Some? then o.value else "None"
  }

  // ---------------------------------------------------------------- access tests

  /** The test of `get_animal`, `update_animal` and `get_animal_health_records`:
      a farmer must own the animal, a veterinarian must be assigned to it. */
  function ViewAccess(actor: User, a: Animal): (refusal: Option<string>)
    ensures refusal.Some? ==> refusal.value == AccessDenied
  {
    match RoleOf(actor)
    case Farmer => if a.farmerId != actor.id then Some(AccessDenied) else None
    case Veterinarian => if IdText(a.vetId) != actor.id then Some(AccessDenied) else None
    case Admin => None
  }

  /** For any real id, the test is the policy's rule for reading, updating and
      reading the records of an animal. */
  lemma ViewAccessIsPolicy(actor: User, a: Animal, op: Policy.Op)
    requires actor.id != "None"
    requires op == Policy.ReadAnimal || op == Policy.UpdateAnimal || op == Policy.ReadAnimalRecords
    ensures ViewAccess(actor, a).None? <==> Policy.Decide(actor, op, Policy.AnimalOf(a.farmerId, a.vetId))
  {
  }

  /** The comparison is on text: a veterinarian whose id were the string
      "None" would pass the test on every unassigned animal. */
  lemma NoneTextMatchesUnassigned(actor: User, a: Animal)
    requires RoleOf(actor) == Veterinarian && actor.id == "None" && a.vetId.None?
    ensures ViewAccess(actor, a).None?
    ensures !Policy.Decide(actor, Policy.ReadAnimal, Policy.AnimalOf(a.farmerId, a.vetId))
  {
  }

  /** The ownership test of `assign_veterinarian` and `delete_animal`, which
      run after their role test has let only farmers and admins through. */
  function OwnerAccess(actor: User, a: Animal): (refusal: Option<string>)
    ensures refusal.Some? ==> refusal.value == AccessDenied
  {
    if RoleOf(actor) == Farmer && a.farmerId != actor.id then Some(AccessDenied) else None
  }

  lemma OwnerAccessIsPolicy(actor: User, a: Animal, op: Policy.Op)
    requires op == Policy.AssignVet || op == Policy.DeleteAnimal
    ensures (RoleOf(actor) != Veterinarian && OwnerAccess(actor, a).None?)
            <==> Policy.Decide(actor, op, Policy.AnimalOf(a.farmerId, a.vetId))
  {
  }

  const NotAssignedToYou: string := "Access denied. Animal not assigned to you"

  /** The assignment test of `create_health_record`, after its role test has
      let only veterinarians and admins through. */
  function RecordAccess(actor: User, a: Animal): (refusal: Option<string>)
    ensures refusal.Some? ==> refusal.value == NotAssignedToYou
  {
    if RoleOf(actor) == Veterinarian && IdText(a.vetId) != actor.id then Some(NotAssignedToYou) else None
  }

  lemma RecordAccessIsPolicy(actor: User, a: Animal)
    requires actor.id != "None"
    ensures (RoleOf(actor) != Farmer && RecordAccess(actor, a).None?)
            <==> Policy.Decide(actor, Policy.CreateRecord, Policy.AnimalOf(a.farmerId, a.vetId))
  {
  }

  // ---------------------------------------------------------------- POST /animals

  const OnlyFarmersAndAdminsCreate: string := "Only farmers and admins can create animals"
  const FarmerIdRequired: string := "farmer_id is required for admin users"

  /** The farmer an animal is created for: the farmer themselves, or the
      truthy `farmer_id` an admin supplies. */
  function AnimalOwner(actor: User, data: Dict): (owner: Option<Value>)
    ensures owner.Some? <==> RoleOf(actor) == Farmer || (RoleOf(actor) == Admin && !Falsy(Get(data, "farmer_id")))
  {
    match RoleOf(actor)
    case Farmer => Some(Str(actor.id))
    case Admin => if Falsy(Get(data, "farmer_id")) then None else Some(Get(data, "farmer_id"))
    case Veterinarian => None
  }

  /** Whoever the owner is, the policy lets the actor create animals for them. */
  lemma OwnerIsPolicy(actor: User, data: Dict)
    requires AnimalOwner(actor, data).Some? && AnimalOwner(actor, data).value.Str?
    ensures Policy.Decide(actor, Policy.CreateAnimalFor, Policy.Person(AnimalOwner(actor, data).value.s))
  {
  }

  /** `create_animal`: the role decides the owner, then the body is required,
      then the service runs. A non-string `farmer_id` matches no farmer. */
  method CreateAnimal(db: Store, actor: User, data: Dict, parseDate: string -> Option<int>, id: string, now: int)
    returns (r: Reply<Animal>)
    requires db.Valid()
    modifies db
    ensures db.Valid()
    ensures db.users == old(db.users) && db.records == old(db.records)
    ensures RoleOf(actor) == Veterinarian ==> r == Fail(403, OnlyFarmersAndAdminsCreate)
    ensures RoleOf(actor) == Admin && Falsy(Get(data, "farmer_id")) ==> r == Fail(400, FarmerIdRequired)
    ensures RoleOf(actor) == Farmer && data == [] ==> r == Fail(400, NoDataProvided)
    ensures r.status == 201 <==>
      && data != [] && AnimalOwner(actor, data).Some? && AnimalOwner(actor, data).value.Str?
      && S.AnimalCreation(old(db.users), old(db.animals), data, AnimalOwner(actor, data).value.s, parseDate, id, now).Ok?
    ensures r.status == 201 ==>
      && r.body == Some(S.AnimalCreation(old(db.users), old(db.animals), data, AnimalOwner(actor, data).value.s,
                                         parseDate, id, now).value)
      && db.animals == old(db.animals) + [r.body.value]
      && r.body.value.farmerId == AnimalOwner(actor, data).value.s
    ensures r.status != 201 ==> db.animals == old(db.animals)
  {
    var owner := AnimalOwner(actor, data);
    if RoleOf(actor) == Veterinarian {
      return Fail(403, OnlyFarmersAndAdminsCreate);
    }
    if owner.None? {
      return Fail(400, FarmerIdRequired);
    }
    if data == [] {
      return Fail(400, NoDataProvided);
    }
    var fid := owner.value;
    if !fid.Str? {
      var missing := Validators.MissingFields(data, ["tag_id", "species", "gender"]);
      if missing != [] {
        return Fail(400, Validators.MissingFieldsMessage(missing));
      }
      return Fail(400, "Farmer not found");
    }
    var res := S.CreateAnimal(db, data, fid.s, parseDate, id, now);
    if res.Ok? {
      return Done(201, "Animal registered successfully", res.value);
    }
    r := Fail(400, ServiceMessage(res));
  }

  // ---------------------------------------------------------------- GET /animals

  /** A query-string argument that is present and non-empty. */
  predicate Given(arg: Option<string>)
  {
    arg.Some? && arg.value != ""
  }

  /** Where `list_animals` starts, before any filter: the farmer's own animals,
      the veterinarian's assigned ones, or (for an admin) all of them or one
      farmer's. */
  function ListScope(actor: User, farmerArg: Option<string>): (c: S.Criteria)
    ensures c.species.None? && c.health.None? && c.term.None?
    ensures RoleOf(actor) == Farmer ==> c.farmer == Some(Str(actor.id)) && c.vet.None?
    ensures RoleOf(actor) == Veterinarian ==> c.vet == Some(Str(actor.id)) && c.farmer.None?
    ensures RoleOf(actor) == Admin ==> c.vet.None? && (c.farmer.Some? <==> Given(farmerArg))
  {
    match RoleOf(actor)
    case Farmer => S.Criteria(Some(Str(actor.id)), None, None, None, None)
    case Veterinarian => S.Criteria(None, Some(Str(actor.id)), None, None, None)
    case Admin => S.Criteria(if Given(farmerArg) then Some(Str(farmerArg.value)) else None, None, None, None, None)
  }

  /** The species, health and search filters laid over a scope; an unknown
      species or health status stops the listing. */
  function ListFilters(scope: S.Criteria, species: Option<string>, health: Option<string>, search: Option<string>)
    : (r: Result<S.Criteria>)
    ensures r.Crash? == false
    ensures r.Ok? ==> r.value.farmer == scope.farmer && r.value.vet == scope.vet
    ensures r.Ok? ==> (r.value.species.Some? <==> Given(species)) && (r.value.health.Some? <==> Given(health))
    ensures r.Ok? && Given(species) ==> SpeciesValue(r.value.species.value) == Lower(species.value)
    ensures r.Ok? && Given(health) ==> HealthValue(r.value.health.value) == Lower(health.value)
    ensures Given(species) && ParseSpecies(Lower(species.value)).None? ==> r == Err("Invalid species")
    ensures ((!Given(species) || ParseSpecies(Lower(species.value)).Some?)
             && Given(health) && ParseHealth(Lower(health.value)).None?) ==> r == Err("Invalid health status")
  {
    if Given(species) && ParseSpecies(Lower(species.value)).None? then Err("Invalid species")
    else if Given(health) && ParseHealth(Lower(health.value)).None? then Err("Invalid health status")
    else Ok(scope.(species := if Given(species) then ParseSpecies(Lower(species.value)) else None,
                   health := if Given(health) then ParseHealth(Lower(health.value)) else None,
                   term := if Given(search) then search else None))
  }

  /** The rows a listing pages through: the selected animals, newest first. */
  function Listing(animals: seq<Animal>, c: S.Criteria): (r: seq<Animal>)
    ensures multiset(r) == multiset(S.Selection(animals, c))
    ensures forall i, j :: 0 <= i < j < |r| ==> r[i].createdAt >= r[j].createdAt
  {
    Tables.SortBy(S.Selection(animals, c), S.NewestFirst)
  }

  /** The listing holds exactly the selected animals. */
  lemma ListingIsSelection(animals: seq<Animal>, c: S.Criteria, x: Animal)
    ensures x in Listing(animals, c) <==> x in animals && S.Matches(x, c)
  {
    if x in animals && S.Matches(x, c) {
      var i :| 0 <= i < |animals| && animals[i] == x;
      assert x in multiset(S.Selection(animals, c));
    }
  }

  /** One page of a listing: the `page`-th window of the selected animals,
      newest first. A zero page size divides by zero, which `auth_required`
      answers with 401. */
  function ListedPage(animals: seq<Animal>, c: S.Criteria, page: int, perPage: int, message: string)
    : (r: Reply<Helpers.Page<Animal>>)
    ensures r.status == 200 <==> perPage != 0
    ensures r.status != 200 ==> r == FailWith(401, AuthenticationFailed, [ZeroDivisionText])
    ensures r.status == 200 ==> r.message == message && r.body == Helpers.Paginate(Listing(animals, c), page, perPage, 100)
    ensures r.status == 200 ==> r.body.value.total == |S.Selection(animals, c)|
    ensures r.status == 200 ==> forall x :: x in r.body.value.items ==> x in animals && S.Matches(x, c)
  {
    var rows := Listing(animals, c);
    assert forall x :: x in rows ==> x in multiset(S.Selection(animals, c));
    Paged(rows, page, perPage, message)
  }

  /** Whether `list_animals` lets an animal through: active, within the
      actor's scope, and passing each filter that is given. */
  predicate Listed(x: Animal, actor: User, farmerArg: Option<string>, species: Option<string>,
                   health: Option<string>, search: Option<string>)
  {
    && x.life.isActive
    && (RoleOf(actor) == Farmer ==> x.farmerId == actor.id)
    && (RoleOf(actor) == Veterinarian ==> x.vetId == Some(actor.id))
    && (RoleOf(actor) == Admin && Given(farmerArg) ==> x.farmerId == farmerArg.value)
    && (Given(species) ==> SpeciesValue(x.species) == Lower(species.value))
    && (Given(health) ==> HealthValue(x.health) == Lower(health.value))
    && (Given(search) ==> S.TermMatches(x, search.value))
  }

  /** Whether both enumeration arguments of a listing are absent or known. */
  predicate KnownFilters(species: Option<string>, health: Option<string>)
  {
    && (!Given(species) || ParseSpecies(Lower(species.value)).Some?)
    && (!Given(health) || ParseHealth(Lower(health.value)).Some?)
  }

  /** The criteria `list_animals` builds are exactly `Listed`: every filter
      is applied, and nothing else is. */
  lemma ListCriteriaMeaning(actor: User, farmerArg: Option<string>, species: Option<string>,
                            health: Option<string>, search: Option<string>, x: Animal)
    requires KnownFilters(species, health)
    ensures ListFilters(ListScope(actor, farmerArg), species, health, search).Ok?
    ensures S.Matches(x, ListFilters(ListScope(actor, farmerArg), species, health, search).value)
            <==> Listed(x, actor, farmerArg, species, health, search)
  {
    var c := ListFilters(ListScope(actor, farmerArg), species, health, search).value;
    if Given(species) {
      SpeciesClosed(x.species);
    }
    if Given(health) {
      HealthClosed(x.health);
    }
  }

  /** `list_animals`. */
  function ListAnimals(animals: seq<Animal>, actor: User, farmerArg: Option<string>, species: Option<string>,
                       health: Option<string>, search: Option<string>, page: int, perPage: int)
    : (r: Reply<Helpers.Page<Animal>>)
    ensures Given(species) && ParseSpecies(Lower(species.value)).None? ==> r == Fail(400, "Invalid species")
    ensures ((!Given(species) || ParseSpecies(Lower(species.value)).Some?)
             && Given(health) && ParseHealth(Lower(health.value)).None?) ==> r == Fail(400, "Invalid health status")
    ensures KnownFilters(species, health) && perPage == 0 ==> r == FailWith(401, AuthenticationFailed, [ZeroDivisionText])
    ensures r.status == 200 <==> KnownFilters(species, health) && perPage != 0
    ensures r.status == 200 ==> r.body == Helpers.Paginate(
      Listing(animals, ListFilters(ListScope(actor, farmerArg), species, health, search).value), page, perPage, 100)
    ensures r.status == 200 ==> r.body.Some? && forall x :: x in r.body.value.items ==>
      x in animals && Listed(x, actor, farmerArg, species, health, search)
  {
    var f := ListFilters(ListScope(actor, farmerArg), species, health, search);
    if !f.Ok? then Fail(400, f.msg)
    else
      var r := ListedPage(animals, f.value, page, perPage, "Animals retrieved successfully");
      assert r.status == 200 ==> forall x :: x in r.body.value.items ==> Listed(x, actor, farmerArg, species, health, search) by {
        forall x | r.status == 200 && x in r.body.value.items
          ensures Listed(x, actor, farmerArg, species, health, search)
        {
          ListCriteriaMeaning(actor, farmerArg, species, health, search, x);
        }
      }
      r
  }

  /** The rows `list_animals` pages through are every animal the query lets
      through, and only those. */
  lemma ListingIsTheQuery(animals: seq<Animal>, actor: User, farmerArg: Option<string>, species: Option<string>,
                          health: Option<string>, search: Option<string>, x: Animal)
    requires KnownFilters(species, health)
    ensures x in Listing(animals, ListFilters(ListScope(actor, farmerArg), species, health, search).value)
            <==> x in animals && Listed(x, actor, farmerArg, species, health, search)
  {
    ListCriteriaMeaning(actor, farmerArg, species, health, search, x);
    ListingIsSelection(animals, ListFilters(ListScope(actor, farmerArg), species, health, search).value, x);
  }

  /** Listing is scoped before it is filtered: whatever the filters, every
      listed animal is one the policy lets the actor read. */
  lemma ListedAnimalsAreReadable(animals: seq<Animal>, actor: User, farmerArg: Option<string>, species: Option<string>,
                                 health: Option<string>, search: Option<string>, page: int, perPage: int, x: Animal)
    requires ListAnimals(animals, actor, farmerArg, species, health, search, page, perPage).status == 200
    requires x in ListAnimals(animals, actor, farmerArg, species, health, search, page, perPage).body.value.items
    ensures Policy.Decide(actor, Policy.ReadAnimal, Policy.AnimalOf(x.farmerId, x.vetId))
  {
  }

  // ---------------------------------------------------------------- GET /animals/<id>

  /** `get_animal`: the active animal, if the actor may see it. */
  function GetAnimal(animals: seq<Animal>, actor: User, animalId: string): (r: Reply<Animal>)
    ensures var k := ActiveAnimalIndex(animals, animalId);
      && (k == |animals| ==> r == Fail(404, AnimalNotFound))
      && (k < |animals| && ViewAccess(actor, animals[k]).Some? ==> r == Fail(403, AccessDenied))
      && (k < |animals| && ViewAccess(actor, animals[k]).None? ==> r == Done(200, "Animal retrieved successfully", animals[k]))
  {
    var k := ActiveAnimalIndex(animals, animalId);
    if k == |animals| then Fail(404, AnimalNotFound)
    else match ViewAccess(actor, animals[k])
      case Some(m) => Fail(403, m)
      case None => Done(200, "Animal retrieved successfully", animals[k])
  }

  // ---------------------------------------------------------------- PUT /animals/<id>

  function ProfileUpdated(fields: seq<string>): string
  {
    "Animal profile updated: " + Join(fields, ", ")
  }

  /** `update_animal`: lookup, access, body, then `update_animal_profile`. */
  method UpdateAnimal(db: Store, actor: User, animalId: string, data: Dict) returns (r: Reply<Animal>)
    requires db.Valid()
    modifies db
    ensures db.Valid()
    ensures db.users == old(db.users) && db.records == old(db.records)
    ensures var k := ActiveAnimalIndex(old(db.animals), animalId);
      && (k == |old(db.animals)| ==> r == Fail(404, AnimalNotFound) && db.animals == old(db.animals))
      && (k < |old(db.animals)| && ViewAccess(actor, old(db.animals)[k]).Some? ==>
            r == Fail(403, AccessDenied) && db.animals == old(db.animals))
      && (k < |old(db.animals)| && ViewAccess(actor, old(db.animals)[k]).None? && data == [] ==>
            r == Fail(400, NoDataProvided) && db.animals == old(db.animals))
      && (k < |old(db.animals)| && ViewAccess(actor, old(db.animals)[k]).None? && data != [] ==>
            var e := S.AnimalUpdates(old(db.animals)[k], data);
            var o := S.AnimalUpdateOutcome(e);
            && (o.Ok? ==> r == Done(200, ProfileUpdated(o.value), e.animal) && db.animals == old(db.animals)[k := e.animal])
            && (!o.Ok? ==> r == Fail(400, ServiceMessage(o)) && db.animals == old(db.animals)))
  {
    var k := ActiveAnimalIndex(db.animals, animalId);
    if k == |db.animals| {
      return Fail(404, AnimalNotFound);
    }
    var refusal := ViewAccess(actor, db.animals[k]);
    if refusal.Some? {
      return Fail(403, refusal.value);
    }
    if data == [] {
      return Fail(400, NoDataProvided);
    }
    var res := S.UpdateAnimalProfile(db, animalId, data);
    if !res.Ok? {
      return Fail(400, ServiceMessage(res));
    }
    r := Done(200, ProfileUpdated(res.value), db.animals[k]);
  }

  /** What an update can change, whoever asks: never the owner, the tag, the
      species or the gender, and never the assigned veterinarian. */
  lemma UpdateKeepsIdentity(a: Animal, data: Dict)
    ensures var b := S.AnimalUpdates(a, data).animal;
      b.farmerId == a.farmerId && b.tagId == a.tagId && b.species == a.species && b.gender == a.gender
      && b.vetId == a.vetId && b.life == a.life
  {
    S.AnimalUpdatesFrame(a, data);
  }

  // ---------------------------------------------------------------- POST /animals/<id>/assign-vet

  const OnlyFarmersAndAdminsAssign: string := "Only farmers and admins can assign veterinarians"

  /** `assign_veterinarian`: role, lookup, ownership, body, the required
      `veterinarian_id`, then the service. A non-string id matches no veterinarian. */
  method AssignVeterinarian(db: Store, actor: User, animalId: string, data: Dict) returns (r: Reply<Animal>)
    requires db.Valid()
    modifies db
    ensures db.Valid()
    ensures db.users == old(db.users) && db.records == old(db.records)
    ensures RoleOf(actor) == Veterinarian ==> r == Fail(403, OnlyFarmersAndAdminsAssign)
    ensures var k := ActiveAnimalIndex(old(db.animals), animalId);
      var vet := Get(data, "veterinarian_id");
      r.status == 200 <==>
        && RoleOf(actor) != Veterinarian && k < |old(db.animals)| && OwnerAccess(actor, old(db.animals)[k]).None?
        && data != [] && Validators.MissingFields(data, ["veterinarian_id"]) == [] && vet.Str?
        && S.AssignmentTarget(old(db.users), old(db.animals), animalId, vet.s).Ok?
    ensures var k := ActiveAnimalIndex(old(db.animals), animalId);
      r.status == 200 ==>
        && k < |old(db.animals)|
        && Policy.Decide(actor, Policy.AssignVet, Policy.AnimalOf(old(db.animals)[k].farmerId, old(db.animals)[k].vetId))
        && db.animals == old(db.animals)[k := old(db.animals)[k].(vetId := Some(Get(data, "veterinarian_id").s))]
    ensures r.status != 200 ==> db.animals == old(db.animals)
  {
    if RoleOf(actor) == Veterinarian {
      return Fail(403, OnlyFarmersAndAdminsAssign);
    }
    var k := ActiveAnimalIndex(db.animals, animalId);
    if k == |db.animals| {
      return Fail(404, AnimalNotFound);
    }
    var refusal := OwnerAccess(actor, db.animals[k]);
    if refusal.Some? {
      return Fail(403, refusal.value);
    }
    if data == [] {
      return Fail(400, NoDataProvided);
    }
    var missing := Validators.MissingFields(data, ["veterinarian_id"]);
    if missing != [] {
      return FailWith(400, MissingRequiredFields, missing);
    }
    var vet := Get(data, "veterinarian_id");
    if !vet.Str? {
      return Fail(400, "Veterinarian not found");
    }
    OwnerAccessIsPolicy(actor, db.animals[k], Policy.AssignVet);
    var res := S.AssignVeterinarian(db, animalId, vet.s);
    if !res.Ok? {
      return Fail(400, ServiceMessage(res));
    }
    r := Done(200, "Veterinarian assigned successfully", res.value);
  }

  // ---------------------------------------------------------------- POST /animals/<id>/health-records

  const OnlyVetsAndAdminsRecord: string := "Only veterinarians and admins can create health records"

  /** `create_health_record`: role, lookup, assignment, body; the URL's id
      overwrites any `animal_id` in the body, then the service runs. */
  method CreateHealthRecord(db: Store, actor: User, animalId: string, data: Dict, today: int,
                            parseDate: string -> Option<int>, id: string, now: int)
    returns (r: Reply<HealthRecord>)
    requires db.Valid()
    modifies db
    ensures db.Valid()
    ensures db.users == old(db.users)
    ensures RoleOf(actor) == Farmer ==> r == Fail(403, OnlyVetsAndAdminsRecord)
    ensures var k := ActiveAnimalIndex(old(db.animals), animalId);
      r.status == 201 <==>
        && RoleOf(actor) != Farmer && k < |old(db.animals)| && RecordAccess(actor, old(db.animals)[k]).None?
        && data != []
        && S.HealthRecordCreation(old(db.animals), old(db.records), Put(data, "animal_id", Str(animalId)),
                                  actor.id, today, parseDate, id, now).Ok?
    ensures var k := ActiveAnimalIndex(old(db.animals), animalId);
      r.status == 201 ==>
        && k < |old(db.animals)| && r.body.Some?
        && r.body.value.animalId == animalId && r.body.value.recordedBy == actor.id
        && db.records == old(db.records) + [r.body.value]
        && db.animals == old(db.animals)[k := S.AfterCheckup(old(db.animals)[k], r.body.value)]
    ensures r.status != 201 ==> db.records == old(db.records) && db.animals == old(db.animals)
  {
    if RoleOf(actor) == Farmer {
      return Fail(403, OnlyVetsAndAdminsRecord);
    }
    var k := ActiveAnimalIndex(db.animals, animalId);
    if k == |db.animals| {
      return Fail(404, AnimalNotFound);
    }
    var refusal := RecordAccess(actor, db.animals[k]);
    if refusal.Some? {
      return Fail(403, refusal.value);
    }
    if data == [] {
      return Fail(400, NoDataProvided);
    }
    var body := Put(data, "animal_id", Str(animalId));
    var res := S.CreateHealthRecord(db, body, actor.id, today, parseDate, id, now);
    if !res.Ok? {
      return Fail(400, ServiceMessage(res));
    }
    r := Done(201, "Health record created successfully", res.value);
  }

  // ---------------------------------------------------------------- GET /animals/<id>/health-records

  /** `get_animal_health_records`: lookup, access, then the history up to `limit`. */
  function GetAnimalHealthRecords(animals: seq<Animal>, records: seq<HealthRecord>, actor: User,
                                  animalId: string, limit: int)
    : (r: Reply<(Animal, seq<HealthRecord>)>)
    ensures var k := ActiveAnimalIndex(animals, animalId);
      && (k == |animals| ==> r == Fail(404, AnimalNotFound))
      && (k < |animals| && ViewAccess(actor, animals[k]).Some? ==> r == Fail(403, AccessDenied))
      && (k < |animals| && ViewAccess(actor, animals[k]).None? ==>
            r.status == 200 && r.body.Some? && r.body.value.0 == animals[k])
    ensures r.status == 200 ==> S.AnimalHealthHistory(animals, records, animalId, limit).Ok?
    ensures r.status == 200 ==> r.body.value.1 == S.AnimalHealthHistory(animals, records, animalId, limit).value
    ensures r.status == 200 ==> forall h :: h in r.body.value.1 ==>
      h in records && h.animalId == animalId && h.life.isActive
  {
    var k := ActiveAnimalIndex(animals, animalId);
    if k == |animals| then Fail(404, AnimalNotFound)
    else if ViewAccess(actor, animals[k]).Some? then Fail(403, AccessDenied)
    else
      var h := S.AnimalHealthHistory(animals, records, animalId, limit);
      Done(200, "Health records retrieved successfully", (animals[k], h.value))
  }

  // ---------------------------------------------------------------- DELETE /animals/<id>

  const OnlyFarmersAndAdminsDelete: string := "Only farmers and admins can delete animals"

  /** `delete_animal`: role, lookup, ownership, then the soft delete. */
  method DeleteAnimal(db: Store, actor: User, animalId: string, now: int) returns (r: Reply<()>)
    requires db.Valid()
    modifies db
    ensures db.Valid()
    ensures db.users == old(db.users) && db.records == old(db.records)
    ensures RoleOf(actor) == Veterinarian ==> r == Fail(403, OnlyFarmersAndAdminsDelete)
    ensures var k := ActiveAnimalIndex(old(db.animals), animalId);
      r.status == 200 <==> RoleOf(actor) != Veterinarian && k < |old(db.animals)| && OwnerAccess(actor, old(db.animals)[k]).None?
    ensures var k := ActiveAnimalIndex(old(db.animals), animalId);
      r.status == 200 ==>
        && k < |old(db.animals)| && r.message == S.AnimalDeactivated
        && db.animals == old(db.animals)[k := old(db.animals)[k].(life := SoftDeleted(old(db.animals)[k].life, now))]
        && ActiveAnimalIndex(db.animals, animalId) == |db.animals|
    ensures r.status != 200 ==> db.animals == old(db.animals)
  {
    if RoleOf(actor) == Veterinarian {
      return Fail(403, OnlyFarmersAndAdminsDelete);
    }
    var k := ActiveAnimalIndex(db.animals, animalId);
    if k == |db.animals| {
      return Fail(404, AnimalNotFound);
    }
    var refusal := OwnerAccess(actor, db.animals[k]);
    if refusal.Some? {
      return Fail(403, refusal.value);
    }
    S.DeactivatedAnimalIsGone(db.animals, animalId, now);
    var res := S.DeactivateAnimal(db, animalId, now);
    r := Reply(200, S.AnimalDeactivated, [], None);
  }

  // ---------------------------------------------------------------- summaries

  /** The test of `get_farmer_animals_summary`: a farmer sees only their own;
      admins and veterinarians see any farmer's. */
  function SummaryAccess(actor: User, farmerId: string): (refusal: Option<string>)
  {
    if RoleOf(actor) == Farmer && actor.id != farmerId then Some(AccessDenied) else None
  }

  lemma SummaryAccessIsPolicy(actor: User, farmerId: string)
    ensures SummaryAccess(actor, farmerId).None? <==> Policy.Decide(actor, Policy.ViewFarmerSummary, Policy.Person(farmerId))
  {
  }

  method GetFarmerAnimalsSummary(db: Store, actor: User, farmerId: string) returns (r: Reply<S.Summary>)
    ensures SummaryAccess(actor, farmerId).Some? ==> r == Fail(403, AccessDenied)
    ensures SummaryAccess(actor, farmerId).None? && ActiveRoleIndex(db.users, farmerId, Farmer) == |db.users| ==>
      r == Fail(404, "Farmer not found")
    ensures r.status == 200 <==> SummaryAccess(actor, farmerId).None? && ActiveRoleIndex(db.users, farmerId, Farmer) < |db.users|
    ensures r.status == 200 ==> r.body.Some? && S.Summarises(r.body.value, S.FarmerAnimals(db.animals, farmerId))
  {
    var refusal := SummaryAccess(actor, farmerId);
    if refusal.Some? {
      return Fail(403, refusal.value);
    }
    var res := S.GetFarmerAnimalsSummary(db, farmerId);
    if !res.Ok? {
      LookupFailuresAre404();
      return Fail(NotFoundOr500(res.msg), res.msg);
    }
    r := Done(200, "Animals summary retrieved successfully", res.value);
  }

  /** The test of `get_vet_assigned_animals`: the veterinarian themselves or an admin. */
  function AssignmentsAccess(actor: User, vetId: string): (refusal: Option<string>)
  {
    match RoleOf(actor)
    case Veterinarian => if actor.id != vetId then Some(AccessDenied) else None
    case Admin => None
    case Farmer => Some(AccessDenied)
  }

  lemma AssignmentsAccessIsPolicy(actor: User, vetId: string)
    ensures AssignmentsAccess(actor, vetId).None? <==> Policy.Decide(actor, Policy.ViewVetAssignments, Policy.Person(vetId))
  {
  }

  method GetVetAssignedAnimals(db: Store, actor: User, vetId: string) returns (r: Reply<S.VetAssignments>)
    ensures AssignmentsAccess(actor, vetId).Some? ==> r == Fail(403, AccessDenied)
    ensures AssignmentsAccess(actor, vetId).None? && ActiveRoleIndex(db.users, vetId, Veterinarian) == |db.users| ==>
      r == Fail(404, "Veterinarian not found")
    ensures r.status == 200 <==>
      AssignmentsAccess(actor, vetId).None? && ActiveRoleIndex(db.users, vetId, Veterinarian) < |db.users|
    ensures r.status == 200 ==>
      && r.body.Some? && r.body.value.animals == S.VetAnimals(db.animals, vetId)
      && S.Grouped(r.body.value.byStatus, r.body.value.animals)
      && r.body.value.attention == Tables.Tally(r.body.value.animals, NeedsAttention, true)
  {
    var refusal := AssignmentsAccess(actor, vetId);
    if refusal.Some? {
      return Fail(403, refusal.value);
    }
    var res := S.GetVetAssignedAnimals(db, vetId);
    if !res.Ok? {
      LookupFailuresAre404();
      return Fail(NotFoundOr500(res.msg), res.msg);
    }
    r := Done(200, "Assigned animals retrieved successfully", res.value);
  }

  // ---------------------------------------------------------------- GET /animals/search

  function ArgValue(arg: Option<string>): Value
  {
    if arg.Some? then Str(arg.value) else Null
  }

  /** `str()` of a search term; the route passes only strings. */
  function Render(v: Value): string
  {
    if v.Str? then v.s else ""
  }

  /** The parameters `search_animals` builds: the query arguments, then the
      actor's own id as owner or veterinarian, or an admin's `farmer_id`. A
      key the route leaves out is written here as Null, which is what `.get`
      returns for it. `order_by` is always present, `created_at` by default. */
  function SearchParams(actor: User, species: Option<string>, health: Option<string>, search: Option<string>,
                        orderBy: Option<string>, farmerArg: Option<string>): (d: Dict)
    ensures Get(d, "species") == ArgValue(species) && Get(d, "health_status") == ArgValue(health)
    ensures Get(d, "search") == ArgValue(search)
    ensures S.OrderName(d) == Str(OrderArg(orderBy))
    ensures RoleOf(actor) == Farmer ==> Get(d, "farmer_id") == Str(actor.id) && Get(d, "veterinarian_id") == Null
    ensures RoleOf(actor) == Veterinarian ==> Get(d, "veterinarian_id") == Str(actor.id) && Get(d, "farmer_id") == Null
    ensures RoleOf(actor) == Admin ==>
      && Get(d, "veterinarian_id") == Null
      && Get(d, "farmer_id") == if Given(farmerArg) then Str(farmerArg.value) else Null
  {
    var farmer := match RoleOf(actor)
      case Farmer => Str(actor.id)
      case Veterinarian => Null
      case Admin => if Given(farmerArg) then Str(farmerArg.value) else Null;
    var vet := if RoleOf(actor) == Veterinarian then Str(actor.id) else Null;
    var d0 := Put([], "species", ArgValue(species));
    var d1 := Put(d0, "health_status", ArgValue(health));
    var d2 := Put(d1, "search", ArgValue(search));
    var d2o := Put(d2, "order_by", Str(OrderArg(orderBy)));
    var d3 := Put(d2o, "farmer_id", farmer);
    GetPut(d3, "veterinarian_id", vet, "species");
    GetPut(d3, "veterinarian_id", vet, "health_status");
    GetPut(d3, "veterinarian_id", vet, "search");
    GetPut(d3, "veterinarian_id", vet, "order_by");
    GetPut(d3, "veterinarian_id", vet, "farmer_id");
    GetPut(d2o, "farmer_id", farmer, "species");
    GetPut(d2o, "farmer_id", farmer, "health_status");
    GetPut(d2o, "farmer_id", farmer, "search");
    GetPut(d2o, "farmer_id", farmer, "order_by");
    GetPut(d2, "order_by", Str(OrderArg(orderBy)), "species");
    GetPut(d2, "order_by", Str(OrderArg(orderBy)), "health_status");
    GetPut(d2, "order_by", Str(OrderArg(orderBy)), "search");
    GetPut(d1, "search", ArgValue(search), "species");
    GetPut(d1, "search", ArgValue(search), "health_status");
    GetPut(d0, "health_status", ArgValue(health), "species");
    Put(d3, "veterinarian_id", vet)
  }

  /** `request.args.get('order_by', 'created_at')`. */
  function OrderArg(orderBy: Option<string>): string
  {
    if orderBy.Some? then orderBy.value else "created_at"
  }

  /** `search_animals` (the route). A farmer or a veterinarian finds only
      their own or their assigned animals; ordering by an attribute that is
      not a column fails with 400. */
  function SearchAnimals(animals: seq<Animal>, actor: User, species: Option<string>, health: Option<string>,
                         search: Option<string>, orderBy: Option<string>, farmerArg: Option<string>,
                         attribute: string -> S.Attribute)
    : (r: Reply<seq<Animal>>)
    ensures r.status == 200 || r.status == 400
    ensures attribute(OrderArg(orderBy)) == S.OtherAttribute ==> r.status == 400
    ensures r.status == 200 ==> r.body.Some? && forall i :: 0 <= i < |r.body.value| ==>
      && r.body.value[i] in animals && r.body.value[i].life.isActive
      && (RoleOf(actor) == Farmer && actor.id != "" ==> r.body.value[i].farmerId == actor.id)
      && (RoleOf(actor) == Veterinarian && actor.id != "" ==> r.body.value[i].vetId == Some(actor.id))
  {
    var params := SearchParams(actor, species, health, search, orderBy, farmerArg);
    var res := S.SearchAnimals(animals, params, Render, attribute);
    if res.Ok? then
      SearchIsScoped(animals, params, Render, attribute);
      Done(200, "Animals search completed", res.value)
    else Fail(400, ServiceMessage(res))
  }

  /** A truthy string `farmer_id` or `veterinarian_id` parameter confines the search to that owner or veterinarian. */
  lemma SearchIsScoped(animals: seq<Animal>, params: Dict, render: Value -> string, attribute: string -> S.Attribute)
    requires S.SearchAnimals(animals, params, render, attribute).Ok?
    ensures var found := S.SearchAnimals(animals, params, render, attribute).value;
      forall i :: 0 <= i < |found| ==>
        && found[i] in animals && found[i].life.isActive
        && (Get(params, "farmer_id").Str? && Get(params, "farmer_id").s != "" ==> found[i].farmerId == Get(params, "farmer_id").s)
        && (Get(params, "veterinarian_id").Str? && Get(params, "veterinarian_id").s != "" ==>
              found[i].vetId == Some(Get(params, "veterinarian_id").s))
  {
    var c := S.ParseCriteria(params, render).value;
    var found := S.SearchAnimals(animals, params, render, attribute).value;
    forall i | 0 <= i < |found|
      ensures found[i] in animals && found[i].life.isActive
      ensures Get(params, "farmer_id").Str? && Get(params, "farmer_id").s != "" ==> found[i].farmerId == Get(params, "farmer_id").s
      ensures Get(params, "veterinarian_id").Str? && Get(params, "veterinarian_id").s != "" ==>
              found[i].vetId == Some(Get(params, "veterinarian_id").s)
    {
      assert S.Matches(found[i], c);
    }
  }

  // ---------------------------------------------------------------- GET /animals/stats

  datatype AnimalStats = AnimalStats(total: nat, species: map<Species, nat>, health: map<Health, nat>,
                                     attention: nat, unassigned: nat, healthy: nat)

  function ActiveAnimals(animals: seq<Animal>): (r: seq<Animal>)
    ensures forall x :: x in r ==> x in animals && x.life.isActive
  {
    GetActive(animals, (a: Animal) => a.life)
  }

  predicate Unassigned(a: Animal)
  {
    a.vetId.None?
  }

  /** `get_animals_stats` (admin only): one count per species and per health
      status over the active animals, filled in a loop over each enumeration,
      and the attention and unassigned counts. */
  method GetAnimalsStats(db: Store) returns (s: AnimalStats)
    ensures var xs := ActiveAnimals(db.animals);
      && s.total == |xs|
      && (forall sp :: sp in s.species && s.species[sp] == Tables.Tally(xs, S.SpeciesOf, sp))
      && (forall h :: h in s.health && s.health[h] == Tables.Tally(xs, S.HealthOf, h))
      && s.attention == Tables.Tally(xs, NeedsAttention, true)
      && s.unassigned == Tables.Tally(xs, Unassigned, true)
      && s.healthy == s.health[Healthy]
  {
    var xs := ActiveAnimals(db.animals);
    var species: map<Species, nat> := map[];
    for i := 0 to |AllSpecies|
      invariant forall j :: 0 <= j < i ==>
        AllSpecies[j] in species && species[AllSpecies[j]] == Tables.Tally(xs, S.SpeciesOf, AllSpecies[j])
    {
      species := species[AllSpecies[i] := Tables.Tally(xs, S.SpeciesOf, AllSpecies[i])];
    }
    var health: map<Health, nat> := map[];
    for i := 0 to |AllHealth|
      invariant forall j :: 0 <= j < i ==>
        AllHealth[j] in health && health[AllHealth[j]] == Tables.Tally(xs, S.HealthOf, AllHealth[j])
    {
      health := health[AllHealth[i] := Tables.Tally(xs, S.HealthOf, AllHealth[i])];
    }
    forall sp: Species
      ensures sp in species && species[sp] == Tables.Tally(xs, S.SpeciesOf, sp)
    {
      SpeciesClosed(sp);
    }
    forall h: Health
      ensures h in health && health[h] == Tables.Tally(xs, S.HealthOf, h)
    {
      HealthClosed(h);
    }
    s := AnimalStats(|xs|, species, health, Tables.Tally(xs, NeedsAttention, true),
                     Tables.Tally(xs, Unassigned, true), health[Healthy]);
  }

  /** The species counts add up to the total, and so do the health counts;
      the attention count is the sick, under-treatment and quarantined
      counts together, and with the healthy count stays within the total. */
  lemma StatsAddUp(db: Store, s: AnimalStats)
    requires var xs := ActiveAnimals(db.animals);
      && s.total == |xs|
      && (forall sp :: sp in s.species && s.species[sp] == Tables.Tally(xs, S.SpeciesOf, sp))
      && (forall h :: h in s.health && s.health[h] == Tables.Tally(xs, S.HealthOf, h))
      && s.attention == Tables.Tally(xs, NeedsAttention, true)
      && s.healthy == s.health[Healthy]
    ensures Tables.SumTally(ActiveAnimals(db.animals), S.SpeciesOf, AllSpecies) == s.total
    ensures Tables.SumTally(ActiveAnimals(db.animals), S.HealthOf, AllHealth) == s.total
    ensures s.attention == s.health[Sick] + s.health[UnderTreatment] + s.health[Quarantine]
    ensures s.healthy + s.attention <= s.total
  {
    var xs := ActiveAnimals(db.animals);
    S.BreakdownsAddUp(xs);
    S.AttentionIsNeedsAttention(xs);
    S.HealthSumUnfolded(xs);
  }
}
