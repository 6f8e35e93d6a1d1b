/** Livestock operations: registering an animal, assigning a veterinarian,
    profile edits through a whitelist, health records (which also update the
    animal), history, summaries, deactivation and search. Each operation is one
    transaction on the store; dates are day numbers and `parseDate` stands for
    `strptime(s, '%Y-%m-%d')`. */
module AnimalService {
  import opened Wrappers
  import opened Json
  import opened Text
  import opened BaseModel
  import opened UserModel
  import opened AnimalModel
  import opened Db
  import Tables
  import Validators

  /** What the service makes of an optional request value. */
  datatype Parsed<T> = Absent | Parsed(value: T) | Malformed | Raises

  /** `Enum(v.lower())` when `v` is truthy: a non-string raises, an unknown value is malformed. */
  function OptionalEnum<E>(v: Value, parse: string -> Option<E>): (r: Parsed<E>)
    ensures r.Absent? <==> Falsy(v)
    ensures r.Parsed? ==> v.Str? && parse(Lower(v.s)) == Some(r.value)
  {
    if Falsy(v) then Absent
    else if !v.Str? then Raises
    else match parse(Lower(v.s))
      case None => Malformed
      case Some(e) => Parsed(e)
  }

  /** `strptime(v, '%Y-%m-%d')` when `v` is truthy. */
  function OptionalDate(v: Value, parseDate: string -> Option<int>): (r: Parsed<int>)
    ensures r.Absent? <==> Falsy(v)
    ensures r.Parsed? ==> v.Str? && parseDate(v.s) == Some(r.value)
  {
    if Falsy(v) then Absent
    else if !v.Str? then Raises
    else match parseDate(v.s)
      case None => Malformed
      case Some(d) => Parsed(d)
  }

  /** `data.get(f, '').strip() if data.get(f) else None`: None when `.strip()` raises. */
  function OptionalText(data: Dict, f: string): (r: Option<Value>)
    ensures r.Some? ==> r.value == Null || r.value.Str?
  {
    var v := Get(data, f);
    if Falsy(v) then Some(Null) else if v.Str? then Some(Str(Strip(v.s))) else None
  }

  /** A value a column can be bound to; lists and objects make the commit fail. */
  predicate Scalar(v: Value)
  {
    !v.List? && !v.Obj?
  }

  predicate AttrsStorable(m: map<string, Value>)
  {
    forall k :: k in m ==> Scalar(m[k])
  }

  /** The descriptive columns copied from the request: text ones are stripped,
      the others stored as given. None when a text value is not a string. */
  function CopyColumns(data: Dict, text: seq<string>, raw: seq<string>): (r: Option<map<string, Value>>)
    ensures r.Some? ==> forall k :: k in r.value <==> k in text || k in raw
  {
    if forall i :: 0 <= i < |text| ==> OptionalText(data, text[i]).Some? then
      Some(map k | k in text + raw :: if k in text && OptionalText(data, k).Some? then OptionalText(data, k).value else Get(data, k))
    else None
  }

  function InvalidChoice(what: string, values: seq<string>): string
  {
    "Invalid " + what + ". Must be one of: " + PyStrList(values)
  }

  // ---------------------------------------------------------------- create_animal

  const AnimalText: seq<string> := ["name", "breed", "color", "source", "vaccination_status", "notes", "special_conditions"]
  const AnimalRaw: seq<string> := ["age_months", "weight_kg", "height_cm", "purchase_price", "daily_milk_yield", "lactation_number"]

  const FailedToCreateAnimal: string := "Failed to create animal"

  /** The first checks of `create_animal`: required fields, the farmer, species and gender. */
  datatype AnimalInput = AnimalInput(tag: Value, species: Species, gender: Gender)

  function CheckAnimal(users: seq<User>, data: Dict, farmerId: string): (r: Result<AnimalInput>)
    ensures r.Ok? ==>
      && Validators.MissingFields(data, ["tag_id", "species", "gender"]) == []
      && ActiveRoleIndex(users, farmerId, Farmer) < |users|
      && r.value.tag == Get(data, "tag_id")
      && Get(data, "species").Str? && SpeciesValue(r.value.species) == Lower(Get(data, "species").s)
      && Get(data, "gender").Str? && GenderValue(r.value.gender) == Lower(Get(data, "gender").s)
  {
    var missing := Validators.MissingFields(data, ["tag_id", "species", "gender"]);
    var species := Get(data, "species");
    var gender := Get(data, "gender");
    if missing != [] then Err(Validators.MissingFieldsMessage(missing))
    else if ActiveRoleIndex(users, farmerId, Farmer) == |users| then Err("Farmer not found")
    else if !species.Str? then Crash(FailedToCreateAnimal)
    else if ParseSpecies(Lower(species.s)).None? then Err(InvalidChoice("species", SpeciesValues()))
    else if !gender.Str? then Crash(FailedToCreateAnimal)
    else if ParseGender(Lower(gender.s)).None? then Err(InvalidChoice("gender", GenderValues()))
    else Ok(AnimalInput(Get(data, "tag_id"), ParseSpecies(Lower(species.s)).value, ParseGender(Lower(gender.s)).value))
  }

  /** The duplicate check: an active animal of the same farmer whose stored tag
      equals the tag exactly as given. */
  predicate TagInUse(animals: seq<Animal>, tag: Value, farmerId: string)
  {
    tag.Str? && exists i :: 0 <= i < |animals| && animals[i].tagId == tag.s && animals[i].farmerId == farmerId
                                               && animals[i].life.isActive
  }

  /** The optional status and date fields, checked in source order. */
  datatype AnimalStatus = AnimalStatus(health: Health, production: Option<Production>, birth: Option<int>, purchase: Option<int>)

  function CheckStatus(data: Dict, parseDate: string -> Option<int>): (r: Result<AnimalStatus>)
    ensures r.Ok? && Falsy(Get(data, "health_status")) ==> r.value.health == Healthy
    ensures r.Ok? && Falsy(Get(data, "production_status")) ==> r.value.production.None?
    ensures r.Ok? && !Falsy(Get(data, "health_status")) ==>
      Get(data, "health_status").Str? && HealthValue(r.value.health) == Lower(Get(data, "health_status").s)
  {
    var health := OptionalEnum(Get(data, "health_status"), ParseHealth);
    var production := OptionalEnum(Get(data, "production_status"), ParseProduction);
    var birth := OptionalDate(Get(data, "birth_date"), parseDate);
    var purchase := OptionalDate(Get(data, "purchase_date"), parseDate);
    if health.Raises? then Crash(FailedToCreateAnimal)
    else if health.Malformed? then Err(InvalidChoice("health status", HealthValues()))
    else if production.Raises? then Crash(FailedToCreateAnimal)
    else if production.Malformed? then Err(InvalidChoice("production status", ProductionValues()))
    else if birth.Raises? then Crash(FailedToCreateAnimal)
    else if birth.Malformed? then Err("Invalid birth_date format. Use YYYY-MM-DD")
    else if purchase.Raises? then Crash(FailedToCreateAnimal)
    else if purchase.Malformed? then Err("Invalid purchase_date format. Use YYYY-MM-DD")
    else Ok(AnimalStatus(
      if health.Parsed? then health.value else Healthy,
      if production.Parsed? then Some(production.value) else None,
      if birth.Parsed? then Some(birth.value) else None,
      if purchase.Parsed? then Some(purchase.value) else None))
  }

  /** Building the row (the tag is stripped) and committing it against the
      table-wide unique `tag_id` and the primary key. */
  function BuildAnimal(animals: seq<Animal>, data: Dict, farmerId: string, input: AnimalInput,
                       status: AnimalStatus, id: string, now: int): (r: Result<Animal>)
    ensures r.Ok? ==>
      && input.tag.Str? && r.value.tagId == Strip(input.tag.s)
      && r.value.id == id && r.value.farmerId == farmerId && r.value.vetId.None?
      && r.value.species == input.species && r.value.gender == input.gender
      && r.value.health == status.health && r.value.production == status.production
      && r.value.lastCheckup.None? && r.value.life == Fresh()
      && CanInsertAnimal(animals, r.value)
  {
    if !input.tag.Str? then Crash(FailedToCreateAnimal)
    else
      match CopyColumns(data, AnimalText, AnimalRaw)
      case None => Crash(FailedToCreateAnimal)
      case Some(attrs) =>
        var a := Animal(id, Strip(input.tag.s), input.species, input.gender, status.health, status.production,
                        farmerId, None, None, status.birth, status.purchase, attrs, Fresh(), now);
        if AttrsStorable(attrs) && CanInsertAnimal(animals, a) then Ok(a) else Crash(FailedToCreateAnimal)
  }

  /** `create_animal(animal_data, farmer_id)`: the first failure decides. */
  function AnimalCreation(users: seq<User>, animals: seq<Animal>, data: Dict, farmerId: string,
                          parseDate: string -> Option<int>, id: string, now: int): (r: Result<Animal>)
    ensures r.Ok? ==>
      && ActiveRoleIndex(users, farmerId, Farmer) < |users|
      && Get(data, "tag_id").Str? && !TagInUse(animals, Get(data, "tag_id"), farmerId)
      && r.value.tagId == Strip(Get(data, "tag_id").s)
      && r.value.farmerId == farmerId && r.value.vetId.None? && r.value.life == Fresh()
      && (Falsy(Get(data, "health_status")) ==> r.value.health == Healthy)
      && (Falsy(Get(data, "production_status")) ==> r.value.production.None?)
      && CanInsertAnimal(animals, r.value)
  {
    match CheckAnimal(users, data, farmerId)
    case Err(m) => Err(m)
    case Crash(m) => Crash(m)
    case Ok(input) =>
      if TagInUse(animals, input.tag, farmerId) then Err("An animal with this tag ID already exists for this farmer")
      else
        match CheckStatus(data, parseDate)
        case Err(m) => Err(m)
        case Crash(m) => Crash(m)
        case Ok(status) => BuildAnimal(animals, data, farmerId, input, status, id, now)
  }

  /** The duplicate check compares the tag as given, the table stores it
      stripped, and the column is unique across all farmers and deleted rows:
      whenever any animal already holds the stripped tag, creation fails, and
      when the friendly check did not catch it, it fails as a crashed commit. */
  lemma TagCheckAndStorageDisagree(users: seq<User>, animals: seq<Animal>, data: Dict, farmerId: string,
                                   parseDate: string -> Option<int>, id: string, now: int, j: int)
    requires 0 <= j < |animals| && Get(data, "tag_id").Str? && animals[j].tagId == Strip(Get(data, "tag_id").s)
    requires CheckAnimal(users, data, farmerId).Ok? && CheckStatus(data, parseDate).Ok?
    ensures !AnimalCreation(users, animals, data, farmerId, parseDate, id, now).Ok?
    ensures !TagInUse(animals, Get(data, "tag_id"), farmerId) ==>
      AnimalCreation(users, animals, data, farmerId, parseDate, id, now) == Crash(FailedToCreateAnimal)
  {
  }

  /** `create_animal` on the store: nothing is stored unless every step passes. */
  method CreateAnimal(db: Store, data: Dict, farmerId: string, parseDate: string -> Option<int>, id: string, now: int)
    returns (r: Result<Animal>)
    requires db.Valid()
    modifies db
    ensures db.Valid()
    ensures r == AnimalCreation(old(db.users), old(db.animals), data, farmerId, parseDate, id, now)
    ensures db.animals == if r.Ok? then old(db.animals) + [r.value] else old(db.animals)
    ensures db.users == old(db.users) && db.records == old(db.records)
  {
    var input := CheckAnimal(db.users, data, farmerId);
    if input.Err? {
      return Err(input.msg);
    }
    if input.Crash? {
      return Crash(input.context);
    }
    if TagInUse(db.animals, input.value.tag, farmerId) {
      return Err("An animal with this tag ID already exists for this farmer");
    }
    var status := CheckStatus(data, parseDate);
    if status.Err? {
      return Err(status.msg);
    }
    if status.Crash? {
      return Crash(status.context);
    }
    r := BuildAnimal(db.animals, data, farmerId, input.value, status.value, id, now);
    if r.Ok? {
      db.AddAnimal(r.value);
    }
  }

  // ---------------------------------------------------------------- assign_veterinarian

  /** `assign_veterinarian(animal_id, vet_id, ...)`: the positions of the
      active animal and the active veterinarian, or the message. */
  function AssignmentTarget(users: seq<User>, animals: seq<Animal>, animalId: string, vetId: string): (r: Result<nat>)
    ensures r.Ok? <==> ActiveAnimalIndex(animals, animalId) < |animals|
                       && ActiveRoleIndex(users, vetId, Veterinarian) < |users|
                       && users[ActiveRoleIndex(users, vetId, Veterinarian)].status == Active
    ensures r.Ok? ==> r.value == ActiveAnimalIndex(animals, animalId)
    ensures r.Crash? == false
  {
    var k := ActiveAnimalIndex(animals, animalId);
    var v := ActiveRoleIndex(users, vetId, Veterinarian);
    if k == |animals| then Err("Animal not found")
    else if v == |users| then Err("Veterinarian not found")
    else if users[v].status != Active then Err("Veterinarian is not active")
    else Ok(k)
  }

  /** An admin-activated veterinarian who never verified a channel can still
      be assigned: only the status is checked. */
  lemma UnverifiedVetCanBeAssigned(users: seq<User>, animals: seq<Animal>, animalId: string, vetId: string)
    requires ActiveAnimalIndex(animals, animalId) < |animals|
    requires ActiveRoleIndex(users, vetId, Veterinarian) < |users|
    requires users[ActiveRoleIndex(users, vetId, Veterinarian)].status == Active
    ensures AssignmentTarget(users, animals, animalId, vetId).Ok?
  {
  }

  method AssignVeterinarian(db: Store, animalId: string, vetId: string) returns (r: Result<Animal>)
    requires db.Valid()
    modifies db
    ensures db.Valid()
    ensures var t := AssignmentTarget(old(db.users), old(db.animals), animalId, vetId);
      && (t.Ok? ==> (db.animals == old(db.animals)[t.value := old(db.animals)[t.value].(vetId := Some(vetId))]
                     && r == Ok(db.animals[t.value])))
      && (t.Err? ==> r == Err(t.msg) && db.animals == old(db.animals))
    ensures db.users == old(db.users) && db.records == old(db.records)
  {
    var t := AssignmentTarget(db.users, db.animals, animalId, vetId);
    if !t.Ok? {
      return Err(t.msg);
    }
    var a := db.animals[t.value].(vetId := Some(vetId));
    db.PutAnimal(t.value, a);
    r := Ok(a);
  }

  // ---------------------------------------------------------------- update_animal_profile

  const AnimalUpdatable: seq<string> := [
    "name", "breed", "weight_kg", "height_cm", "color", "health_status",
    "production_status", "daily_milk_yield", "lactation_number",
    "vaccination_status", "notes", "special_conditions"]

  /** The state of the `setattr` loop: the row so far, the fields set, whether
      the last raw assignments to the two enum columns can be committed, and
      whether `.lower()` raised (which ends the loop). */
  datatype AnimalEdit = AnimalEdit(animal: Animal, fields: seq<string>, healthOk: bool, productionOk: bool, raised: bool)

  /** One pass of the loop body. A truthy enum value is parsed (and skipped
      when unknown); a falsy one falls through to the generic branch and is
      assigned as it is: NULL clears the production status, anything else the
      model takes the update to fail on, with no change. */
  function AnimalStep(e: AnimalEdit, field: string, v: Value): AnimalEdit
  {
    if e.raised || field !in AnimalUpdatable then e
    else if field == "health_status" && !Falsy(v) then
      if !v.Str? then e.(raised := true)
      else match ParseHealth(Lower(v.s))
        case None => e
        case Some(h) => e.(animal := e.animal.(health := h), fields := e.fields + [field], healthOk := true)
    else if field == "production_status" && !Falsy(v) then
      if !v.Str? then e.(raised := true)
      else match ParseProduction(Lower(v.s))
        case None => e
        case Some(p) => e.(animal := e.animal.(production := Some(p)), fields := e.fields + [field], productionOk := true)
    else if field == "health_status" then e.(fields := e.fields + [field], healthOk := false)
    else if field == "production_status" then
      if v == Null then e.(animal := e.animal.(production := None), fields := e.fields + [field], productionOk := true)
      else e.(fields := e.fields + [field], productionOk := false)
    else e.(animal := e.animal.(attrs := e.animal.attrs[field := v]), fields := e.fields + [field])
  }

  /** The loop over `update_data.items()`, as a function of the items seen so far. */
  function AnimalUpdates(a: Animal, update: Dict): AnimalEdit
  {
    if update == [] then AnimalEdit(a, [], true, true, false)
    else
      var last := update[|update| - 1];
      AnimalStep(AnimalUpdates(a, update[..|update| - 1]), last.0, last.1)
  }

  /** The loop never touches identity, ownership, species, gender, dates or
      the soft-delete state, and records only whitelisted fields. */
  lemma {:induction false} AnimalUpdatesFrame(a: Animal, update: Dict)
    ensures var e := AnimalUpdates(a, update);
      && e.animal == a.(health := e.animal.health, production := e.animal.production, attrs := e.animal.attrs)
      && (forall i :: 0 <= i < |e.fields| ==> e.fields[i] in AnimalUpdatable)
  {
    if update != [] {
      var last := update[|update| - 1];
      AnimalUpdatesFrame(a, update[..|update| - 1]);
      AnimalStepFrame(AnimalUpdates(a, update[..|update| - 1]), last.0, last.1);
    }
  }

  /** One pass of the loop body changes only the two enum columns and the
      descriptive ones, and records at most the field it was given, when whitelisted. */
  lemma AnimalStepFrame(e: AnimalEdit, field: string, v: Value)
    ensures var e2 := AnimalStep(e, field, v);
      && e2.animal == e.animal.(health := e2.animal.health, production := e2.animal.production, attrs := e2.animal.attrs)
      && (e2.fields == e.fields || (e2.fields == e.fields + [field] && field in AnimalUpdatable))
  {
  }

  /** The loop changes descriptive columns only under whitelisted names and
      drops none. */
  lemma {:induction false} AnimalUpdatesAttrs(a: Animal, update: Dict)
    ensures var e := AnimalUpdates(a, update);
      && (forall k :: k in e.animal.attrs && (k !in a.attrs || e.animal.attrs[k] != a.attrs[k]) ==> k in AnimalUpdatable)
      && (forall k :: k in a.attrs ==> k in e.animal.attrs)
  {
    if update != [] {
      AnimalUpdatesAttrs(a, update[..|update| - 1]);
    }
  }

  /** A loop that records no field leaves the row and both enum flags as they were. */
  lemma {:induction false} AnimalUpdatesNothing(a: Animal, update: Dict)
    ensures var e := AnimalUpdates(a, update);
      e.fields == [] ==> e.animal == a && e.healthOk && e.productionOk
  {
    if update != [] {
      AnimalUpdatesNothing(a, update[..|update| - 1]);
    }
  }

  /** What the call returns, from the final loop state. */
  function AnimalUpdateOutcome(e: AnimalEdit): Result<seq<string>>
  {
    if e.raised then Crash("Animal profile update failed")
    else if e.fields == [] then Err("No valid fields to update")
    else if e.healthOk && e.productionOk && AttrsStorable(e.animal.attrs) then Ok(e.fields)
    else Crash("Animal profile update failed")
  }

  /** A falsy health status is not validated: it is assigned as it is and the
      update fails (the model takes it to leave the row unchanged), while an
      unknown non-empty status is skipped silently. */
  lemma FalsyHealthBypassesValidation(a: Animal, v: Value, s: string)
    requires Falsy(v) && s != "" && ParseHealth(Lower(s)).None?
    ensures AnimalUpdateOutcome(AnimalUpdates(a, [("health_status", v)])) == Crash("Animal profile update failed")
    ensures AnimalUpdateOutcome(AnimalUpdates(a, [("health_status", Str(s))])) == Err("No valid fields to update")
  {
    assert [("health_status", v)][..0] == [];
    assert [("health_status", Str(s))][..0] == [];
  }

  /** A null production status clears it, which the column allows. */
  lemma NullProductionClears(a: Animal)
    requires AttrsStorable(a.attrs)
    ensures AnimalUpdates(a, [("production_status", Null)]).animal.production.None?
    ensures AnimalUpdateOutcome(AnimalUpdates(a, [("production_status", Null)])) == Ok(["production_status"])
  {
    assert [("production_status", Null)][..0] == [];
    assert "production_status" in AnimalUpdatable;
    assert "production_status" != "health_status";
    var e := AnimalUpdates(a, [("production_status", Null)]);
    var u: Dict := [("production_status", Null)];
    assert u[|u| - 1] == ("production_status", Null);
    assert AnimalUpdates(a, u[..0]) == AnimalEdit(a, [], true, true, false);
    assert e == AnimalStep(AnimalEdit(a, [], true, true, false), "production_status", Null);
    assert e.fields == ["production_status"] && e.animal.attrs == a.attrs;
  }

  /** `update_animal_profile(animal_id, update_data, ...)`. */
  method UpdateAnimalProfile(db: Store, animalId: string, update: Dict) returns (r: Result<seq<string>>)
    requires db.Valid()
    modifies db
    ensures db.Valid()
    ensures var k := ActiveAnimalIndex(old(db.animals), animalId);
      && (k == |old(db.animals)| ==> r == Err("Animal not found") && db.animals == old(db.animals))
      && (k < |old(db.animals)| ==>
            var e := AnimalUpdates(old(db.animals)[k], update);
            && r == AnimalUpdateOutcome(e)
            && db.animals == if r.Ok? then old(db.animals)[k := e.animal] else old(db.animals))
    ensures db.users == old(db.users) && db.records == old(db.records)
  {
    var k := ActiveAnimalIndex(db.animals, animalId);
    if k == |db.animals| {
      return Err("Animal not found");
    }
    var a0 := db.animals[k];
    var e := AnimalEdit(a0, [], true, true, false);
    var i := 0;
    while i < |update|
      invariant 0 <= i <= |update|
      invariant e == AnimalUpdates(a0, update[..i])
    {
      assert update[..i + 1][..i] == update[..i];
      var (field, v) := update[i];
      if e.raised {
        break;
      }
      if field in AnimalUpdatable {
        if field == "health_status" && !Falsy(v) {
          if !v.Str? {
            e := e.(raised := true);
          } else if ParseHealth(Lower(v.s)).Some? {
            e := e.(animal := e.animal.(health := ParseHealth(Lower(v.s)).value), fields := e.fields + [field], healthOk := true);
          }
        } else if field == "production_status" && !Falsy(v) {
          if !v.Str? {
            e := e.(raised := true);
          } else if ParseProduction(Lower(v.s)).Some? {
            e := e.(animal := e.animal.(production := Some(ParseProduction(Lower(v.s)).value)), fields := e.fields + [field], productionOk := true);
          }
        } else if field == "health_status" {
          e := e.(fields := e.fields + [field], healthOk := false);
        } else if field == "production_status" {
          if v == Null {
            e := e.(animal := e.animal.(production := None), fields := e.fields + [field], productionOk := true);
          } else {
            e := e.(fields := e.fields + [field], productionOk := false);
          }
        } else {
          e := e.(animal := e.animal.(attrs := e.animal.attrs[field := v]), fields := e.fields + [field]);
        }
      }
      i := i + 1;
    }
    if e.raised {
      RaisedStaysRaised(a0, update, i);
      return Crash("Animal profile update failed");
    }
    assert update[..|update|] == update;
    r := AnimalUpdateOutcome(e);
    if r.Ok? {
      AnimalUpdatesFrame(a0, update);
      db.PutAnimal(k, e.animal);
    }
  }

  /** Once `.lower()` has raised, later items change nothing. */
  lemma {:induction false} RaisedStaysRaised(a: Animal, update: Dict, i: int)
    requires 0 <= i <= |update| && AnimalUpdates(a, update[..i]).raised
    ensures AnimalUpdates(a, update) == AnimalUpdates(a, update[..i])
    decreases |update| - i
  {
    if i < |update| {
      assert update[..i + 1][..i] == update[..i];
      RaisedStaysRaised(a, update, i + 1);
    } else {
      assert update[..i] == update;
    }
  }

  // ---------------------------------------------------------------- create_health_record

  const RecordText: seq<string> := ["symptoms", "diagnosis", "treatment_given", "recommendations", "notes"]
  const RecordRaw: seq<string> := ["temperature", "weight_kg", "heart_rate", "respiratory_rate"]

  const FailedToCreateRecord: string := "Failed to create health record"

  /** `create_health_record(data, recorded_by_user_id)` up to the commit: the
      position of the animal and the new record. `today` is `date.today()`. */
  function HealthRecordCreation(animals: seq<Animal>, records: seq<HealthRecord>, data: Dict, recordedBy: string,
                                today: int, parseDate: string -> Option<int>, id: string, now: int)
    : (r: Result<(nat, HealthRecord)>)
    ensures r.Ok? ==>
      var (k, rec) := r.value;
      && k == ActiveAnimalIndex(animals, rec.animalId) < |animals|
      && Get(data, "animal_id") == Str(rec.animalId)
      && rec.id == id && rec.recordedBy == recordedBy && rec.life == Fresh()
      && (Falsy(Get(data, "checkup_date")) ==> rec.checkupDate == today)
      && (Falsy(Get(data, "next_checkup_date")) ==> rec.nextCheckup.None?)
      && (Falsy(Get(data, "overall_condition")) <==> rec.condition.None?)
      && CanInsertRecord(records, rec)
    ensures Validators.MissingFields(data, ["animal_id"]) != [] ==>
      r == Err(Validators.MissingFieldsMessage(Validators.MissingFields(data, ["animal_id"])))
  {
    var missing := Validators.MissingFields(data, ["animal_id"]);
    var animalId := Get(data, "animal_id");
    if missing != [] then Err(Validators.MissingFieldsMessage(missing))
    else if !animalId.Str? || ActiveAnimalIndex(animals, animalId.s) == |animals| then Err("Animal not found")
    else
      var checkup := OptionalDate(Get(data, "checkup_date"), parseDate);
      var next := OptionalDate(Get(data, "next_checkup_date"), parseDate);
      var condition := OptionalEnum(Get(data, "overall_condition"), ParseHealth);
      if checkup.Raises? then Crash(FailedToCreateRecord)
      else if checkup.Malformed? then Err("Invalid checkup_date format. Use YYYY-MM-DD")
      else if next.Raises? then Crash(FailedToCreateRecord)
      else if next.Malformed? then Err("Invalid next_checkup_date format. Use YYYY-MM-DD")
      else if condition.Raises? then Crash(FailedToCreateRecord)
      else if condition.Malformed? then Err(InvalidChoice("overall_condition", HealthValues()))
      else
        match CopyColumns(data, RecordText, RecordRaw)
        case None => Crash(FailedToCreateRecord)
        case Some(attrs) =>
          var rec := HealthRecord(id, animalId.s, recordedBy,
                                  if checkup.Parsed? then checkup.value else today,
                                  if next.Parsed? then Some(next.value) else None,
                                  if condition.Parsed? then Some(condition.value) else None,
                                  attrs, Fresh(), now);
          if AttrsStorable(attrs) && CanInsertRecord(records, rec) then Ok((ActiveAnimalIndex(animals, animalId.s), rec))
          else Crash(FailedToCreateRecord)
  }

  /** The animal after a checkup is recorded: a stated condition becomes its
      health status and the checkup date its last checkup; without one it is
      left alone. */
  function AfterCheckup(a: Animal, rec: HealthRecord): (r: Animal)
    ensures rec.condition.None? ==> r == a
    ensures rec.condition.Some? ==> r.health == rec.condition.value && r.lastCheckup == Some(rec.checkupDate)
    ensures r.id == a.id && r.tagId == a.tagId && r.life == a.life
  {
    match rec.condition
    case None => a
    case Some(h) => a.(health := h, lastCheckup := Some(rec.checkupDate))
  }

  /** `create_health_record` on the store: the record is added and the animal
      updated in the same commit, or neither happens. */
  method CreateHealthRecord(db: Store, data: Dict, recordedBy: string, today: int,
                            parseDate: string -> Option<int>, id: string, now: int)
    returns (r: Result<HealthRecord>)
    requires db.Valid()
    modifies db
    ensures db.Valid()
    ensures var c := HealthRecordCreation(old(db.animals), old(db.records), data, recordedBy, today, parseDate, id, now);
      && (c.Ok? ==> (r == Ok(c.value.1)
                     && db.records == old(db.records) + [c.value.1]
                     && db.animals == old(db.animals)[c.value.0 := AfterCheckup(old(db.animals)[c.value.0], c.value.1)]))
      && (c.Err? ==> r == Err(c.msg) && db.records == old(db.records) && db.animals == old(db.animals))
      && (c.Crash? ==> r == Crash(c.context) && db.records == old(db.records) && db.animals == old(db.animals))
    ensures db.users == old(db.users)
  {
    var c := HealthRecordCreation(db.animals, db.records, data, recordedBy, today, parseDate, id, now);
    if c.Err? {
      return Err(c.msg);
    }
    if c.Crash? {
      return Crash(c.context);
    }
    var (k, rec) := c.value;
    db.AddRecord(rec);
    db.PutAnimal(k, AfterCheckup(db.animals[k], rec));
    r := Ok(rec);
  }

  // ---------------------------------------------------------------- get_animal_health_history

  /** The active records of one animal, in table order. */
  function RecordsOf(records: seq<HealthRecord>, animalId: string): (r: seq<HealthRecord>)
    ensures forall i :: 0 <= i < |r| ==> r[i] in records && r[i].animalId == animalId && r[i].life.isActive
    ensures forall i :: 0 <= i < |records| && records[i].animalId == animalId && records[i].life.isActive ==> records[i] in r
  {
    Tables.Filter(records, (h: HealthRecord) => h.animalId == animalId && h.life.isActive)
  }

  /** `order_by(checkup_date.desc())`. */
  function LatestCheckupFirst(h: HealthRecord): int
  {
    -h.checkupDate
  }

  /** `get_animal_health_history(animal_id, limit)`. */
  function AnimalHealthHistory(animals: seq<Animal>, records: seq<HealthRecord>, animalId: string, limit: int)
    : (r: Result<seq<HealthRecord>>)
    ensures r.Ok? <==> ActiveAnimalIndex(animals, animalId) < |animals|
    ensures !r.Ok? ==> r == Err("Animal not found")
    ensures r.Ok? ==> forall i :: 0 <= i < |r.value| ==>
      r.value[i] in records && r.value[i].animalId == animalId && r.value[i].life.isActive
    ensures r.Ok? ==> forall i, j :: 0 <= i < j < |r.value| ==> r.value[i].checkupDate >= r.value[j].checkupDate
    ensures r.Ok? ==> |r.value| == if limit < 0 || limit >= |RecordsOf(records, animalId)| then |RecordsOf(records, animalId)| else limit
    ensures r.Ok? && (limit < 0 || limit >= |RecordsOf(records, animalId)|) ==>
      multiset(r.value) == multiset(RecordsOf(records, animalId))
    ensures r.Ok? ==> multiset(r.value) <= multiset(RecordsOf(records, animalId))
  {
    if ActiveAnimalIndex(animals, animalId) == |animals| then Err("Animal not found")
    else
      var sorted := Tables.SortBy(RecordsOf(records, animalId), LatestCheckupFirst);
      var page := Tables.Take(sorted, limit);
      Tables.TakeSorted(sorted, LatestCheckupFirst, limit);
      assert forall i :: 0 <= i < |page| ==> page[i] == sorted[i];
      assert sorted == page + sorted[|page|..];
      Ok(page)
  }

  /** The history is the latest `limit` records: no active record of the
      animal left out of it is newer than one kept. */
  lemma {:induction false} HistoryIsLatest(animals: seq<Animal>, records: seq<HealthRecord>, animalId: string,
                                           limit: int, h: HealthRecord, g: HealthRecord)
    requires AnimalHealthHistory(animals, records, animalId, limit).Ok?
    requires h in RecordsOf(records, animalId) && h !in AnimalHealthHistory(animals, records, animalId, limit).value
    requires g in AnimalHealthHistory(animals, records, animalId, limit).value
    ensures h.checkupDate <= g.checkupDate
  {
    var sorted := Tables.SortBy(RecordsOf(records, animalId), LatestCheckupFirst);
    assert h in multiset(RecordsOf(records, animalId));
    Tables.TakeSortedKeepsSmallest(sorted, LatestCheckupFirst, limit, h);
  }

  /** A record just created shows up in its animal's unlimited history, once
      the commit has stored it and updated the animal. */
  lemma RecordedCheckupInHistory(animals: seq<Animal>, records: seq<HealthRecord>, k: int, rec: HealthRecord)
    requires 0 <= k < |animals| && animals[k].life.isActive && animals[k].id == rec.animalId && rec.life.isActive
    ensures var h := AnimalHealthHistory(animals[k := AfterCheckup(animals[k], rec)], records + [rec], rec.animalId, -1);
      h.Ok? && rec in h.value
  {
    var after := animals[k := AfterCheckup(animals[k], rec)];
    var all := records + [rec];
    assert all[|records|] == rec;
    assert rec in RecordsOf(all, rec.animalId);
    assert after[k].id == rec.animalId && after[k].life.isActive;
    var h := AnimalHealthHistory(after, all, rec.animalId, -1);
    assert rec in multiset(h.value);
  }

  // ---------------------------------------------------------------- get_farmer_animals_summary

  /** `Animal.query.filter_by(farmer_id=..., is_active=True)`. */
  function FarmerAnimals(animals: seq<Animal>, farmerId: string): (r: seq<Animal>)
    ensures forall i :: 0 <= i < |r| ==> r[i] in animals && r[i].farmerId == farmerId && r[i].life.isActive
    ensures forall i :: 0 <= i < |animals| && animals[i].farmerId == farmerId && animals[i].life.isActive ==> animals[i] in r
  {
    Tables.Filter(animals, (a: Animal) => a.farmerId == farmerId && a.life.isActive)
  }

  function SpeciesOf(a: Animal): Species { a.species }
  function HealthOf(a: Animal): Health { a.health }
  function ProductionOf(a: Animal): Option<Production> { a.production }

  /** The breakdowns and totals the summary reports. */
  datatype Summary = Summary(total: nat, species: map<Species, nat>, health: map<Health, nat>,
                             production: map<Production, nat>, healthy: nat, attention: nat)

  /** A breakdown dictionary: a key is present exactly when some row has it,
      and maps to how many do. */
  ghost predicate Breakdown<K(!new)>(m: map<K, nat>, xs: seq<Animal>, key: Animal -> K)
  {
    forall k :: (k in m <==> Tables.Tally(xs, key, k) > 0) && (k in m ==> m[k] == Tables.Tally(xs, key, k))
  }

  /** The production breakdown skips animals without a production status. */
  ghost predicate ProductionBreakdown(m: map<Production, nat>, xs: seq<Animal>)
  {
    forall p :: (p in m <==> Tables.Tally(xs, ProductionOf, Some(p)) > 0)
                && (p in m ==> m[p] == Tables.Tally(xs, ProductionOf, Some(p)))
  }

  /** The summary of `xs`: every breakdown, the healthy count and the sum of
      the sick, under-treatment and quarantine counts. */
  ghost predicate Summarises(s: Summary, xs: seq<Animal>)
  {
    && s.total == |xs|
    && Breakdown(s.species, xs, SpeciesOf) && Breakdown(s.health, xs, HealthOf)
    && ProductionBreakdown(s.production, xs)
    && s.healthy == Tables.Tally(xs, HealthOf, Healthy)
    && s.attention == Tables.Tally(xs, HealthOf, Sick) + Tables.Tally(xs, HealthOf, UnderTreatment)
                      + Tables.Tally(xs, HealthOf, Quarantine)
  }

  /** `d[k] = d.get(k, 0) + 1`. */
  function Bump<K(!new)>(m: map<K, nat>, k: K): (r: map<K, nat>)
    ensures k in r && r[k] == (if k in m then m[k] else 0) + 1
    ensures forall j :: j != k ==> (j in r <==> j in m) && (j in m ==> r[j] == m[j])
  {
    m[k := (if k in m then m[k] else 0) + 1]
  }

  function GetOrZero<K>(m: map<K, nat>, k: K): nat
  {
    if k in m then m[k] else 0
  }

  /** `get_farmer_animals_summary(farmer_id)`. */
  method GetFarmerAnimalsSummary(db: Store, farmerId: string) returns (r: Result<Summary>)
    ensures r.Ok? <==> ActiveRoleIndex(db.users, farmerId, Farmer) < |db.users|
    ensures !r.Ok? ==> r == Err("Farmer not found")
    ensures r.Ok? ==> Summarises(r.value, FarmerAnimals(db.animals, farmerId))
  {
    if ActiveRoleIndex(db.users, farmerId, Farmer) == |db.users| {
      return Err("Farmer not found");
    }
    var xs := FarmerAnimals(db.animals, farmerId);
    var species: map<Species, nat> := map[];
    var health: map<Health, nat> := map[];
    var production: map<Production, nat> := map[];
    var i := 0;
    while i < |xs|
      invariant 0 <= i <= |xs|
      invariant Breakdown(species, xs[..i], SpeciesOf) && Breakdown(health, xs[..i], HealthOf)
      invariant ProductionBreakdown(production, xs[..i])
    {
      assert xs[..i + 1] == xs[..i] + [xs[i]];
      var a := xs[i];
      BreakdownStep(species, xs[..i], a, SpeciesOf);
      BreakdownStep(health, xs[..i], a, HealthOf);
      ProductionBreakdownStep(production, xs[..i], a);
      species := Bump(species, a.species);
      health := Bump(health, a.health);
      if a.production.Some? {
        production := Bump(production, a.production.value);
      }
      i := i + 1;
    }
    assert xs[..|xs|] == xs;
    var s := Summary(|xs|, species, health, production, GetOrZero(health, Healthy),
                     GetOrZero(health, Sick) + GetOrZero(health, UnderTreatment) + GetOrZero(health, Quarantine));
    return Ok(s);
  }

  lemma BreakdownStep<K(!new)>(m: map<K, nat>, xs: seq<Animal>, x: Animal, key: Animal -> K)
    requires Breakdown(m, xs, key)
    ensures Breakdown(Bump(m, key(x)), xs + [x], key)
  {
    assert (xs + [x])[..|xs|] == xs;
  }

  lemma ProductionBreakdownStep(m: map<Production, nat>, xs: seq<Animal>, x: Animal)
    requires ProductionBreakdown(m, xs)
    ensures ProductionBreakdown(if x.production.Some? then Bump(m, x.production.value) else m, xs + [x])
  {
    assert (xs + [x])[..|xs|] == xs;
  }

  lemma SpeciesListedOnce(sp: Species)
    ensures Tables.Occurrences(AllSpecies, sp) == 1
  {
    SpeciesDistinct();
    Tables.DistinctOccurrences(AllSpecies, sp);
    SpeciesClosed(sp);
  }

  lemma HealthListedOnce(h: Health)
    ensures Tables.Occurrences(AllHealth, h) == 1
  {
    HealthDistinct();
    Tables.DistinctOccurrences(AllHealth, h);
    HealthClosed(h);
  }

  lemma ProductionListedAtMostOnce(p: Option<Production>)
    ensures Tables.Occurrences(ProductionKeys(), p) == if p.Some? then 1 else 0
  {
    Tables.DistinctOccurrences(ProductionKeys(), p);
    match p
    case None =>
    case Some(ProdActive) => case Some(Dry) => case Some(Pregnant) =>
    case Some(Lactating) => case Some(Breeding) => case Some(Retired) =>
  }

  lemma SpeciesDistinct()
    ensures forall i, j :: 0 <= i < j < |AllSpecies| ==> AllSpecies[i] != AllSpecies[j]
  {
  }

  lemma HealthDistinct()
    ensures forall i, j :: 0 <= i < j < |AllHealth| ==> AllHealth[i] != AllHealth[j]
  {
  }

  function ProductionKeys(): seq<Option<Production>>
  {
    [Some(ProdActive), Some(Dry), Some(Pregnant), Some(Lactating), Some(Breeding), Some(Retired)]
  }

  /** The species and health breakdowns each account for every animal exactly
      once; the production breakdown for at most every animal. */
  lemma BreakdownsAddUp(xs: seq<Animal>)
    ensures Tables.SumTally(xs, SpeciesOf, AllSpecies) == |xs|
    ensures Tables.SumTally(xs, HealthOf, AllHealth) == |xs|
    ensures Tables.SumTally(xs, ProductionOf, ProductionKeys()) <= |xs|
  {
    forall i | 0 <= i < |xs| ensures Tables.Occurrences(AllSpecies, SpeciesOf(xs[i])) == 1 {
      SpeciesListedOnce(xs[i].species);
    }
    forall i | 0 <= i < |xs| ensures Tables.Occurrences(AllHealth, HealthOf(xs[i])) == 1 {
      HealthListedOnce(xs[i].health);
    }
    forall i | 0 <= i < |xs| ensures Tables.Occurrences(ProductionKeys(), ProductionOf(xs[i])) <= 1 {
      ProductionListedAtMostOnce(xs[i].production);
    }
    Tables.SumTallyBound(xs, SpeciesOf, AllSpecies);
    Tables.SumTallyBound(xs, HealthOf, AllHealth);
    Tables.SumTallyBound(xs, ProductionOf, ProductionKeys());
  }

  /** The attention figure counts exactly the animals for which
      `needs_attention()` holds. */
  lemma {:induction false} AttentionIsNeedsAttention(xs: seq<Animal>)
    ensures Tables.Tally(xs, HealthOf, Sick) + Tables.Tally(xs, HealthOf, UnderTreatment)
            + Tables.Tally(xs, HealthOf, Quarantine) == Tables.Tally(xs, NeedsAttention, true)
  {
    if xs != [] {
      AttentionIsNeedsAttention(xs[..|xs| - 1]);
      NeedsAttentionExactly(xs[|xs| - 1]);
    }
  }

  /** The health breakdown over the six statuses, written out. */
  lemma HealthSumUnfolded(xs: seq<Animal>)
    ensures Tables.SumTally(xs, HealthOf, AllHealth)
      == Tables.Tally(xs, HealthOf, Healthy) + Tables.Tally(xs, HealthOf, Sick)
         + Tables.Tally(xs, HealthOf, UnderTreatment) + Tables.Tally(xs, HealthOf, Recovering)
         + Tables.Tally(xs, HealthOf, Quarantine) + Tables.Tally(xs, HealthOf, Deceased)
  {
    var hs := AllHealth;
    assert hs[1..][1..][1..][1..][1..][1..] == [];
    assert Tables.SumTally(xs, HealthOf, hs[1..][1..][1..][1..][1..]) == Tables.Tally(xs, HealthOf, Deceased);
    assert Tables.SumTally(xs, HealthOf, hs[1..][1..][1..][1..])
      == Tables.Tally(xs, HealthOf, Quarantine) + Tables.Tally(xs, HealthOf, Deceased);
    assert Tables.SumTally(xs, HealthOf, hs[1..][1..][1..])
      == Tables.Tally(xs, HealthOf, Recovering) + Tables.Tally(xs, HealthOf, Quarantine) + Tables.Tally(xs, HealthOf, Deceased);
    assert Tables.SumTally(xs, HealthOf, hs[1..][1..])
      == Tables.Tally(xs, HealthOf, UnderTreatment) + Tables.SumTally(xs, HealthOf, hs[1..][1..][1..]);
    assert Tables.SumTally(xs, HealthOf, hs[1..])
      == Tables.Tally(xs, HealthOf, Sick) + Tables.SumTally(xs, HealthOf, hs[1..][1..]);
    assert Tables.SumTally(xs, HealthOf, hs)
      == Tables.Tally(xs, HealthOf, Healthy) + Tables.SumTally(xs, HealthOf, hs[1..]);
  }

  /** The healthy and attention figures never exceed the total. */
  lemma SummaryFiguresBounded(s: Summary, xs: seq<Animal>)
    requires Summarises(s, xs)
    ensures s.healthy + s.attention <= s.total
  {
    BreakdownsAddUp(xs);
    HealthSumUnfolded(xs);
  }

  // ---------------------------------------------------------------- get_vet_assigned_animals

  /** `order_by(created_at.desc())`. */
  function NewestFirst(a: Animal): int
  {
    -a.createdAt
  }

  /** `Animal.query.filter_by(veterinarian_id=..., is_active=True)`. */
  function AssignedTo(animals: seq<Animal>, vetId: string): (r: seq<Animal>)
    ensures forall i :: 0 <= i < |r| ==> r[i] in animals && r[i].vetId == Some(vetId) && r[i].life.isActive
    ensures forall i :: 0 <= i < |animals| && animals[i].vetId == Some(vetId) && animals[i].life.isActive ==> animals[i] in r
  {
    Tables.Filter(animals, (a: Animal) => a.vetId == Some(vetId) && a.life.isActive)
  }

  /** The active animals assigned to a veterinarian, newest first. */
  function VetAnimals(animals: seq<Animal>, vetId: string): (r: seq<Animal>)
    ensures multiset(r) == multiset(AssignedTo(animals, vetId))
    ensures forall i, j :: 0 <= i < j < |r| ==> r[i].createdAt >= r[j].createdAt
  {
    var sorted := Tables.SortBy(AssignedTo(animals, vetId), NewestFirst);
    assert forall i, j :: 0 <= i < j < |sorted| ==> NewestFirst(sorted[i]) <= NewestFirst(sorted[j]);
    sorted
  }

  /** `animals_by_status`: each status present maps to its animals in list order. */
  ghost predicate Grouped(m: map<Health, seq<Animal>>, xs: seq<Animal>)
  {
    forall h :: (h in m <==> Tables.Tally(xs, HealthOf, h) > 0) && (h in m ==> m[h] == Tables.Where(xs, HealthOf, h))
  }

  datatype VetAssignments = VetAssignments(total: nat, byStatus: map<Health, seq<Animal>>, attention: nat, animals: seq<Animal>)

  lemma GroupStep(m: map<Health, seq<Animal>>, xs: seq<Animal>, x: Animal)
    requires Grouped(m, xs)
    ensures Grouped(if x.health in m then m[x.health := m[x.health] + [x]] else m[x.health := [x]], xs + [x])
  {
    assert (xs + [x])[..|xs|] == xs;
  }

  lemma AttentionStep(xs: seq<Animal>, x: Animal)
    ensures Tables.Tally(xs + [x], NeedsAttention, true)
            == Tables.Tally(xs, NeedsAttention, true) + if NeedsAttention(x) then 1 else 0
  {
    assert (xs + [x])[..|xs|] == xs;
  }

  /** `get_vet_assigned_animals(vet_id)`; the veterinarian's status is not checked. */
  method GetVetAssignedAnimals(db: Store, vetId: string) returns (r: Result<VetAssignments>)
    ensures r.Ok? <==> ActiveRoleIndex(db.users, vetId, Veterinarian) < |db.users|
    ensures !r.Ok? ==> r == Err("Veterinarian not found")
    ensures r.Ok? ==>
      && r.value.animals == VetAnimals(db.animals, vetId)
      && r.value.total == |r.value.animals|
      && Grouped(r.value.byStatus, r.value.animals)
      && r.value.attention == Tables.Tally(r.value.animals, NeedsAttention, true)
  {
    if ActiveRoleIndex(db.users, vetId, Veterinarian) == |db.users| {
      return Err("Veterinarian not found");
    }
    var xs := VetAnimals(db.animals, vetId);
    var byStatus := GroupByStatus(xs);
    var attention := CountAttention(xs);
    return Ok(VetAssignments(|xs|, byStatus, attention, xs));
  }

  /** The `animals_by_status` loop. */
  method GroupByStatus(xs: seq<Animal>) returns (byStatus: map<Health, seq<Animal>>)
    ensures Grouped(byStatus, xs)
  {
    byStatus := map[];
    var i := 0;
    while i < |xs|
      invariant 0 <= i <= |xs|
      invariant Grouped(byStatus, xs[..i])
    {
      assert xs[..i + 1] == xs[..i] + [xs[i]];
      var a := xs[i];
      GroupStep(byStatus, xs[..i], a);
      if a.health in byStatus {
        byStatus := byStatus[a.health := byStatus[a.health] + [a]];
      } else {
        byStatus := byStatus[a.health := [a]];
      }
      i := i + 1;
    }
    assert xs[..|xs|] == xs;
  }

  /** The `attention_count` counting loop. */
  method CountAttention(xs: seq<Animal>) returns (attention: nat)
    ensures attention == Tables.Tally(xs, NeedsAttention, true)
  {
    attention := 0;
    var j := 0;
    while j < |xs|
      invariant 0 <= j <= |xs|
      invariant attention == Tables.Tally(xs[..j], NeedsAttention, true)
    {
      ghost var done := xs[..j];
      assert xs[..j + 1] == done + [xs[j]];
      AttentionStep(done, xs[j]);
      if NeedsAttention(xs[j]) {
        attention := attention + 1;
      }
      j := j + 1;
    }
    assert xs[..|xs|] == xs;
  }

  /** Every assigned animal is listed under its own status, and the groups
      together hold exactly as many animals as were assigned. */
  lemma GroupsPartitionAssigned(m: map<Health, seq<Animal>>, xs: seq<Animal>, i: int)
    requires Grouped(m, xs) && 0 <= i < |xs|
    ensures xs[i].health in m && xs[i] in m[xs[i].health]
    ensures Tables.SumTally(xs, HealthOf, AllHealth) == |xs|
  {
    Tables.WhereComplete(xs, HealthOf, i);
    BreakdownsAddUp(xs);
  }

  // ---------------------------------------------------------------- deactivate_animal

  const AnimalDeactivated: string := "Animal deactivated successfully"

  /** `deactivate_animal(animal_id, reason, by)`: soft-delete the active animal.
      The reason and the acting user only reach the log. */
  method DeactivateAnimal(db: Store, animalId: string, now: int) returns (r: Result<Animal>)
    requires db.Valid()
    modifies db
    ensures db.Valid()
    ensures var k := ActiveAnimalIndex(old(db.animals), animalId);
      && (k == |old(db.animals)| ==> r == Err("Animal not found") && db.animals == old(db.animals))
      && (k < |old(db.animals)| ==>
            && db.animals == old(db.animals)[k := old(db.animals)[k].(life := SoftDeleted(old(db.animals)[k].life, now))]
            && r == Ok(db.animals[k]))
    ensures db.users == old(db.users) && db.records == old(db.records)
  {
    var k := ActiveAnimalIndex(db.animals, animalId);
    if k == |db.animals| {
      return Err("Animal not found");
    }
    var a := db.animals[k].(life := SoftDeleted(db.animals[k].life, now));
    db.PutAnimal(k, a);
    r := Ok(a);
  }

  /** Deactivation is not repeatable: with unique ids, the animal is no longer
      found, so a second call reports "Animal not found". */
  lemma DeactivatedAnimalIsGone(animals: seq<Animal>, animalId: string, now: int)
    requires AnimalsUnique(animals) && ActiveAnimalIndex(animals, animalId) < |animals|
    ensures var k := ActiveAnimalIndex(animals, animalId);
      var after := animals[k := animals[k].(life := SoftDeleted(animals[k].life, now))];
      ActiveAnimalIndex(after, animalId) == |after|
  {
    var k := ActiveAnimalIndex(animals, animalId);
    var after := animals[k := animals[k].(life := SoftDeleted(animals[k].life, now))];
    forall i | 0 <= i < |after| ensures !(after[i].id == animalId && after[i].life.isActive) {
      if i != k {
        assert animals[i].id != animals[k].id by {
          if i < k { assert animals[i].id != animals[k].id; } else { assert animals[k].id != animals[i].id; }
        }
      }
    }
  }

  // ---------------------------------------------------------------- search_animals

  /** The filters of a search, each present only when its parameter is truthy. */
  datatype Criteria = Criteria(farmer: Option<Value>, vet: Option<Value>, species: Option<Species>,
                               health: Option<Health>, term: Option<string>)

  function Truthy(v: Value): Option<Value>
  {
    if Falsy(v) then None else Some(v)
  }

  /** Reading the search parameters; `render` is Python's `str()` of the term. */
  function ParseCriteria(params: Dict, render: Value -> string): (r: Result<Criteria>)
    ensures r.Ok? ==> r.value.farmer == Truthy(Get(params, "farmer_id")) && r.value.vet == Truthy(Get(params, "veterinarian_id"))
    ensures r.Ok? ==> ((r.value.species.None? <==> Falsy(Get(params, "species")))
                       && (r.value.health.None? <==> Falsy(Get(params, "health_status"))))
    ensures Get(params, "species").Str? && Get(params, "species").s != "" && ParseSpecies(Lower(Get(params, "species").s)).None?
            ==> r == Err("Invalid species")
  {
    var species := OptionalEnum(Get(params, "species"), ParseSpecies);
    var health := OptionalEnum(Get(params, "health_status"), ParseHealth);
    var term := Get(params, "search");
    if species.Raises? || (!species.Malformed? && health.Raises?) then Crash("Failed to search animals")
    else if species.Malformed? then Err("Invalid species")
    else if health.Malformed? then Err("Invalid health status")
    else Ok(Criteria(Truthy(Get(params, "farmer_id")), Truthy(Get(params, "veterinarian_id")),
                     if species.Parsed? then Some(species.value) else None,
                     if health.Parsed? then Some(health.value) else None,
                     if Falsy(term) then None else Some(render(term))))
  }

  /** Whether an animal passes every filter. */
  predicate Matches(a: Animal, c: Criteria)
  {
    && a.life.isActive
    && (c.farmer.Some? ==> c.farmer.value == Str(a.farmerId))
    && (c.vet.Some? ==> a.vetId.Some? && c.vet.value == Str(a.vetId.value))
    && (c.species.Some? ==> a.species == c.species.value)
    && (c.health.Some? ==> a.health == c.health.value)
    && (c.term.Some? ==> TermMatches(a, c.term.value))
  }

  /** The `ILIKE '%term%'` test on the tag id or the name. */
  predicate TermMatches(a: Animal, term: string)
  {
    || ContainsIgnoringCase(a.tagId, term)
    || ("name" in a.attrs && a.attrs["name"].Str? && ContainsIgnoringCase(a.attrs["name"].s, term))
  }

  /** The animals that pass every filter, in table order. */
  function Selection(animals: seq<Animal>, c: Criteria): (r: seq<Animal>)
    ensures forall i :: 0 <= i < |r| ==> r[i] in animals && Matches(r[i], c)
    ensures forall i :: 0 <= i < |animals| && Matches(animals[i], c) ==> animals[i] in r
  {
    Tables.Filter(animals, (a: Animal) => Matches(a, c))
  }

  /** What `getattr(Animal, name)` finds: nothing (`hasattr` is false), a
      mapped column, which `.desc()` orders by, or another attribute (a
      method, a property, a relationship, `query`), on which `.desc` raises. */
  datatype Attribute = NoAttribute | ColumnAttribute | OtherAttribute

  /** The name the search orders by: `order_by`, or `created_at` when the key is absent. */
  function OrderName(params: Dict): Value
  {
    if HasKey(params, "order_by") then Get(params, "order_by") else Str("created_at")
  }

  /** Whether the ordering step raises: `hasattr` refuses a name that is not a
      string, and `.desc` is missing on an attribute that is not a column.
      `attribute` describes the attributes of the `Animal` class. */
  predicate OrderingRaises(params: Dict, attribute: string -> Attribute)
  {
    !OrderName(params).Str? || attribute(OrderName(params).s) == OtherAttribute
  }

  /** `search_animals(search_params)`: the filter errors first, then the
      ordering step, which fails for an attribute that is not a column; on
      success exactly the animals matching every filter. */
  function SearchAnimals(animals: seq<Animal>, params: Dict, render: Value -> string,
                         attribute: string -> Attribute): (r: Result<seq<Animal>>)
    ensures r.Ok? <==> ParseCriteria(params, render).Ok? && !OrderingRaises(params, attribute)
    ensures ParseCriteria(params, render).Ok? && OrderingRaises(params, attribute) ==>
      r == Crash("Failed to search animals")
    ensures ParseCriteria(params, render) == Err("Invalid species") ==> r == Err("Invalid species")
    ensures ParseCriteria(params, render) == Err("Invalid health status") ==> r == Err("Invalid health status")
    ensures r.Ok? ==> forall i :: 0 <= i < |r.value| ==>
      r.value[i] in animals && Matches(r.value[i], ParseCriteria(params, render).value)
    ensures r.Ok? ==> forall i :: 0 <= i < |animals| && Matches(animals[i], ParseCriteria(params, render).value) ==>
      animals[i] in r.value
  {
    match ParseCriteria(params, render)
    case Err(m) => Err(m)
    case Crash(m) => Crash(m)
    case Ok(c) =>
      if OrderingRaises(params, attribute) then Crash("Failed to search animals")
      else Ok(Selection(animals, c))
  }

  /** With no parameters the search returns every active animal, given that
      `created_at` is a column. */
  lemma EmptySearchListsActive(animals: seq<Animal>, render: Value -> string, attribute: string -> Attribute, a: Animal)
    requires a in animals && attribute("created_at") == ColumnAttribute
    ensures SearchAnimals(animals, [], render, attribute).Ok?
    ensures a.life.isActive <==> a in SearchAnimals(animals, [], render, attribute).value
  {
    var c := ParseCriteria([], render).value;
    assert c == Criteria(None, None, None, None, None);
  }

  /** A deactivated animal never appears in a search. */
  lemma SearchSkipsDeactivated(animals: seq<Animal>, params: Dict, render: Value -> string,
                               attribute: string -> Attribute, a: Animal)
    requires SearchAnimals(animals, params, render, attribute).Ok? && !a.life.isActive
    ensures a !in SearchAnimals(animals, params, render, attribute).value
  {
  }
}
