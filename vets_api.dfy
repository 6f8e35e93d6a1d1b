/** The veterinarian endpoints: the directory of veterinarians, one
    veterinarian's profile, dashboard, records and schedule. */
module VetsApi {
  import opened Wrappers
  import opened Text
  import opened Json
  import opened UserModel
  import opened AnimalModel
  import opened Db
  import opened Http
  import Tables
  import Helpers
  import Policy
  import S = AnimalService
  import AnimalsApi

  const VetNotFound: string := "Veterinarian not found"

  // ---------------------------------------------------------------- the two figures

  predicate IsUnderTreatment(a: Animal)
  {
    a.health == UnderTreatment
  }

  /** `Animal.query.filter_by(veterinarian_id=..., is_active=True).count()`. */
  function AssignedCount(animals: seq<Animal>, vetId: string): nat
  {
    |S.AssignedTo(animals, vetId)|
  }

  /** The same query with `health_status='under_treatment'` added. */
  function TreatmentCount(animals: seq<Animal>, vetId: string): nat
  {
    Tables.Count(S.AssignedTo(animals, vetId), IsUnderTreatment)
  }

  /** A veterinarian's `to_dict()` with `assigned_animals_count` and
      `active_treatments_count` added. */
  datatype VetFigures = VetFigures(vet: User, assignedCount: nat, activeTreatments: nat)

  function Figures(animals: seq<Animal>, u: User): VetFigures
  {
    VetFigures(u, AssignedCount(animals, u.id), TreatmentCount(animals, u.id))
  }

  /** The assigned count is the total of the veterinarian's assignment summary,
      and the treatment count is zero exactly when no assigned animal is under
      treatment. */
  lemma FiguresMatchAssignments(animals: seq<Animal>, vetId: string)
    ensures AssignedCount(animals, vetId) == |S.VetAnimals(animals, vetId)|
    ensures TreatmentCount(animals, vetId) <= AssignedCount(animals, vetId)
    ensures TreatmentCount(animals, vetId) == 0 <==>
      forall i :: 0 <= i < |animals| && animals[i].vetId == Some(vetId) && animals[i].life.isActive ==>
        animals[i].health != UnderTreatment
  {
    var xs := S.AssignedTo(animals, vetId);
    assert |S.VetAnimals(animals, vetId)| == |multiset(S.VetAnimals(animals, vetId))| == |multiset(xs)|;
    if TreatmentCount(animals, vetId) == 0 {
      forall i | 0 <= i < |animals| && animals[i].vetId == Some(vetId) && animals[i].life.isActive
        ensures animals[i].health != UnderTreatment
      {
        var j :| 0 <= j < |xs| && xs[j] == animals[i];
      }
    }
  }

  // ---------------------------------------------------------------- GET /veterinarians

  /** The test of `list_veterinarians`: admins and farmers only. */
  function ListAccess(actor: User): (refusal: Option<string>)
  {
    if RoleOf(actor) == Veterinarian then Some(AccessDenied) else None
  }

  lemma ListAccessIsPolicy(actor: User)
    ensures ListAccess(actor).None? <==> Policy.Decide(actor, Policy.ListVets, Policy.Nothing)
  {
  }

  /** The filter of `list_veterinarians`: an active veterinarian account with
      status active, whose name, email or clinic name contains the search
      term and whose specialization contains the given one. */
  predicate VetMatches(u: User, search: Option<string>, specialization: Option<string>)
  {
    && RoleOf(u) == Veterinarian && u.life.isActive && u.status == Active
    && (AnimalsApi.Given(search) ==>
          || ContainsIgnoringCase(u.name, search.value)
          || ContainsIgnoringCase(u.email, search.value)
          || ProfileMatches(u.profile, "clinic_name", search.value))
    && (AnimalsApi.Given(specialization) ==> ProfileMatches(u.profile, "specialization", specialization.value))
  }

  function VetSelection(users: seq<User>, search: Option<string>, specialization: Option<string>): (r: seq<User>)
    ensures forall i :: 0 <= i < |r| ==> r[i] in users && VetMatches(r[i], search, specialization)
    ensures forall i :: 0 <= i < |users| && VetMatches(users[i], search, specialization) ==> users[i] in r
  {
    Tables.Filter(users, (u: User) => VetMatches(u, search, specialization))
  }

  /** The rows `list_veterinarians` pages through: the selection, newest first. */
  function VetRows(users: seq<User>, search: Option<string>, specialization: Option<string>): (r: seq<User>)
    ensures multiset(r) == multiset(VetSelection(users, search, specialization))
    ensures |r| == |VetSelection(users, search, specialization)|
    ensures forall i, j :: 0 <= i < j < |r| ==> r[i].createdAt >= r[j].createdAt
  {
    Tables.SortBy(VetSelection(users, search, specialization), NewestUserFirst)
  }

  /** Sorting keeps only selected veterinarians. */
  lemma RowsAreSelected(users: seq<User>, search: Option<string>, specialization: Option<string>)
    ensures forall x :: x in VetRows(users, search, specialization) ==> x in users && VetMatches(x, search, specialization)
  {
    Tables.SortedSelection(users, (u: User) => VetMatches(u, search, specialization), NewestUserFirst);
  }

  datatype VetDirectory = VetDirectory(vets: seq<VetFigures>, page: Helpers.Page<User>)

  /** The loop of `list_veterinarians`: each veterinarian of the page with their counts. */
  method WithFigures(animals: seq<Animal>, items: seq<User>) returns (vets: seq<VetFigures>)
    ensures |vets| == |items|
    ensures forall i :: 0 <= i < |items| ==> vets[i] == Figures(animals, items[i])
  {
    vets := [];
    for i := 0 to |items|
      invariant |vets| == i
      invariant forall j :: 0 <= j < i ==> vets[j] == Figures(animals, items[j])
    {
      var vet := items[i];
      var assignedCount := AssignedCount(animals, vet.id);
      var treatments := TreatmentCount(animals, vet.id);
      vets := vets + [VetFigures(vet, assignedCount, treatments)];
    }
  }

  /** `list_veterinarians`: access, one page of the matching veterinarians,
      then their two figures; a zero page size divides by zero, which
      `auth_required` answers with 401. */
  method ListVets(db: Store, actor: User, search: Option<string>, specialization: Option<string>,
                  page: int, perPage: int) returns (r: Reply<VetDirectory>)
    ensures ListAccess(actor).Some? ==> r == Fail(403, AccessDenied)
    ensures r.status == 200 <==> ListAccess(actor).None? && perPage != 0
    ensures ListAccess(actor).None? && r.status != 200 ==> r == FailWith(401, AuthenticationFailed, [ZeroDivisionText])
    ensures r.status == 200 ==>
      && r.body.Some? && r.message == "Veterinarians retrieved successfully"
      && Some(r.body.value.page) == Helpers.Paginate(VetRows(db.users, search, specialization), page, perPage, 100)
      && r.body.value.page.total == |VetSelection(db.users, search, specialization)|
      && |r.body.value.vets| == |r.body.value.page.items|
      && forall i :: 0 <= i < |r.body.value.vets| ==>
           && r.body.value.vets[i] == Figures(db.animals, r.body.value.page.items[i])
           && r.body.value.vets[i].vet in db.users && VetMatches(r.body.value.vets[i].vet, search, specialization)
  {
    var refusal := ListAccess(actor);
    if refusal.Some? {
      return Fail(403, refusal.value);
    }
    var rows := VetRows(db.users, search, specialization);
    var paged := Paged(rows, page, perPage, "Veterinarians retrieved successfully");
    if paged.status != 200 {
      return FailWith(401, AuthenticationFailed, [ZeroDivisionText]);
    }
    var items := paged.body.value.items;
    var vets := WithFigures(db.animals, items);
    RowsAreSelected(db.users, search, specialization);
    forall i | 0 <= i < |vets|
      ensures vets[i].vet in db.users && VetMatches(vets[i].vet, search, specialization)
    {
      assert items[i] in rows;
    }
    r := Done(200, "Veterinarians retrieved successfully", VetDirectory(vets, paged.body.value));
  }

  // ---------------------------------------------------------------- GET /veterinarians/<id>

  /** The test of `get_veterinarian`: a veterinarian only for themselves,
      admins and farmers for anyone. */
  function ProfileAccess(actor: User, vetId: string): (refusal: Option<string>)
  {
    if RoleOf(actor) == Veterinarian && actor.id != vetId then Some(AccessDenied) else None
  }

  lemma ProfileAccessIsPolicy(actor: User, vetId: string)
    ensures ProfileAccess(actor, vetId).None? <==> Policy.Decide(actor, Policy.ReadVet, Policy.Person(vetId))
  {
  }

  /** `get_veterinarian`: access, lookup, then the profile with its figures. */
  function GetVet(users: seq<User>, animals: seq<Animal>, actor: User, vetId: string): (r: Reply<VetFigures>)
    ensures ProfileAccess(actor, vetId).Some? ==> r == Fail(403, AccessDenied)
    ensures ProfileAccess(actor, vetId).None? && ActiveRoleIndex(users, vetId, Veterinarian) == |users| ==>
      r == Fail(404, VetNotFound)
    ensures r.status == 200 <==>
      ProfileAccess(actor, vetId).None? && ActiveRoleIndex(users, vetId, Veterinarian) < |users|
    ensures r.status == 200 ==>
      && r.body.Some? && r.message == "Veterinarian retrieved successfully"
      && var v := r.body.value;
      && v.vet in users && v.vet.id == vetId && RoleOf(v.vet) == Veterinarian && v.vet.life.isActive
      && v.assignedCount == AssignedCount(animals, vetId) && v.activeTreatments == TreatmentCount(animals, vetId)
  {
    var k := ActiveRoleIndex(users, vetId, Veterinarian);
    if ProfileAccess(actor, vetId).Some? then Fail(403, AccessDenied)
    else if k == |users| then Fail(404, VetNotFound)
    else Done(200, "Veterinarian retrieved successfully", Figures(animals, users[k]))
  }

  // ---------------------------------------------------------------- the veterinarian's own records

  /** The dashboard, records and schedule share the test of the assignment
      summary: the veterinarian themselves or an admin. */
  lemma OwnViewsArePolicy(actor: User, vetId: string)
    ensures AnimalsApi.AssignmentsAccess(actor, vetId).None? <==> Policy.Decide(actor, Policy.ViewVetDashboard, Policy.Person(vetId))
    ensures AnimalsApi.AssignmentsAccess(actor, vetId).None? <==> Policy.Decide(actor, Policy.ListVetRecords, Policy.Person(vetId))
    ensures AnimalsApi.AssignmentsAccess(actor, vetId).None? <==> Policy.Decide(actor, Policy.ViewVetSchedule, Policy.Person(vetId))
  {
  }

  /** The veterinarian's active records (`recorded_by_id=vet_id, is_active=True`), newest first. */
  function RecordRows(records: seq<HealthRecord>, vetId: string): (r: seq<HealthRecord>)
    ensures forall h :: h in r ==> h in records && h.recordedBy == vetId && h.life.isActive
    ensures forall i :: 0 <= i < |records| && records[i].recordedBy == vetId && records[i].life.isActive ==> records[i] in r
    ensures forall i, j :: 0 <= i < j < |r| ==> r[i].createdAt >= r[j].createdAt
  {
    var mine := (h: HealthRecord) => h.recordedBy == vetId && h.life.isActive;
    Tables.SortedSelection(records, mine, NewestRecordFirst);
    Tables.SortBy(Tables.Filter(records, mine), NewestRecordFirst)
  }

  datatype VetRecordsPage = VetRecordsPage(vet: User, records: Helpers.Page<HealthRecord>)

  /** `get_vet_health_records`: access, lookup, then one page of the records;
      a zero page size divides by zero, which `auth_required` answers with 401. */
  function GetVetRecords(users: seq<User>, records: seq<HealthRecord>, actor: User, vetId: string,
                         page: int, perPage: int): (r: Reply<VetRecordsPage>)
    ensures AnimalsApi.AssignmentsAccess(actor, vetId).Some? ==> r == Fail(403, AccessDenied)
    ensures AnimalsApi.AssignmentsAccess(actor, vetId).None? && ActiveRoleIndex(users, vetId, Veterinarian) == |users| ==>
      r == Fail(404, VetNotFound)
    ensures (AnimalsApi.AssignmentsAccess(actor, vetId).None? && ActiveRoleIndex(users, vetId, Veterinarian) < |users|
             && perPage == 0) ==> r == FailWith(401, AuthenticationFailed, [ZeroDivisionText])
    ensures r.status == 200 <==>
      AnimalsApi.AssignmentsAccess(actor, vetId).None? && ActiveRoleIndex(users, vetId, Veterinarian) < |users| && perPage != 0
    ensures r.status == 200 ==>
      && r.body.Some? && r.message == "Veterinarian health records retrieved successfully"
      && r.body.value.vet in users && r.body.value.vet.id == vetId
      && Some(r.body.value.records) == Helpers.Paginate(RecordRows(records, vetId), page, perPage, 100)
      && r.body.value.records.total == |RecordRows(records, vetId)|
      && forall h :: h in r.body.value.records.items ==> h in records && h.recordedBy == vetId && h.life.isActive
  {
    var k := ActiveRoleIndex(users, vetId, Veterinarian);
    if AnimalsApi.AssignmentsAccess(actor, vetId).Some? then Fail(403, AccessDenied)
    else if k == |users| then Fail(404, VetNotFound)
    else
      var paged := Paged(RecordRows(records, vetId), page, perPage, "Veterinarian health records retrieved successfully");
      if paged.status != 200 then FailWith(401, AuthenticationFailed, [ZeroDivisionText])
      else Done(200, paged.message, VetRecordsPage(users[k], paged.body.value))
  }

  // ---------------------------------------------------------------- checkups

  /** A row of the checkup joins: the record's animal is an active animal
      assigned to the veterinarian, and the record names a next checkup. The
      record's own `is_active` is not consulted. */
  predicate ForAssigned(animals: seq<Animal>, vetId: string, h: HealthRecord)
  {
    var k := AnimalIndex(animals, h.animalId);
    k < |animals| && animals[k].vetId == Some(vetId) && animals[k].life.isActive && h.nextCheckup.Some?
  }

  /** `order_by(HealthRecord.next_checkup_date.asc())`. */
  function SoonestCheckupFirst(h: HealthRecord): int
  {
    if h.nextCheckup.Some? then h.nextCheckup.value else 0
  }

  /** A checkup of an assigned animal due within `[start, end]`. */
  predicate DueIn(animals: seq<Animal>, vetId: string, start: int, end: int, h: HealthRecord)
  {
    ForAssigned(animals, vetId, h) && start <= h.nextCheckup.value <= end
  }

  /** The records of the checkups due within `[start, end]`, soonest first. */
  function DueBetween(animals: seq<Animal>, records: seq<HealthRecord>, vetId: string, start: int, end: int)
    : (r: seq<HealthRecord>)
    ensures forall h :: h in r ==> h in records && DueIn(animals, vetId, start, end, h)
    ensures forall h :: h in records && DueIn(animals, vetId, start, end, h) ==> h in r
    ensures Tables.SortedBy(r, SoonestCheckupFirst)
  {
    var due := (h: HealthRecord) => DueIn(animals, vetId, start, end, h);
    Tables.SortedSelection(records, due, SoonestCheckupFirst);
    Tables.SortBy(Tables.Filter(records, due), SoonestCheckupFirst)
  }

  /** The dashboard's upcoming checkups: those due today or later, soonest
      first, at most ten. */
  function Upcoming(animals: seq<Animal>, records: seq<HealthRecord>, vetId: string, today: int): (r: seq<HealthRecord>)
    ensures |r| <= 10
    ensures forall h :: h in r ==> h in records && ForAssigned(animals, vetId, h) && h.nextCheckup.value >= today
    ensures Tables.SortedBy(r, SoonestCheckupFirst)
  {
    var due := (h: HealthRecord) => ForAssigned(animals, vetId, h) && h.nextCheckup.value >= today;
    Tables.SortedSelection(records, due, SoonestCheckupFirst);
    var sorted := Tables.SortBy(Tables.Filter(records, due), SoonestCheckupFirst);
    var r := Tables.Take(sorted, 10);
    Tables.TakeSorted(sorted, SoonestCheckupFirst, 10);
    assert forall h :: h in r ==> h in sorted;
    r
  }

  /** No checkup is left off the dashboard for a later one: a due checkup
      that is not shown means ten are shown, none of them later than it. */
  lemma UpcomingAreSoonest(animals: seq<Animal>, records: seq<HealthRecord>, vetId: string, today: int, h: HealthRecord)
    requires h in records && ForAssigned(animals, vetId, h) && h.nextCheckup.value >= today
    requires h !in Upcoming(animals, records, vetId, today)
    ensures |Upcoming(animals, records, vetId, today)| == 10
    ensures forall x :: x in Upcoming(animals, records, vetId, today) ==> x.nextCheckup.value <= h.nextCheckup.value
  {
    var due := Tables.Filter(records, (x: HealthRecord) => ForAssigned(animals, vetId, x) && x.nextCheckup.value >= today);
    var sorted := Tables.SortBy(due, SoonestCheckupFirst);
    assert h in multiset(due);
    assert h in multiset(sorted);
    Tables.TakeSortedKeepsSmallest(sorted, SoonestCheckupFirst, 10, h);
    assert forall x :: x in Upcoming(animals, records, vetId, today) ==> ForAssigned(animals, vetId, x);
  }

  /** The animal a checkup record joins to. */
  function AnimalOf(animals: seq<Animal>, vetId: string, h: HealthRecord): (a: Animal)
    requires ForAssigned(animals, vetId, h)
    ensures a in animals && a.id == h.animalId && a.vetId == Some(vetId) && a.life.isActive
  {
    animals[AnimalIndex(animals, h.animalId)]
  }

  // ---------------------------------------------------------------- GET /veterinarians/<id>/dashboard

  datatype Checkup = Checkup(animal: Animal, record: HealthRecord)

  datatype VetDashboard = VetDashboard(vet: User, summary: S.VetAssignments, recentRecords: seq<HealthRecord>,
                                       upcoming: seq<Checkup>, totalAssigned: nat, needingAttention: nat)

  /** Each upcoming record with the animal it joins to. */
  function Checkups(animals: seq<Animal>, vetId: string, hs: seq<HealthRecord>): (r: seq<Checkup>)
    requires forall h :: h in hs ==> ForAssigned(animals, vetId, h)
    ensures |r| == |hs|
    ensures forall i :: 0 <= i < |hs| ==> r[i].record == hs[i] && r[i].animal.id == hs[i].animalId && r[i].animal in animals
  {
    seq(|hs|, i requires 0 <= i < |hs| => Checkup(AnimalOf(animals, vetId, hs[i]), hs[i]))
  }

  /** What the dashboard of a veterinarian holds. */
  ghost predicate DashboardOf(d: VetDashboard, animals: seq<Animal>, records: seq<HealthRecord>, vetId: string, today: int)
  {
    && d.summary.animals == S.VetAnimals(animals, vetId)
    && d.summary.total == |d.summary.animals|
    && S.Grouped(d.summary.byStatus, d.summary.animals)
    && d.summary.attention == Tables.Tally(d.summary.animals, NeedsAttention, true)
    && d.recentRecords == Tables.Take(RecordRows(records, vetId), 10)
    && d.upcoming == Checkups(animals, vetId, Upcoming(animals, records, vetId, today))
    && d.totalAssigned == d.summary.total && d.needingAttention == d.summary.attention
  }

  /** The dashboard of a found veterinarian: the assignment summary, the ten
      newest records and the ten soonest checkups from `today` on. This is the
      value the route builds; it can be sent only once the summary's animals
      are converted to dictionaries, as the assigned-animals route does
      (app/api/animals.py:338-344). */
  method BuildVetDashboard(db: Store, vetId: string, today: int) returns (d: VetDashboard)
    requires ActiveRoleIndex(db.users, vetId, Veterinarian) < |db.users|
    ensures d.vet == db.users[ActiveRoleIndex(db.users, vetId, Veterinarian)]
    ensures DashboardOf(d, db.animals, db.records, vetId, today)
  {
    var res := S.GetVetAssignedAnimals(db, vetId);
    var summary := res.value;
    var recent := Tables.Take(RecordRows(db.records, vetId), 10);
    var upcoming := Checkups(db.animals, vetId, Upcoming(db.animals, db.records, vetId, today));
    d := VetDashboard(db.users[ActiveRoleIndex(db.users, vetId, Veterinarian)], summary, recent, upcoming,
                      summary.total, summary.attention);
  }

  /** What `jsonify` raises on the `Animal` rows left in the summary. */
  const AnimalNotSerializable: string := "Object of type Animal is not JSON serializable"

  /** `get_vet_dashboard`: access, lookup, then the dashboard. The summary is
      put in the reply with its `Animal` rows unconverted, so serialising the
      reply raises whenever an animal is assigned, and `auth_required` answers
      that with 401; only a veterinarian with no assigned animal gets 200. */
  method GetVetDashboard(db: Store, actor: User, vetId: string, today: int) returns (r: Reply<VetDashboard>)
    ensures AnimalsApi.AssignmentsAccess(actor, vetId).Some? ==> r == Fail(403, AccessDenied)
    ensures AnimalsApi.AssignmentsAccess(actor, vetId).None? && ActiveRoleIndex(db.users, vetId, Veterinarian) == |db.users| ==>
      r == Fail(404, VetNotFound)
    ensures (&& AnimalsApi.AssignmentsAccess(actor, vetId).None?
             && ActiveRoleIndex(db.users, vetId, Veterinarian) < |db.users|
             && S.VetAnimals(db.animals, vetId) != [])
            ==> r == FailWith(401, AuthenticationFailed, [AnimalNotSerializable])
    ensures r.status == 200 <==>
      && AnimalsApi.AssignmentsAccess(actor, vetId).None?
      && ActiveRoleIndex(db.users, vetId, Veterinarian) < |db.users|
      && S.VetAnimals(db.animals, vetId) == []
    ensures r.status == 200 ==>
      && r.body.Some? && r.message == "Veterinarian dashboard data retrieved successfully"
      && r.body.value.vet == db.users[ActiveRoleIndex(db.users, vetId, Veterinarian)]
      && DashboardOf(r.body.value, db.animals, db.records, vetId, today)
  {
    var refusal := AnimalsApi.AssignmentsAccess(actor, vetId);
    if refusal.Some? {
      return Fail(403, refusal.value);
    }
    var k := ActiveRoleIndex(db.users, vetId, Veterinarian);
    if k == |db.users| {
      return Fail(404, VetNotFound);
    }
    var d := BuildVetDashboard(db, vetId, today);
    if d.summary.animals != [] {
      return FailWith(401, AuthenticationFailed, [AnimalNotSerializable]);
    }
    r := Done(200, "Veterinarian dashboard data retrieved successfully", d);
  }

  /** The dashboard's figures agree with its lists: the assigned total counts
      the assigned animals, the attention figure never exceeds it, and every
      upcoming checkup is for one of the assigned animals. */
  lemma DashboardFigures(d: VetDashboard, animals: seq<Animal>, records: seq<HealthRecord>, vetId: string, today: int)
    requires DashboardOf(d, animals, records, vetId, today)
    ensures d.totalAssigned == AssignedCount(animals, vetId)
    ensures d.needingAttention <= d.totalAssigned
    ensures forall c :: c in d.upcoming ==> c.animal in d.summary.animals && c.record.nextCheckup.value >= today
    ensures |d.recentRecords| <= 10
    ensures forall h :: h in d.recentRecords ==> h in records && h.recordedBy == vetId && h.life.isActive
  {
    FiguresMatchAssignments(animals, vetId);
    UpcomingAreAssigned(animals, records, vetId, today);
    var rows := RecordRows(records, vetId);
    assert forall h :: h in d.recentRecords ==> h in rows;
  }

  /** Every upcoming checkup joins to one of the veterinarian's assigned animals. */
  lemma UpcomingAreAssigned(animals: seq<Animal>, records: seq<HealthRecord>, vetId: string, today: int)
    ensures var ups := Checkups(animals, vetId, Upcoming(animals, records, vetId, today));
      forall c :: c in ups ==> c.animal in S.VetAnimals(animals, vetId) && c.record.nextCheckup.value >= today
  {
    var ups := Upcoming(animals, records, vetId, today);
    var cs := Checkups(animals, vetId, ups);
    forall c | c in cs
      ensures c.animal in S.VetAnimals(animals, vetId) && c.record.nextCheckup.value >= today
    {
      var i :| 0 <= i < |cs| && cs[i] == c;
      assert ups[i] in ups;
      var a := AnimalOf(animals, vetId, ups[i]);
      var j :| 0 <= j < |animals| && animals[j] == a;
      assert a in multiset(S.AssignedTo(animals, vetId));
    }
  }

  // ---------------------------------------------------------------- GET /veterinarians/<id>/schedule

  const InvalidDateFormat: string := "Invalid date format. Use YYYY-MM-DD"

  /** The farmer fields a schedule entry carries. */
  datatype Contact = Contact(name: string, phone: string, email: string)

  datatype Appointment = Appointment(date: int, animal: Animal, lastCheckup: int, notes: Value, farmer: Contact)

  datatype Schedule = Schedule(vet: User, appointments: seq<Appointment>, start: int, end: int, total: nat)

  /** A record column, NULL when the record has none. */
  function Column(h: HealthRecord, column: string): Value
  {
    if column in h.attrs then h.attrs[column] else Null
  }

  /** `record.recommendations or record.notes`. */
  function NotesOf(h: HealthRecord): (v: Value)
    ensures !Falsy(Column(h, "recommendations")) ==> v == Column(h, "recommendations")
    ensures Falsy(Column(h, "recommendations")) ==> v == Column(h, "notes")
  {
    var recommendations := Column(h, "recommendations");
    if Falsy(recommendations) then Column(h, "notes") else recommendations
  }

  /** The schedule entry of a due checkup; `animal.farmer` is the user row with
      the animal's farmer id, and a missing one fails the request. */
  function AppointmentFor(users: seq<User>, animals: seq<Animal>, vetId: string, h: HealthRecord): (e: Option<Appointment>)
    requires ForAssigned(animals, vetId, h)
    ensures e.None? <==> UserIndex(users, AnimalOf(animals, vetId, h).farmerId) == |users|
    ensures e.Some? ==>
      && e.value.date == h.nextCheckup.value && e.value.animal == AnimalOf(animals, vetId, h)
      && e.value.lastCheckup == h.checkupDate && e.value.notes == NotesOf(h)
      && var f := users[UserIndex(users, e.value.animal.farmerId)];
         e.value.farmer == Contact(f.name, f.phone, f.email) && f.id == e.value.animal.farmerId
  {
    var a := AnimalOf(animals, vetId, h);
    var k := UserIndex(users, a.farmerId);
    if k == |users| then None
    else Some(Appointment(h.nextCheckup.value, a, h.checkupDate, NotesOf(h),
                          Contact(users[k].name, users[k].phone, users[k].email)))
  }

  /** The loop of `get_vet_schedule` over the due checkups; None when a
      farmer row is missing. */
  method Appointments(users: seq<User>, animals: seq<Animal>, vetId: string, due: seq<HealthRecord>)
    returns (r: Option<seq<Appointment>>)
    requires forall h :: h in due ==> ForAssigned(animals, vetId, h)
    ensures r.Some? <==> forall i :: 0 <= i < |due| ==> AppointmentFor(users, animals, vetId, due[i]).Some?
    ensures r.Some? ==> |r.value| == |due|
    ensures r.Some? ==> forall i :: 0 <= i < |due| ==> Some(r.value[i]) == AppointmentFor(users, animals, vetId, due[i])
  {
    var entries: seq<Appointment> := [];
    for i := 0 to |due|
      invariant |entries| == i
      invariant forall j :: 0 <= j < i ==> Some(entries[j]) == AppointmentFor(users, animals, vetId, due[j])
    {
      var e := AppointmentFor(users, animals, vetId, due[i]);
      if e.None? {
        return None;
      }
      entries := entries + [e.value];
    }
    r := Some(entries);
  }

  /** A date argument: today's date plus `offset` days when absent, otherwise
      what `strptime(arg, '%Y-%m-%d')` makes of it. */
  function DateArg(arg: Option<string>, parseDate: string -> Option<int>, today: int, offset: int): (d: Option<int>)
    ensures arg.None? ==> d == Some(today + offset)
    ensures arg.Some? ==> d == parseDate(arg.value)
  {
    if arg.None? then Some(today + offset) else parseDate(arg.value)
  }

  /** `str(e)` of the AttributeError that `animal.farmer.name` raises when the
      animal's farmer row is missing. */
  const NoneHasNoName: string := "'NoneType' object has no attribute 'name'"

  /** `get_vet_schedule`: access, lookup, the date range (today to thirty days
      on by default), then every checkup due in it, soonest first. A due
      checkup whose animal has no farmer row raises, and `auth_required`
      answers with 401. */
  method GetVetSchedule(db: Store, actor: User, vetId: string, startArg: Option<string>, endArg: Option<string>,
                        parseDate: string -> Option<int>, today: int) returns (r: Reply<Schedule>)
    ensures AnimalsApi.AssignmentsAccess(actor, vetId).Some? ==> r == Fail(403, AccessDenied)
    ensures AnimalsApi.AssignmentsAccess(actor, vetId).None? && ActiveRoleIndex(db.users, vetId, Veterinarian) == |db.users| ==>
      r == Fail(404, VetNotFound)
    ensures (AnimalsApi.AssignmentsAccess(actor, vetId).None? && ActiveRoleIndex(db.users, vetId, Veterinarian) < |db.users|
             && (DateArg(startArg, parseDate, today, 0).None? || DateArg(endArg, parseDate, today, 30).None?)) ==>
      r == Fail(400, InvalidDateFormat)
    ensures var start := DateArg(startArg, parseDate, today, 0);
      var end := DateArg(endArg, parseDate, today, 30);
      (AnimalsApi.AssignmentsAccess(actor, vetId).None? && ActiveRoleIndex(db.users, vetId, Veterinarian) < |db.users|
       && start.Some? && end.Some?) ==>
      var due := DueBetween(db.animals, db.records, vetId, start.value, end.value);
      && (r.status == 200 <==> forall i :: 0 <= i < |due| ==> AppointmentFor(db.users, db.animals, vetId, due[i]).Some?)
      && (r.status != 200 ==> r == FailWith(401, AuthenticationFailed, [NoneHasNoName]))
    ensures r.status == 200 ==>
      && AnimalsApi.AssignmentsAccess(actor, vetId).None?
      && ActiveRoleIndex(db.users, vetId, Veterinarian) < |db.users|
      && DateArg(startArg, parseDate, today, 0).Some? && DateArg(endArg, parseDate, today, 30).Some?
      && r.body.Some? && r.message == "Veterinarian schedule retrieved successfully"
      && var s := r.body.value;
      && var due := DueBetween(db.animals, db.records, vetId, s.start, s.end);
      && s.vet == db.users[ActiveRoleIndex(db.users, vetId, Veterinarian)]
      && s.start == DateArg(startArg, parseDate, today, 0).value && s.end == DateArg(endArg, parseDate, today, 30).value
      && |s.appointments| == |due| == s.total
      && ScheduleOf(s, db.users, db.animals, db.records, vetId)
  {
    var refusal := AnimalsApi.AssignmentsAccess(actor, vetId);
    if refusal.Some? {
      return Fail(403, refusal.value);
    }
    var k := ActiveRoleIndex(db.users, vetId, Veterinarian);
    if k == |db.users| {
      return Fail(404, VetNotFound);
    }
    var start := DateArg(startArg, parseDate, today, 0);
    var end := DateArg(endArg, parseDate, today, 30);
    if start.None? || end.None? {
      return Fail(400, InvalidDateFormat);
    }
    var due := DueBetween(db.animals, db.records, vetId, start.value, end.value);
    var entries := Appointments(db.users, db.animals, vetId, due);
    if entries.None? {
      return FailWith(401, AuthenticationFailed, [NoneHasNoName]);
    }
    var s := Schedule(db.users[k], entries.value, start.value, end.value, |entries.value|);
    r := Done(200, "Veterinarian schedule retrieved successfully", s);
  }

  /** What a schedule of `due` checkups holds. */
  ghost predicate ScheduleOf(s: Schedule, users: seq<User>, animals: seq<Animal>, records: seq<HealthRecord>, vetId: string)
  {
    var due := DueBetween(animals, records, vetId, s.start, s.end);
    && |s.appointments| == |due|
    && forall i :: 0 <= i < |due| ==> Some(s.appointments[i]) == AppointmentFor(users, animals, vetId, due[i])
  }

  /** Every appointment of a schedule lies within its range, and they come in
      date order. */
  lemma ScheduleIsOrdered(users: seq<User>, animals: seq<Animal>, records: seq<HealthRecord>, vetId: string, s: Schedule)
    requires ScheduleOf(s, users, animals, records, vetId)
    ensures forall i :: 0 <= i < |s.appointments| ==> s.start <= s.appointments[i].date <= s.end
    ensures forall i, j :: 0 <= i < j < |s.appointments| ==> s.appointments[i].date <= s.appointments[j].date
  {
    var due := DueBetween(animals, records, vetId, s.start, s.end);
    forall i | 0 <= i < |due|
      ensures s.appointments[i].date == SoonestCheckupFirst(due[i]) && s.start <= s.appointments[i].date <= s.end
    {
      assert due[i] in due;
    }
  }

  /** Every checkup due in the range for an assigned animal has its appointment. */
  lemma ScheduleIsComplete(users: seq<User>, animals: seq<Animal>, records: seq<HealthRecord>, vetId: string,
                           s: Schedule, h: HealthRecord)
    requires ScheduleOf(s, users, animals, records, vetId)
    requires h in records && ForAssigned(animals, vetId, h) && s.start <= h.nextCheckup.value <= s.end
    ensures exists i :: 0 <= i < |s.appointments| && s.appointments[i].date == h.nextCheckup.value
                        && s.appointments[i].animal.id == h.animalId && s.appointments[i].lastCheckup == h.checkupDate
  {
    var due := DueBetween(animals, records, vetId, s.start, s.end);
    var i :| 0 <= i < |due| && due[i] == h;
    assert Some(s.appointments[i]) == AppointmentFor(users, animals, vetId, h);
  }
}
