/** The farmer endpoints: the admins' directory of farmers, one farmer's
    profile and animals, and the farmer's dashboard. */
module FarmersApi {
  import opened Wrappers
  import opened Text
  import opened Json
  import opened UserModel
  import opened AnimalModel
  import opened Db
  import opened Http
  import Tables
  import Helpers
  import Policy
  import S = AnimalService
  import AnimalsApi

  const FarmerNotFound: string := "Farmer not found"

  // ---------------------------------------------------------------- the two figures

  predicate IsHealthy(a: Animal)
  {
    a.health == Healthy
  }

  /** `Animal.query.filter_by(farmer_id=..., is_active=True).count()`. */
  function AnimalCount(animals: seq<Animal>, farmerId: string): nat
  {
    |S.FarmerAnimals(animals, farmerId)|
  }

  /** The same query with `health_status='healthy'` added. */
  function HealthyCount(animals: seq<Animal>, farmerId: string): nat
  {
    Tables.Count(S.FarmerAnimals(animals, farmerId), IsHealthy)
  }

  /** A farmer's `to_dict()` with `animal_count` and `healthy_animals` added. */
  datatype FarmerFigures = FarmerFigures(farmer: User, animalCount: nat, healthyAnimals: nat)

  function Figures(animals: seq<Animal>, u: User): FarmerFigures
  {
    FarmerFigures(u, AnimalCount(animals, u.id), HealthyCount(animals, u.id))
  }

  /** The figures the profile and the directory show agree with the farmer's
      animal summary: the same total, the same healthy count, and never more
      healthy animals than animals. */
  lemma FiguresMatchSummary(animals: seq<Animal>, farmerId: string, s: S.Summary)
    requires S.Summarises(s, S.FarmerAnimals(animals, farmerId))
    ensures s.total == AnimalCount(animals, farmerId)
    ensures s.healthy == HealthyCount(animals, farmerId)
    ensures HealthyCount(animals, farmerId) <= AnimalCount(animals, farmerId)
  {
    Tables.TallyIsCount(S.FarmerAnimals(animals, farmerId), S.HealthOf, Healthy, IsHealthy);
  }

  // ---------------------------------------------------------------- GET /farmers

  /** The filter of `list_farmers`: an active farmer whose name, email or farm
      name contains the search term, when one is given. */
  predicate FarmerMatches(u: User, search: Option<string>)
  {
    && RoleOf(u) == Farmer && u.life.isActive
    && (AnimalsApi.Given(search) ==>
          || ContainsIgnoringCase(u.name, search.value)
          || ContainsIgnoringCase(u.email, search.value)
          || ProfileMatches(u.profile, "farm_name", search.value))
  }

  function FarmerSelection(users: seq<User>, search: Option<string>): (r: seq<User>)
    ensures forall i :: 0 <= i < |r| ==> r[i] in users && FarmerMatches(r[i], search)
    ensures forall i :: 0 <= i < |users| && FarmerMatches(users[i], search) ==> users[i] in r
  {
    Tables.Filter(users, (u: User) => FarmerMatches(u, search))
  }

  /** The rows `list_farmers` pages through: the selected farmers, newest first. */
  function FarmerRows(users: seq<User>, search: Option<string>): (r: seq<User>)
    ensures multiset(r) == multiset(FarmerSelection(users, search))
    ensures forall i, j :: 0 <= i < j < |r| ==> r[i].createdAt >= r[j].createdAt
  {
    Tables.SortBy(FarmerSelection(users, search), NewestUserFirst)
  }

  /** Sorting keeps only selected farmers. */
  lemma RowsAreSelected(users: seq<User>, search: Option<string>)
    ensures forall x :: x in FarmerRows(users, search) ==> x in users && FarmerMatches(x, search)
  {
    Tables.SortedSelection(users, (u: User) => FarmerMatches(u, search), NewestUserFirst);
  }

  /** The reply of `list_farmers`: each farmer of the page with its figures,
      and the page itself for the pagination fields. */
  datatype FarmerDirectory = FarmerDirectory(farmers: seq<FarmerFigures>, page: Helpers.Page<User>)

  /** The loop of `list_farmers`: each farmer of the page with their counts. */
  method WithFigures(animals: seq<Animal>, items: seq<User>) returns (farmers: seq<FarmerFigures>)
    ensures |farmers| == |items|
    ensures forall i :: 0 <= i < |items| ==> farmers[i] == Figures(animals, items[i])
  {
    farmers := [];
    for i := 0 to |items|
      invariant |farmers| == i
      invariant forall j :: 0 <= j < i ==> farmers[j] == Figures(animals, items[j])
    {
      var farmer := items[i];
      var total := AnimalCount(animals, farmer.id);
      var healthy := HealthyCount(animals, farmer.id);
      farmers := farmers + [FarmerFigures(farmer, total, healthy)];
    }
  }

  /** `list_farmers` (admin only): one page of the matching farmers, then, one
      farmer at a time, their two animal figures; a zero page size divides by
      zero, which `auth_required` answers with 401. */
  method ListFarmers(db: Store, search: Option<string>, page: int, perPage: int) returns (r: Reply<FarmerDirectory>)
    ensures r.status == 200 <==> perPage != 0
    ensures r.status != 200 ==> r == FailWith(401, AuthenticationFailed, [ZeroDivisionText])
    ensures r.status == 200 ==>
      && r.body.Some? && r.message == "Farmers retrieved successfully"
      && Some(r.body.value.page) == Helpers.Paginate(FarmerRows(db.users, search), page, perPage, 100)
      && r.body.value.page.total == |FarmerSelection(db.users, search)|
      && |r.body.value.farmers| == |r.body.value.page.items|
      && forall i :: 0 <= i < |r.body.value.farmers| ==>
           && r.body.value.farmers[i] == Figures(db.animals, r.body.value.page.items[i])
           && r.body.value.farmers[i].farmer in db.users && FarmerMatches(r.body.value.farmers[i].farmer, search)
  {
    var rows := FarmerRows(db.users, search);
    var paged := Paged(rows, page, perPage, "Farmers retrieved successfully");
    if paged.status != 200 {
      return FailWith(401, AuthenticationFailed, [ZeroDivisionText]);
    }
    var items := paged.body.value.items;
    var farmers := WithFigures(db.animals, items);
    RowsAreSelected(db.users, search);
    r := Done(200, "Farmers retrieved successfully", FarmerDirectory(farmers, paged.body.value));
  }

  // ---------------------------------------------------------------- GET /farmers/<id>

  /** The test `get_farmer` and `get_farmer_animals` share with the animal
      summary: a farmer only for themselves, admins and veterinarians for anyone. */
  lemma FarmerAccessIsPolicy(actor: User, farmerId: string)
    ensures AnimalsApi.SummaryAccess(actor, farmerId).None? <==> Policy.Decide(actor, Policy.ReadFarmer, Policy.Person(farmerId))
    ensures AnimalsApi.SummaryAccess(actor, farmerId).None? <==> Policy.Decide(actor, Policy.ListFarmerAnimals, Policy.Person(farmerId))
  {
  }

  /** `get_farmer`: access, lookup, then the profile with its figures. */
  function GetFarmer(users: seq<User>, animals: seq<Animal>, actor: User, farmerId: string): (r: Reply<FarmerFigures>)
    ensures AnimalsApi.SummaryAccess(actor, farmerId).Some? ==> r == Fail(403, AccessDenied)
    ensures AnimalsApi.SummaryAccess(actor, farmerId).None? && ActiveRoleIndex(users, farmerId, Farmer) == |users| ==>
      r == Fail(404, FarmerNotFound)
    ensures r.status == 200 <==>
      AnimalsApi.SummaryAccess(actor, farmerId).None? && ActiveRoleIndex(users, farmerId, Farmer) < |users|
    ensures r.status == 200 ==>
      && r.body.Some? && r.message == "Farmer retrieved successfully"
      && var f := r.body.value;
      && f.farmer in users && f.farmer.id == farmerId && RoleOf(f.farmer) == Farmer && f.farmer.life.isActive
      && f.animalCount == AnimalCount(animals, farmerId) && f.healthyAnimals == HealthyCount(animals, farmerId)
  {
    var k := ActiveRoleIndex(users, farmerId, Farmer);
    if AnimalsApi.SummaryAccess(actor, farmerId).Some? then Fail(403, AccessDenied)
    else if k == |users| then Fail(404, FarmerNotFound)
    else Done(200, "Farmer retrieved successfully", Figures(animals, users[k]))
  }

  // ---------------------------------------------------------------- GET /farmers/<id>/animals

  datatype FarmerAnimalsPage = FarmerAnimalsPage(farmer: User, animals: Helpers.Page<Animal>)

  /** Where `get_farmer_animals` starts: the farmer's active animals. */
  function FarmerScope(farmerId: string): (c: S.Criteria)
  {
    S.Criteria(Some(Str(farmerId)), None, None, None, None)
  }

  /** `get_farmer_animals`: access, lookup, the species and health filters over
      the farmer's active animals, newest first, one page; a zero page size
      divides by zero, which `auth_required` answers with 401. */
  function GetFarmerAnimals(users: seq<User>, animals: seq<Animal>, actor: User, farmerId: string,
                            species: Option<string>, health: Option<string>, page: int, perPage: int)
    : (r: Reply<FarmerAnimalsPage>)
    ensures AnimalsApi.SummaryAccess(actor, farmerId).Some? ==> r == Fail(403, AccessDenied)
    ensures AnimalsApi.SummaryAccess(actor, farmerId).None? && ActiveRoleIndex(users, farmerId, Farmer) == |users| ==>
      r == Fail(404, FarmerNotFound)
    ensures (AnimalsApi.SummaryAccess(actor, farmerId).None? && ActiveRoleIndex(users, farmerId, Farmer) < |users|
             && AnimalsApi.Given(species) && ParseSpecies(Lower(species.value)).None?) ==> r == Fail(400, "Invalid species")
    ensures (AnimalsApi.SummaryAccess(actor, farmerId).None? && ActiveRoleIndex(users, farmerId, Farmer) < |users|
             && (!AnimalsApi.Given(species) || ParseSpecies(Lower(species.value)).Some?)
             && AnimalsApi.Given(health) && ParseHealth(Lower(health.value)).None?) ==> r == Fail(400, "Invalid health status")
    ensures (AnimalsApi.SummaryAccess(actor, farmerId).None? && ActiveRoleIndex(users, farmerId, Farmer) < |users|
             && AnimalsApi.KnownFilters(species, health) && perPage == 0) ==>
      r == FailWith(401, AuthenticationFailed, [ZeroDivisionText])
    ensures r.status == 200 <==>
      && AnimalsApi.SummaryAccess(actor, farmerId).None? && ActiveRoleIndex(users, farmerId, Farmer) < |users|
      && AnimalsApi.KnownFilters(species, health) && perPage != 0
    ensures r.status == 200 ==>
      && r.body.Some? && r.message == "Farmer animals retrieved successfully"
      && r.body.value.farmer in users && r.body.value.farmer.id == farmerId && RoleOf(r.body.value.farmer) == Farmer
      && Some(r.body.value.animals) == Helpers.Paginate(
           AnimalsApi.Listing(animals, AnimalsApi.ListFilters(FarmerScope(farmerId), species, health, None).value),
           page, perPage, 100)
      && forall x :: x in r.body.value.animals.items ==>
           && x in animals && x.farmerId == farmerId && x.life.isActive
           && (AnimalsApi.Given(species) ==> SpeciesValue(x.species) == Lower(species.value))
           && (AnimalsApi.Given(health) ==> HealthValue(x.health) == Lower(health.value))
  {
    var k := ActiveRoleIndex(users, farmerId, Farmer);
    if AnimalsApi.SummaryAccess(actor, farmerId).Some? then Fail(403, AccessDenied)
    else if k == |users| then Fail(404, FarmerNotFound)
    else
      var f := AnimalsApi.ListFilters(FarmerScope(farmerId), species, health, None);
      if !f.Ok? then Fail(400, f.msg)
      else
        var listed := AnimalsApi.ListedPage(animals, f.value, page, perPage, "Farmer animals retrieved successfully");
        if listed.status != 200 then FailWith(401, AuthenticationFailed, [ZeroDivisionText])
        else Done(200, listed.message, FarmerAnimalsPage(users[k], listed.body.value))
  }

  // ---------------------------------------------------------------- GET /farmers/<id>/dashboard

  /** The test of `get_farmer_dashboard`: the farmer themselves or an admin;
      veterinarians are refused. */
  function DashboardAccess(actor: User, farmerId: string): (refusal: Option<string>)
  {
    match RoleOf(actor)
    case Farmer => if actor.id != farmerId then Some(AccessDenied) else None
    case Admin => None
    case Veterinarian => Some(AccessDenied)
  }

  lemma DashboardAccessIsPolicy(actor: User, farmerId: string)
    ensures DashboardAccess(actor, farmerId).None? <==> Policy.Decide(actor, Policy.ViewFarmerDashboard, Policy.Person(farmerId))
  {
  }

  /** A row of the dashboard's join: an active record whose animal is an
      active animal of the farmer. */
  predicate OfFarm(animals: seq<Animal>, farmerId: string, h: HealthRecord)
  {
    var k := AnimalIndex(animals, h.animalId);
    h.life.isActive && k < |animals| && animals[k].farmerId == farmerId && animals[k].life.isActive
  }

  /** The dashboard's recent records: the join, newest first, at most ten. */
  function RecentRecords(animals: seq<Animal>, records: seq<HealthRecord>, farmerId: string): (r: seq<HealthRecord>)
    ensures |r| <= 10
    ensures forall h :: h in r ==> h in records && OfFarm(animals, farmerId, h)
    ensures forall i, j :: 0 <= i < j < |r| ==> r[i].createdAt >= r[j].createdAt
  {
    var joined := Tables.Filter(records, (h: HealthRecord) => OfFarm(animals, farmerId, h));
    var sorted := Tables.SortBy(joined, NewestRecordFirst);
    var r := Tables.Take(sorted, 10);
    Tables.TakeSorted(sorted, NewestRecordFirst, 10);
    assert forall i :: 0 <= i < |r| ==> r[i] == sorted[i];
    r
  }

  /** No record of the farm is left off the dashboard for an older one: a
      farm record that is not shown means ten are shown, each no older than it. */
  lemma RecentRecordsAreNewest(animals: seq<Animal>, records: seq<HealthRecord>, farmerId: string, h: HealthRecord)
    requires h in records && OfFarm(animals, farmerId, h)
    requires h !in RecentRecords(animals, records, farmerId)
    ensures |RecentRecords(animals, records, farmerId)| == 10
    ensures forall x :: x in RecentRecords(animals, records, farmerId) ==> x.createdAt >= h.createdAt
  {
    var joined := Tables.Filter(records, (x: HealthRecord) => OfFarm(animals, farmerId, x));
    var sorted := Tables.SortBy(joined, NewestRecordFirst);
    assert h in multiset(joined);
    assert h in multiset(sorted);
    Tables.TakeSortedKeepsSmallest(sorted, NewestRecordFirst, 10, h);
  }

  datatype Dashboard = Dashboard(farmer: User, summary: S.Summary, recentRecords: seq<HealthRecord>,
                                 needingAttention: seq<Animal>, totalAnimals: nat, healthyAnimals: nat,
                                 alertsCount: nat)

  /** What the dashboard of a farmer holds. */
  ghost predicate DashboardOf(d: Dashboard, animals: seq<Animal>, records: seq<HealthRecord>, farmerId: string)
  {
    && S.Summarises(d.summary, S.FarmerAnimals(animals, farmerId))
    && d.recentRecords == RecentRecords(animals, records, farmerId)
    && d.needingAttention == Tables.Where(S.FarmerAnimals(animals, farmerId), NeedsAttention, true)
    && d.totalAnimals == d.summary.total && d.healthyAnimals == d.summary.healthy
    && d.alertsCount == |d.needingAttention|
  }

  /** `get_farmer_dashboard`: access, lookup, the animal summary, the recent
      records and the animals needing attention. */
  method GetFarmerDashboard(db: Store, actor: User, farmerId: string) returns (r: Reply<Dashboard>)
    ensures DashboardAccess(actor, farmerId).Some? ==> r == Fail(403, AccessDenied)
    ensures DashboardAccess(actor, farmerId).None? && ActiveRoleIndex(db.users, farmerId, Farmer) == |db.users| ==>
      r == Fail(404, FarmerNotFound)
    ensures r.status == 200 <==>
      DashboardAccess(actor, farmerId).None? && ActiveRoleIndex(db.users, farmerId, Farmer) < |db.users|
    ensures r.status == 200 ==>
      && r.body.Some? && r.message == "Farmer dashboard data retrieved successfully"
      && r.body.value.farmer == db.users[ActiveRoleIndex(db.users, farmerId, Farmer)]
      && DashboardOf(r.body.value, db.animals, db.records, farmerId)
  {
    var refusal := DashboardAccess(actor, farmerId);
    if refusal.Some? {
      return Fail(403, refusal.value);
    }
    var k := ActiveRoleIndex(db.users, farmerId, Farmer);
    if k == |db.users| {
      return Fail(404, FarmerNotFound);
    }
    // The summary looks the farmer up the same way, so it finds them too and
    // its failure branch is never taken.
    var res := S.GetFarmerAnimalsSummary(db, farmerId);
    var summary := res.value;
    var recent := RecentRecords(db.animals, db.records, farmerId);
    var attention := Tables.Where(S.FarmerAnimals(db.animals, farmerId), NeedsAttention, true);
    var d := Dashboard(db.users[k], summary, recent, attention, summary.total, summary.healthy, |attention|);
    r := Done(200, "Farmer dashboard data retrieved successfully", d);
  }

  /** The dashboard's figures agree: the alert count is the summary's attention
      figure, healthy and alerting animals together never exceed the total,
      and the attention list holds exactly the farmer's active animals that
      need attention. */
  lemma DashboardFigures(d: Dashboard, animals: seq<Animal>, records: seq<HealthRecord>, farmerId: string)
    requires DashboardOf(d, animals, records, farmerId)
    ensures d.alertsCount == d.summary.attention
    ensures d.healthyAnimals + d.alertsCount <= d.totalAnimals
    ensures forall a :: a in d.needingAttention ==> a in animals && a.farmerId == farmerId && a.life.isActive && NeedsAttention(a)
    ensures forall i :: (0 <= i < |animals| && animals[i].farmerId == farmerId && animals[i].life.isActive
                         && NeedsAttention(animals[i])) ==> animals[i] in d.needingAttention
  {
    var xs := S.FarmerAnimals(animals, farmerId);
    S.AttentionIsNeedsAttention(xs);
    S.SummaryFiguresBounded(d.summary, xs);
    forall i | 0 <= i < |animals| && animals[i].farmerId == farmerId && animals[i].life.isActive && NeedsAttention(animals[i])
      ensures animals[i] in d.needingAttention
    {
      var j :| 0 <= j < |xs| && xs[j] == animals[i];
      Tables.WhereComplete(xs, NeedsAttention, j);
    }
  }
}
