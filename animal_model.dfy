/** Livestock: the closed enumerations, the animal row and the health-record row.
    Calendar dates are integers counting days. */
module AnimalModel {
  import opened Wrappers
  import opened Json
  import opened Text
  import opened BaseModel

  datatype Species = Cattle | Buffalo | Goat | Sheep | Poultry | Swine | OtherSpecies
  datatype Gender = Male | Female
  datatype Health = Healthy | Sick | UnderTreatment | Recovering | Quarantine | Deceased
  datatype Production = ProdActive | Dry | Pregnant | Lactating | Breeding | Retired

  const AllSpecies: seq<Species> := [Cattle, Buffalo, Goat, Sheep, Poultry, Swine, OtherSpecies]
  const AllGenders: seq<Gender> := [Male, Female]
  const AllHealth: seq<Health> := [Healthy, Sick, UnderTreatment, Recovering, Quarantine, Deceased]
  const AllProduction: seq<Production> := [ProdActive, Dry, Pregnant, Lactating, Breeding, Retired]

  function SpeciesValue(s: Species): string
  {
    match s
    case Cattle => "cattle"
    case Buffalo => "buffalo"
    case Goat => "goat"
    case Sheep => "sheep"
    case Poultry => "poultry"
    case Swine => "swine"
    case OtherSpecies => "other"
  }

  function GenderValue(g: Gender): string
  {
    match g
    case Male => "male"
    case Female => "female"
  }

  function HealthValue(h: Health): string
  {
    match h
    case Healthy => "healthy"
    case Sick => "sick"
    case UnderTreatment => "under_treatment"
    case Recovering => "recovering"
    case Quarantine => "quarantine"
    case Deceased => "deceased"
  }

  function ProductionValue(p: Production): string
  {
    match p
    case ProdActive => "active"
    case Dry => "dry"
    case Pregnant => "pregnant"
    case Lactating => "lactating"
    case Breeding => "breeding"
    case Retired => "retired"
  }

  /** `AnimalSpecies(s)`: the member whose value is exactly `s`. */
  function ParseSpecies(s: string): (r: Option<Species>)
    ensures r.Some? ==> SpeciesValue(r.value) == s
    ensures r.None? ==> forall x :: SpeciesValue(x) != s
  {
    if s == "cattle" then Some(Cattle)
    else if s == "buffalo" then Some(Buffalo)
    else if s == "goat" then Some(Goat)
    else if s == "sheep" then Some(Sheep)
    else if s == "poultry" then Some(Poultry)
    else if s == "swine" then Some(Swine)
    else if s == "other" then Some(OtherSpecies)
    else None
  }

  function ParseGender(s: string): (r: Option<Gender>)
    ensures r.Some? ==> GenderValue(r.value) == s
    ensures r.None? ==> forall x :: GenderValue(x) != s
  {
    if s == "male" then Some(Male)
    else if s == "female" then Some(Female)
    else None
  }

  function ParseHealth(s: string): (r: Option<Health>)
    ensures r.Some? ==> HealthValue(r.value) == s
    ensures r.None? ==> forall x :: HealthValue(x) != s
  {
    if s == "healthy" then Some(Healthy)
    else if s == "sick" then Some(Sick)
    else if s == "under_treatment" then Some(UnderTreatment)
    else if s == "recovering" then Some(Recovering)
    else if s == "quarantine" then Some(Quarantine)
    else if s == "deceased" then Some(Deceased)
    else None
  }

  function ParseProduction(s: string): (r: Option<Production>)
    ensures r.Some? ==> ProductionValue(r.value) == s
    ensures r.None? ==> forall x :: ProductionValue(x) != s
  {
    if s == "active" then Some(ProdActive)
    else if s == "dry" then Some(Dry)
    else if s == "pregnant" then Some(Pregnant)
    else if s == "lactating" then Some(Lactating)
    else if s == "breeding" then Some(Breeding)
    else if s == "retired" then Some(Retired)
    else None
  }

  /** Each enumeration is closed: its listing holds every member, and parsing
      a member's value gives that member back. */
  lemma SpeciesClosed(sp: Species)
    ensures sp in AllSpecies && ParseSpecies(SpeciesValue(sp)) == Some(sp)
  {
    match sp
    case Cattle => case Buffalo => case Goat => case Sheep =>
    case Poultry => case Swine => case OtherSpecies =>
  }

  lemma GenderClosed(g: Gender)
    ensures g in AllGenders && ParseGender(GenderValue(g)) == Some(g)
  {
  }

  lemma HealthClosed(h: Health)
    ensures h in AllHealth && ParseHealth(HealthValue(h)) == Some(h)
  {
    match h
    case Healthy => case Sick => case UnderTreatment =>
    case Recovering => case Quarantine => case Deceased =>
  }

  lemma ProductionClosed(p: Production)
    ensures p in AllProduction && ParseProduction(ProductionValue(p)) == Some(p)
  {
    match p
    case ProdActive => case Dry => case Pregnant =>
    case Lactating => case Breeding => case Retired =>
  }

  /** The Python text of a list of strings, as the "Must be one of" messages print it. */
  function PyStrList(xs: seq<string>): string
  {
    "[" + Join(seq(|xs|, i requires 0 <= i < |xs| => "'" + xs[i] + "'"), ", ") + "]"
  }

  function SpeciesValues(): seq<string> { seq(|AllSpecies|, i requires 0 <= i < |AllSpecies| => SpeciesValue(AllSpecies[i])) }
  function GenderValues(): seq<string> { seq(|AllGenders|, i requires 0 <= i < |AllGenders| => GenderValue(AllGenders[i])) }
  function HealthValues(): seq<string> { seq(|AllHealth|, i requires 0 <= i < |AllHealth| => HealthValue(AllHealth[i])) }
  function ProductionValues(): seq<string> { seq(|AllProduction|, i requires 0 <= i < |AllProduction| => ProductionValue(AllProduction[i])) }

  /** A row of `animals`. `attrs` holds the descriptive nullable columns (name,
      breed, measurements, colour, yields, vaccination, notes, ...) by column name;
      the remaining fields are the columns the services reason about. */
  datatype Animal = Animal(
    id: string,
    tagId: string,
    species: Species,
    gender: Gender,
    health: Health,
    production: Option<Production>,
    farmerId: string,
    vetId: Option<string>,
    lastCheckup: Option<int>,
    birthDate: Option<int>,
    purchaseDate: Option<int>,
    attrs: map<string, Value>,
    life: Lifecycle,
    createdAt: int)

  /** A row of `health_records`; `attrs` holds the measurements and free-text columns. */
  datatype HealthRecord = HealthRecord(
    id: string,
    animalId: string,
    recordedBy: string,
    checkupDate: int,
    nextCheckup: Option<int>,
    condition: Option<Health>,
    attrs: map<string, Value>,
    life: Lifecycle,
    createdAt: int)

  /** `order_by(HealthRecord.created_at.desc())`. */
  function NewestRecordFirst(h: HealthRecord): int
  {
    -h.createdAt
  }

  /** `needs_attention()`. */
  predicate NeedsAttention(a: Animal)
  {
    a.health in [Sick, UnderTreatment, Quarantine]
  }

  lemma NeedsAttentionExactly(a: Animal)
    ensures NeedsAttention(a) <==> a.health == Sick || a.health == UnderTreatment || a.health == Quarantine
    ensures a.health in {Healthy, Recovering, Deceased} ==> !NeedsAttention(a)
  {
  }

  /** `is_productive()`. */
  predicate IsProductive(a: Animal)
  {
    a.production.Some? && a.production.value in [ProdActive, Lactating, Breeding, Pregnant]
  }

  lemma IsProductiveExactly(a: Animal)
    ensures a.production.None? ==> !IsProductive(a)
    ensures a.production == Some(Dry) || a.production == Some(Retired) ==> !IsProductive(a)
    ensures a.production.Some? && a.production.value !in {Dry, Retired} ==> IsProductive(a)
  {
    if a.production.Some? {
      match a.production.value
      case ProdActive => case Dry => case Pregnant =>
      case Lactating => case Breeding => case Retired =>
    }
  }

  /** `calculate_days_since_checkup()` on day `today`. */
  function DaysSinceCheckup(a: Animal, today: int): (r: Option<int>)
    ensures r.None? <==> a.lastCheckup.None?
    ensures r.Some? ==> a.lastCheckup.value + r.value == today
  {
    match a.lastCheckup
    case None => None
    case Some(d) => Some(today - d)
  }
}
