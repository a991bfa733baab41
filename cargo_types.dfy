/**
 * The shared domain of the front end: cargo, customer and truck records,
 * the fixed catalog of truck types, the density classifier, the customer
 * tier weight and the additive priority score of a cargo item.
 *
 * Weights are tons, lengths metres, volumes cubic metres, all as exact reals.
 * Points in time are integer milliseconds since the epoch; "now" is a parameter.
 */
module CargoTypes {
  import opened Wrappers

  // ---------------------------------------------------------------------------
  // Records
  // ---------------------------------------------------------------------------

  /** A cargo item as the front end stores it. `cargoType` is the class name as a string. */
  datatype Cargo = Cargo(
    id: string,
    name: string,
    manufacturer: string,
    quantity: real,
    length: real,
    width: real,
    height: real,
    volume: real,
    weight: real,
    notes: string,
    date: string,
    cargoType: string,
    category: string,
    urgent: bool,
    truckId: Option<string>,
    customerId: Option<string>,
    hasTimeLimit: Option<bool>,
    timeLimitDate: Option<string>,
    isCarryOver: Option<bool>)

  /** The three customer tiers (the record field is called `type` in the program). */
  datatype CustomerType = Large | Medium | Small

  datatype Customer = Customer(
    id: string,
    name: string,
    kind: CustomerType,
    contactInfo: Option<string>,
    address: Option<string>,
    notes: Option<string>,
    createdAt: string)

  /** A truck type of the catalog; `maxVolume` is given alongside the three dimensions. */
  datatype TruckType = TruckType(
    name: string, length: real, width: real, height: real, maxVolume: real, maxWeight: real)

  datatype TruckStatus = Available | Loading | Dispatched | Maintenance

  /** A truck of the managed fleet. */
  datatype Truck = Truck(
    id: string,
    name: string,
    maxWeight: real,
    maxVolume: real,
    selfWeight: real,
    availableWeight: real,
    status: TruckStatus,
    notes: Option<string>,
    createdAt: string)

  /** One loaded truck as the server reports it: the type used and the cargo on board. */
  datatype TruckCargo = TruckCargo(
    truckId: string, truckType: TruckType, cargos: seq<Cargo>, loadingDate: string)

  // ---------------------------------------------------------------------------
  // The truck catalog
  // ---------------------------------------------------------------------------

  const LightTruck := TruckType("轻型货车", 2.7, 1.5, 1.4, 2.7 * 1.5 * 1.4, 1.5)
  const MediumTruck := TruckType("中型货车", 4.2, 2.0, 1.8, 4.2 * 2.0 * 1.8, 5.0)
  const HeavyTruck := TruckType("重型货车", 7.6, 2.3, 2.4, 7.6 * 2.3 * 2.4, 15.0)

  /** The catalog, lightest type first. */
  const TruckTypes: seq<TruckType> := [LightTruck, MediumTruck, HeavyTruck]

  /** Every catalog entry's volume is the product of its dimensions, and load limits strictly grow along the catalog. */
  lemma CatalogIsConsistent()
    ensures |TruckTypes| == 3
    ensures forall i :: 0 <= i < |TruckTypes| ==>
      TruckTypes[i].maxVolume == TruckTypes[i].length * TruckTypes[i].width * TruckTypes[i].height
    ensures forall i, j :: 0 <= i < j < |TruckTypes| ==> TruckTypes[i].maxWeight < TruckTypes[j].maxWeight
    ensures forall i :: 0 <= i < |TruckTypes| ==> TruckTypes[i].maxWeight <= TruckTypes[|TruckTypes| - 1].maxWeight
  {
  }

  // ---------------------------------------------------------------------------
  // Density classes
  // ---------------------------------------------------------------------------

  /** The five density classes, lightest first. */
  datatype CargoClass = ExtraLight | Light | HeavyFoam | Heavy | ExtraHeavy

  /** The name under which a class is stored in `Cargo.cargoType`. */
  function ClassName(c: CargoClass): (name: string)
    ensures name != ""
  {
    match c
    case ExtraLight => "特轻货"
    case Light => "轻货"
    case HeavyFoam => "重泡货"
    case Heavy => "重货"
    case ExtraHeavy => "特重货"
  }

  /** Different classes are stored under different names. */
  lemma ClassNameInjective(c: CargoClass, d: CargoClass)
    ensures ClassName(c) == ClassName(d) <==> c == d
  {
  }

  /** 0 for the lightest class up to 4 for the heaviest. */
  function Rank(c: CargoClass): (r: nat)
    ensures r <= 4
  {
    match c
    case ExtraLight => 0
    case Light => 1
    case HeavyFoam => 2
    case Heavy => 3
    case ExtraHeavy => 4
  }

  /** The inclusive upper density bound (kg per cubic metre) of each class; the heaviest class has none. */
  function UpperBound(c: CargoClass): Option<real> {
    match c
    case ExtraLight => Some(100.0)
    case Light => Some(200.0)
    case HeavyFoam => Some(250.0)
    case Heavy => Some(350.0)
    case ExtraHeavy => None
  }

  /** `density` lies within the inclusive upper bound of `c`. */
  predicate WithinBound(density: real, c: CargoClass) {
    UpperBound(c).None? || density <= UpperBound(c).value
  }

  /**
   * The class of a density: the lightest class whose inclusive upper bound the
   * density does not exceed.
   */
  function DensityClass(density: real): (c: CargoClass)
    ensures WithinBound(density, c)
    ensures forall d: CargoClass :: Rank(d) < Rank(c) ==> !WithinBound(density, d)
  {
    if density <= 100.0 then ExtraLight
    else if density <= 200.0 then Light
    else if density <= 250.0 then HeavyFoam
    else if density <= 350.0 then Heavy
    else ExtraHeavy
  }

  /** A denser item is never put in a lighter class. */
  lemma DensityClassMonotone(d1: real, d2: real)
    requires d1 <= d2
    ensures Rank(DensityClass(d1)) <= Rank(DensityClass(d2))
  {
  }

  /** The bounds are inclusive: a density of exactly 100 is extra light, just above it is light. */
  lemma DensityBoundaries()
    ensures DensityClass(100.0) == ExtraLight && DensityClass(100.01) == Light
    ensures DensityClass(200.0) == Light && DensityClass(250.0) == HeavyFoam
    ensures DensityClass(350.0) == Heavy && DensityClass(350.01) == ExtraHeavy
  {
  }

  /**
   * The class of an item of `weight` tons and `volume` cubic metres, by its
   * density in kg per cubic metre; a zero volume is classed as light.
   */
  function CalculateCargoType(weight: real, volume: real): (c: CargoClass)
    ensures volume == 0.0 ==> c == Light
    ensures volume != 0.0 ==> WithinBound(weight * 1000.0 / volume, c)
    ensures volume != 0.0 ==> forall d: CargoClass :: Rank(d) < Rank(c) ==> !WithinBound(weight * 1000.0 / volume, d)
  {
    if volume == 0.0 then Light else DensityClass(weight * 1000.0 / volume)
  }

  // ---------------------------------------------------------------------------
  // Customer tiers
  // ---------------------------------------------------------------------------

  /** The weight of a customer tier: 3 for large, 2 for medium, 1 for small. */
  function GetCustomerPriority(t: CustomerType): (p: nat)
    ensures 1 <= p <= 3
    ensures t == Small <==> p == 1
    ensures t == Large <==> p == 3
  {
    match t
    case Large => 3
    case Medium => 2
    case Small => 1
  }

  /** Larger customers weigh strictly more. */
  lemma CustomerPriorityOrdered()
    ensures GetCustomerPriority(Small) < GetCustomerPriority(Medium) < GetCustomerPriority(Large)
  {
  }

  // ---------------------------------------------------------------------------
  // Priority score
  // ---------------------------------------------------------------------------

  const MsPerDay: int := 1000 * 60 * 60 * 24

  /**
   * `Math.ceil(diffMs / day)`: the least whole number of days covering the
   * difference (the quotient of two integers below 2^53 by a day is never
   * rounded onto an integer it does not equal, so floating point does not change it).
   */
  function CeilDays(diffMs: int): (d: int)
    ensures (d - 1) * MsPerDay < diffMs <= d * MsPerDay
  {
    -((-diffMs) / MsPerDay)
  }

  /** `Math.floor(diffMs / day)`: the greatest whole number of days within the difference. */
  function FloorDays(diffMs: int): (d: int)
    ensures d * MsPerDay <= diffMs < (d + 1) * MsPerDay
  {
    diffMs / MsPerDay
  }

  /** The points for a deadline `days` away (overdue when `days <= 0`). */
  function DeadlineBand(days: int): (p: int)
    ensures 200 <= p <= 600
    ensures p == 600 <==> days <= 0
    ensures p == 200 <==> days > 7
  {
    if days <= 0 then 600
    else if days <= 1 then 500
    else if days <= 3 then 400
    else if days <= 7 then 300
    else 200
  }

  /** A nearer deadline never earns fewer points. */
  lemma DeadlineBandMonotone(d1: int, d2: int)
    requires d1 <= d2
    ensures DeadlineBand(d1) >= DeadlineBand(d2)
  {
  }

  /** The arrival-order bonus: the days since arrival, capped at 30. */
  function ArrivalBonus(days: int): (b: int)
    ensures b <= 30 && b <= days
    ensures b == days || b == 30
  {
    if days < 30 then days else 30
  }

  /** A JavaScript truthiness test on an optional flag: only a present `true` counts. */
  predicate IsSet(flag: Option<bool>) {
    flag == Some(true)
  }

  /** The deadline band applies only when the flag is set and a non-empty deadline date is present. */
  predicate HasDeadline(cargo: Cargo) {
    IsSet(cargo.hasTimeLimit) && cargo.timeLimitDate.Some? && cargo.timeLimitDate.value != ""
  }

  /** `customers.find(c => c.id === id)`: the first customer with that id; nothing when the id is absent. */
  function FindCustomer(customers: seq<Customer>, id: Option<string>): (r: Option<Customer>)
    ensures r.Some? <==> id.Some? && exists i :: 0 <= i < |customers| && customers[i].id == id.value
    ensures r.Some? ==> exists i :: 0 <= i < |customers| && customers[i] == r.value && r.value.id == id.value &&
                          forall j :: 0 <= j < i ==> customers[j].id != id.value
  {
    if id.None? || customers == [] then None
    else if customers[0].id == id.value then Some(customers[0])
    else
      var r := FindCustomer(customers[1..], id);
      assert forall i :: 1 <= i < |customers| ==> customers[i] == customers[1..][i - 1];
      r
  }

  /** 50 points per tier level of the cargo's customer, none if no stored customer has its id. */
  function TierPoints(cargo: Cargo, customers: seq<Customer>): (p: int)
    ensures 0 <= p <= 150 && p % 50 == 0
    ensures p == 0 <==> FindCustomer(customers, cargo.customerId).None?
  {
    match FindCustomer(customers, cargo.customerId)
    case Some(c) => GetCustomerPriority(c.kind) * 50
    case None => 0
  }

  /**
   * The score of a cargo item at time `nowMs`, where `deadlineMs` and
   * `arrivalMs` are its parsed `timeLimitDate` and `date`: the sum of the
   * urgent, carry-over, deadline, customer-tier and arrival contributions.
   */
  function PriorityScore(cargo: Cargo, customers: seq<Customer>, deadlineMs: int, arrivalMs: int, nowMs: int): int {
    (if cargo.urgent then 1000 else 0)
    + (if IsSet(cargo.isCarryOver) then 800 else 0)
    + (if HasDeadline(cargo) then DeadlineBand(CeilDays(deadlineMs - nowMs)) else 0)
    + TierPoints(cargo, customers)
    + ArrivalBonus(FloorDays(nowMs - arrivalMs))
  }

  /**
   * The score as the program accumulates it, one `+=` per rule.
   */
  method CalculateCargoPriority(cargo: Cargo, customers: seq<Customer>, deadlineMs: int, arrivalMs: int, nowMs: int)
    returns (score: int)
    ensures score == PriorityScore(cargo, customers, deadlineMs, arrivalMs, nowMs)
    ensures score <= 1000 + 800 + 600 + 150 + 30
  {
    score := 0;
    if cargo.urgent {
      score := score + 1000;
    }
    if IsSet(cargo.isCarryOver) {
      score := score + 800;
    }
    if HasDeadline(cargo) {
      var daysUntilDeadline := CeilDays(deadlineMs - nowMs);
      if daysUntilDeadline <= 0 {
        score := score + 600;
      } else if daysUntilDeadline <= 1 {
        score := score + 500;
      } else if daysUntilDeadline <= 3 {
        score := score + 400;
      } else if daysUntilDeadline <= 7 {
        score := score + 300;
      } else {
        score := score + 200;
      }
    }
    var customer := FindCustomer(customers, cargo.customerId);
    if customer.Some? {
      score := score + GetCustomerPriority(customer.value.kind) * 50;
    }
    var daysSinceArrival := FloorDays(nowMs - arrivalMs);
    score := score + (if daysSinceArrival < 30 then daysSinceArrival else 30);
  }

  /** The first customer with the id at position `i` is the one `find` returns. */
  lemma {:induction false} FindFirstCustomer(customers: seq<Customer>, i: nat)
    requires i < |customers|
    requires forall j :: 0 <= j < i ==> customers[j].id != customers[i].id
    ensures FindCustomer(customers, Some(customers[i].id)) == Some(customers[i])
  {
    if i > 0 {
      assert customers[1..][i - 1] == customers[i];
      FindFirstCustomer(customers[1..], i - 1);
    }
  }

  /**
   * Moving the cargo's customer to another tier changes the score by exactly 50
   * per tier level, whatever else holds: larger customers come first.
   */
  lemma TierStepAddsFifty(cargo: Cargo, customers: seq<Customer>, i: nat, kind: CustomerType,
                          deadlineMs: int, arrivalMs: int, nowMs: int)
    requires i < |customers| && cargo.customerId == Some(customers[i].id)
    requires forall j :: 0 <= j < i ==> customers[j].id != customers[i].id
    ensures PriorityScore(cargo, customers[i := customers[i].(kind := kind)], deadlineMs, arrivalMs, nowMs)
          - PriorityScore(cargo, customers, deadlineMs, arrivalMs, nowMs)
         == 50 * (GetCustomerPriority(kind) - GetCustomerPriority(customers[i].kind))
  {
    var moved := customers[i := customers[i].(kind := kind)];
    FindFirstCustomer(customers, i);
    FindFirstCustomer(moved, i);
  }

  /** Marking an item urgent raises its score by exactly 1000, whatever else holds. */
  lemma UrgentAddsThousand(cargo: Cargo, customers: seq<Customer>, deadlineMs: int, arrivalMs: int, nowMs: int)
    ensures PriorityScore(cargo.(urgent := true), customers, deadlineMs, arrivalMs, nowMs)
         == PriorityScore(cargo.(urgent := false), customers, deadlineMs, arrivalMs, nowMs) + 1000
  {
    assert FindCustomer(customers, cargo.(urgent := true).customerId) == FindCustomer(customers, cargo.(urgent := false).customerId);
  }

  /** Marking an item carried over raises its score by exactly 800. */
  lemma CarryOverAddsEightHundred(cargo: Cargo, customers: seq<Customer>, deadlineMs: int, arrivalMs: int, nowMs: int)
    ensures PriorityScore(cargo.(isCarryOver := Some(true)), customers, deadlineMs, arrivalMs, nowMs)
         == PriorityScore(cargo.(isCarryOver := None), customers, deadlineMs, arrivalMs, nowMs) + 800
  {
    assert FindCustomer(customers, cargo.(isCarryOver := Some(true)).customerId)
        == FindCustomer(customers, cargo.(isCarryOver := None).customerId);
  }

  /** With a deadline, a nearer deadline never lowers the score. */
  lemma NearerDeadlineNeverLowers(cargo: Cargo, customers: seq<Customer>, d1: int, d2: int, arrivalMs: int, nowMs: int)
    requires HasDeadline(cargo) && d1 <= d2
    ensures PriorityScore(cargo, customers, d1, arrivalMs, nowMs) >= PriorityScore(cargo, customers, d2, arrivalMs, nowMs)
  {
    CeilDaysMonotone(d1 - nowMs, d2 - nowMs);
    DeadlineBandMonotone(CeilDays(d1 - nowMs), CeilDays(d2 - nowMs));
  }

  /** The arrival contribution never exceeds 30 and no earlier arrival lowers it. */
  lemma EarlierArrivalNeverLowers(cargo: Cargo, customers: seq<Customer>, deadlineMs: int, a1: int, a2: int, nowMs: int)
    requires a1 <= a2
    ensures PriorityScore(cargo, customers, deadlineMs, a1, nowMs) >= PriorityScore(cargo, customers, deadlineMs, a2, nowMs)
    ensures PriorityScore(cargo, customers, deadlineMs, a1, nowMs) - PriorityScore(cargo, customers, deadlineMs, a2, nowMs) <= 30 - ArrivalBonus(FloorDays(nowMs - a2))
  {
    FloorDaysMonotone(nowMs - a2, nowMs - a1);
  }

  lemma CeilDaysMonotone(x: int, y: int)
    requires x <= y
    ensures CeilDays(x) <= CeilDays(y)
  {
  }

  lemma FloorDaysMonotone(x: int, y: int)
    requires x <= y
    ensures FloorDays(x) <= FloorDays(y)
  {
  }
}
