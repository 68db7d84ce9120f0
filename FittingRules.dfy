/** The fitting calculators of the small-craft tables: cockpits and control
    cabins, passenger cabins, airlocks, freshers, galleys and the ship's
    locker. Masses are in tons, prices in credits. */
module FittingRules {
  import opened Util

  datatype CockpitKind = Cockpit | ControlCabin

  /** `COCKPIT_SPECS`: tons per crew position; only a control cabin carries
      passengers (half the crew, rounded down). */
  datatype CockpitSpec = CockpitSpec(name: string, tonsPerCrew: real, allowsPassengers: bool, passengerRatio: Option<real>)

  function CockpitSpecOf(kind: CockpitKind): CockpitSpec
  {
    match kind
    case Cockpit => CockpitSpec("Cockpit", 1.5, false, None)
    case ControlCabin => CockpitSpec("Control Cabin", 3.0, true, Some(0.5))
  }

  /** `calculateCockpitMass`: tons per crew position times the crew. */
  function CockpitMass(kind: CockpitKind, crew: int): (tons: real)
    ensures kind == Cockpit ==> tons == 1.5 * crew as real
    ensures kind == ControlCabin ==> tons == 3.0 * crew as real
  {
    CockpitSpecOf(kind).tonsPerCrew * crew as real
  }

  /** A control cabin weighs twice a cockpit for the same crew. */
  lemma ControlCabinDoubleCockpit(crew: int)
    ensures CockpitMass(ControlCabin, crew) == 2.0 * CockpitMass(Cockpit, crew)
  {
  }

  /** `calculateCockpitCost`: 0.1 MCr per started 20 tons of hull; the crew
      does not enter into it. */
  function CockpitCost(hullTonnage: real): real
  {
    (Ceil(hullTonnage / 20.0) * 100000) as real
  }

  /** The price counts the 20-ton units the hull needs: n units pay for
      every hull of more than 20(n-1) and at most 20n tons. */
  lemma CockpitCostUnits(hullTonnage: real, n: int)
    requires ((n - 1) * 20) as real < hullTonnage <= (n * 20) as real
    ensures CockpitCost(hullTonnage) == n as real * 100000.0
  {
    CeilUnique(hullTonnage / 20.0, n);
  }

  /** A larger hull never pays less for its cockpit. */
  lemma CockpitCostMonotone(t1: real, t2: real)
    requires t1 <= t2
    ensures CockpitCost(t1) <= CockpitCost(t2)
  {
    CeilMonotone(t1 / 20.0, t2 / 20.0);
  }

  /** `calculatePassengers`: half the crew, rounded down. */
  function Passengers(crew: int): (p: int)
    ensures 2 * p <= crew < 2 * p + 2
  {
    Floor(crew as real * 0.5)
  }

  /** `calculateCabinMass`: 1.5 tons per passenger. */
  function CabinMass(passengers: int): real
  {
    passengers as real * 1.5
  }

  /** `calculateCabinCost`: 50,000 credits per ton of cabin. */
  function CabinCost(passengers: int): (credits: real)
    ensures credits == passengers as real * 75000.0
  {
    CabinMass(passengers) * 50000.0
  }

  /** A cabin costs 75,000 credits per passenger, additively. */
  lemma CabinCostPerPassenger(p1: int, p2: int)
    ensures CabinCost(p1) == p1 as real * 75000.0
    ensures CabinCost(p1 + p2) == CabinCost(p1) + CabinCost(p2)
  {
  }

  const AirlockMassEach: real := 1.0
  const AirlockCostEach: real := 200000.0
  /** The table's maximum; no calculator enforces it. */
  const AirlockMaxQuantity: int := 6

  /** `calculateAirlockMass`. */
  function AirlockMass(quantity: int): real
  {
    quantity as real * AirlockMassEach
  }

  /** `calculateAirlockCost`. */
  function AirlockCost(quantity: int): real
  {
    quantity as real * AirlockCostEach
  }

  /** Airlocks are priced at 200,000 credits a ton: cost is a fixed multiple
      of mass. */
  lemma AirlockCostPerTon(quantity: int)
    ensures AirlockCost(quantity) == AirlockMass(quantity) * 200000.0
  {
  }

  const FresherMass: real := 1.0
  const FresherCost: real := 100000.0
  const GalleyMass: real := 0.5
  const GalleyCost: real := 100000.0

  const ShipsLockerCostPerTon: real := 200000.0
  const CargoBayCostPerTon: real := 0.0

  /** `calculateShipsLockerCost`. */
  function ShipsLockerCost(tons: real): real
  {
    tons * ShipsLockerCostPerTon
  }

  /** The locker price is additive in tons: 0.2 MCr per ton. */
  lemma ShipsLockerCostLinear(t1: real, t2: real)
    ensures ShipsLockerCost(t1 + t2) == ShipsLockerCost(t1) + ShipsLockerCost(t2)
    ensures ShipsLockerCost(t1) / 1000000.0 == t1 * 0.2
  {
  }
}
