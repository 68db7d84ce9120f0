/** The weapon rules of the small-craft tables: the ship-weapon table, which
    weapons a hull can mount, how many weapons it may carry, the gunners a
    weapon fit needs, and the energy weapons its power plants can feed. */
module WeaponRules {
  import opened Util
  import opened Text
  import opened DriveRules
  import opened HullRules
  import opened ShipTypes

  /** The keys of `SHIP_WEAPONS`, in declaration order. */
  datatype ShipWeaponKey =
    | PulseLaserSingle | PulseLaserDouble | PulseLaserTriple
    | BeamLaserSingle | BeamLaserDouble | BeamLaserTriple
    | ParticleBeamBarbette | Torpedo

  const ShipWeaponKeys: seq<ShipWeaponKey> := [
    PulseLaserSingle, PulseLaserDouble, PulseLaserTriple,
    BeamLaserSingle, BeamLaserDouble, BeamLaserTriple,
    ParticleBeamBarbette, Torpedo
  ]

  function KeyName(k: ShipWeaponKey): string
  {
    match k
    case PulseLaserSingle => "pulse_laser_single"
    case PulseLaserDouble => "pulse_laser_double"
    case PulseLaserTriple => "pulse_laser_triple"
    case BeamLaserSingle => "beam_laser_single"
    case BeamLaserDouble => "beam_laser_double"
    case BeamLaserTriple => "beam_laser_triple"
    case ParticleBeamBarbette => "particle_beam_barbette"
    case Torpedo => "torpedo"
  }

  /** `SHIP_WEAPONS[s]`: the key a weapon type string names, if any. */
  function LookupShipWeapon(s: string): (r: Option<ShipWeaponKey>)
    ensures r.Some? ==> KeyName(r.value) == s
    ensures r.None? ==> forall k :: KeyName(k) != s
  {
    if s == "pulse_laser_single" then Some(PulseLaserSingle)
    else if s == "pulse_laser_double" then Some(PulseLaserDouble)
    else if s == "pulse_laser_triple" then Some(PulseLaserTriple)
    else if s == "beam_laser_single" then Some(BeamLaserSingle)
    else if s == "beam_laser_double" then Some(BeamLaserDouble)
    else if s == "beam_laser_triple" then Some(BeamLaserTriple)
    else if s == "particle_beam_barbette" then Some(ParticleBeamBarbette)
    else if s == "torpedo" then Some(Torpedo)
    else None
  }

  /** Each key is found under its own name. */
  lemma LookupKeyName(k: ShipWeaponKey)
    ensures LookupShipWeapon(KeyName(k)) == Some(k)
  {
  }

  datatype ShipWeaponSpec = ShipWeaponSpec(
    name: string,
    mass: real,
    cost: real,
    slotsUsed: int,
    energyWeapons: int,
    minTonnage: Option<real>)

  /** One row of `SHIP_WEAPONS`. */
  function ShipWeaponSpecOf(k: ShipWeaponKey): ShipWeaponSpec
  {
    match k
    case PulseLaserSingle => ShipWeaponSpec("Single Pulse Laser Turret", 1.0, 1700000.0, 1, 1, None)
    case PulseLaserDouble => ShipWeaponSpec("Double Pulse Laser Turret", 1.0, 2500000.0, 1, 2, None)
    case PulseLaserTriple => ShipWeaponSpec("Triple Pulse Laser Turret", 1.0, 3500000.0, 1, 3, None)
    case BeamLaserSingle => ShipWeaponSpec("Single Beam Laser Turret", 1.0, 2200000.0, 1, 1, None)
    case BeamLaserDouble => ShipWeaponSpec("Double Beam Laser Turret", 1.0, 3500000.0, 1, 2, None)
    case BeamLaserTriple => ShipWeaponSpec("Triple Beam Laser Turret", 1.0, 5000000.0, 1, 3, None)
    case ParticleBeamBarbette => ShipWeaponSpec("Particle Beam Barbette", 10.0, 5500000.0, 2, 2, Some(40.0))
    case Torpedo => ShipWeaponSpec("Torpedo", 2.5, 2000000.0, 1, 0, None)
  }

  // ---------------------------------------------------------------------
  // Weapons a hull can mount

  /** The per-key test of `getAvailableShipWeapons`: no minimum, or the
      hull reaches it. */
  predicate Mountable(k: ShipWeaponKey, tonnage: real)
  {
    var spec := ShipWeaponSpecOf(k);
    spec.minTonnage.None? || tonnage >= spec.minTonnage.value
  }

  /** `getAvailableShipWeapons`: walks the table and fills a record with
      the entries the hull can mount. */
  method GetAvailableShipWeapons(tonnage: real) returns (available: map<ShipWeaponKey, ShipWeaponSpec>)
    ensures forall k :: k in available <==> Mountable(k, tonnage)
    ensures forall k :: k in available ==> available[k] == ShipWeaponSpecOf(k)
  {
    available := map[];
    for i := 0 to |ShipWeaponKeys|
      invariant forall k :: k in available <==> k in ShipWeaponKeys[..i] && Mountable(k, tonnage)
      invariant forall k :: k in available ==> available[k] == ShipWeaponSpecOf(k)
    {
      var key := ShipWeaponKeys[i];
      var spec := ShipWeaponSpecOf(key);
      if spec.minTonnage.None? || tonnage >= spec.minTonnage.value {
        available := available[key := spec];
      }
    }
    forall k
      ensures k in ShipWeaponKeys
    {
      assert k == PulseLaserSingle || k == PulseLaserDouble || k == PulseLaserTriple
        || k == BeamLaserSingle || k == BeamLaserDouble || k == BeamLaserTriple
        || k == ParticleBeamBarbette || k == Torpedo;
    }
    assert ShipWeaponKeys[..|ShipWeaponKeys|] == ShipWeaponKeys;
  }

  /** The only weapon a hull can be refused is the barbette, and only below
      40 tons. */
  lemma MountableUnlessSmallBarbette(k: ShipWeaponKey, tonnage: real)
    ensures !Mountable(k, tonnage) <==> k == ParticleBeamBarbette && tonnage < 40.0
  {
  }

  // ---------------------------------------------------------------------
  // Weapon limits

  datatype WeaponLimits = WeaponLimits(shipWeapons: int, antiPersonnelWeapons: int)

  /** `WEAPON_LIMITS`, for the brackets 10, 20, .., 100. */
  const WeaponLimitsTable: seq<WeaponLimits> := [
    WeaponLimits(1, 1), WeaponLimits(1, 2), WeaponLimits(1, 3), WeaponLimits(2, 4), WeaponLimits(2, 5),
    WeaponLimits(2, 6), WeaponLimits(3, 7), WeaponLimits(3, 8), WeaponLimits(4, 9), WeaponLimits(5, 10)
  ]

  /** `getWeaponLimits`: the row of the tonnage rounded up to tens, clamped
      into 10 .. 100. */
  function GetWeaponLimits(tonnage: real): WeaponLimits
  {
    var roundedTonnage := Ceil(tonnage / 10.0) * 10;
    var clampedTonnage := Max(10, Min(100, roundedTonnage));
    WeaponLimitsTable[clampedTonnage / 10 - 1]
  }

  /** The row read is the hull's class: the anti-personnel limit is the
      class itself, and the ship-weapon limit the table entry for it. */
  lemma WeaponLimitsByHullClass(tonnage: real)
    ensures GetWeaponLimits(tonnage) == WeaponLimitsTable[HullClass(tonnage) - 1]
    ensures GetWeaponLimits(tonnage).antiPersonnelWeapons == HullClass(tonnage)
  {
    HullClassIsClampedBracket(tonnage);
    var k := HullClass(tonnage);
    assert k == Max(1, Min(10, Ceil(tonnage / 10.0)));
    assert Max(10, Min(100, Ceil(tonnage / 10.0) * 10)) == k * 10;
    RowAntiPersonnel(k - 1);
  }

  lemma RowAntiPersonnel(i: nat)
    requires i < 10
    ensures WeaponLimitsTable[i].antiPersonnelWeapons == i + 1
  {
    if i == 0 {} else if i == 1 {} else if i == 2 {} else if i == 3 {} else if i == 4 {}
    else if i == 5 {} else if i == 6 {} else if i == 7 {} else if i == 8 {} else {}
  }

  lemma RowShipStep(i: nat)
    requires i < 9
    ensures 1 <= WeaponLimitsTable[i].shipWeapons <= WeaponLimitsTable[i + 1].shipWeapons <= 5
  {
    if i == 0 {} else if i == 1 {} else if i == 2 {} else if i == 3 {} else if i == 4 {}
    else if i == 5 {} else if i == 6 {} else if i == 7 {} else {}
  }

  lemma {:induction false} RowShipChain(i: nat, j: nat)
    requires i <= j < 10
    ensures 1 <= WeaponLimitsTable[i].shipWeapons <= WeaponLimitsTable[j].shipWeapons <= 5
  {
    if i < j {
      RowShipStep(j - 1);
      RowShipChain(i, j - 1);
    } else if i < 9 {
      RowShipStep(i);
    } else {
      RowShipStep(8);
    }
  }

  /** A heavier hull never allows fewer weapons of either kind, and every
      hull allows one to five ship weapons. */
  lemma WeaponLimitsMonotone(t1: real, t2: real)
    requires t1 <= t2
    ensures 1 <= GetWeaponLimits(t1).shipWeapons <= GetWeaponLimits(t2).shipWeapons <= 5
    ensures GetWeaponLimits(t1).antiPersonnelWeapons <= GetWeaponLimits(t2).antiPersonnelWeapons
  {
    WeaponLimitsByHullClass(t1);
    WeaponLimitsByHullClass(t2);
    HullClassMonotone(t1, t2);
    RowShipChain(HullClass(t1) - 1, HullClass(t2) - 1);
  }

  // ---------------------------------------------------------------------
  // Gunners

  predicate IsShip(w: Weapon) { w.category == Some(ShipWeapon) }
  predicate IsBarbette(w: Weapon) { w.weaponType == "particle_beam_barbette" }
  predicate IsTorpedo(w: Weapon) { w.weaponType == "torpedo" }
  predicate IsPulseLaser(w: Weapon) { StartsWith(w.weaponType, "pulse_laser_") }
  predicate IsBeamLaser(w: Weapon) { StartsWith(w.weaponType, "beam_laser_") }

  function Indicator(b: bool): nat { if b then 1 else 0 }

  /** The gunner rule, counted over the ship-category entries: none at all
      without ship weapons; otherwise one per barbette, one for any number
      of torpedoes, and one per laser family (pulse, beam) present. */
  function RequiredGunners(weapons: seq<Weapon>): nat
  {
    if Count(weapons, IsShip) == 0 then 0
    else
      Count(weapons, Both(IsShip, IsBarbette))
      + Indicator(Count(weapons, Both(IsShip, IsTorpedo)) > 0)
      + Indicator(Count(weapons, Both(IsShip, IsPulseLaser)) > 0)
      + Indicator(Count(weapons, Both(IsShip, IsBeamLaser)) > 0)
  }

  /** The laser families present among some weapons (`turretTypes`). */
  function TurretTypes(weapons: seq<Weapon>): set<string>
  {
    (if Count(weapons, IsPulseLaser) > 0 then {"pulse_laser"} else {})
    + (if Count(weapons, IsBeamLaser) > 0 then {"beam_laser"} else {})
  }

  /** `calculateRequiredGunners`. */
  method CalculateRequiredGunners(weapons: seq<Weapon>) returns (gunners: int)
    ensures gunners == RequiredGunners(weapons)
  {
    gunners := 0;
    var shipWeapons := Filter(weapons, IsShip);
    FilterLength(weapons, IsShip);
    if |shipWeapons| == 0 {
      return 0;
    }
    var barbetteCount := Count(shipWeapons, IsBarbette);
    gunners := gunners + barbetteCount;
    var hasTorpedoes := Count(shipWeapons, IsTorpedo) > 0;
    if hasTorpedoes {
      gunners := gunners + 1;
    }
    var turretTypes: set<string> := {};
    for i := 0 to |shipWeapons|
      invariant turretTypes == TurretTypes(shipWeapons[..i])
    {
      var weapon := shipWeapons[i];
      TurretTypesStep(shipWeapons[..i], weapon);
      assert shipWeapons[..i + 1] == shipWeapons[..i] + [weapon];
      if StartsWith(weapon.weaponType, "pulse_laser_") {
        turretTypes := turretTypes + {"pulse_laser"};
      } else if StartsWith(weapon.weaponType, "beam_laser_") {
        turretTypes := turretTypes + {"beam_laser"};
      }
    }
    assert shipWeapons[..|shipWeapons|] == shipWeapons;
    TurretTypesSize(shipWeapons);
    gunners := gunners + |turretTypes|;
    GunnersOverShipWeapons(weapons);
  }

  /** The gunner rule read off the ship-category entries alone. */
  lemma GunnersOverShipWeapons(weapons: seq<Weapon>)
    ensures var ships := Filter(weapons, IsShip);
      RequiredGunners(weapons)
      == if |ships| == 0 then 0
         else Count(ships, IsBarbette) + Indicator(Count(ships, IsTorpedo) > 0)
              + Indicator(Count(ships, IsPulseLaser) > 0) + Indicator(Count(ships, IsBeamLaser) > 0)
  {
    FilterLength(weapons, IsShip);
    CountFilter(weapons, IsShip, IsBarbette);
    CountFilter(weapons, IsShip, IsTorpedo);
    CountFilter(weapons, IsShip, IsPulseLaser);
    CountFilter(weapons, IsShip, IsBeamLaser);
  }

  /** One more weapon adds its laser family, if it has one, to the set. */
  lemma TurretTypesStep(prefix: seq<Weapon>, weapon: Weapon)
    ensures TurretTypes(prefix + [weapon])
         == TurretTypes(prefix)
            + (if IsPulseLaser(weapon) then {"pulse_laser"}
               else if IsBeamLaser(weapon) then {"beam_laser"} else {})
  {
    CountAppend(prefix, [weapon], IsPulseLaser);
    CountAppend(prefix, [weapon], IsBeamLaser);
    if IsPulseLaser(weapon) {
      PulseIsNotBeam(weapon);
    }
  }

  /** One turret type per laser family present. */
  lemma TurretTypesSize(weapons: seq<Weapon>)
    ensures |TurretTypes(weapons)|
         == Indicator(Count(weapons, IsPulseLaser) > 0) + Indicator(Count(weapons, IsBeamLaser) > 0)
  {
    assert "pulse_laser"[0] != "beam_laser"[0];
  }

  lemma PulseIsNotBeam(w: Weapon)
    requires IsPulseLaser(w)
    ensures !IsBeamLaser(w)
  {
    assert w.weaponType[0] == "pulse_laser_"[0];
  }

  /** A string that starts with a prefix has the prefix's characters. */
  lemma PrefixChar(s: string, prefix: string, k: nat, c: char)
    requires StartsWith(s, prefix) && k < |prefix| && prefix[k] == c
    ensures k < |s| && s[k] == c
  {
    assert s[..|prefix|][k] == s[k];
  }

  /** The four gunner families are pairwise exclusive. */
  lemma FamiliesExclusive(w: Weapon)
    ensures Indicator(IsBarbette(w)) + Indicator(IsTorpedo(w)) + Indicator(IsPulseLaser(w)) + Indicator(IsBeamLaser(w)) <= 1
  {
    var t := w.weaponType;
    var barbette: string := "particle_beam_barbette";
    var torpedo: string := "torpedo";
    assert barbette[0] == 'p' && barbette[1] == 'a' && torpedo[0] == 't';
    if IsPulseLaser(w) {
      PrefixChar(t, "pulse_laser_", 1, 'u');
      PrefixChar(t, "pulse_laser_", 0, 'p');
    }
    if IsBeamLaser(w) {
      PrefixChar(t, "beam_laser_", 0, 'b');
    }
  }

  lemma {:induction false} FamilyCountsBound(weapons: seq<Weapon>)
    ensures Count(weapons, Both(IsShip, IsBarbette)) + Count(weapons, Both(IsShip, IsTorpedo))
          + Count(weapons, Both(IsShip, IsPulseLaser)) + Count(weapons, Both(IsShip, IsBeamLaser))
         <= Count(weapons, IsShip)
  {
    if weapons != [] {
      FamilyCountsBound(weapons[1..]);
      FamiliesExclusive(weapons[0]);
    }
  }

  /** Never more gunners than ship-category weapon entries. */
  lemma GunnersAtMostShipWeapons(weapons: seq<Weapon>)
    ensures RequiredGunners(weapons) <= Count(weapons, IsShip)
  {
    FamilyCountsBound(weapons);
  }

  /** The order of the weapons does not matter. */
  lemma GunnersPermutation(a: seq<Weapon>, b: seq<Weapon>)
    requires multiset(a) == multiset(b)
    ensures RequiredGunners(a) == RequiredGunners(b)
  {
    CountPermutation(a, b, IsShip);
    CountPermutation(a, b, Both(IsShip, IsBarbette));
    CountPermutation(a, b, Both(IsShip, IsTorpedo));
    CountPermutation(a, b, Both(IsShip, IsPulseLaser));
    CountPermutation(a, b, Both(IsShip, IsBeamLaser));
  }

  /** Only the type and category of each entry matter: quantities, masses,
      names and ids do not. */
  lemma GunnersIgnoreQuantity(a: seq<Weapon>, b: seq<Weapon>)
    requires |a| == |b|
    requires forall i :: 0 <= i < |a| ==> a[i].weaponType == b[i].weaponType && a[i].category == b[i].category
    ensures RequiredGunners(a) == RequiredGunners(b)
  {
    CountCongruent(a, b, IsShip);
    CountCongruent(a, b, Both(IsShip, IsBarbette));
    CountCongruent(a, b, Both(IsShip, IsTorpedo));
    CountCongruent(a, b, Both(IsShip, IsPulseLaser));
    CountCongruent(a, b, Both(IsShip, IsBeamLaser));
  }

  /** Every ship barbette added needs exactly one more gunner. */
  lemma GunnersAddBarbette(weapons: seq<Weapon>, w: Weapon)
    requires IsShip(w) && IsBarbette(w)
    ensures RequiredGunners(weapons + [w]) == RequiredGunners(weapons) + 1
  {
    FamiliesExclusive(w);
    CountAppend(weapons, [w], IsShip);
    CountAppend(weapons, [w], Both(IsShip, IsBarbette));
    CountAppend(weapons, [w], Both(IsShip, IsTorpedo));
    CountAppend(weapons, [w], Both(IsShip, IsPulseLaser));
    CountAppend(weapons, [w], Both(IsShip, IsBeamLaser));
    if Count(weapons, IsShip) == 0 {
      FamilyCountsBound(weapons);
    }
  }

  /** A second turret of a laser family already present needs no gunner. */
  lemma GunnersSecondPulseLaser(weapons: seq<Weapon>, w: Weapon)
    requires IsShip(w) && IsPulseLaser(w)
    requires Count(weapons, Both(IsShip, IsPulseLaser)) > 0
    ensures RequiredGunners(weapons + [w]) == RequiredGunners(weapons)
  {
    FamiliesExclusive(w);
    FamilyCountsBound(weapons);
    CountAppend(weapons, [w], IsShip);
    CountAppend(weapons, [w], Both(IsShip, IsBarbette));
    CountAppend(weapons, [w], Both(IsShip, IsTorpedo));
    CountAppend(weapons, [w], Both(IsShip, IsPulseLaser));
    CountAppend(weapons, [w], Both(IsShip, IsBeamLaser));
  }

  /** Anti-personnel and uncategorised weapons never need a gunner. */
  lemma GunnersIgnoreNonShip(weapons: seq<Weapon>, w: Weapon)
    requires !IsShip(w)
    ensures RequiredGunners(weapons + [w]) == RequiredGunners(weapons)
  {
    CountAppend(weapons, [w], IsShip);
    CountAppend(weapons, [w], Both(IsShip, IsBarbette));
    CountAppend(weapons, [w], Both(IsShip, IsTorpedo));
    CountAppend(weapons, [w], Both(IsShip, IsPulseLaser));
    CountAppend(weapons, [w], Both(IsShip, IsBeamLaser));
  }

  // ---------------------------------------------------------------------
  // Energy weapons

  /** Capacity by position in `DRIVE_MODELS`: sA-sF none, sG-sK one, sL-sR
      two, sS-sZ three. */
  function CapacityByIndex(i: nat): (n: nat)
    ensures n <= 3
  {
    if i <= 5 then 0 else if i <= 10 then 1 else if i <= 17 then 2 else 3
  }

  /** `getEnergyWeaponCapacity`: 0 for a missing, empty or unknown model. */
  function EnergyWeaponCapacity(powerPlantModel: Option<string>): (n: nat)
    ensures powerPlantModel.None? ==> n == 0
    ensures powerPlantModel.Some? && ParseModel(powerPlantModel.value).None? ==> n == 0
    ensures powerPlantModel.Some? && ParseModel(powerPlantModel.value).Some?
            ==> n == CapacityByIndex(ModelIndex(ParseModel(powerPlantModel.value).value))
  {
    match powerPlantModel
    case None => 0
    case Some(s) =>
      if s == "" then 0
      else
        match ParseModel(s)
        case None => 0
        case Some(m) => CapacityByIndex(ModelIndex(m))
  }

  /** A later power-plant model never feeds fewer energy weapons. */
  lemma CapacityMonotone(m1: DriveModel, m2: DriveModel)
    requires ModelIndex(m1) <= ModelIndex(m2)
    ensures EnergyWeaponCapacity(Some(ModelName(m1))) <= EnergyWeaponCapacity(Some(ModelName(m2)))
  {
    ParseModelName(m1);
    ParseModelName(m2);
  }

  /** The drives a capacity total reads: power plants only. */
  predicate IsPowerPlant(d: Drive) { d.category == PowerPlant }

  function DriveCapacity(d: Drive): int
  {
    EnergyWeaponCapacity(Some(d.model))
  }

  function PowerPlantCapacity(d: Drive): int
  {
    if IsPowerPlant(d) then DriveCapacity(d) else 0
  }

  /** `calculateTotalEnergyWeaponCapacity`. */
  method CalculateTotalEnergyWeaponCapacity(drives: seq<Drive>) returns (totalCapacity: int)
    ensures totalCapacity == SumInt(drives, PowerPlantCapacity)
  {
    totalCapacity := 0;
    var powerPlants := Filter(drives, IsPowerPlant);
    for i := 0 to |powerPlants|
      invariant totalCapacity == SumInt(powerPlants[..i], DriveCapacity)
    {
      SumIntPrefixStep(powerPlants, i, DriveCapacity);
      var capacity := EnergyWeaponCapacity(Some(powerPlants[i].model));
      totalCapacity := totalCapacity + capacity;
    }
    assert powerPlants[..|powerPlants|] == powerPlants;
    SumIntFilter(drives, IsPowerPlant, DriveCapacity, PowerPlantCapacity);
  }

  /** Drives other than power plants add no capacity, and the order of the
      drives does not matter. */
  lemma TotalCapacityFacts(drives: seq<Drive>, other: seq<Drive>, d: Drive)
    ensures !IsPowerPlant(d) ==> SumInt(drives + [d], PowerPlantCapacity) == SumInt(drives, PowerPlantCapacity)
    ensures multiset(drives) == multiset(other) ==> SumInt(drives, PowerPlantCapacity) == SumInt(other, PowerPlantCapacity)
  {
    SumIntAppend(drives, [d], PowerPlantCapacity);
    if multiset(drives) == multiset(other) {
      SumIntPermutation(drives, other, PowerPlantCapacity);
    }
  }

  /** `isEnergyWeapon`. */
  predicate IsEnergyWeapon(weaponType: string)
  {
    StartsWith(weaponType, "pulse_laser_") || StartsWith(weaponType, "beam_laser_")
    || weaponType == "particle_beam_barbette"
  }

  /** On the table's own keys, the name test agrees with the table: a key is
      an energy weapon exactly when its entry counts energy weapons. */
  lemma IsEnergyWeaponMatchesTable(k: ShipWeaponKey)
    ensures IsEnergyWeapon(KeyName(k)) <==> ShipWeaponSpecOf(k).energyWeapons > 0
  {
    if k == Torpedo {
      assert KeyName(k)[0] == 't';
    }
  }

  /** What one entry adds to `calculateEnergyWeaponCount`. */
  function EnergyOf(w: Weapon): int
  {
    if !IsShip(w) then 0
    else
      match LookupShipWeapon(w.weaponType)
      case None => 0
      case Some(k) => if ShipWeaponSpecOf(k).energyWeapons > 0 then ShipWeaponSpecOf(k).energyWeapons else 0
  }

  function ShipEnergyOf(w: Weapon): int
  {
    match LookupShipWeapon(w.weaponType)
    case None => 0
    case Some(k) => if ShipWeaponSpecOf(k).energyWeapons > 0 then ShipWeaponSpecOf(k).energyWeapons else 0
  }

  /** `calculateEnergyWeaponCount`. */
  method CalculateEnergyWeaponCount(weapons: seq<Weapon>) returns (count: int)
    ensures count == SumInt(weapons, EnergyOf)
  {
    count := 0;
    var shipWeapons := Filter(weapons, IsShip);
    for i := 0 to |shipWeapons|
      invariant count == SumInt(shipWeapons[..i], ShipEnergyOf)
    {
      SumIntPrefixStep(shipWeapons, i, ShipEnergyOf);
      var weaponSpec := LookupShipWeapon(shipWeapons[i].weaponType);
      if weaponSpec.Some? && ShipWeaponSpecOf(weaponSpec.value).energyWeapons > 0 {
        count := count + ShipWeaponSpecOf(weaponSpec.value).energyWeapons;
      }
    }
    assert shipWeapons[..|shipWeapons|] == shipWeapons;
    SumIntFilter(weapons, IsShip, ShipEnergyOf, EnergyOf);
  }

  /** Every entry counts 0 .. 3 energy weapons, and only energy weapons of
      the ship category count at all. */
  lemma EnergyOfBounds(w: Weapon)
    ensures 0 <= EnergyOf(w) <= 3
    ensures EnergyOf(w) > 0 ==> IsShip(w) && IsEnergyWeapon(w.weaponType)
  {
    var r := LookupShipWeapon(w.weaponType);
    if r.Some? {
      IsEnergyWeaponMatchesTable(r.value);
    }
  }

  /** A single and a double pulse laser with a torpedo need two gunners. */
  lemma GunnersExample()
    ensures RequiredGunners([
      Weapon("1", "pulse_laser_single", "", Some(ShipWeapon), 1.0, 0.0, 1, None),
      Weapon("2", "pulse_laser_double", "", Some(ShipWeapon), 1.0, 0.0, 1, None),
      Weapon("3", "torpedo", "", Some(ShipWeapon), 2.5, 0.0, 1, None)]) == 2
  {
    var w1 := Weapon("1", "pulse_laser_single", "", Some(ShipWeapon), 1.0, 0.0, 1, None);
    var w2 := Weapon("2", "pulse_laser_double", "", Some(ShipWeapon), 1.0, 0.0, 1, None);
    var w3 := Weapon("3", "torpedo", "", Some(ShipWeapon), 2.5, 0.0, 1, None);
    FamiliesExclusive(w1);
    FamiliesExclusive(w2);
    FamiliesExclusive(w3);
    assert IsPulseLaser(w1) && IsPulseLaser(w2) && IsTorpedo(w3);
    assert [w1, w2, w3][1..] == [w2, w3];
    assert [w2, w3][1..] == [w3];
  }
}
