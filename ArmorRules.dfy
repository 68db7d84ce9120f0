/** The armor table of the small-craft rules: the three armor types, the
    mass and price of an armor rating, and which types a tech level allows. */
module ArmorRules {
  import opened Util
  import opened HullRules

  /** The keys of `ARMOR_TYPES`, in declaration order. */
  datatype ArmorKind = TitaniumSteel | Crystaliron | BondedSuperdense

  const ArmorKinds: seq<ArmorKind> := [TitaniumSteel, Crystaliron, BondedSuperdense]

  /** One entry of `ARMOR_TYPES` (its `getMaxArmor` is `MaxArmor`). */
  datatype ArmorTypeDefinition = ArmorTypeDefinition(
    name: string,
    minTechLevel: int,
    protectionPer5Percent: int,
    costPercentOfHull: int)

  function Definition(kind: ArmorKind): (d: ArmorTypeDefinition)
    ensures d.protectionPer5Percent > 0 && d.costPercentOfHull > 0
  {
    match kind
    case TitaniumSteel => ArmorTypeDefinition("Titanium Steel", 7, 2, 5)
    case Crystaliron => ArmorTypeDefinition("Crystaliron", 10, 4, 20)
    case BondedSuperdense => ArmorTypeDefinition("Bonded Superdense", 14, 6, 50)
  }

  /** The key string of an armor type, as stored in a design. */
  function ArmorKey(kind: ArmorKind): string
  {
    match kind
    case TitaniumSteel => "titanium_steel"
    case Crystaliron => "crystaliron"
    case BondedSuperdense => "bonded_superdense"
  }

  /** `getMaxArmor`: the highest rating of a type at a tech level. */
  function MaxArmor(kind: ArmorKind, techLevel: int): (m: int)
    ensures m <= techLevel
    ensures kind == TitaniumSteel ==> m <= 9 && (m == techLevel || m == 9)
    ensures kind == Crystaliron ==> m <= 13 && (m == techLevel || m == 13)
    ensures kind == BondedSuperdense ==> m == techLevel
  {
    match kind
    case TitaniumSteel => Min(techLevel, 9)
    case Crystaliron => Min(techLevel, 13)
    case BondedSuperdense => techLevel
  }

  /** A better material never allows fewer points than a worse one. */
  lemma MaxArmorOrdered(techLevel: int)
    ensures MaxArmor(TitaniumSteel, techLevel) <= MaxArmor(Crystaliron, techLevel) <= MaxArmor(BondedSuperdense, techLevel)
  {
  }

  /** `calculateArmorMass`: each point takes 5%/protection of the hull, with
      a floor of one ton. */
  function ArmorMass(rating: int, kind: ArmorKind, hullTonnage: real): (tons: real)
    ensures tons >= 1.0
  {
    var percentPerPoint := 5.0 / Definition(kind).protectionPer5Percent as real;
    var totalPercent := rating as real * percentPerPoint;
    MaxReal(hullTonnage * totalPercent / 100.0, 1.0)
  }

  /** The mass is the share of the hull the rating covers whenever that
      share reaches a ton, and one ton otherwise. */
  lemma ArmorMassShare(rating: int, kind: ArmorKind, hullTonnage: real)
    ensures var share := hullTonnage * rating as real * 5.0 / (100.0 * Definition(kind).protectionPer5Percent as real);
      ArmorMass(rating, kind, hullTonnage) == if share >= 1.0 then share else 1.0
  {
  }

  /** On a hull of non-negative tonnage, more armor is never lighter. */
  lemma ArmorMassMonotone(r1: int, r2: int, kind: ArmorKind, hullTonnage: real)
    requires r1 <= r2 && hullTonnage >= 0.0
    ensures ArmorMass(r1, kind, hullTonnage) <= ArmorMass(r2, kind, hullTonnage)
  {
    var p := Definition(kind).protectionPer5Percent as real;
    var k := hullTonnage * (5.0 / p) / 100.0;
    assert k >= 0.0;
    assert hullTonnage * (r1 as real * (5.0 / p)) / 100.0 == r1 as real * k;
    assert hullTonnage * (r2 as real * (5.0 / p)) / 100.0 == r2 as real * k;
    assert (r2 as real - r1 as real) * k >= 0.0;
    assert r1 as real * k <= r2 as real * k;
  }

  /** `calculateArmorCost`, in credits from a hull price in credits. */
  function ArmorCost(rating: int, kind: ArmorKind, baseHullCost: real): real
  {
    var d := Definition(kind);
    var costPerPoint := (d.costPercentOfHull as real * baseHullCost) / (100.0 * d.protectionPer5Percent as real);
    costPerPoint * rating as real
  }

  /** The price is linear in the rating: `rating` times the price of one
      point, and additive over ratings. */
  lemma ArmorCostLinear(r1: int, r2: int, kind: ArmorKind, baseHullCost: real)
    ensures ArmorCost(r1, kind, baseHullCost) == r1 as real * ArmorCost(1, kind, baseHullCost)
    ensures ArmorCost(r1 + r2, kind, baseHullCost) == ArmorCost(r1, kind, baseHullCost) + ArmorCost(r2, kind, baseHullCost)
  {
  }

  /** Two points of titanium steel on a 40-ton hull weigh two tons. */
  lemma TitaniumOn40Tons()
    ensures ArmorMass(2, TitaniumSteel, 40.0) == 2.0
  {
  }

  // ---------------------------------------------------------------------
  // Availability by tech level

  function AvailableAt(techLevel: int): ArmorKind -> bool
  {
    kind => techLevel >= Definition(kind).minTechLevel
  }

  /** `getAvailableArmorTypes`: nothing for a string that is not a tech
      level, otherwise the types whose minimum tech level is met, in table
      order. */
  function AvailableArmorTypes(techLevel: string): seq<ArmorKind>
  {
    match ParseTechLevel(techLevel)
    case None => []
    case Some(tl) => Filter(ArmorKinds, AvailableAt(TechLevelNumber(tl)))
  }

  /** Membership: a type is offered exactly when the string is a tech level
      whose number reaches the type's minimum. */
  lemma AvailableArmorTypesMembers(techLevel: string, kind: ArmorKind)
    ensures kind in AvailableArmorTypes(techLevel)
        <==> ParseTechLevel(techLevel).Some?
             && TechLevelNumber(ParseTechLevel(techLevel).value) >= Definition(kind).minTechLevel
  {
    assert kind == ArmorKinds[0] || kind == ArmorKinds[1] || kind == ArmorKinds[2];
  }

  /** A higher tech level offers every type a lower one does. */
  lemma AvailableArmorTypesMonotone(low: TechLevel, high: TechLevel, kind: ArmorKind)
    requires IsTechLevelAtLeast(high, low)
    requires kind in AvailableArmorTypes([TechLevelLetter(low)])
    ensures kind in AvailableArmorTypes([TechLevelLetter(high)])
  {
    AvailableArmorTypesMembers([TechLevelLetter(low)], kind);
    AvailableArmorTypesMembers([TechLevelLetter(high)], kind);
  }

  /** Every tech level (all of them at least TL 10) offers titanium steel
      first. */
  lemma AvailableArmorTypesStartWithTitanium(tl: TechLevel)
    ensures var r := AvailableArmorTypes([TechLevelLetter(tl)]);
      |r| >= 2 && r[0] == TitaniumSteel && r[1] == Crystaliron
  {
  }

  /** At TL 13 (letter D): titanium steel and crystaliron, not bonded
      superdense. */
  lemma AvailableArmorTypesAtD()
    ensures AvailableArmorTypes("D") == [TitaniumSteel, Crystaliron]
  {
  }
}
