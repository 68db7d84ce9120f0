/** The armor panel's three handlers. Each maps the current armor (if any),
    the hull and the user's input to the update it hands on: a new armor
    record, no armor, or no update at all. */
module ArmorHandlers {
  import opened Util
  import opened HullRules
  import opened ArmorRules
  import opened ShipTypes

  /** What a handler passes to `onUpdate`: nothing (it returned early), or
      the new armor, which may be absent. */
  datatype Update = NoUpdate | SetTo(armor: Option<Armor>)

  /** `TECH_LEVELS[hull.techLevel] || 0`. */
  function TechLevelNumberOf(techLevel: string): (n: int)
    ensures n == 0 || 10 <= n <= 17
    ensures n == 0 <==> ParseTechLevel(techLevel).None?
  {
    match ParseTechLevel(techLevel)
    case None => 0
    case Some(tl) => TechLevelNumber(tl)
  }

  /** An armor record whose mass and cost are the armor rules applied to its
      own type, its own rating and the hull. */
  predicate Consistent(armor: Armor, hull: Hull)
  {
    armor.mass == ArmorMass(armor.rating, armor.kind, hull.tonnage)
    && armor.cost == ArmorCost(armor.rating, armor.kind, hull.cost)
  }

  /** An armor record of the given type and rating, derived for the hull. */
  function DerivedArmor(kind: ArmorKind, rating: int, hull: Hull): (a: Armor)
    ensures a.kind == kind && a.rating == rating && Consistent(a, hull)
  {
    Armor(kind, rating, ArmorMass(rating, kind, hull.tonnage), ArmorCost(rating, kind, hull.cost))
  }

  /** `Object.keys(ARMOR_TYPES).find(...)`: the first type, in table order,
      whose minimum tech level the number reaches. */
  function FirstArmorType(techLevelNumber: int): Option<ArmorKind>
  {
    var i := FindIndex(ArmorKinds, AvailableAt(techLevelNumber));
    if i < 0 then None else Some(ArmorKinds[i])
  }

  /** Titanium steel is found from TL 7 on; below that, nothing. */
  lemma FirstArmorTypeIsTitanium(techLevelNumber: int)
    ensures techLevelNumber >= 7 ==> FirstArmorType(techLevelNumber) == Some(TitaniumSteel)
    ensures techLevelNumber < 7 ==> FirstArmorType(techLevelNumber) == None
  {
    if techLevelNumber >= 7 {
      assert AvailableAt(techLevelNumber)(ArmorKinds[0]);
    }
  }

  /** `handleArmorToggle`. */
  function Toggle(enabled: bool, hull: Hull): (u: Update)
    ensures u.SetTo? && u.armor.Some? ==> Consistent(u.armor.value, hull) && u.armor.value.rating == 1
  {
    if enabled && |AvailableArmorTypes(hull.techLevel)| > 0 then
      match FirstArmorType(TechLevelNumberOf(hull.techLevel))
      case Some(firstType) => SetTo(Some(DerivedArmor(firstType, 1, hull)))
      case None => NoUpdate
    else SetTo(None)
  }

  /** Turning armor on over a hull with a tech level installs one point of
      titanium steel, a type the hull's tech level offers; turning it off,
      or a hull without a tech level, removes the armor. The early return
      of the handler is never taken. */
  lemma ToggleOutcome(enabled: bool, hull: Hull)
    ensures enabled && ParseTechLevel(hull.techLevel).Some?
            ==> Toggle(enabled, hull) == SetTo(Some(DerivedArmor(TitaniumSteel, 1, hull)))
                && TitaniumSteel in AvailableArmorTypes(hull.techLevel)
    ensures !enabled || ParseTechLevel(hull.techLevel).None? ==> Toggle(enabled, hull) == SetTo(None)
    ensures Toggle(enabled, hull) != NoUpdate
  {
    match ParseTechLevel(hull.techLevel)
    case None =>
    case Some(tl) =>
      AvailableArmorTypesStartWithTitanium(tl);
      FirstArmorTypeIsTitanium(TechLevelNumber(tl));
      assert hull.techLevel == [TechLevelLetter(tl)];
  }

  /** `handleArmorTypeChange`: the new type at the old rating, lowered to
      the new type's maximum if need be. */
  function TypeChange(armor: Option<Armor>, hull: Hull, kind: ArmorKind): (u: Update)
    ensures armor.None? <==> u == NoUpdate
    ensures u.SetTo? ==> u.armor.Some? && Consistent(u.armor.value, hull) && u.armor.value.kind == kind
  {
    match armor
    case None => NoUpdate
    case Some(a) =>
      var maxArmor := MaxArmor(kind, TechLevelNumberOf(hull.techLevel));
      var newRating := Min(a.rating, maxArmor);
      SetTo(Some(DerivedArmor(kind, newRating, hull)))
  }

  /** A type change never raises the rating, keeps it when the new type
      allows it, and otherwise lowers it to exactly the new maximum. */
  lemma TypeChangeRating(a: Armor, hull: Hull, kind: ArmorKind)
    ensures var r := TypeChange(Some(a), hull, kind).armor.value.rating;
      var maxArmor := MaxArmor(kind, TechLevelNumberOf(hull.techLevel));
      && r <= a.rating
      && r <= maxArmor
      && (a.rating <= maxArmor ==> r == a.rating)
      && (a.rating > maxArmor ==> r == maxArmor)
  {
  }

  /** `handleArmorRatingChange`: the rating clamped to 1 .. the type's
      maximum, type kept. */
  function RatingChange(armor: Option<Armor>, hull: Hull, rating: int): (u: Update)
    ensures armor.None? <==> u == NoUpdate
    ensures u.SetTo? ==> u.armor.Some? && Consistent(u.armor.value, hull)
                         && u.armor.value.kind == armor.value.kind
  {
    match armor
    case None => NoUpdate
    case Some(a) =>
      var maxArmor := MaxArmor(a.kind, TechLevelNumberOf(hull.techLevel));
      var clampedRating := Max(1, Min(rating, maxArmor));
      SetTo(Some(a.(rating := clampedRating,
                    mass := ArmorMass(clampedRating, a.kind, hull.tonnage),
                    cost := ArmorCost(clampedRating, a.kind, hull.cost))))
  }

  /** The stored rating is the requested one clamped into 1 .. maximum (the
      lower bound winning when the maximum is below 1). */
  lemma RatingChangeClamps(a: Armor, hull: Hull, rating: int)
    ensures var r := RatingChange(Some(a), hull, rating).armor.value.rating;
      var maxArmor := MaxArmor(a.kind, TechLevelNumberOf(hull.techLevel));
      && r >= 1
      && (maxArmor >= 1 ==> r == Clamp(rating, 1, maxArmor))
      && (maxArmor < 1 ==> r == 1)
  {
  }

  /** Setting the same rating twice is the same as setting it once. */
  lemma RatingChangeIdempotent(a: Armor, hull: Hull, rating: int)
    ensures var once := RatingChange(Some(a), hull, rating).armor;
      RatingChange(once, hull, rating) == SetTo(once)
  {
  }

  /** With a tech level on the hull, the stored rating is always within
      1 .. the type's maximum. */
  lemma RatingChangeWithinTable(a: Armor, tl: TechLevel, hull: Hull, rating: int)
    requires hull.techLevel == [TechLevelLetter(tl)]
    ensures var r := RatingChange(Some(a), hull, rating).armor.value.rating;
      1 <= r <= MaxArmor(a.kind, TechLevelNumber(tl))
  {
    assert ParseTechLevel(hull.techLevel) == Some(tl);
  }
}
