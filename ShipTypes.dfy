/** The records a small-craft design is made of. Masses are in tons, prices
    in credits unless a field says otherwise; counts are integers. */
module ShipTypes {
  import opened Util
  import opened DriveRules
  import opened ArmorRules

  datatype Hull = Hull(
    name: string,
    techLevel: string,      // a letter A .. H when valid
    tonnageCode: string,    // s1 .. s10
    tonnage: real,
    cost: real,
    description: Option<string>)

  datatype Armor = Armor(kind: ArmorKind, rating: int, mass: real, cost: real)

  /** A drive; `model` is the key string ("sA" .. "sZ") the design stores. */
  datatype Drive = Drive(
    id: string,
    category: DriveCategory,
    driveType: Option<DriveType>,
    model: string,
    rating: int,
    mass: real,
    cost: real,
    quantity: int)

  datatype Fuel = Fuel(amount: real, duration: real, mass: real)

  datatype Fitting = Fitting(
    id: string,
    fittingType: string,
    name: string,
    mass: real,
    cost: real,
    quantity: int,
    crew: Option<int>,
    passengers: Option<int>,
    description: Option<string>,
    dieModifier: Option<int>)    // electronics only

  datatype WeaponCategory = ShipWeapon | AntiPersonnel

  datatype Weapon = Weapon(
    id: string,
    weaponType: string,
    name: string,
    category: Option<WeaponCategory>,
    mass: real,
    cost: real,
    quantity: int,
    mountType: Option<string>)

  /** The cargo record: `amount` is what the mass total reads; the others
      are what the summary lists. */
  datatype Cargo = Cargo(
    amount: real,
    cargoBay: real,
    shipsLocker: real,
    missileReloads: Option<real>,
    modularCutterBay: bool)

  datatype Staff = Staff(
    pilot: int,
    gunner: int,
    engineer: bool,
    comms: bool,
    sensors: bool,
    ecm: bool,
    other: int)

  datatype Design = Design(
    name: string,
    description: Option<string>,
    hull: Hull,
    armor: Option<Armor>,
    drives: seq<Drive>,
    fuel: Fuel,
    fittings: seq<Fitting>,
    weapons: seq<Weapon>,
    cargo: Cargo,
    staff: Staff)
}
