/** The drives panel: adding, removing and updating drives in the design's
    drive list, editing the fuel record, and the panel's own selection of
    category, drive type and model for the next drive to add. */
module DriveHandlers {
  import opened Util
  import opened DriveRules
  import opened HullRules
  import opened ShipTypes

  /** A drive whose mass and price are the table's for its own type and
      model. */
  predicate SpecConsistent(d: Drive)
  {
    d.driveType.Some? && ParseModel(d.model).Some?
    && var spec := GetDriveSpec(d.driveType.value, ParseModel(d.model).value);
       d.mass == spec.tonnage && d.cost == McrToCredits(spec.cost)
  }

  /** The drive `handleAddDrive` builds from the selection. */
  function NewDrive(id: string, category: DriveCategory, t: DriveType, m: DriveModel): (d: Drive)
    ensures SpecConsistent(d)
    ensures d.id == id && d.category == category && d.driveType == Some(t) && d.model == ModelName(m)
    ensures d.rating == 1 && d.quantity == 1
  {
    ParseModelName(m);
    var spec := GetDriveSpec(t, m);
    Drive(id, category, Some(t), ModelName(m), 1, spec.tonnage, McrToCredits(spec.cost), 1)
  }

  /** `handleAddDrive`: the list with the new drive appended. */
  function AddDrive(drives: seq<Drive>, id: string, category: DriveCategory, t: DriveType, m: DriveModel): (r: seq<Drive>)
    ensures |r| == |drives| + 1 && r[..|drives|] == drives
    ensures r[|drives|] == NewDrive(id, category, t, m)
  {
    drives + [NewDrive(id, category, t, m)]
  }

  function HasOtherId(id: string): Drive -> bool
  {
    (d: Drive) => d.id != id
  }

  /** `handleRemoveDrive`: every drive with the id goes, the rest stay in
      order. */
  function RemoveDrive(drives: seq<Drive>, id: string): (r: seq<Drive>)
    ensures forall i :: 0 <= i < |r| ==> r[i].id != id && r[i] in drives
    ensures forall i :: 0 <= i < |drives| && drives[i].id != id ==> drives[i] in r
  {
    Filter(drives, HasOtherId(id))
  }

  /** Exactly the drives with the id are removed: the list shrinks by
      their number. */
  lemma RemoveDriveCount(drives: seq<Drive>, id: string)
    ensures |RemoveDrive(drives, id)| == |drives| - Count(drives, (d: Drive) => d.id == id)
  {
    FilterLength(drives, HasOtherId(id));
    CountComplement(drives, HasOtherId(id), (d: Drive) => d.id == id);
  }

  /** Removal works drive by drive: a drive with the id is dropped, any
      other stays where it was, so the kept drives keep their order and
      their repetitions. */
  lemma RemoveDriveSplits(a: seq<Drive>, d: Drive, b: seq<Drive>, id: string)
    ensures RemoveDrive(a + [d] + b, id)
         == RemoveDrive(a, id) + (if d.id == id then [] else [d]) + RemoveDrive(b, id)
  {
    FilterSplits(a, d, b, HasOtherId(id));
  }

  lemma {:induction false} CountComplement(s: seq<Drive>, p: Drive -> bool, q: Drive -> bool)
    requires forall x :: q(x) == !p(x)
    ensures Count(s, p) + Count(s, q) == |s|
  {
    if s != [] {
      CountComplement(s[1..], p, q);
    }
  }

  /** Removing, then adding a drive under a fresh id, keeps the other
      drives and their order. */
  lemma RemoveThenAdd(drives: seq<Drive>, id: string, t: DriveType, m: DriveModel, category: DriveCategory)
    ensures RemoveDrive(AddDrive(drives, id, category, t, m), id) == RemoveDrive(drives, id)
  {
    FilterAppend(drives, [NewDrive(id, category, t, m)], HasOtherId(id));
    assert AddDrive(drives, id, category, t, m) == drives + [NewDrive(id, category, t, m)];
  }

  /** The fields a `Partial<Drive>` update may carry. */
  datatype DriveUpdate = DriveUpdate(
    id: Option<string>,
    category: Option<DriveCategory>,
    driveType: Option<DriveType>,
    model: Option<string>,
    rating: Option<int>,
    mass: Option<real>,
    cost: Option<real>,
    quantity: Option<int>)

  function Pick<T>(update: Option<T>, current: T): T
  {
    if update.Some? then update.value else current
  }

  /** `{ ...drive, ...updates }`. */
  function Merge(d: Drive, u: DriveUpdate): Drive
  {
    Drive(Pick(u.id, d.id), Pick(u.category, d.category),
          if u.driveType.Some? then u.driveType else d.driveType,
          Pick(u.model, d.model), Pick(u.rating, d.rating), Pick(u.mass, d.mass),
          Pick(u.cost, d.cost), Pick(u.quantity, d.quantity))
  }

  /** `updates.model || updates.driveType`: the update names a (non-empty)
      model or a drive type. */
  predicate Rederives(u: DriveUpdate)
  {
    (u.model.Some? && u.model.value != "") || u.driveType.Some?
  }

  /** One drive of `handleUpdateDrive`: the merge, with mass and price
      looked up again for the effective type and model when the update
      names one of them. None where the lookup has no entry (the drive has
      no type, or the model is not a key), which throws in the handler. */
  function ApplyUpdate(d: Drive, u: DriveUpdate): Option<Drive>
  {
    var updated := Merge(d, u);
    if !Rederives(u) then Some(updated)
    else
      var driveType := if u.driveType.Some? then u.driveType else d.driveType;
      var model := if u.model.Some? && u.model.value != "" then u.model.value else d.model;
      match driveType
      case None => None
      case Some(t) =>
        match ParseModel(model)
        case None => None
        case Some(m) =>
          var spec := GetDriveSpec(t, m);
          Some(updated.(mass := spec.tonnage, cost := McrToCredits(spec.cost)))
  }

  /** When an update names a type or model (and does not blank the model),
      the updated drive is priced and weighed from the table for its own
      new type and model; when it names neither and leaves mass and price
      alone, a consistent drive stays consistent. The lookup fails exactly
      when the effective type is missing or the effective model unknown. */
  lemma ApplyUpdateConsistent(d: Drive, u: DriveUpdate)
    ensures Rederives(u) && u.model != Some("") && ApplyUpdate(d, u).Some?
            ==> SpecConsistent(ApplyUpdate(d, u).value)
    ensures !Rederives(u) && u.mass.None? && u.cost.None? && u.model.None? && SpecConsistent(d)
            ==> SpecConsistent(ApplyUpdate(d, u).value)
    ensures ApplyUpdate(d, u).None?
        <==> Rederives(u)
             && ((u.driveType.None? && d.driveType.None?)
                 || ParseModel(if u.model.Some? && u.model.value != "" then u.model.value else d.model).None?)
  {
  }

  /** Everything but the id is replaced as the update says. */
  lemma ApplyUpdateFields(d: Drive, u: DriveUpdate)
    requires ApplyUpdate(d, u).Some?
    ensures var r := ApplyUpdate(d, u).value;
      && r.id == Pick(u.id, d.id) && r.category == Pick(u.category, d.category)
      && r.model == Pick(u.model, d.model) && r.rating == Pick(u.rating, d.rating)
      && r.quantity == Pick(u.quantity, d.quantity)
      && (!Rederives(u) ==> r.mass == Pick(u.mass, d.mass) && r.cost == Pick(u.cost, d.cost))
  {
  }

  /** `handleUpdateDrive`: every drive with the id updated, the others as
      they were; None when an update throws. */
  function UpdateDrive(drives: seq<Drive>, id: string, u: DriveUpdate): (r: Option<seq<Drive>>)
    ensures r.Some? ==> |r.value| == |drives|
    ensures r.Some? ==> forall i :: 0 <= i < |drives| && drives[i].id != id ==> r.value[i] == drives[i]
    ensures r.Some? ==> forall i :: 0 <= i < |drives| && drives[i].id == id ==> ApplyUpdate(drives[i], u) == Some(r.value[i])
    ensures r.None? <==> exists i :: 0 <= i < |drives| && drives[i].id == id && ApplyUpdate(drives[i], u).None?
  {
    if drives == [] then Some([])
    else
      var head := if drives[0].id == id then ApplyUpdate(drives[0], u) else Some(drives[0]);
      var tail := UpdateDrive(drives[1..], id, u);
      if head.None? || tail.None? then
        (if tail.None? then
           var i :| 0 <= i < |drives[1..]| && drives[1..][i].id == id && ApplyUpdate(drives[1..][i], u).None?;
           assert drives[i + 1] == drives[1..][i];
           None
         else None)
      else
        var r := [head.value] + tail.value;
        assert forall i :: 0 < i < |drives| ==> r[i] == tail.value[i - 1] && drives[i] == drives[1..][i - 1];
        Some(r)
  }

  /** An update that touches no drive (no drive has the id) changes
      nothing. */
  lemma UpdateUnknownId(drives: seq<Drive>, id: string, u: DriveUpdate)
    requires forall i :: 0 <= i < |drives| ==> drives[i].id != id
    ensures UpdateDrive(drives, id, u) == Some(drives)
  {
    var r := UpdateDrive(drives, id, u);
    assert r.Some?;
    assert forall i :: 0 <= i < |drives| ==> r.value[i] == drives[i];
    assert r.value == drives;
  }

  /** The update the drive-type select of an installed drive sends. */
  function TypeSelect(t: DriveType): DriveUpdate
  {
    DriveUpdate(None, None, Some(t), None, None, None, None, None)
  }

  /** The update the drive-code select of an installed drive sends. */
  function ModelSelect(m: DriveModel): DriveUpdate
  {
    DriveUpdate(None, None, None, Some(ModelName(m)), None, None, None, None)
  }

  /** Picking a type on a drive with a known model never throws and leaves
      the drive weighed and priced from the table for its new type; nothing
      else changes. */
  lemma TypeSelectKeepsConsistent(d: Drive, t: DriveType)
    requires ParseModel(d.model).Some?
    ensures ApplyUpdate(d, TypeSelect(t)).Some?
    ensures var r := ApplyUpdate(d, TypeSelect(t)).value;
      SpecConsistent(r) && r == d.(driveType := Some(t), mass := r.mass, cost := r.cost)
  {
    var m := ParseModel(d.model).value;
    var spec := GetDriveSpec(t, m);
    assert ApplyUpdate(d, TypeSelect(t))
        == Some(d.(driveType := Some(t), mass := spec.tonnage, cost := McrToCredits(spec.cost)));
  }

  /** Picking a model on a drive with a type never throws and leaves the
      drive weighed and priced from the table for its new model; nothing
      else changes. */
  lemma ModelSelectKeepsConsistent(d: Drive, m: DriveModel)
    requires d.driveType.Some?
    ensures ApplyUpdate(d, ModelSelect(m)).Some?
    ensures var r := ApplyUpdate(d, ModelSelect(m)).value;
      SpecConsistent(r) && r == d.(model := ModelName(m), mass := r.mass, cost := r.cost)
  {
    ParseModelName(m);
    var spec := GetDriveSpec(d.driveType.value, m);
    assert ApplyUpdate(d, ModelSelect(m))
        == Some(d.(model := ModelName(m), mass := spec.tonnage, cost := McrToCredits(spec.cost)));
  }

  // ---------------------------------------------------------------------
  // Fuel

  datatype FuelField = Amount | Duration | FuelMass

  function FuelValue(fuel: Fuel, field: FuelField): real
  {
    match field
    case Amount => fuel.amount
    case Duration => fuel.duration
    case FuelMass => fuel.mass
  }

  /** `handleFuelChange`: `{ ...fuel, [field]: value }`. */
  function FuelChange(fuel: Fuel, field: FuelField, value: real): Fuel
  {
    match field
    case Amount => fuel.(amount := value)
    case Duration => fuel.(duration := value)
    case FuelMass => fuel.(mass := value)
  }

  /** The named field reads back as the value written; the other fields
      read as before; writing the same field again overrides the first
      write. */
  lemma FuelChangeGetSet(fuel: Fuel, field: FuelField, other: FuelField, value: real, value2: real)
    ensures FuelValue(FuelChange(fuel, field, value), field) == value
    ensures other != field ==> FuelValue(FuelChange(fuel, field, value), other) == FuelValue(fuel, other)
    ensures FuelChange(FuelChange(fuel, field, value), field, value2) == FuelChange(fuel, field, value2)
    ensures FuelChange(fuel, field, FuelValue(fuel, field)) == fuel
  {
  }

  // ---------------------------------------------------------------------
  // The add-drive selection

  /** `getAvailableDriveTypes`: maneuver types for a maneuver drive, plant
      types for anything else. */
  function AvailableDriveTypes(category: DriveCategory): (r: seq<DriveType>)
    ensures |r| == 2
  {
    if category == Maneuver then [GraviticM, ReactionM] else [FusionP, ChemicalP]
  }

  /** The two lists split the drive types: a maneuver type is never offered
      for a power plant, nor a plant type for a maneuver drive; and only a
      plant type can burn power-plant fuel. */
  lemma AvailableDriveTypesPartition(t: DriveType, m: DriveModel, weeks: real)
    ensures t in AvailableDriveTypes(Maneuver) <==> t !in AvailableDriveTypes(PowerPlant)
    ensures t in AvailableDriveTypes(Maneuver) ==> PowerPlantFuel(t, m, weeks) == 0.0
  {
  }

  /** The drives panel's own selection state. */
  class DriveSelection {
    var selectedDriveType: DriveType
    var selectedModel: DriveModel
    var driveCategory: DriveCategory

    /** The selected type is one the selected category offers. */
    predicate Valid()
      reads this
    {
      driveCategory != Jump && selectedDriveType in AvailableDriveTypes(driveCategory)
    }

    constructor()
      ensures selectedDriveType == GraviticM && selectedModel == SA && driveCategory == Maneuver
      ensures Valid()
    {
      selectedDriveType := GraviticM;
      selectedModel := SA;
      driveCategory := Maneuver;
    }

    /** The category select: the type resets to the category's first. */
    method ChangeCategory(category: DriveCategory)
      requires category != Jump
      modifies this
      ensures driveCategory == category && selectedDriveType == AvailableDriveTypes(category)[0]
      ensures selectedModel == old(selectedModel)
      ensures Valid()
    {
      driveCategory := category;
      var availableTypes := AvailableDriveTypes(category);
      selectedDriveType := availableTypes[0];
    }

    /** The type select, which offers only the category's types. */
    method ChangeType(t: DriveType)
      requires driveCategory != Jump && t in AvailableDriveTypes(driveCategory)
      modifies this
      ensures selectedDriveType == t && driveCategory == old(driveCategory) && selectedModel == old(selectedModel)
      ensures Valid()
    {
      selectedDriveType := t;
    }

    /** The model select. */
    method ChangeModel(m: DriveModel)
      modifies this
      ensures selectedModel == m && selectedDriveType == old(selectedDriveType) && driveCategory == old(driveCategory)
      ensures Valid() == old(Valid())
    {
      selectedModel := m;
    }

    /** `handleAddDrive` with the current selection. */
    method AddSelected(drives: seq<Drive>, id: string) returns (r: seq<Drive>)
      requires Valid()
      ensures r == AddDrive(drives, id, driveCategory, selectedDriveType, selectedModel)
      ensures r[|drives|].driveType.Some? && r[|drives|].driveType.value in AvailableDriveTypes(r[|drives|].category)
    {
      var spec := GetDriveSpec(selectedDriveType, selectedModel);
      var newDrive := Drive(id, driveCategory, Some(selectedDriveType), ModelName(selectedModel), 1,
                            spec.tonnage, McrToCredits(spec.cost), 1);
      r := drives + [newDrive];
    }
  }
}
