/** The designer's top level: the blank design, the mass and cost totals,
    per-panel validity, and the wizard that walks a design through the
    panels in a fixed order. */
module App {
  import opened Util
  import opened ShipTypes

  datatype Panel =
    | SelectPanel | HullPanel | ArmorPanel | DrivesPanel | FittingsPanel
    | WeaponsPanel | CargoPanel | StaffPanel | SummaryPanel

  /** `createNewDesign`: an unnamed craft with an empty hull, no parts and
      one pilot. */
  function CreateNewDesign(): Design
  {
    Design(
      "Unnamed Small Craft",
      None,
      Hull("", "", "", 0.0, 0.0, Some("")),
      None,
      [],
      Fuel(0.0, 0.0, 0.0),
      [],
      [],
      Cargo(0.0, 0.0, 0.0, None, false),
      Staff(1, 0, false, false, false, false, 0))
  }

  // ---------------------------------------------------------------------
  // Mass and cost

  function DriveMass(d: Drive): real { d.mass * d.quantity as real }
  function FittingMass(f: Fitting): real { f.mass * f.quantity as real }
  function WeaponMass(w: Weapon): real { w.mass * w.quantity as real }
  function DriveCost(d: Drive): real { d.cost * d.quantity as real }
  function FittingCost(f: Fitting): real { f.cost * f.quantity as real }
  function WeaponCost(w: Weapon): real { w.cost * w.quantity as real }

  function ArmorMassOf(armor: Option<Armor>): real
  {
    if armor.Some? then armor.value.mass else 0.0
  }

  function ArmorCostOf(armor: Option<Armor>): real
  {
    if armor.Some? then armor.value.cost else 0.0
  }

  /** `calculateMass`: every part's mass times its quantity, the fuel and
      cargo amounts, and the armor if fitted; 0 without a design. */
  function Mass(design: Option<Design>): real
  {
    match design
    case None => 0.0
    case Some(d) =>
      Sum(d.drives, DriveMass) + d.fuel.amount + Sum(d.fittings, FittingMass)
      + Sum(d.weapons, WeaponMass) + d.cargo.amount + ArmorMassOf(d.armor)
  }

  datatype CostBreakdown = CostBreakdown(hull: real, drives: real, fittings: real, weapons: real, armor: real, total: real)

  /** `calculateCostBreakdown`: hull, drives, fittings, weapons and armor,
      and their total; all zero without a design. */
  function CalculateCostBreakdown(design: Option<Design>): CostBreakdown
  {
    match design
    case None => CostBreakdown(0.0, 0.0, 0.0, 0.0, 0.0, 0.0)
    case Some(d) =>
      var hullCost := d.hull.cost;
      var drivesCost := Sum(d.drives, DriveCost);
      var fittingsCost := Sum(d.fittings, FittingCost);
      var weaponsCost := Sum(d.weapons, WeaponCost);
      var armorCost := ArmorCostOf(d.armor);
      CostBreakdown(hullCost, drivesCost, fittingsCost, weaponsCost, armorCost,
                    hullCost + drivesCost + fittingsCost + weaponsCost + armorCost)
  }

  /** A fresh design weighs nothing and costs nothing. */
  lemma NewDesignIsEmpty()
    ensures Mass(Some(CreateNewDesign())) == 0.0
    ensures CalculateCostBreakdown(Some(CreateNewDesign())).total == 0.0
  {
  }

  /** The total is the sum of the parts, and an absent armor contributes
      nothing to either total. */
  lemma CostBreakdownParts(design: Option<Design>)
    ensures var c := CalculateCostBreakdown(design);
      c.total == c.hull + c.drives + c.fittings + c.weapons + c.armor
    ensures design.Some? && design.value.armor.None? ==> CalculateCostBreakdown(design).armor == 0.0
    ensures design.Some? ==> Mass(design) == Mass(Some(design.value.(armor := None))) + ArmorMassOf(design.value.armor)
  {
  }

  /** Fuel and cargo weigh but cost nothing: changing them changes the mass
      by the change in their amounts and leaves every cost untouched. */
  lemma FuelAndCargoAreFree(d: Design, fuel: Fuel, cargo: Cargo)
    ensures CalculateCostBreakdown(Some(d.(fuel := fuel, cargo := cargo))) == CalculateCostBreakdown(Some(d))
    ensures Mass(Some(d.(fuel := fuel, cargo := cargo)))
         == Mass(Some(d)) + (fuel.amount - d.fuel.amount) + (cargo.amount - d.cargo.amount)
  {
  }

  /** Reordering the drives, fittings or weapons changes neither total. */
  lemma TotalsIgnoreOrder(d: Design, drives: seq<Drive>, fittings: seq<Fitting>, weapons: seq<Weapon>)
    requires multiset(drives) == multiset(d.drives)
    requires multiset(fittings) == multiset(d.fittings)
    requires multiset(weapons) == multiset(d.weapons)
    ensures Mass(Some(d.(drives := drives, fittings := fittings, weapons := weapons))) == Mass(Some(d))
    ensures CalculateCostBreakdown(Some(d.(drives := drives, fittings := fittings, weapons := weapons)))
         == CalculateCostBreakdown(Some(d))
  {
    SumPermutation(drives, d.drives, DriveMass);
    SumPermutation(fittings, d.fittings, FittingMass);
    SumPermutation(weapons, d.weapons, WeaponMass);
    SumPermutation(drives, d.drives, DriveCost);
    SumPermutation(fittings, d.fittings, FittingCost);
    SumPermutation(weapons, d.weapons, WeaponCost);
  }

  /** Adding one drive adds its mass times quantity, and its cost times
      quantity, to the totals. */
  lemma AddDriveTotals(d: Design, drive: Drive)
    ensures Mass(Some(d.(drives := d.drives + [drive]))) == Mass(Some(d)) + drive.mass * drive.quantity as real
    ensures CalculateCostBreakdown(Some(d.(drives := d.drives + [drive]))).total
         == CalculateCostBreakdown(Some(d)).total + drive.cost * drive.quantity as real
  {
    SumAppend(d.drives, [drive], DriveMass);
    SumAppend(d.drives, [drive], DriveCost);
  }

  // ---------------------------------------------------------------------
  // Validity and navigation

  /** `isCurrentPanelValid`. */
  predicate PanelValid(panel: Panel, design: Option<Design>)
  {
    match design
    case None => false
    case Some(d) =>
      match panel
      case SelectPanel => true
      case HullPanel => |d.hull.name| > 0 && |d.hull.techLevel| > 0 && d.hull.tonnage > 0.0
      case ArmorPanel => true
      case DrivesPanel => |d.drives| > 0
      case FittingsPanel => |d.fittings| > 0
      case WeaponsPanel => true
      case StaffPanel => d.staff.pilot > 0
      case SummaryPanel => true
      case CargoPanel => false
  }

  /** `isOverweight`. */
  predicate IsOverweight(design: Option<Design>)
  {
    design.Some? && Mass(design) > design.value.hull.tonnage
  }

  /** `canAdvance`. */
  predicate CanAdvance(panel: Panel, design: Option<Design>)
  {
    PanelValid(panel, design) && !IsOverweight(design)
  }

  /** `panelOrder` (the cargo panel is not in it). */
  const PanelOrder: seq<Panel> := [
    SelectPanel, HullPanel, ArmorPanel, DrivesPanel, FittingsPanel, WeaponsPanel, StaffPanel, SummaryPanel
  ]

  /** `panelOrder.indexOf(panel)`: -1 when absent. */
  function IndexOf(panel: Panel): (i: int)
    ensures -1 <= i < |PanelOrder|
    ensures i >= 0 ==> PanelOrder[i] == panel
    ensures i == -1 ==> panel !in PanelOrder
  {
    match panel
    case SelectPanel => 0
    case HullPanel => 1
    case ArmorPanel => 2
    case DrivesPanel => 3
    case FittingsPanel => 4
    case WeaponsPanel => 5
    case StaffPanel => 6
    case SummaryPanel => 7
    case CargoPanel => -1
  }

  /** Where `handleNext` leaves the wizard. */
  function NextPanel(panel: Panel, design: Option<Design>): Panel
  {
    if !CanAdvance(panel, design) then panel
    else
      var currentIndex := IndexOf(panel);
      if currentIndex < |PanelOrder| - 1 then PanelOrder[currentIndex + 1] else panel
  }

  /** Where `handlePrevious` leaves the wizard. */
  function PreviousPanel(panel: Panel): Panel
  {
    var currentIndex := IndexOf(panel);
    if currentIndex > 0 then PanelOrder[currentIndex - 1] else panel
  }

  /** Next moves exactly one step forward, and does so exactly when the
      current panel allows advancing and is not the last one. */
  lemma NextStep(panel: Panel, design: Option<Design>)
    ensures var next := NextPanel(panel, design);
      if CanAdvance(panel, design) && panel != SummaryPanel
      then IndexOf(next) == IndexOf(panel) + 1
      else next == panel
  {
  }

  /** Previous moves exactly one step back except from the first panel
      (and from the cargo panel, which is not in the order); validity and
      weight are not consulted. */
  lemma PreviousStep(panel: Panel)
    ensures panel != SelectPanel && panel != CargoPanel ==> IndexOf(PreviousPanel(panel)) == IndexOf(panel) - 1
    ensures panel == SelectPanel || panel == CargoPanel ==> PreviousPanel(panel) == panel
  {
  }

  /** Previous undoes a Next that moved, and Next undoes a Previous when
      the panel it went back to allows advancing. */
  lemma NextPreviousInverse(panel: Panel, design: Option<Design>)
    ensures NextPanel(panel, design) != panel ==> PreviousPanel(NextPanel(panel, design)) == panel
    ensures PreviousPanel(panel) != panel && CanAdvance(PreviousPanel(panel), design)
            ==> NextPanel(PreviousPanel(panel), design) == panel
  {
  }

  /** The wizard never moves off the cargo panel by Next or Previous. */
  lemma CargoPanelIsStuck(design: Option<Design>)
    ensures NextPanel(CargoPanel, design) == CargoPanel
    ensures PreviousPanel(CargoPanel) == CargoPanel
  {
  }

  /** Without a design nothing is valid, so Next never moves. */
  lemma NoDesignNoAdvance(panel: Panel)
    ensures !PanelValid(panel, None) && !IsOverweight(None) && Mass(None) == 0.0
    ensures NextPanel(panel, None) == panel
  {
  }

  /** A fresh design cannot leave the hull panel until its hull is named,
      rated and sized. */
  lemma NewDesignStaysOnHull()
    ensures NextPanel(HullPanel, Some(CreateNewDesign())) == HullPanel
  {
  }

  /** An overweight design never advances, whatever the panel. */
  lemma OverweightNeverAdvances(panel: Panel, design: Option<Design>)
    requires IsOverweight(design)
    ensures NextPanel(panel, design) == panel
  {
  }

  // ---------------------------------------------------------------------
  // The design updates

  /** `{ ...design, field }` when a design is loaded; nothing otherwise. */
  function WithHull(design: Option<Design>, hull: Hull): Option<Design>
  {
    if design.Some? then Some(design.value.(hull := hull)) else None
  }

  function WithArmor(design: Option<Design>, armor: Option<Armor>): Option<Design>
  {
    if design.Some? then Some(design.value.(armor := armor)) else None
  }

  function WithDrives(design: Option<Design>, drives: seq<Drive>): Option<Design>
  {
    if design.Some? then Some(design.value.(drives := drives)) else None
  }

  function WithFuel(design: Option<Design>, fuel: Fuel): Option<Design>
  {
    if design.Some? then Some(design.value.(fuel := fuel)) else None
  }

  function WithFittings(design: Option<Design>, fittings: seq<Fitting>): Option<Design>
  {
    if design.Some? then Some(design.value.(fittings := fittings)) else None
  }

  function WithWeapons(design: Option<Design>, weapons: seq<Weapon>): Option<Design>
  {
    if design.Some? then Some(design.value.(weapons := weapons)) else None
  }

  function WithStaff(design: Option<Design>, staff: Staff): Option<Design>
  {
    if design.Some? then Some(design.value.(staff := staff)) else None
  }

  /** Replacing the staff leaves the mass alone; replacing the armor
      changes the mass and the cost by exactly the armor's. */
  lemma UpdatesAndMass(design: Option<Design>, staff: Staff, armor: Option<Armor>)
    requires design.Some?
    ensures Mass(WithStaff(design, staff)) == Mass(design)
    ensures Mass(WithArmor(design, armor)) == Mass(design) - ArmorMassOf(design.value.armor) + ArmorMassOf(armor)
    ensures CalculateCostBreakdown(WithArmor(design, armor)).total
         == CalculateCostBreakdown(design).total - ArmorCostOf(design.value.armor) + ArmorCostOf(armor)
  {
  }

  /** Setting the same hull twice is setting it once, and updates of
      different fields commute. */
  lemma UpdatesCommute(design: Option<Design>, hull: Hull, drives: seq<Drive>, staff: Staff)
    ensures WithHull(WithHull(design, hull), hull) == WithHull(design, hull)
    ensures WithHull(WithDrives(design, drives), hull) == WithDrives(WithHull(design, hull), drives)
    ensures WithStaff(WithDrives(design, drives), staff) == WithDrives(WithStaff(design, staff), drives)
  {
  }

  /** The wizard: the current panel and the design being edited. */
  class Wizard {
    var currentPanel: Panel
    var design: Option<Design>

    constructor()
      ensures currentPanel == SelectPanel && design == None
    {
      currentPanel := SelectPanel;
      design := None;
    }

    /** `handleNext`. */
    method Next()
      modifies this
      ensures currentPanel == NextPanel(old(currentPanel), old(design))
      ensures design == old(design)
    {
      if !CanAdvance(currentPanel, design) {
        return;
      }
      var currentIndex := IndexOf(currentPanel);
      if currentIndex < |PanelOrder| - 1 {
        currentPanel := PanelOrder[currentIndex + 1];
      }
    }

    /** `handlePrevious`. */
    method Previous()
      modifies this
      ensures currentPanel == PreviousPanel(old(currentPanel))
      ensures design == old(design)
    {
      var currentIndex := IndexOf(currentPanel);
      if currentIndex > 0 {
        currentPanel := PanelOrder[currentIndex - 1];
      }
    }

    /** `handleBackToSelect`. */
    method BackToSelect()
      modifies this
      ensures currentPanel == SelectPanel && design == None
    {
      currentPanel := SelectPanel;
      design := None;
    }

    /** `handleSelectCraft`: a craft opens on the hull panel; no craft
        changes nothing. */
    method SelectCraft(craft: Option<Design>)
      modifies this
      ensures craft.Some? ==> currentPanel == HullPanel && design == craft
      ensures craft.None? ==> currentPanel == old(currentPanel) && design == old(design)
    {
      if craft.Some? {
        design := craft;
        currentPanel := HullPanel;
      }
    }

    /** `handleCreateNew`. */
    method CreateNew()
      modifies this
      ensures currentPanel == HullPanel && design == Some(CreateNewDesign())
    {
      design := Some(CreateNewDesign());
      currentPanel := HullPanel;
    }

    /** `handleUpdateHull` (the other updates below follow the same shape). */
    method UpdateHull(hull: Hull)
      modifies this
      ensures design == WithHull(old(design), hull) && currentPanel == old(currentPanel)
    {
      if design.Some? {
        design := Some(design.value.(hull := hull));
      }
    }

    method UpdateArmor(armor: Option<Armor>)
      modifies this
      ensures design == WithArmor(old(design), armor) && currentPanel == old(currentPanel)
    {
      if design.Some? {
        design := Some(design.value.(armor := armor));
      }
    }

    method UpdateDrives(drives: seq<Drive>)
      modifies this
      ensures design == WithDrives(old(design), drives) && currentPanel == old(currentPanel)
    {
      if design.Some? {
        design := Some(design.value.(drives := drives));
      }
    }

    method UpdateFuel(fuel: Fuel)
      modifies this
      ensures design == WithFuel(old(design), fuel) && currentPanel == old(currentPanel)
    {
      if design.Some? {
        design := Some(design.value.(fuel := fuel));
      }
    }

    method UpdateFittings(fittings: seq<Fitting>)
      modifies this
      ensures design == WithFittings(old(design), fittings) && currentPanel == old(currentPanel)
    {
      if design.Some? {
        design := Some(design.value.(fittings := fittings));
      }
    }

    method UpdateWeapons(weapons: seq<Weapon>)
      modifies this
      ensures design == WithWeapons(old(design), weapons) && currentPanel == old(currentPanel)
    {
      if design.Some? {
        design := Some(design.value.(weapons := weapons));
      }
    }

    method UpdateStaff(staff: Staff)
      modifies this
      ensures design == WithStaff(old(design), staff) && currentPanel == old(currentPanel)
    {
      if design.Some? {
        design := Some(design.value.(staff := staff));
      }
    }
  }

  /** A walk through the wizard: a new design starts on the hull panel,
      stays there while its hull is blank, and going back returns to the
      selection panel with the design kept. */
  method WizardWalk() returns (w: Wizard)
    ensures w.currentPanel == SelectPanel && w.design == Some(CreateNewDesign())
  {
    w := new Wizard();
    w.CreateNew();
    w.Next();
    NewDesignStaysOnHull();
    assert w.currentPanel == HullPanel;
    w.Previous();
  }
}
