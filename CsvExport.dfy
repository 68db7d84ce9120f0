/** The CSV the summary panel writes (`handleExportCSV`): field escaping,
    the header lines, one row per part of the design with the category
    written on the first row of each group only, the cargo and staff lists,
    the crew total and the totals rows. How JavaScript writes a number as
    text (`String(n)`, `toFixed`) is a parameter. */
module CsvExport {
  import opened Util
  import opened Text
  import opened DriveRules
  import opened ArmorRules
  import HullRules
  import opened ShipTypes
  import opened CsvImport

  // ---------------------------------------------------------------------
  // escapeCSV

  /** A value `escapeCSV` wraps in quotes. */
  predicate NeedsQuoting(v: string)
  {
    ',' in v || '"' in v || '\n' in v
  }

  /** `escapeCSV`: a value with a comma, a quote or a newline is wrapped in
      quotes with its own quotes doubled; any other value is written as it
      is. */
  function EscapeCsv(v: string): (r: string)
    ensures !NeedsQuoting(v) ==> r == v
    ensures NeedsQuoting(v) ==> |r| >= 2 && r[0] == '"' && r[|r| - 1] == '"'
                                && UndoubleQuotes(r[1..|r| - 1]) == v
  {
    if NeedsQuoting(v) then
      var r := "\"" + DoubleQuotes(v) + "\"";
      assert r[1..|r| - 1] == DoubleQuotes(v);
      UndoubleDouble(v);
      r
    else v
  }

  /** An escaped value followed by the end of the line or by a comma is
      read back as one field holding the value. */
  lemma ScanEscaped(v: string, rest: string)
    requires rest == [] || rest[0] == ','
    ensures Scan(EscapeCsv(v) + rest, false, "") == Scan(rest, false, v)
  {
    if NeedsQuoting(v) {
      ScanQuotedField(v, rest);
    } else {
      ScanPlain(v, rest, "");
      assert "" + v == v;
    }
  }

  /** An opening quote starts the span that `ScanQuoted` reads. */
  lemma ScanQuotedField(v: string, rest: string)
    requires rest == [] || rest[0] == ','
    ensures Scan("\"" + DoubleQuotes(v) + "\"" + rest, false, "") == Scan(rest, false, v)
  {
    var tail := DoubleQuotes(v) + "\"" + rest;
    QuotedSplit(DoubleQuotes(v), rest);
    ScanOpenQuote(tail, "");
    ScanQuoted(v, rest, "");
    assert "" + v == v;
  }

  lemma QuotedSplit(d: string, rest: string)
    ensures "\"" + d + "\"" + rest == "\"" + (d + "\"" + rest)
  {
  }

  /** `parseCSVLine` undoes `escapeCSV`: the escaped text of one value
      reads back as that value, trimmed. */
  lemma EscapeRoundTrip(v: string)
    ensures Fields(EscapeCsv(v)) == [Trim(v)]
  {
    ScanEscaped(v, "");
    assert EscapeCsv(v) + "" == EscapeCsv(v);
  }

  // ---------------------------------------------------------------------
  // addRow

  /** The four cells of one item row, as text. */
  datatype ExportRow = ExportRow(category: string, item: string, tons: string, cost: string)

  /** `addRow`: the four cells escaped and joined with commas. */
  function RowLine(row: ExportRow): string
  {
    EscapeCsv(row.category) + "," + EscapeCsv(row.item) + ","
    + EscapeCsv(row.tons) + "," + EscapeCsv(row.cost)
  }

  /** The lines of several rows, in order. */
  function RowLines(rows: seq<ExportRow>): (r: seq<string>)
    ensures |r| == |rows|
  {
    if rows == [] then [] else [RowLine(rows[0])] + RowLines(rows[1..])
  }

  lemma {:induction false} RowLinesAppend(a: seq<ExportRow>, b: seq<ExportRow>)
    ensures RowLines(a + b) == RowLines(a) + RowLines(b)
  {
    if a == [] {
      assert a + b == b;
    } else {
      assert (a + b)[0] == a[0] && (a + b)[1..] == a[1..] + b;
      RowLinesAppend(a[1..], b);
    }
  }

  lemma RowLinesOne(row: ExportRow)
    ensures RowLines([row]) == [RowLine(row)]
  {
    assert [row][1..] == [];
  }

  lemma ScanEscapedThenComma(v: string, rest: string)
    ensures Scan(EscapeCsv(v) + "," + rest, false, "") == [Trim(v)] + Scan(rest, false, "")
  {
    ScanEscaped(v, "," + rest);
    assert EscapeCsv(v) + "," + rest == EscapeCsv(v) + ("," + rest);
    var s := "," + rest;
    assert s[0] == ',' && s[1..] == rest;
  }

  /** A written row reads back as its four cells, each trimmed, whatever
      commas and quotes the cells hold. */
  lemma RowLineFields(row: ExportRow)
    ensures Fields(RowLine(row)) == [Trim(row.category), Trim(row.item), Trim(row.tons), Trim(row.cost)]
  {
    var tail3 := EscapeCsv(row.cost);
    var tail2 := EscapeCsv(row.tons) + "," + tail3;
    var tail1 := EscapeCsv(row.item) + "," + tail2;
    RowLineShape(row);
    var f3 := Scan(tail3, false, "");
    assert f3 == [Trim(row.cost)] by {
      EscapeRoundTrip(row.cost);
    }
    var f2 := Scan(tail2, false, "");
    assert f2 == [Trim(row.tons)] + f3 by {
      ScanEscapedThenComma(row.tons, tail3);
    }
    var f1 := Scan(tail1, false, "");
    assert f1 == [Trim(row.item)] + f2 by {
      ScanEscapedThenComma(row.item, tail2);
    }
    assert Fields(RowLine(row)) == [Trim(row.category)] + f1 by {
      ScanEscapedThenComma(row.category, tail1);
    }
    FourCells(Trim(row.category), Trim(row.item), Trim(row.tons), Trim(row.cost));
  }

  lemma RowLineShape(row: ExportRow)
    ensures RowLine(row)
         == EscapeCsv(row.category) + "," + (EscapeCsv(row.item) + "," + (EscapeCsv(row.tons) + "," + EscapeCsv(row.cost)))
  {
    var c, i, t, k := EscapeCsv(row.category), EscapeCsv(row.item), EscapeCsv(row.tons), EscapeCsv(row.cost);
    AppendAssoc(c + "," + i + ",", t + ",", k);
    AppendAssoc(c + "," + i, ",", t + "," + k);
    AppendAssoc(c + ",", i + ",", t + "," + k);
    AppendAssoc(c + ",", i, "," + (t + "," + k));
  }

  lemma FourCells<T>(a: T, b: T, c: T, d: T)
    ensures [a] + ([b] + ([c] + [d])) == [a, b, c, d]
  {
  }

  // ---------------------------------------------------------------------
  // groups: the category on the first row only

  /** The item, tons and cost cells of one row of a group. */
  datatype Entry = Entry(item: string, tons: string, cost: string)

  function WithCategory(category: string, e: Entry): ExportRow
  {
    ExportRow(category, e.item, e.tons, e.cost)
  }

  function Unlabelled(e: Entry): ExportRow
  {
    WithCategory("", e)
  }

  /** A group of rows: the heading on the first row, '' on the others, the
      entries in order. */
  function Labelled(heading: string, entries: seq<Entry>): (r: seq<ExportRow>)
    ensures |r| == |entries|
    ensures forall k :: 0 <= k < |r| ==>
              r[k].item == entries[k].item && r[k].tons == entries[k].tons && r[k].cost == entries[k].cost
    ensures |r| > 0 ==> r[0].category == heading
    ensures forall k :: 1 <= k < |r| ==> r[k].category == ""
  {
    if entries == [] then []
    else [WithCategory(heading, entries[0])] + Map(entries[1..], Unlabelled)
  }

  /** The `forEach` of one group with its `first` flag: every entry gives
      one row, the first one labelled. */
  method AddGroup(rows: seq<string>, heading: string, entries: seq<Entry>)
    returns (rows': seq<string>)
    ensures rows' == rows + RowLines(Labelled(heading, entries))
  {
    ghost var group := Labelled(heading, entries);
    rows' := rows;
    var first := true;
    for i := 0 to |entries|
      invariant first <==> i == 0
      invariant rows' == rows + RowLines(group[..i])
    {
      var row := WithCategory(if first then heading else "", entries[i]);
      LabelledPrefixLines(heading, entries, i);
      AppendAssoc(rows, RowLines(group[..i]), [RowLine(row)]);
      rows' := rows' + [RowLine(row)];
      first := false;
    }
    assert group[..|entries|] == group;
  }

  /** One more entry of a group adds its row's line: labelled when it is
      the first, unlabelled otherwise. */
  lemma LabelledPrefixLines(heading: string, entries: seq<Entry>, i: nat)
    requires i < |entries|
    ensures var group := Labelled(heading, entries);
      RowLines(group[..i + 1])
      == RowLines(group[..i]) + [RowLine(WithCategory(if i == 0 then heading else "", entries[i]))]
  {
    var group := Labelled(heading, entries);
    var row := WithCategory(if i == 0 then heading else "", entries[i]);
    assert group[i] == row;
    assert group[..i + 1] == group[..i] + [row];
    RowLinesAppend(group[..i], [row]);
    RowLinesOne(row);
  }

  // ---------------------------------------------------------------------
  // the parts of the design, row by row

  /** How JavaScript writes a number: `String(n)` (what a template literal
      and `escapeCSV` do with a number), `toFixed(1)` and `toFixed(2)`. */
  datatype Formats = Formats(text: real -> string, fixed1: real -> string, fixed2: real -> string)

  /** `toMCr`: credits written as MCr with one decimal. */
  function ToMcr(fmt: Formats, credits: real): string
  {
    fmt.fixed1(credits / 1000000.0)
  }

  /** `design.hull.description || '<code> (<tons> tons)'`. */
  function HullItem(fmt: Formats, hull: Hull): string
  {
    if hull.description.Some? && hull.description.value != "" then hull.description.value
    else hull.tonnageCode + " (" + fmt.text(hull.tonnage) + " tons)"
  }

  function HullRows(fmt: Formats, hull: Hull): seq<ExportRow>
  {
    [ExportRow("Hull", HullItem(fmt, hull), fmt.text(hull.tonnage), ToMcr(fmt, hull.cost))]
  }

  /** The import drops the hull row only when its item starts with a capital
      S and digits, but hull codes are written in lower case: a hull row
      written without a description is not recognised as the hull row. */
  lemma HullCodeRowNotSkipped(fmt: Formats, hull: Hull)
    requires hull.description.None? || hull.description.value == ""
    requires hull.tonnageCode == HullRules.HullCode(hull.tonnage)
    ensures HullItem(fmt, hull)[0] == 's'
    ensures !IsHullDetail(HullItem(fmt, hull))
  {
    var item := HullItem(fmt, hull);
    assert item[0] == 's';
    assert TrimStart(item) == item;
  }

  /** The armor row, under the hull and without a category of its own. */
  function ArmorRows(fmt: Formats, armor: Option<Armor>): seq<ExportRow>
  {
    match armor
    case None => []
    case Some(a) =>
      [ExportRow("", ArmorKey(a.kind) + " Rating " + IntToString(a.rating), fmt.text(a.mass), ToMcr(fmt, a.cost))]
  }

  /** `drive.type` as the design stores it. */
  function CategoryKey(category: DriveCategory): string
  {
    match category
    case PowerPlant => "powerPlant"
    case Maneuver => "maneuver"
    case Jump => "jump"
  }

  /** `formatPerformanceRating` as the export calls it: `M-` for a maneuver
      drive and `P-` for any other, then the rating. */
  function PerformanceText(rating: int, category: DriveCategory): string
  {
    (if category == Maneuver then "M-" else "P-") + IntToString(rating)
  }

  function DriveEntry(fmt: Formats, d: Drive): Entry
  {
    Entry(CategoryKey(d.category) + " - Model " + d.model + " (" + PerformanceText(d.rating, d.category) + ")",
          fmt.text(d.mass), ToMcr(fmt, d.cost))
  }

  function DriveEntries(fmt: Formats, drives: seq<Drive>): (r: seq<Entry>)
    ensures |r| == |drives|
  {
    seq(|drives|, k requires 0 <= k < |drives| => DriveEntry(fmt, drives[k]))
  }

  function FuelRows(fmt: Formats, fuel: Fuel): seq<ExportRow>
  {
    [ExportRow("Fuel", fmt.text(fuel.amount) + " tons (" + fmt.text(fuel.duration) + " hours)",
               fmt.text(fuel.mass), "0.0")]
  }

  /** `n || 1` for an optional count: a missing or zero count reads as 1. */
  function OrOne(n: Option<int>): (r: int)
    ensures r != 0
  {
    if n.Some? && n.value != 0 then n.value else 1
  }

  /** The item text of a fitting: the crew of a cockpit or control cabin,
      the passengers of a cabin, the DM of electronics, otherwise the
      quantity when it is more than one. */
  function FittingText(f: Fitting): string
  {
    if f.fittingType == "cockpit" || f.fittingType == "control_cabin" then
      f.name + " (" + IntToString(OrOne(f.crew)) + " crew)"
    else if f.fittingType == "cabin" then
      f.name + " (" + IntToString(OrOne(f.passengers)) + " passenger"
      + (if OrOne(f.passengers) > 1 then "s" else "") + ")"
    else if f.fittingType == "electronics" then
      f.name + " (DM "
      + (match f.dieModifier
         case None => "undefined"
         case Some(dm) => (if dm >= 0 then "+" else "") + IntToString(dm))
      + ")"
    else if f.quantity > 1 then f.name + " x" + IntToString(f.quantity)
    else f.name
  }

  function FittingEntries(fmt: Formats, fittings: seq<Fitting>): (r: seq<Entry>)
    ensures |r| == |fittings|
  {
    seq(|fittings|, k requires 0 <= k < |fittings| =>
      Entry(FittingText(fittings[k]), fmt.text(fittings[k].mass), ToMcr(fmt, fittings[k].cost)))
  }

  /** `<name> x<quantity> (<mount>)`; a missing mount reads `undefined`. */
  function WeaponItem(w: Weapon): string
  {
    w.name + " x" + IntToString(w.quantity) + " ("
    + (if w.mountType.Some? then w.mountType.value else "undefined") + ")"
  }

  function WeaponEntries(fmt: Formats, weapons: seq<Weapon>): (r: seq<Entry>)
    ensures |r| == |weapons|
  {
    seq(|weapons|, k requires 0 <= k < |weapons| =>
      Entry(WeaponItem(weapons[k]), fmt.text(weapons[k].mass), ToMcr(fmt, weapons[k].cost)))
  }

  const UnarmedRow := ExportRow("Weapons", "Unarmed", "0", "0.0")

  /** One row per weapon, or the single Unarmed row. */
  function WeaponRows(fmt: Formats, weapons: seq<Weapon>): seq<ExportRow>
  {
    if |weapons| > 0 then Labelled("Weapons", WeaponEntries(fmt, weapons)) else [UnarmedRow]
  }

  /** An entry of `cargoItems`; `cost` is in MCr. */
  datatype CargoItem = CargoItem(item: string, tons: real, cost: real)

  /** `cargoItems`: the cargo bay, the ship's locker at 0.2 MCr a ton, the
      missile reloads and the modular cutter bay, each only when present. */
  function CargoItems(fmt: Formats, cargo: Cargo): seq<CargoItem>
  {
    (if cargo.cargoBay > 0.0
     then [CargoItem("Cargo Bay (" + fmt.text(cargo.cargoBay) + " tons)", cargo.cargoBay, 0.0)] else [])
    + (if cargo.shipsLocker > 0.0
       then [CargoItem("Ship's Locker (" + fmt.text(cargo.shipsLocker) + " tons)", cargo.shipsLocker, cargo.shipsLocker * 0.2)]
       else [])
    + (if cargo.missileReloads.Some? && cargo.missileReloads.value > 0.0
       then [CargoItem("Missile Reloads (" + fmt.text(cargo.missileReloads.value) + " tons)", cargo.missileReloads.value, 0.0)]
       else [])
    + (if cargo.modularCutterBay then [CutterBay] else [])
  }

  const CutterBay := CargoItem("Modular Cutter Bay (30 tons)", 30.0, 0.0)

  function CargoCost(c: CargoItem): real
  {
    c.cost
  }

  function CargoEntries(fmt: Formats, items: seq<CargoItem>): (r: seq<Entry>)
    ensures |r| == |items|
  {
    seq(|items|, k requires 0 <= k < |items| =>
      Entry(items[k].item, fmt.text(items[k].tons), if items[k].cost == 0.0 then "0.0" else fmt.fixed1(items[k].cost)))
  }

  /** An entry of `staffItems`: a role and how many fill it. */
  datatype StaffItem = StaffItem(role: string, count: int)

  /** `staffItems`: the pilots always, then each other role that is filled. */
  function StaffItems(staff: Staff): seq<StaffItem>
  {
    [StaffItem("Pilots", staff.pilot)]
    + Present(staff.gunner > 0, StaffItem("Gunners", staff.gunner))
    + Present(staff.engineer, StaffItem("Engineer", 1))
    + Present(staff.comms, StaffItem("Communications", 1))
    + Present(staff.sensors, StaffItem("Sensors", 1))
    + Present(staff.ecm, StaffItem("ECM", 1))
    + Present(staff.other > 0, StaffItem("Other", staff.other))
  }

  /** The one-item list when `present`, otherwise nothing. */
  function Present<T>(present: bool, x: T): (r: seq<T>)
    ensures |r| == if present then 1 else 0
  {
    if present then [x] else []
  }

  function StaffCount(s: StaffItem): int
  {
    s.count
  }

  function BoolCount(b: bool): int
  {
    if b then 1 else 0
  }

  /** `totalCrew`: pilots, gunners, one for each filled single-seat role,
      and the others. */
  function TotalCrew(staff: Staff): int
  {
    staff.pilot + staff.gunner + BoolCount(staff.engineer) + BoolCount(staff.comms)
    + BoolCount(staff.sensors) + BoolCount(staff.ecm) + staff.other
  }

  function StaffEntries(items: seq<StaffItem>): (r: seq<Entry>)
    ensures |r| == |items|
  {
    seq(|items|, k requires 0 <= k < |items| =>
      Entry(items[k].role + ": " + IntToString(items[k].count), "0", "0.0"))
  }

  function TotalCrewRow(staff: Staff): ExportRow
  {
    ExportRow("", "Total Crew: " + IntToString(TotalCrew(staff)), "0", "0.0")
  }

  function TotalsRows(fmt: Formats, hull: Hull, totalMass: real, totalCost: real): seq<ExportRow>
  {
    [ExportRow("", "", "", ""),
     ExportRow("TOTALS", "Total Mass", fmt.fixed2(totalMass), ""),
     ExportRow("", "Hull Capacity", fmt.text(hull.tonnage), ""),
     ExportRow("", "Total Cost", "", ToMcr(fmt, totalCost))]
  }

  /** The rows describing the craft: hull, armor, drives, fuel, fittings
      and weapons. */
  function DesignRows(fmt: Formats, design: Design): seq<ExportRow>
  {
    HullRows(fmt, design.hull)
    + ArmorRows(fmt, design.armor)
    + Labelled("Drives", DriveEntries(fmt, design.drives))
    + FuelRows(fmt, design.fuel)
    + Labelled("Fittings", FittingEntries(fmt, design.fittings))
    + WeaponRows(fmt, design.weapons)
  }

  /** The rows after the weapons: cargo, staff, the crew total and the
      totals block. */
  function ManifestRows(fmt: Formats, design: Design, totalMass: real, totalCost: real): seq<ExportRow>
  {
    Labelled("Cargo", CargoEntries(fmt, CargoItems(fmt, design.cargo)))
    + Labelled("Staff", StaffEntries(StaffItems(design.staff))) + [TotalCrewRow(design.staff)]
    + TotalsRows(fmt, design.hull, totalMass, totalCost)
  }

  /** Every item row of the export, in the order the panel writes them. */
  function BodyRows(fmt: Formats, design: Design, totalMass: real, totalCost: real): seq<ExportRow>
  {
    DesignRows(fmt, design) + ManifestRows(fmt, design, totalMass, totalCost)
  }

  // ---------------------------------------------------------------------
  // the header

  /** `design.description && design.description.trim() !== ''`. */
  predicate HasDescription(description: Option<string>)
  {
    description.Some? && Trim(description.value) != ""
  }

  function NameLine(name: string): string
  {
    "Name," + EscapeCsv(name)
  }

  function DescriptionLine(description: string): string
  {
    "Description," + EscapeCsv(description)
  }

  /** The Hull line carries the total cost of the design, not the hull's. */
  function HullLine(fmt: Formats, tonnage: real, totalCost: real): string
  {
    "Hull," + fmt.text(tonnage) + " tons," + ToMcr(fmt, totalCost) + " MCr"
  }

  /** The import reads the Hull line back as the tonnage and the price in
      MCr it shows, whenever the formatter writes both as plain numerals. */
  lemma HullLineReadsBack(fmt: Formats, tonnage: real, totalCost: real,
                          d1: string, f1: string, d2: string, f2: string)
    requires NumeralParts(d1, f1) && fmt.text(tonnage) == Numeral(d1, f1)
    requires NumeralParts(d2, f2) && ToMcr(fmt, totalCost) == Numeral(d2, f2)
    ensures HullNumbers(HullLine(fmt, tonnage, totalCost)) == Some((DecimalValue(d1, f1), DecimalValue(d2, f2)))
  {
    HullNumbersOfLine(d1, f1, d2, f2);
  }

  const ColumnHeader := "Category,Item,Tons,Cost (MCr)"

  function HeaderLines(fmt: Formats, design: Design, totalCost: real): seq<string>
  {
    [NameLine(design.name)]
    + (if HasDescription(design.description) then [DescriptionLine(design.description.value)] else [])
    + [HullLine(fmt, design.hull.tonnage, totalCost), "", ColumnHeader]
  }

  /** All lines of the export. */
  function ExportLines(fmt: Formats, design: Design, totalMass: real, totalCost: real): seq<string>
  {
    HeaderLines(fmt, design, totalCost) + RowLines(BodyRows(fmt, design, totalMass, totalCost))
  }

  /** Lines written so far are the header and the lines of the rows so far;
      appending the lines of more rows keeps it so. */
  lemma Extend(rows: seq<string>, header: seq<string>, body: seq<ExportRow>, more: seq<ExportRow>)
    requires rows == header + RowLines(body)
    ensures rows + RowLines(more) == header + RowLines(body + more)
  {
    RowLinesAppend(body, more);
    AppendAssoc(header, RowLines(body), RowLines(more));
  }

  /** `addRow`. */
  method AddRow(rows: seq<string>, row: ExportRow) returns (rows': seq<string>)
    ensures rows' == rows + RowLines([row])
  {
    RowLinesOne(row);
    rows' := rows + [RowLine(row)];
  }

  /** `handleExportCSV` up to `rows.join('\n')`: the header lines, then one
      `addRow` per row, group by group. */
  method ExportCsv(fmt: Formats, design: Design, totalMass: real, totalCost: real) returns (csv: string)
    ensures csv == Join(ExportLines(fmt, design, totalMass, totalCost), '\n')
  {
    var rows: seq<string> := [NameLine(design.name)];
    if HasDescription(design.description) {
      rows := rows + [DescriptionLine(design.description.value)];
    }
    rows := rows + [HullLine(fmt, design.hull.tonnage, totalCost)];
    rows := rows + [""];
    rows := rows + [ColumnHeader];
    ghost var header := rows;
    assert header == HeaderLines(fmt, design, totalCost);
    rows := WriteDesignRows(rows, fmt, design);
    rows := WriteManifestRows(rows, fmt, design, totalMass, totalCost);
    AppendAssoc(header, RowLines(DesignRows(fmt, design)), RowLines(ManifestRows(fmt, design, totalMass, totalCost)));
    RowLinesAppend(DesignRows(fmt, design), ManifestRows(fmt, design, totalMass, totalCost));
    csv := Join(rows, '\n');
  }

  /** The `addRow` calls from the hull row to the last weapon row. */
  method WriteDesignRows(rows: seq<string>, fmt: Formats, design: Design) returns (rows': seq<string>)
    ensures rows' == rows + RowLines(DesignRows(fmt, design))
  {
    rows' := rows;
    ghost var body: seq<ExportRow> := [];
    AppendEmpty(rows);

    var hullRows := HullRows(fmt, design.hull);
    Extend(rows', rows, body, hullRows);
    rows' := AddRow(rows', hullRows[0]);
    assert hullRows == [hullRows[0]];
    AppendEmpty(hullRows);
    body := hullRows;

    var armorRows := ArmorRows(fmt, design.armor);
    Extend(rows', rows, body, armorRows);
    if design.armor.Some? {
      rows' := AddRow(rows', armorRows[0]);
      assert armorRows == [armorRows[0]];
    } else {
      assert armorRows == [];
    }
    body := body + armorRows;

    var drives := DriveEntries(fmt, design.drives);
    Extend(rows', rows, body, Labelled("Drives", drives));
    rows' := AddGroup(rows', "Drives", drives);
    body := body + Labelled("Drives", drives);

    var fuelRows := FuelRows(fmt, design.fuel);
    Extend(rows', rows, body, fuelRows);
    rows' := AddRow(rows', fuelRows[0]);
    assert fuelRows == [fuelRows[0]];
    body := body + fuelRows;

    var fittings := FittingEntries(fmt, design.fittings);
    Extend(rows', rows, body, Labelled("Fittings", fittings));
    rows' := AddGroup(rows', "Fittings", fittings);
    body := body + Labelled("Fittings", fittings);

    var weaponRows := WeaponRows(fmt, design.weapons);
    Extend(rows', rows, body, weaponRows);
    if |design.weapons| > 0 {
      rows' := AddGroup(rows', "Weapons", WeaponEntries(fmt, design.weapons));
    } else {
      rows' := AddRow(rows', UnarmedRow);
    }
    body := body + weaponRows;
    assert body == DesignRows(fmt, design);
  }

  /** The `addRow` calls from the cargo rows to the end of the totals. */
  method WriteManifestRows(rows: seq<string>, fmt: Formats, design: Design, totalMass: real, totalCost: real)
    returns (rows': seq<string>)
    ensures rows' == rows + RowLines(ManifestRows(fmt, design, totalMass, totalCost))
  {
    rows' := rows;
    ghost var body: seq<ExportRow> := [];
    AppendEmpty(rows);

    var cargoItems := CargoItems(fmt, design.cargo);
    var cargo := CargoEntries(fmt, cargoItems);
    Extend(rows', rows, body, Labelled("Cargo", cargo));
    if |cargoItems| > 0 {
      rows' := AddGroup(rows', "Cargo", cargo);
    } else {
      assert Labelled("Cargo", cargo) == [];
    }
    AppendEmpty(Labelled("Cargo", cargo));
    body := Labelled("Cargo", cargo);

    var staff := StaffEntries(StaffItems(design.staff));
    Extend(rows', rows, body, Labelled("Staff", staff));
    rows' := AddGroup(rows', "Staff", staff);
    body := body + Labelled("Staff", staff);

    Extend(rows', rows, body, [TotalCrewRow(design.staff)]);
    rows' := AddRow(rows', TotalCrewRow(design.staff));
    body := body + [TotalCrewRow(design.staff)];

    var totals := TotalsRows(fmt, design.hull, totalMass, totalCost);
    Extend(rows', rows, body, totals);
    rows' := AddTotals(rows', totals);
    body := body + totals;
    assert body == ManifestRows(fmt, design, totalMass, totalCost);
  }

  /** The four `addRow` calls of the totals. */
  method AddTotals(rows: seq<string>, totals: seq<ExportRow>) returns (rows': seq<string>)
    requires |totals| == 4
    ensures rows' == rows + RowLines(totals)
  {
    ghost var done := [totals[0]];
    rows' := AddRow(rows, totals[0]);
    Extend(rows', rows, done, [totals[1]]);
    rows' := AddRow(rows', totals[1]);
    done := done + [totals[1]];
    Extend(rows', rows, done, [totals[2]]);
    rows' := AddRow(rows', totals[2]);
    done := done + [totals[2]];
    Extend(rows', rows, done, [totals[3]]);
    rows' := AddRow(rows', totals[3]);
    done := done + [totals[3]];
    assert done == totals;
  }

  // ---------------------------------------------------------------------
  // what the export promises about its rows

  /** With no weapons the group is exactly the Unarmed row; with weapons it
      is one row per weapon, the first labelled, and none of them reads
      "Unarmed". */
  lemma WeaponRowsUnarmed(fmt: Formats, weapons: seq<Weapon>)
    ensures weapons == [] ==> WeaponRows(fmt, weapons) == [ExportRow("Weapons", "Unarmed", "0", "0.0")]
    ensures weapons != [] ==> |WeaponRows(fmt, weapons)| == |weapons|
                              && WeaponRows(fmt, weapons)[0].category == "Weapons"
                              && forall k :: 0 <= k < |weapons| ==> WeaponRows(fmt, weapons)[k].item != "Unarmed"
  {
    if weapons != [] {
      var rows := WeaponRows(fmt, weapons);
      forall k | 0 <= k < |weapons|
        ensures rows[k].item != "Unarmed"
      {
        var w := weapons[k];
        assert rows[k].item == WeaponItem(w);
        assert WeaponItem(w)[|w.name|] == ' ';
        assert forall i :: 0 <= i < |"Unarmed"| ==> "Unarmed"[i] != ' ';
      }
    }
  }

  /** Only the ship's locker costs anything, 0.2 MCr a ton; every listed
      item has a positive tonnage; the cutter bay, when fitted, is last and
      is 30 tons at no cost. */
  lemma CargoListing(fmt: Formats, cargo: Cargo)
    ensures Sum(CargoItems(fmt, cargo), CargoCost)
         == if cargo.shipsLocker > 0.0 then cargo.shipsLocker * 0.2 else 0.0
    ensures forall c :: c in CargoItems(fmt, cargo) ==> c.tons > 0.0
    ensures cargo.modularCutterBay ==>
              var items := CargoItems(fmt, cargo);
              |items| > 0 && items[|items| - 1] == CutterBay
  {
    var bay := if cargo.cargoBay > 0.0
      then [CargoItem("Cargo Bay (" + fmt.text(cargo.cargoBay) + " tons)", cargo.cargoBay, 0.0)] else [];
    var locker := if cargo.shipsLocker > 0.0
      then [CargoItem("Ship's Locker (" + fmt.text(cargo.shipsLocker) + " tons)", cargo.shipsLocker, cargo.shipsLocker * 0.2)]
      else [];
    var reloads := if cargo.missileReloads.Some? && cargo.missileReloads.value > 0.0
      then [CargoItem("Missile Reloads (" + fmt.text(cargo.missileReloads.value) + " tons)", cargo.missileReloads.value, 0.0)]
      else [];
    var cutter := if cargo.modularCutterBay then [CutterBay] else [];
    assert CargoItems(fmt, cargo) == bay + locker + reloads + cutter;
    SumAppend(bay, locker, CargoCost);
    SumAppend(bay + locker, reloads, CargoCost);
    SumAppend(bay + locker + reloads, cutter, CargoCost);
  }

  /** The crew total is the sum of the counts the staff rows list, when no
      count is negative. */
  lemma TotalCrewListed(staff: Staff)
    requires staff.gunner >= 0 && staff.other >= 0
    ensures TotalCrew(staff) == SumInt(StaffItems(staff), StaffCount)
    ensures StaffItems(staff)[0] == StaffItem("Pilots", staff.pilot)
  {
    var p0 := [StaffItem("Pilots", staff.pilot)];
    var p1 := Present(staff.gunner > 0, StaffItem("Gunners", staff.gunner));
    var p2 := Present(staff.engineer, StaffItem("Engineer", 1));
    var p3 := Present(staff.comms, StaffItem("Communications", 1));
    var p4 := Present(staff.sensors, StaffItem("Sensors", 1));
    var p5 := Present(staff.ecm, StaffItem("ECM", 1));
    var p6 := Present(staff.other > 0, StaffItem("Other", staff.other));
    SumIntAppend(p0, p1, StaffCount);
    SumIntAppend(p0 + p1, p2, StaffCount);
    SumIntAppend(p0 + p1 + p2, p3, StaffCount);
    SumIntAppend(p0 + p1 + p2 + p3, p4, StaffCount);
    SumIntAppend(p0 + p1 + p2 + p3 + p4, p5, StaffCount);
    SumIntAppend(p0 + p1 + p2 + p3 + p4 + p5, p6, StaffCount);
    PresentCount(true, StaffItem("Pilots", staff.pilot));
    PresentCount(staff.gunner > 0, StaffItem("Gunners", staff.gunner));
    PresentCount(staff.engineer, StaffItem("Engineer", 1));
    PresentCount(staff.comms, StaffItem("Communications", 1));
    PresentCount(staff.sensors, StaffItem("Sensors", 1));
    PresentCount(staff.ecm, StaffItem("ECM", 1));
    PresentCount(staff.other > 0, StaffItem("Other", staff.other));
  }

  lemma PresentCount(present: bool, item: StaffItem)
    ensures SumInt(Present(present, item), StaffCount) == if present then item.count else 0
  {
    if present {
      assert [item][1..] == [];
    }
  }


  /** A plain fitting written with its quantity reads back, through the
      import's `xN` rule, as the same quantity and the trimmed name; one
      written without a quantity reads back as one, when its name does not
      end in a digit. */
  lemma FittingTextReadsBack(f: Fitting)
    requires f.fittingType != "cockpit" && f.fittingType != "control_cabin"
    requires f.fittingType != "cabin" && f.fittingType != "electronics"
    ensures f.quantity > 1 ==> FittingQuantity(FittingText(f)) == f.quantity
                               && FittingName(FittingText(f)) == Trim(f.name)
    ensures f.quantity <= 1 && (f.name == [] || !IsDigit(f.name[|f.name| - 1])) ==>
              FittingQuantity(FittingText(f)) == 1 && FittingName(FittingText(f)) == Trim(f.name)
  {
    if f.quantity > 1 {
      assert FittingText(f) == f.name + " x" + NatToString(f.quantity);
      FittingQuantityRoundTrip(f.name, f.quantity);
    } else if f.name == [] || !IsDigit(f.name[|f.name| - 1]) {
      FittingWithoutQuantity(f.name);
    }
  }

  // ---------------------------------------------------------------------
  // reading written rows back

  /** The cells the import finds on the line of a written row. */
  function CellsOf(row: ExportRow): (r: seq<string>)
    ensures |r| == 4
  {
    [Trim(row.category), Trim(row.item), Trim(row.tons), Trim(row.cost)]
  }

  /** An entry with its three cells trimmed, as the import sees them. */
  function Trimmed(e: Entry): Entry
  {
    Entry(Trim(e.item), Trim(e.tons), Trim(e.cost))
  }

  /** The cells of a line holding `t` under `category`. */
  function Cells(category: string, t: Entry): (r: seq<string>)
    ensures |r| == 4
  {
    [category, t.item, t.tons, t.cost]
  }

  function BlankCells(t: Entry): (r: seq<string>)
    ensures |r| == 4
  {
    Cells("", t)
  }

  /** The cells of the lines of a group whose cells are already trimmed. */
  function GroupCells(heading: string, ts: seq<Entry>): (r: seq<seq<string>>)
    ensures |r| == |ts|
    ensures forall k :: 0 <= k < |r| ==> r[k] == Cells(if k == 0 then heading else "", ts[k])
    ensures forall k :: 0 <= k < |r| ==> |r[k]| >= 1
  {
    if ts == [] then [] else [Cells(heading, ts[0])] + Map(ts[1..], BlankCells)
  }

  /** `value || '0'` on an already trimmed cell. */
  function OrZero(s: string): (r: string)
    ensures r != ""
    ensures s != "" ==> r == s
  {
    if s != "" then s else "0"
  }

  /** The row the import makes of trimmed cells under `category`. */
  function RowRead(category: string, t: Entry): CsvRow
  {
    CsvRow(category, t.item, OrZero(t.tons), OrZero(t.cost))
  }

  function RowsRead(category: string, ts: seq<Entry>): (r: seq<CsvRow>)
    ensures |r| == |ts|
    ensures forall k :: 0 <= k < |r| ==> r[k] == RowRead(category, ts[k])
  {
    if ts == [] then [] else [RowRead(category, ts[0])] + RowsRead(category, ts[1..])
  }

  /** What the import makes of the entries of a group written under
      `category`: the trimmed item, and the trimmed tons and cost with an
      empty cell read as "0". */
  function EntriesRead(category: string, entries: seq<Entry>): (r: seq<CsvRow>)
    ensures |r| == |entries|
    ensures forall k :: 0 <= k < |r| ==>
              r[k] == CsvRow(category, Trim(entries[k].item),
                             OrZero(Trim(entries[k].tons)), OrZero(Trim(entries[k].cost)))
  {
    RowsRead(category, Map(entries, Trimmed))
  }

  lemma {:induction false} RowLinesAt(rows: seq<ExportRow>, k: nat)
    requires k < |rows|
    ensures RowLines(rows)[k] == RowLine(rows[k])
  {
    if k > 0 {
      RowLinesAt(rows[1..], k - 1);
    }
  }

  /** The import splits each written line back into the row's trimmed
      cells. */
  lemma FieldsOfRowLines(rows: seq<ExportRow>)
    ensures FieldsOfLines(RowLines(rows)) == Map(rows, CellsOf)
  {
    forall k | 0 <= k < |rows|
      ensures FieldsOfLines(RowLines(rows))[k] == Map(rows, CellsOf)[k]
    {
      RowLinesAt(rows, k);
      RowLineFields(rows[k]);
    }
  }

  /** The trimmed cells of the `k`th row of a group. */
  lemma LabelledCells(heading: string, entries: seq<Entry>, k: nat)
    requires k < |entries|
    ensures CellsOf(Labelled(heading, entries)[k])
         == Cells(if k == 0 then Trim(heading) else "", Trimmed(entries[k]))
  {
    assert Trim("") == "";
  }

  /** The lines of a written group split into the group's cells. */
  lemma GroupFields(heading: string, entries: seq<Entry>)
    ensures FieldsOfLines(RowLines(Labelled(heading, entries)))
         == GroupCells(Trim(heading), Map(entries, Trimmed))
  {
    var rows := Labelled(heading, entries);
    FieldsOfRowLines(rows);
    forall k | 0 <= k < |rows|
      ensures Map(rows, CellsOf)[k] == GroupCells(Trim(heading), Map(entries, Trimmed))[k]
    {
      LabelledCells(heading, entries, k);
    }
  }

  /** One row with an empty category, read under `category`. */
  lemma BlankStep(t: Entry, rest: seq<seq<string>>, category: string)
    requires category != "Hull" && t.item != "Total Mass"
    requires forall k :: 0 <= k < |rest| ==> |rest[k]| >= 1
    ensures RowsFrom([BlankCells(t)] + rest, true, category) == [RowRead(category, t)] + RowsFrom(rest, true, category)
  {
    assert Trim("") == "";
    CategoryCarriesForward(BlankCells(t), rest, category);
  }

  /** Rows with an empty category all read back under the category carried
      in from above. */
  lemma {:induction false} BlankRowsReadBack(ts: seq<Entry>, category: string)
    requires category != "Hull"
    requires forall k :: 0 <= k < |ts| ==> ts[k].item != "Total Mass"
    ensures RowsFrom(Map(ts, BlankCells), true, category) == RowsRead(category, ts)
  {
    if ts != [] {
      MapCons(ts, BlankCells);
      BlankStep(ts[0], Map(ts[1..], BlankCells), category);
      BlankRowsReadBack(ts[1..], category);
    }
  }

  /** The cells of a whole group read back under its heading. */
  lemma GroupCellsReadBack(heading: string, ts: seq<Entry>, category: string)
    requires Trim(heading) == heading && heading != "" && heading != "Hull" && heading != "TOTALS"
    requires forall k :: 0 <= k < |ts| ==> ts[k].item != "Total Mass"
    ensures RowsFrom(GroupCells(heading, ts), true, category) == RowsRead(heading, ts)
  {
    if ts != [] {
      var rest := Map(ts[1..], BlankCells);
      assert GroupCells(heading, ts) == [Cells(heading, ts[0])] + rest;
      CategoryStarts(Cells(heading, ts[0]), rest, category);
      BlankRowsReadBack(ts[1..], heading);
    }
  }

  /** A written group reads back as one row per entry, all under the
      group's trimmed heading, with the trimmed item and the tons and cost
      ("0" when empty) — whatever category was carried in from above. */
  lemma GroupReadsBack(heading: string, entries: seq<Entry>, category: string)
    requires Trim(heading) != "" && Trim(heading) != "Hull" && Trim(heading) != "TOTALS"
    requires forall k :: 0 <= k < |entries| ==> Trim(entries[k].item) != "Total Mass"
    ensures RowsFrom(FieldsOfLines(RowLines(Labelled(heading, entries))), true, category)
         == EntriesRead(Trim(heading), entries)
  {
    GroupFields(heading, entries);
    TrimIdempotent(heading);
    GroupCellsReadBack(Trim(heading), Map(entries, Trimmed), category);
  }

  // ---------------------------------------------------------------------
  // reading the written header back

  /** No character of the text breaks a line. */
  predicate SingleLine(v: string)
  {
    forall k :: 0 <= k < |v| ==> !IsLineTerminator(v[k])
  }

  /** What the import reads back from a header value the panel wrote: a
      quoted value whole, a plain one trimmed. */
  function HeaderReadBack(v: string): string
  {
    if NeedsQuoting(v) then v else Trim(v)
  }

  /** Escaping adds only quotes, so it adds no line break. */
  lemma EscapedSingleLine(v: string)
    requires SingleLine(v)
    ensures SingleLine(EscapeCsv(v))
  {
    if NeedsQuoting(v) {
      var d := DoubleQuotes(v);
      var r := EscapeCsv(v);
      assert r == "\"" + d + "\"";
      DoubleQuotesChars(v);
      forall k | 0 <= k < |r|
        ensures !IsLineTerminator(r[k])
      {
        if 0 < k < |r| - 1 {
          assert r[k] == d[k - 1];
          assert r[k] in v;
          var j :| 0 <= j < |v| && v[j] == r[k];
        }
      }
    }
  }

  /** A line starting with a word that has no white space at its ends loses
      white space only at its end. */
  lemma TrimAfterWord(word: string, e: string)
    requires word != [] && !IsWhitespace(word[0]) && !IsWhitespace(word[|word| - 1])
    ensures Trim(word + e) == word + TrimEnd(e)
  {
    assert (word + e)[0] == word[0];
    assert TrimStart(word + e) == word + e;
    TrimEndAfter(word, e);
  }

  /** A plain value has no quote, so trimming it leaves no leading quote. */
  lemma PlainValueUnquoted(v: string)
    requires !NeedsQuoting(v) && Trim(v) != ""
    ensures Unquote(Trim(v)) == Trim(v)
  {
    TrimSpec(v);
    var i, j :| 0 <= i <= j <= |v| && Trim(v) == v[i..j];
    assert Trim(v)[0] == v[i];
  }

  /** The value after the tag, trimmed and unquoted, is what was escaped. */
  lemma EscapedValueUnquoted(v: string)
    requires Trim(v) != ""
    ensures TrimEnd(EscapeCsv(v)) != []
    ensures Unquote(Trim(TrimEnd(EscapeCsv(v)))) == HeaderReadBack(v)
  {
    if NeedsQuoting(v) {
      QuotedValueUnquoted(v);
    } else {
      TrimOfTrimEnd(v);
      assert Trim(TrimEnd(v)) != [];
      PlainValueUnquoted(v);
    }
  }

  /** A quoted value has quotes at both ends, so trimming keeps it whole
      and unquoting gives the value back. */
  lemma QuotedValueUnquoted(v: string)
    requires NeedsQuoting(v)
    ensures EscapeCsv(v) != [] && TrimEnd(EscapeCsv(v)) == EscapeCsv(v)
    ensures Unquote(Trim(EscapeCsv(v))) == v
  {
    var e := EscapeCsv(v);
    assert e[0] == '"' && e[|e| - 1] == '"';
    assert !IsWhitespace(e[0]) && !IsWhitespace(e[|e| - 1]);
    TrimTrimmed(e);
    assert Unquote(e) == UndoubleQuotes(e[1..|e| - 1]);
  }

  lemma TrimEndSingleLine(s: string)
    requires SingleLine(s)
    ensures SingleLine(TrimEnd(s))
  {
  }

  /** A line made of a word that matches the tag and a value on one line
      yields that value. */
  lemma LabelledAfterWord(word: string, tag: string, value: string)
    requires LowerAsciiString(word) == tag
    requires value != [] && SingleLine(value)
    ensures LabelledValue(word + value, tag) == Some(value)
  {
    var t := word + value;
    assert t[..|tag|] == word;
    assert t[|tag|..] == value;
    forall k | |tag| <= k < |t|
      ensures !IsLineTerminator(t[k])
    {
      assert t[k] == value[k - |tag|];
    }
  }

  /** A `Name,` or `Description,` line the panel wrote yields the value
      back, when the value is on one line and is not blank. */
  lemma EscapedValueReads(word: string, tag: string, v: string)
    requires word != [] && !IsWhitespace(word[0]) && word[|word| - 1] == ','
    requires LowerAsciiString(word) == tag
    requires SingleLine(v) && Trim(v) != ""
    ensures HeaderValue(word + EscapeCsv(v), tag) == Some(HeaderReadBack(v))
  {
    var e := EscapeCsv(v);
    var te := TrimEnd(e);
    assert !IsWhitespace(word[|word| - 1]);
    TrimAfterWord(word, e);
    assert Trim(word + e) == word + te;
    EscapedValueUnquoted(v);
    EscapedSingleLine(v);
    TrimEndSingleLine(e);
    LabelledAfterWord(word, tag, te);
    assert HeaderValue(word + e, tag) == Some(Unquote(Trim(te)));
  }

  /** The first line of the export holds no line break of its own. */
  lemma NameLineSingle(name: string)
    requires SingleLine(name)
    ensures '\n' !in NameLine(name)
  {
    EscapedSingleLine(name);
  }

  lemma DescriptionLineSingle(description: string)
    requires SingleLine(description)
    ensures '\n' !in DescriptionLine(description)
  {
    EscapedSingleLine(description);
  }

  /** A line that starts with a word of another initial is not taken for
      a line labelled `tag`. */
  lemma OtherWordNotTag(word: string, rest: string, tag: string)
    requires word != [] && !IsWhitespace(word[0]) && !IsWhitespace(word[|word| - 1])
    requires tag != [] && LowerAscii(word[0]) != tag[0]
    ensures HeaderValue(word + rest, tag).None?
  {
    TrimAfterWord(word, rest);
    if HeaderValue(word + rest, tag).Some? {
      FirstLetter(Trim(word + rest), tag);
      assert false;
    }
  }

  /** The Hull line is not taken for a Description line. */
  lemma HullLineNotDescription(fmt: Formats, tonnage: real, totalCost: real)
    ensures HeaderValue(HullLine(fmt, tonnage, totalCost), "description,").None?
  {
    var rest := fmt.text(tonnage) + " tons," + ToMcr(fmt, totalCost) + " MCr";
    assert HullLine(fmt, tonnage, totalCost) == "Hull," + rest;
    OtherWordNotTag("Hull,", rest, "description,");
  }

  /** A capitalised word in lower case. */
  lemma LowerCapitalised(c: char, rest: string)
    requires 'A' <= c <= 'Z'
    requires forall k :: 0 <= k < |rest| ==> !('A' <= rest[k] <= 'Z')
    ensures LowerAsciiString([c] + rest) == [LowerAscii(c)] + rest
  {
    var w := [c] + rest;
    forall k | 1 <= k < |w|
      ensures LowerAsciiString(w)[k] == w[k]
    {
      assert w[k] == rest[k - 1];
    }
  }

  /** The labels the panel writes, in the case the import looks for. */
  lemma NameWord()
    ensures LowerAsciiString("Name,") == "name,"
  {
    assert "Name," == ['N'] + "ame,";
    LowerCapitalised('N', "ame,");
    assert LowerAscii('N') == 'n';
  }

  lemma DescriptionWord()
    ensures LowerAsciiString("Description,") == "description,"
  {
    var rest := "escription,";
    assert "Description," == ['D'] + rest;
    assert "description," == ['d'] + rest;
    NoCapitals(rest);
    LowerCapitalised('D', rest);
    assert LowerAscii('D') == 'd';
  }

  lemma NoCapitals(rest: string)
    requires rest == "escription,"
    ensures forall k :: 0 <= k < |rest| ==> !('A' <= rest[k] <= 'Z')
  {
  }

  /** The first two lines of the export, as the import splits them. */
  lemma ExportedHeadLines(fmt: Formats, design: Design, totalMass: real, totalCost: real)
    requires SingleLine(design.name)
    requires HasDescription(design.description) ==> SingleLine(design.description.value)
    requires '\n' !in HullLine(fmt, design.hull.tonnage, totalCost)
    ensures var lines := Split(Join(ExportLines(fmt, design, totalMass, totalCost), '\n'), '\n');
      && |lines| >= 2 && lines[0] == NameLine(design.name)
      && lines[1] == if HasDescription(design.description) then DescriptionLine(design.description.value)
                     else HullLine(fmt, design.hull.tonnage, totalCost)
  {
    var all := ExportLines(fmt, design, totalMass, totalCost);
    var header := HeaderLines(fmt, design, totalCost);
    assert all[..|header|] == header;
    NameLineSingle(design.name);
    SplitJoinHead(all, '\n');
    if HasDescription(design.description) {
      DescriptionLineSingle(design.description.value);
    }
    assert all[1..][0] == all[1];
    SplitJoinHead(all[1..], '\n');
  }

  /** The first and last characters of a label the panel writes. */
  lemma WordEnds(word: string, first: char)
    requires (word == "Name," && first == 'N') || (word == "Description," && first == 'D')
    ensures word != [] && word[0] == first && word[|word| - 1] == ','
    ensures !IsWhitespace(word[0])
  {
  }

  lemma NameLineReads(name: string)
    requires SingleLine(name) && Trim(name) != ""
    ensures HeaderValue(NameLine(name), "name,") == Some(HeaderReadBack(name))
  {
    NameWord();
    WordEnds("Name,", 'N');
    EscapedValueReads("Name,", "name,", name);
  }

  lemma DescriptionLineReads(description: string)
    requires SingleLine(description) && Trim(description) != ""
    ensures HeaderValue(DescriptionLine(description), "description,") == Some(HeaderReadBack(description))
  {
    DescriptionWord();
    WordEnds("Description,", 'D');
    EscapedValueReads("Description,", "description,", description);
  }

  /** The header values the import finds on the first two lines. */
  lemma HeaderValuesWritten(fmt: Formats, design: Design, totalMass: real, totalCost: real)
    requires SingleLine(design.name) && Trim(design.name) != ""
    requires HasDescription(design.description) ==> SingleLine(design.description.value)
    requires '\n' !in HullLine(fmt, design.hull.tonnage, totalCost)
    ensures var lines := Split(Join(ExportLines(fmt, design, totalMass, totalCost), '\n'), '\n');
      && |lines| >= 2
      && HeaderValue(lines[0], "name,") == Some(HeaderReadBack(design.name))
      && HeaderValue(lines[1], "description,")
         == if HasDescription(design.description) then Some(HeaderReadBack(design.description.value)) else None
  {
    ExportedHeadLines(fmt, design, totalMass, totalCost);
    NameLineReads(design.name);
    if HasDescription(design.description) {
      DescriptionLineReads(design.description.value);
    } else {
      HullLineNotDescription(fmt, design.hull.tonnage, totalCost);
    }
  }

  /** The import reads the name and the description the panel wrote: a
      quoted value whole, a plain one trimmed, and no description when the
      panel wrote none. It needs the values on one line and the name not
      blank; a blank name is not written in a form the import recognises,
      and the file name is used instead. */
  lemma HeaderReadsBack(fmt: Formats, design: Design, totalMass: real, totalCost: real, filename: string)
    requires SingleLine(design.name) && Trim(design.name) != ""
    requires HasDescription(design.description) ==> SingleLine(design.description.value)
    requires '\n' !in HullLine(fmt, design.hull.tonnage, totalCost)
    ensures var info := ExtractHeaderInfo(Join(ExportLines(fmt, design, totalMass, totalCost), '\n'), filename);
      && info.shipName == HeaderReadBack(design.name)
      && info.description
         == if HasDescription(design.description) then HeaderReadBack(design.description.value) else ""
  {
    HeaderValuesWritten(fmt, design, totalMass, totalCost);
    NameLineFirst(Join(ExportLines(fmt, design, totalMass, totalCost), '\n'), filename);
  }
}
