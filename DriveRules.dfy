/** The drive rules of the small-craft tables: the 24 drive models, the
    mass and price of each drive, the performance a model gives each 10-ton
    hull bracket, which models a hull can use, and the fuel the drives burn. */
module DriveRules {
  import opened Util

  /** The drive models sA .. sZ (I and O are not used). */
  datatype DriveModel = SA | SB | SC | SD | SE | SF | SG | SH | SJ | SK | SL | SM | SN | SP | SQ | SR | SS | ST | SU | SV | SW | SX | SY | SZ

  /** `DRIVE_MODELS`, in table order. */
  const DriveModels: seq<DriveModel> := [
    SA, SB, SC, SD, SE, SF, SG, SH, SJ, SK, SL, SM, SN, SP, SQ, SR, SS, ST, SU, SV, SW, SX, SY, SZ
  ]

  /** Position of a model in `DRIVE_MODELS`. */
  function ModelIndex(m: DriveModel): (i: nat)
    ensures i < |DriveModels| && DriveModels[i] == m
  {
    match m
    case SA => 0
    case SB => 1
    case SC => 2
    case SD => 3
    case SE => 4
    case SF => 5
    case SG => 6
    case SH => 7
    case SJ => 8
    case SK => 9
    case SL => 10
    case SM => 11
    case SN => 12
    case SP => 13
    case SQ => 14
    case SR => 15
    case SS => 16
    case ST => 17
    case SU => 18
    case SV => 19
    case SW => 20
    case SX => 21
    case SY => 22
    case SZ => 23
  }

  /** Every position of the table holds the model with that index, so the
      table lists each model once, in index order. */
  lemma ModelIndexOfTable(i: nat)
    requires i < |DriveModels|
    ensures ModelIndex(DriveModels[i]) == i
  {
  }

  /** The letter after the "s" of a model's key. */
  function ModelLetter(m: DriveModel): char
  {
    match m
    case SA => 'A'
    case SB => 'B'
    case SC => 'C'
    case SD => 'D'
    case SE => 'E'
    case SF => 'F'
    case SG => 'G'
    case SH => 'H'
    case SJ => 'J'
    case SK => 'K'
    case SL => 'L'
    case SM => 'M'
    case SN => 'N'
    case SP => 'P'
    case SQ => 'Q'
    case SR => 'R'
    case SS => 'S'
    case ST => 'T'
    case SU => 'U'
    case SV => 'V'
    case SW => 'W'
    case SX => 'X'
    case SY => 'Y'
    case SZ => 'Z'
  }

  /** The model's key, e.g. "sJ". */
  function ModelName(m: DriveModel): string
  {
    ['s', ModelLetter(m)]
  }

  function ModelOfLetter(c: char): Option<DriveModel>
  {
    match c
    case 'A' => Some(SA)
    case 'B' => Some(SB)
    case 'C' => Some(SC)
    case 'D' => Some(SD)
    case 'E' => Some(SE)
    case 'F' => Some(SF)
    case 'G' => Some(SG)
    case 'H' => Some(SH)
    case 'J' => Some(SJ)
    case 'K' => Some(SK)
    case 'L' => Some(SL)
    case 'M' => Some(SM)
    case 'N' => Some(SN)
    case 'P' => Some(SP)
    case 'Q' => Some(SQ)
    case 'R' => Some(SR)
    case 'S' => Some(SS)
    case 'T' => Some(ST)
    case 'U' => Some(SU)
    case 'V' => Some(SV)
    case 'W' => Some(SW)
    case 'X' => Some(SX)
    case 'Y' => Some(SY)
    case 'Z' => Some(SZ)
    case _ => None
  }

  /** Recognises a model key (`DRIVE_MODELS.indexOf(s) !== -1`). */
  function ParseModel(s: string): (r: Option<DriveModel>)
    ensures r.Some? ==> ModelName(r.value) == s
  {
    if |s| == 2 && s[0] == 's' then
      var r := ModelOfLetter(s[1]);
      LetterOfModel(s[1]);
      assert r.Some? ==> ModelName(r.value) == [s[0], s[1]] == s;
      r
    else None
  }

  /** A letter that names a model is that model's letter. */
  lemma LetterOfModel(c: char)
    ensures ModelOfLetter(c).Some? ==> ModelLetter(ModelOfLetter(c).value) == c
  {
  }

  /** Every model's key is recognised as that model. */
  lemma ParseModelName(m: DriveModel)
    ensures ParseModel(ModelName(m)) == Some(m)
  {
    assert ModelOfLetter(ModelLetter(m)) == Some(m);
  }

  /** Distinct models have distinct keys. */
  lemma ModelNameInjective(m1: DriveModel, m2: DriveModel)
    requires ModelName(m1) == ModelName(m2)
    ensures m1 == m2
  {
    ParseModelName(m1);
    ParseModelName(m2);
  }

  // ---------------------------------------------------------------------
  // Drive specifications (mass in tons, price in MCr)

  datatype DriveType = GraviticM | ReactionM | FusionP | ChemicalP
  datatype DriveCategory = PowerPlant | Maneuver | Jump

  datatype DriveSpec = DriveSpec(tonnage: real, cost: real)

  const GraviticSpecs: seq<DriveSpec> := [
    DriveSpec(0.5, 1.0), DriveSpec(1.0, 2.0), DriveSpec(1.5, 3.0), DriveSpec(2.0, 3.5),
    DriveSpec(2.5, 4.0), DriveSpec(3.0, 6.0), DriveSpec(3.5, 8.0), DriveSpec(4.0, 9.0),
    DriveSpec(4.5, 10.0), DriveSpec(5.0, 11.0), DriveSpec(6.0, 12.0), DriveSpec(7.0, 14.0),
    DriveSpec(8.0, 16.0), DriveSpec(9.0, 18.0), DriveSpec(10.0, 20.0), DriveSpec(11.0, 22.0),
    DriveSpec(12.0, 24.0), DriveSpec(13.0, 26.0), DriveSpec(14.0, 28.0), DriveSpec(15.0, 30.0),
    DriveSpec(16.0, 32.0), DriveSpec(17.0, 34.0), DriveSpec(18.0, 36.0), DriveSpec(19.0, 38.0)
  ]

  const ReactionSpecs: seq<DriveSpec> := [
    DriveSpec(0.25, 0.5), DriveSpec(0.5, 1.0), DriveSpec(0.75, 1.5), DriveSpec(1.0, 2.0),
    DriveSpec(1.25, 2.5), DriveSpec(1.5, 3.0), DriveSpec(1.75, 3.5), DriveSpec(2.0, 4.0),
    DriveSpec(2.25, 4.5), DriveSpec(2.5, 5.0), DriveSpec(2.75, 5.5), DriveSpec(3.0, 6.0),
    DriveSpec(3.25, 6.5), DriveSpec(3.5, 7.0), DriveSpec(3.75, 7.5), DriveSpec(4.0, 8.0),
    DriveSpec(4.5, 9.0), DriveSpec(5.0, 10.0), DriveSpec(5.5, 11.0), DriveSpec(6.0, 12.0),
    DriveSpec(6.5, 13.0), DriveSpec(7.0, 14.0), DriveSpec(7.5, 15.0), DriveSpec(8.0, 16.0)
  ]

  const FusionSpecs: seq<DriveSpec> := [
    DriveSpec(1.2, 3.0), DriveSpec(1.5, 3.5), DriveSpec(1.8, 4.0), DriveSpec(2.1, 4.5),
    DriveSpec(2.4, 5.0), DriveSpec(2.7, 5.5), DriveSpec(3.0, 6.0), DriveSpec(3.3, 6.5),
    DriveSpec(3.6, 7.0), DriveSpec(3.9, 7.5), DriveSpec(4.5, 8.0), DriveSpec(5.1, 9.0),
    DriveSpec(5.7, 10.0), DriveSpec(6.3, 12.0), DriveSpec(6.9, 14.0), DriveSpec(7.5, 16.0),
    DriveSpec(8.1, 18.0), DriveSpec(8.7, 20.0), DriveSpec(9.3, 22.0), DriveSpec(9.9, 24.0),
    DriveSpec(10.5, 26.0), DriveSpec(11.1, 28.0), DriveSpec(11.7, 30.0), DriveSpec(12.3, 32.0)
  ]

  const ChemicalSpecs: seq<DriveSpec> := [
    DriveSpec(2.0, 1.0), DriveSpec(2.5, 1.25), DriveSpec(3.0, 1.5), DriveSpec(3.5, 1.75),
    DriveSpec(4.0, 2.0), DriveSpec(4.5, 2.25), DriveSpec(5.0, 2.5), DriveSpec(5.5, 2.75),
    DriveSpec(6.0, 3.0), DriveSpec(6.5, 3.25), DriveSpec(7.0, 3.5), DriveSpec(7.5, 3.75),
    DriveSpec(8.0, 4.0), DriveSpec(8.5, 4.25), DriveSpec(9.0, 4.5), DriveSpec(10.0, 5.0),
    DriveSpec(11.0, 5.5), DriveSpec(12.0, 6.0), DriveSpec(13.0, 6.5), DriveSpec(14.0, 7.0),
    DriveSpec(15.0, 7.5), DriveSpec(16.0, 8.0), DriveSpec(17.0, 8.5), DriveSpec(18.0, 9.0)
  ]

  function SpecTable(t: DriveType): (r: seq<DriveSpec>)
    ensures |r| == |DriveModels|
  {
    match t
    case GraviticM => GraviticSpecs
    case ReactionM => ReactionSpecs
    case FusionP => FusionSpecs
    case ChemicalP => ChemicalSpecs
  }

  /** `getDriveSpec`: the table entry for a drive type and model. */
  function GetDriveSpec(t: DriveType, m: DriveModel): (s: DriveSpec)
    ensures s == SpecTable(t)[ModelIndex(m)]
    ensures s.tonnage > 0.0 && s.cost > 0.0
  {
    SpecTablePositive(t, ModelIndex(m));
    SpecTable(t)[ModelIndex(m)]
  }

  /** Neighbouring models: the later one is heavier and dearer. */
  lemma SpecStep(t: DriveType, i: nat)
    requires i + 1 < |DriveModels|
    ensures SpecTable(t)[i].tonnage < SpecTable(t)[i + 1].tonnage
    ensures SpecTable(t)[i].cost < SpecTable(t)[i + 1].cost
  {
    match t
    case GraviticM => GraviticStep(i);
    case ReactionM => ReactionStep(i);
    case FusionP => FusionStep(i);
    case ChemicalP => ChemicalStep(i);
  }

  /** The step check on each table, entry by entry. */
  lemma GraviticStep(i: nat)
    requires i + 1 < |GraviticSpecs|
    ensures StepsUp(GraviticSpecs, i)
  {
    if i < 12 {
      if i == 0 {} else if i == 1 {} else if i == 2 {} else if i == 3 {} else if i == 4 {} else if i == 5 {}
      else if i == 6 {} else if i == 7 {} else if i == 8 {} else if i == 9 {} else if i == 10 {} else {}
    } else {
      if i == 12 {} else if i == 13 {} else if i == 14 {} else if i == 15 {} else if i == 16 {} else if i == 17 {}
      else if i == 18 {} else if i == 19 {} else if i == 20 {} else if i == 21 {} else {}
    }
  }

  lemma ReactionStep(i: nat)
    requires i + 1 < |ReactionSpecs|
    ensures StepsUp(ReactionSpecs, i)
  {
    if i < 12 {
      if i == 0 {} else if i == 1 {} else if i == 2 {} else if i == 3 {} else if i == 4 {} else if i == 5 {}
      else if i == 6 {} else if i == 7 {} else if i == 8 {} else if i == 9 {} else if i == 10 {} else {}
    } else {
      if i == 12 {} else if i == 13 {} else if i == 14 {} else if i == 15 {} else if i == 16 {} else if i == 17 {}
      else if i == 18 {} else if i == 19 {} else if i == 20 {} else if i == 21 {} else {}
    }
  }

  lemma FusionStep(i: nat)
    requires i + 1 < |FusionSpecs|
    ensures StepsUp(FusionSpecs, i)
  {
    if i < 12 {
      if i == 0 {} else if i == 1 {} else if i == 2 {} else if i == 3 {} else if i == 4 {} else if i == 5 {}
      else if i == 6 {} else if i == 7 {} else if i == 8 {} else if i == 9 {} else if i == 10 {} else {}
    } else {
      if i == 12 {} else if i == 13 {} else if i == 14 {} else if i == 15 {} else if i == 16 {} else if i == 17 {}
      else if i == 18 {} else if i == 19 {} else if i == 20 {} else if i == 21 {} else {}
    }
  }

  lemma ChemicalStep(i: nat)
    requires i + 1 < |ChemicalSpecs|
    ensures StepsUp(ChemicalSpecs, i)
  {
    if i < 12 {
      if i == 0 {} else if i == 1 {} else if i == 2 {} else if i == 3 {} else if i == 4 {} else if i == 5 {}
      else if i == 6 {} else if i == 7 {} else if i == 8 {} else if i == 9 {} else if i == 10 {} else {}
    } else {
      if i == 12 {} else if i == 13 {} else if i == 14 {} else if i == 15 {} else if i == 16 {} else if i == 17 {}
      else if i == 18 {} else if i == 19 {} else if i == 20 {} else if i == 21 {} else {}
    }
  }

  /** Model k + 1 of the table is heavier and dearer than model k. */
  predicate StepsUp(specs: seq<DriveSpec>, k: nat)
    requires k + 1 < |specs|
  {
    specs[k].tonnage < specs[k + 1].tonnage && specs[k].cost < specs[k + 1].cost
  }

  /** In a table that steps up everywhere, a later entry is heavier and
      dearer than every earlier one. */
  lemma {:induction false} ChainUp(specs: seq<DriveSpec>, i: nat, j: nat)
    requires i < j < |specs|
    requires forall k: nat :: k + 1 < |specs| ==> StepsUp(specs, k)
    ensures specs[i].tonnage < specs[j].tonnage && specs[i].cost < specs[j].cost
  {
    assert StepsUp(specs, j - 1);
    if j > i + 1 {
      ChainUp(specs, i, j - 1);
    }
  }

  lemma SpecChain(t: DriveType, i: nat, j: nat)
    requires i < j < |DriveModels|
    ensures SpecTable(t)[i].tonnage < SpecTable(t)[j].tonnage
    ensures SpecTable(t)[i].cost < SpecTable(t)[j].cost
  {
    var specs := SpecTable(t);
    forall k: nat | k + 1 < |specs|
      ensures StepsUp(specs, k)
    {
      SpecStep(t, k);
    }
    ChainUp(specs, i, j);
  }

  lemma SpecTablePositive(t: DriveType, i: nat)
    requires i < |DriveModels|
    ensures SpecTable(t)[i].tonnage > 0.0 && SpecTable(t)[i].cost > 0.0
  {
    assert SpecTable(t)[0].tonnage > 0.0 && SpecTable(t)[0].cost > 0.0;
    if i > 0 {
      SpecChain(t, 0, i);
    }
  }

  /** For every drive type, a later model is strictly heavier and strictly
      dearer than an earlier one. */
  lemma SpecIncreasing(t: DriveType, m1: DriveModel, m2: DriveModel)
    requires ModelIndex(m1) < ModelIndex(m2)
    ensures GetDriveSpec(t, m1).tonnage < GetDriveSpec(t, m2).tonnage
    ensures GetDriveSpec(t, m1).cost < GetDriveSpec(t, m2).cost
  {
    SpecChain(t, ModelIndex(m1), ModelIndex(m2));
  }

  // ---------------------------------------------------------------------
  // Performance per 10-ton hull bracket

  /** `DRIVE_PERFORMANCE[m]`: the ratings for the brackets 10, 20, .., 100;
      None where the model cannot drive a hull of that bracket. */
  function PerformanceRow(m: DriveModel): (row: seq<Option<nat>>)
    ensures |row| == 10
  {
    match m
    case SA => [Some(2), Some(1), None, None, None, None, None, None, None, None]
    case SB => [Some(4), Some(2), Some(1), Some(1), None, None, None, None, None, None]
    case SC => [Some(6), Some(3), Some(2), Some(1), Some(1), Some(1), None, None, None, None]
    case SD => [Some(8), Some(4), Some(2), Some(2), Some(1), Some(1), Some(1), Some(1), None, None]
    case SE => [Some(10), Some(5), Some(3), Some(2), Some(2), Some(1), Some(1), Some(1), Some(1), Some(1)]
    case SF => [Some(12), Some(6), Some(4), Some(3), Some(2), Some(2), Some(1), Some(1), Some(1), Some(1)]
    case SG => [None, Some(7), Some(4), Some(3), Some(2), Some(2), Some(2), Some(2), Some(1), Some(1)]
    case SH => [None, Some(8), Some(5), Some(4), Some(3), Some(2), Some(2), Some(2), Some(2), Some(2)]
    case SJ => [None, Some(9), Some(6), Some(4), Some(3), Some(3), Some(2), Some(2), Some(2), Some(2)]
    case SK => [None, Some(10), Some(6), Some(5), Some(4), Some(3), Some(3), Some(3), Some(2), Some(2)]
    case SL => [None, Some(11), Some(7), Some(5), Some(4), Some(3), Some(3), Some(3), Some(3), Some(3)]
    case SM => [None, Some(12), Some(8), Some(6), Some(4), Some(4), Some(3), Some(3), Some(3), Some(3)]
    case SN => [None, Some(13), Some(8), Some(6), Some(5), Some(4), Some(4), Some(4), Some(3), Some(3)]
    case SP => [None, Some(14), Some(9), Some(7), Some(5), Some(4), Some(4), Some(4), Some(4), Some(4)]
    case SQ => [None, None, Some(10), Some(7), Some(6), Some(5), Some(4), Some(4), Some(4), Some(4)]
    case SR => [None, None, Some(10), Some(8), Some(6), Some(5), Some(5), Some(5), Some(4), Some(4)]
    case SS => [None, None, Some(11), Some(8), Some(6), Some(5), Some(5), Some(5), Some(5), Some(5)]
    case ST => [None, None, Some(12), Some(9), Some(7), Some(6), Some(5), Some(5), Some(5), Some(5)]
    case SU => [None, None, Some(12), Some(9), Some(7), Some(6), Some(6), Some(5), Some(5), Some(5)]
    case SV => [None, None, Some(13), Some(10), Some(8), Some(6), Some(6), Some(6), Some(5), Some(5)]
    case SW => [None, None, Some(14), Some(10), Some(8), Some(7), Some(6), Some(6), Some(6), Some(5)]
    case SX => [None, None, Some(14), Some(11), Some(8), Some(7), Some(6), Some(6), Some(6), Some(6)]
    case SY => [None, None, Some(15), Some(11), Some(9), Some(7), Some(6), Some(6), Some(6), Some(6)]
    case SZ => [None, None, Some(16), Some(12), Some(9), Some(8), Some(6), Some(6), Some(6), Some(6)]
  }

  /** The hull tonnage rounded up to a multiple of ten. */
  function Bracket(tonnage: real): (b: int)
    ensures b % 10 == 0
    ensures (b - 10) as real < tonnage <= b as real
  {
    Ceil(tonnage / 10.0) * 10
  }

  /** `getDrivePerformance`. */
  function GetDrivePerformance(m: DriveModel, tonnage: real): Option<nat>
  {
    var b := Bracket(tonnage);
    if b < 10 || b > 100 then None else PerformanceRow(m)[b / 10 - 1]
  }

  /** A hull between (k-1)*10 and k*10 tons reads column k of the table. */
  lemma PerformanceInBracket(m: DriveModel, tonnage: real, k: int)
    requires 1 <= k <= 10
    requires ((k - 1) * 10) as real < tonnage <= (k * 10) as real
    ensures GetDrivePerformance(m, tonnage) == PerformanceRow(m)[k - 1]
  {
    CeilUnique(tonnage / 10.0, k);
  }

  /** A hull of no tons or of more than 100 tons has no performance at all. */
  lemma PerformanceOutOfRange(m: DriveModel, tonnage: real)
    requires tonnage <= 0.0 || tonnage > 100.0
    ensures GetDrivePerformance(m, tonnage) == None
  {
  }

  /** Every entry of the performance table is at most 16. */
  lemma RowAtMost16(m: DriveModel, k: nat)
    requires k < 10
    ensures PerformanceRow(m)[k].Some? ==> PerformanceRow(m)[k].value <= 16
  {
    if m.SA? || m.SB? || m.SC? || m.SD? || m.SE? || m.SF? {
      RowsAtMost16A(m, k);
    } else if m.SG? || m.SH? || m.SJ? || m.SK? || m.SL? || m.SM? {
      RowsAtMost16B(m, k);
    } else if m.SN? || m.SP? || m.SQ? || m.SR? || m.SS? || m.ST? {
      RowsAtMost16C(m, k);
    } else {
      RowsAtMost16D(m, k);
    }
  }

  /** The check, six models at a time and column by column. */
  lemma RowsAtMost16A(m: DriveModel, k: nat)
    requires m.SA? || m.SB? || m.SC? || m.SD? || m.SE? || m.SF?
    requires k < 10
    ensures PerformanceRow(m)[k].Some? ==> PerformanceRow(m)[k].value <= 16
  {
    if k == 0 {} else if k == 1 {} else if k == 2 {} else if k == 3 {} else if k == 4 {} else if k == 5 {}
    else if k == 6 {} else if k == 7 {} else if k == 8 {} else {}
  }

  lemma RowsAtMost16B(m: DriveModel, k: nat)
    requires m.SG? || m.SH? || m.SJ? || m.SK? || m.SL? || m.SM?
    requires k < 10
    ensures PerformanceRow(m)[k].Some? ==> PerformanceRow(m)[k].value <= 16
  {
    if k == 0 {} else if k == 1 {} else if k == 2 {} else if k == 3 {} else if k == 4 {} else if k == 5 {}
    else if k == 6 {} else if k == 7 {} else if k == 8 {} else {}
  }

  lemma RowsAtMost16C(m: DriveModel, k: nat)
    requires m.SN? || m.SP? || m.SQ? || m.SR? || m.SS? || m.ST?
    requires k < 10
    ensures PerformanceRow(m)[k].Some? ==> PerformanceRow(m)[k].value <= 16
  {
    if k == 0 {} else if k == 1 {} else if k == 2 {} else if k == 3 {} else if k == 4 {} else if k == 5 {}
    else if k == 6 {} else if k == 7 {} else if k == 8 {} else {}
  }

  lemma RowsAtMost16D(m: DriveModel, k: nat)
    requires m.SU? || m.SV? || m.SW? || m.SX? || m.SY? || m.SZ?
    requires k < 10
    ensures PerformanceRow(m)[k].Some? ==> PerformanceRow(m)[k].value <= 16
  {
    if k == 0 {} else if k == 1 {} else if k == 2 {} else if k == 3 {} else if k == 4 {} else if k == 5 {}
    else if k == 6 {} else if k == 7 {} else if k == 8 {} else {}
  }

  /** Hence no drive ever rates above 16, whatever the hull. */
  lemma PerformanceAtMost16(m: DriveModel, tonnage: real)
    ensures GetDrivePerformance(m, tonnage).Some? ==> GetDrivePerformance(m, tonnage).value <= 16
  {
    var b := Bracket(tonnage);
    if 10 <= b <= 100 {
      RowAtMost16(m, b / 10 - 1);
    }
  }

  /** `getAvailableDriveModels`: `DRIVE_MODELS` filtered by having a
      performance for the hull. */
  function AvailableDriveModels(tonnage: real): seq<DriveModel>
  {
    Filter(DriveModels, HasPerformance(tonnage))
  }

  function HasPerformance(tonnage: real): DriveModel -> bool
  {
    m => GetDrivePerformance(m, tonnage).Some?
  }

  /** The available models are exactly those with a performance for the hull. */
  lemma AvailableDriveModelsMembers(tonnage: real)
    ensures forall m :: m in AvailableDriveModels(tonnage) <==> GetDrivePerformance(m, tonnage).Some?
  {
    forall m
      ensures m in AvailableDriveModels(tonnage) <==> GetDrivePerformance(m, tonnage).Some?
    {
      var i := ModelIndex(m);
      assert DriveModels[i] == m;
    }
  }

  /** ... and they come in `DRIVE_MODELS` order. */
  lemma AvailableDriveModelsOrdered(tonnage: real)
    ensures var r := AvailableDriveModels(tonnage);
      forall i, j :: 0 <= i < j < |r| ==> ModelIndex(r[i]) < ModelIndex(r[j])
  {
    var key := (m: DriveModel) => ModelIndex(m) as int;
    forall i, j | 0 <= i < j < |DriveModels|
      ensures key(DriveModels[i]) < key(DriveModels[j])
    {
      ModelIndexOfTable(i);
      ModelIndexOfTable(j);
    }
    FilterKeepsOrder(DriveModels, HasPerformance(tonnage), key);
  }

  // ---------------------------------------------------------------------
  // Fuel

  /** Tons of fuel a power plant of each model burns in two weeks. */
  const FusionFuel: seq<real> := [
    1.0, 1.0, 1.0, 1.0, 1.5, 1.5, 1.5, 1.5,
    2.0, 2.0, 2.0, 2.0, 2.5, 2.5, 2.5, 2.5,
    3.0, 3.0, 3.0, 3.0, 3.5, 3.5, 3.5, 3.5
  ]

  const ChemicalFuel: seq<real> := [
    5.0, 10.0, 15.0, 20.0, 25.0, 30.0, 35.0, 40.0,
    45.0, 50.0, 55.0, 60.0, 65.0, 70.0, 75.0, 80.0,
    85.0, 90.0, 95.0, 100.0, 105.0, 110.0, 115.0, 120.0
  ]

  /** Tons a power plant burns per two weeks: the model's entry in the
      fusion or the chemical table; a maneuver drive type is in neither. */
  function PowerPlantRate(t: DriveType, m: DriveModel): real
  {
    match t
    case FusionP => FusionFuel[ModelIndex(m)]
    case ChemicalP => ChemicalFuel[ModelIndex(m)]
    case _ => 0.0
  }

  /** What a plant burning `rate` tons per two weeks burns in `weeks`. */
  function BurnOver(rate: real, weeks: real): real
  {
    rate * (weeks / 2.0)
  }

  /** `calculatePowerPlantFuel`: the two-week figure scaled to `weeks`. */
  function PowerPlantFuel(t: DriveType, m: DriveModel, weeks: real): real
  {
    BurnOver(PowerPlantRate(t, m), weeks)
  }

  /** The fusion table: one ton per two weeks for sA to sD, and half a ton
      more for every further four models. */
  lemma FusionFuelByIndex(i: nat)
    requires i < |FusionFuel|
    ensures FusionFuel[i] == 1.0 + 0.5 * (i / 4) as real
  {
    if i < 12 {
      if i == 0 {} else if i == 1 {} else if i == 2 {} else if i == 3 {} else if i == 4 {} else if i == 5 {}
      else if i == 6 {} else if i == 7 {} else if i == 8 {} else if i == 9 {} else if i == 10 {} else {}
    } else {
      if i == 12 {} else if i == 13 {} else if i == 14 {} else if i == 15 {} else if i == 16 {} else if i == 17 {}
      else if i == 18 {} else if i == 19 {} else if i == 20 {} else if i == 21 {} else if i == 22 {} else {}
    }
  }

  /** The chemical table: five tons per two weeks for each step of the
      model letter. */
  lemma ChemicalFuelByIndex(i: nat)
    requires i < |ChemicalFuel|
    ensures ChemicalFuel[i] == 5.0 * (i + 1) as real
  {
    if i < 12 {
      if i == 0 {} else if i == 1 {} else if i == 2 {} else if i == 3 {} else if i == 4 {} else if i == 5 {}
      else if i == 6 {} else if i == 7 {} else if i == 8 {} else if i == 9 {} else if i == 10 {} else {}
    } else {
      if i == 12 {} else if i == 13 {} else if i == 14 {} else if i == 15 {} else if i == 16 {} else if i == 17 {}
      else if i == 18 {} else if i == 19 {} else if i == 20 {} else if i == 21 {} else if i == 22 {} else {}
    }
  }

  /** The two-week burn of a power plant, by the position of its model. */
  function TwoWeekFuel(t: DriveType, i: nat): real
  {
    match t
    case FusionP => 1.0 + 0.5 * (i / 4) as real
    case ChemicalP => 5.0 * (i + 1) as real
    case _ => 0.0
  }

  /** The two-week figure of a plant is the closed form above, read off
      the model's position. */
  lemma PowerPlantRateByModel(t: DriveType, m: DriveModel)
    ensures PowerPlantRate(t, m) == TwoWeekFuel(t, ModelIndex(m))
  {
    var i := ModelIndex(m);
    if t == FusionP {
      FusionFuelByIndex(i);
    } else if t == ChemicalP {
      ChemicalFuelByIndex(i);
    }
  }

  /** A plant burns its two-week figure once for every two weeks of
      operation, and a maneuver drive type burns nothing. */
  lemma PowerPlantFuelByModel(t: DriveType, m: DriveModel, weeks: real)
    ensures PowerPlantFuel(t, m, weeks) == BurnOver(TwoWeekFuel(t, ModelIndex(m)), weeks)
    ensures t == GraviticM || t == ReactionM ==> PowerPlantFuel(t, m, weeks) == 0.0
  {
    PowerPlantRateByModel(t, m);
    BurnOverEqual(PowerPlantRate(t, m), TwoWeekFuel(t, ModelIndex(m)), weeks);
  }

  lemma BurnOverEqual(a: real, b: real, w: real)
    requires a == b
    ensures BurnOver(a, w) == BurnOver(b, w)
  {
  }

  /** The burn adds up over consecutive spans of weeks and is never
      negative. */
  lemma PowerPlantFuelAdditive(t: DriveType, m: DriveModel, w1: real, w2: real)
    ensures PowerPlantFuel(t, m, w1 + w2) == PowerPlantFuel(t, m, w1) + PowerPlantFuel(t, m, w2)
    ensures w1 >= 0.0 ==> PowerPlantFuel(t, m, w1) >= 0.0
  {
    PowerPlantRateByModel(t, m);
    BurnOverSum(PowerPlantRate(t, m), w1, w2);
  }

  lemma BurnOverSum(a: real, w1: real, w2: real)
    requires a >= 0.0
    ensures BurnOver(a, w1 + w2) == BurnOver(a, w1) + BurnOver(a, w2)
    ensures w1 >= 0.0 ==> BurnOver(a, w1) >= 0.0
  {
  }

  /** A later model of the same plant never burns less. */
  lemma PowerPlantFuelMonotone(t: DriveType, m1: DriveModel, m2: DriveModel, weeks: real)
    requires ModelIndex(m1) <= ModelIndex(m2) && weeks >= 0.0
    ensures PowerPlantFuel(t, m1, weeks) <= PowerPlantFuel(t, m2, weeks)
  {
    PowerPlantRateMonotone(t, m1, m2);
    BurnOverOrder(PowerPlantRate(t, m1), PowerPlantRate(t, m2), weeks);
  }

  lemma PowerPlantRateMonotone(t: DriveType, m1: DriveModel, m2: DriveModel)
    requires ModelIndex(m1) <= ModelIndex(m2)
    ensures PowerPlantRate(t, m1) <= PowerPlantRate(t, m2)
  {
    PowerPlantRateByModel(t, m1);
    PowerPlantRateByModel(t, m2);
    var i, j := ModelIndex(m1), ModelIndex(m2);
    assert i / 4 <= j / 4;
  }

  /** The ordering of two rates carries over to the burns over the same
      weeks, strictly when the weeks are positive. */
  lemma BurnOverOrder(a: real, b: real, w: real)
    requires a <= b && w >= 0.0
    ensures BurnOver(a, w) <= BurnOver(b, w)
    ensures a < b && w > 0.0 ==> BurnOver(a, w) < BurnOver(b, w)
  {
  }

  /** A chemical plant always burns more than a fusion plant of the same
      model. */
  lemma ChemicalBurnsMore(m: DriveModel, weeks: real)
    requires weeks > 0.0
    ensures PowerPlantFuel(FusionP, m, weeks) < PowerPlantFuel(ChemicalP, m, weeks)
  {
    var i := ModelIndex(m);
    PowerPlantRateByModel(FusionP, m);
    PowerPlantRateByModel(ChemicalP, m);
    assert i / 4 <= i;
    BurnOverOrder(PowerPlantRate(FusionP, m), PowerPlantRate(ChemicalP, m), weeks);
  }

  /** `calculateManeuverDriveFuel`: a reaction drive burns 2.5% of the hull
      tonnage per point of performance per hour; other types burn nothing. */
  function ManeuverDriveFuel(t: DriveType, performance: real, hullTonnage: real, hours: real): real
  {
    if t == ReactionM then hullTonnage * 0.025 * performance * hours else 0.0
  }

  /** A maneuver drive's burn is linear in the hours flown. */
  lemma ManeuverFuelLinear(t: DriveType, performance: real, hullTonnage: real, h1: real, h2: real)
    ensures ManeuverDriveFuel(t, performance, hullTonnage, h1 + h2)
         == ManeuverDriveFuel(t, performance, hullTonnage, h1) + ManeuverDriveFuel(t, performance, hullTonnage, h2)
  {
  }

  /** `isReactionDriveValid`: the model has a performance for the hull and one
      hour at that performance burns less than 90% of the hull's tonnage. */
  predicate IsReactionDriveValid(m: DriveModel, tonnage: real)
  {
    match GetDrivePerformance(m, tonnage)
    case None => false
    case Some(p) => ManeuverDriveFuel(ReactionM, p as real, tonnage, 1.0) < tonnage * 0.9
  }

  /** The reaction test, worked out: valid exactly when the performance is
      known and below 36. */
  lemma ReactionValidIff(m: DriveModel, tonnage: real)
    ensures IsReactionDriveValid(m, tonnage)
        <==> GetDrivePerformance(m, tonnage).Some? && GetDrivePerformance(m, tonnage).value < 36
  {
    var perf := GetDrivePerformance(m, tonnage);
    if perf.Some? {
      if tonnage <= 0.0 {
        PerformanceOutOfRange(m, tonnage);
      }
      ReactionBurnTest(perf.value, tonnage);
    }
  }

  /** On a hull of positive tonnage, one hour at performance p burns less
      than 90% of the tonnage exactly when p < 36. */
  lemma ReactionBurnTest(p: nat, tonnage: real)
    requires tonnage > 0.0
    ensures ManeuverDriveFuel(ReactionM, p as real, tonnage, 1.0) < tonnage * 0.9 <==> p < 36
  {
    var q := p as real;
    if p < 36 {
      MulLess(tonnage, 0.025 * q, 0.9);
    } else {
      MulLess(tonnage, 0.9, 0.025 * q);
    }
  }

  lemma MulLess(t: real, a: real, b: real)
    requires t > 0.0 && a <= b
    ensures t * a <= t * b && (a < b ==> t * a < t * b)
  {
  }

  /** Consequently no model with a performance fails the reaction test. */
  lemma ReactionDriveAlwaysValid(m: DriveModel, tonnage: real)
    ensures IsReactionDriveValid(m, tonnage) <==> GetDrivePerformance(m, tonnage).Some?
  {
    ReactionValidIff(m, tonnage);
    PerformanceAtMost16(m, tonnage);
  }

  /** `getAvailableDriveModelsForType`. */
  function AvailableDriveModelsForType(tonnage: real, t: DriveType): (r: seq<DriveModel>)
    ensures forall i :: 0 <= i < |r| ==> r[i] in AvailableDriveModels(tonnage)
    ensures t != ReactionM ==> r == AvailableDriveModels(tonnage)
  {
    var base := AvailableDriveModels(tonnage);
    if t == ReactionM then Filter(base, m => IsReactionDriveValid(m, tonnage)) else base
  }

  /** For every drive type, including reaction drives, the choice of models
      is exactly the models with a performance for the hull. */
  lemma AvailableForTypeIsAvailable(tonnage: real, t: DriveType)
    ensures AvailableDriveModelsForType(tonnage, t) == AvailableDriveModels(tonnage)
  {
    var base := AvailableDriveModels(tonnage);
    if t == ReactionM {
      forall i | 0 <= i < |base|
        ensures IsReactionDriveValid(base[i], tonnage)
      {
        ReactionDriveAlwaysValid(base[i], tonnage);
      }
      FilterAll(base, m => IsReactionDriveValid(m, tonnage));
    }
  }

  // ---------------------------------------------------------------------
  // Total fuel requirement

  /** The part of a drive record the fuel total reads. A missing or zero
      `performance` is None or Some(0.0). */
  datatype FuelDrive = FuelDrive(
    category: DriveCategory,
    driveType: Option<DriveType>,
    model: DriveModel,
    performance: Option<real>)

  datatype FuelRequirement = FuelRequirement(total: real, powerPlant: real, maneuver: real)

  /** What one drive adds to the power-plant total. */
  function PowerPlantShare(d: FuelDrive, weeks: real): real
  {
    if d.category == PowerPlant && d.driveType.Some? then PowerPlantFuel(d.driveType.value, d.model, weeks)
    else 0.0
  }

  /** What one drive adds to the maneuver total (a performance of 0 is falsy). */
  function ManeuverShare(d: FuelDrive, hullTonnage: real, hours: real): real
  {
    if d.category == Maneuver && d.driveType.Some? && d.performance.Some? && d.performance.value != 0.0
    then ManeuverDriveFuel(d.driveType.value, d.performance.value, hullTonnage, hours)
    else 0.0
  }

  function PowerPlantShares(weeks: real): FuelDrive -> real
  {
    d => PowerPlantShare(d, weeks)
  }

  function ManeuverShares(hullTonnage: real, hours: real): FuelDrive -> real
  {
    d => ManeuverShare(d, hullTonnage, hours)
  }

  /** The requirement as the sums of the per-drive shares. */
  function FuelRequirementOf(drives: seq<FuelDrive>, hullTonnage: real, weeks: real, hours: real): FuelRequirement
  {
    var pp := Sum(drives, PowerPlantShares(weeks));
    var mn := Sum(drives, ManeuverShares(hullTonnage, hours));
    FuelRequirement(pp + mn, pp, mn)
  }

  /** `calculateTotalFuelRequirement`: one pass over the drives with two
      running totals. */
  method CalculateTotalFuelRequirement(drives: seq<FuelDrive>, hullTonnage: real, weeks: real, hours: real)
    returns (r: FuelRequirement)
    ensures r == FuelRequirementOf(drives, hullTonnage, weeks, hours)
    ensures r.total == r.powerPlant + r.maneuver
  {
    var powerPlantFuel := 0.0;
    var maneuverFuel := 0.0;
    for i := 0 to |drives|
      invariant powerPlantFuel == Sum(drives[..i], PowerPlantShares(weeks))
      invariant maneuverFuel == Sum(drives[..i], ManeuverShares(hullTonnage, hours))
    {
      var drive := drives[i];
      SumPrefixStep(drives, i, PowerPlantShares(weeks));
      SumPrefixStep(drives, i, ManeuverShares(hullTonnage, hours));
      if drive.category == PowerPlant && drive.driveType.Some? {
        powerPlantFuel := powerPlantFuel + PowerPlantFuel(drive.driveType.value, drive.model, weeks);
      } else if drive.category == Maneuver && drive.driveType.Some? && drive.performance.Some? && drive.performance.value != 0.0 {
        maneuverFuel := maneuverFuel + ManeuverDriveFuel(drive.driveType.value, drive.performance.value, hullTonnage, hours);
      }
    }
    assert drives[..|drives|] == drives;
    r := FuelRequirement(powerPlantFuel + maneuverFuel, powerPlantFuel, maneuverFuel);
  }

  /** The requirement does not depend on the order of the drives. */
  lemma FuelRequirementPermutation(a: seq<FuelDrive>, b: seq<FuelDrive>, hullTonnage: real, weeks: real, hours: real)
    requires multiset(a) == multiset(b)
    ensures FuelRequirementOf(a, hullTonnage, weeks, hours) == FuelRequirementOf(b, hullTonnage, weeks, hours)
  {
    SumPermutation(a, b, PowerPlantShares(weeks));
    SumPermutation(a, b, ManeuverShares(hullTonnage, hours));
  }

  /** Adding a drive without a drive type, or a maneuver drive with no (or
      zero) performance, leaves the requirement unchanged. */
  lemma FuelRequirementIgnoresInert(drives: seq<FuelDrive>, d: FuelDrive, hullTonnage: real, weeks: real, hours: real)
    requires d.driveType.None? || (d.category == Maneuver && (d.performance.None? || d.performance.value == 0.0))
    ensures FuelRequirementOf(drives + [d], hullTonnage, weeks, hours) == FuelRequirementOf(drives, hullTonnage, weeks, hours)
  {
    SumAppend(drives, [d], PowerPlantShares(weeks));
    SumAppend(drives, [d], ManeuverShares(hullTonnage, hours));
  }

  /** Jump drives and gravitic maneuver drives burn no fuel at all. */
  lemma FuelRequirementIgnoresFuelless(drives: seq<FuelDrive>, d: FuelDrive, hullTonnage: real, weeks: real, hours: real)
    requires d.category == Jump || (d.category == Maneuver && d.driveType == Some(GraviticM))
    ensures FuelRequirementOf(drives + [d], hullTonnage, weeks, hours) == FuelRequirementOf(drives, hullTonnage, weeks, hours)
  {
    SumAppend(drives, [d], PowerPlantShares(weeks));
    SumAppend(drives, [d], ManeuverShares(hullTonnage, hours));
  }
}
