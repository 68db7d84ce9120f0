/** Tech levels and the hull step functions of the small-craft tables: the
    hull code s1 .. s10 and the base hull price, both by 10-ton class. */
module HullRules {
  import opened Util
  import Text

  /** The tech-level letters A .. H, standing for TL 10 .. 17. */
  datatype TechLevel = A | B | C | D | E | F | G | H

  /** `TECH_LEVELS[letter]`. */
  function TechLevelNumber(tl: TechLevel): (n: int)
    ensures 10 <= n <= 17
  {
    match tl
    case A => 10
    case B => 11
    case C => 12
    case D => 13
    case E => 14
    case F => 15
    case G => 16
    case H => 17
  }

  const TechLevelLetters: string := "ABCDEFGH"

  function TechLevelLetter(tl: TechLevel): (c: char)
    ensures c == TechLevelLetters[TechLevelNumber(tl) - 10]
  {
    match tl
    case A => 'A'
    case B => 'B'
    case C => 'C'
    case D => 'D'
    case E => 'E'
    case F => 'F'
    case G => 'G'
    case H => 'H'
  }

  /** Looks a hull's tech-level string up in `TECH_LEVELS`; None for any
      string that is not one of the eight letters. */
  function ParseTechLevel(s: string): (r: Option<TechLevel>)
    ensures r.Some? ==> s == [TechLevelLetter(r.value)]
    ensures r.None? ==> forall tl :: s != [TechLevelLetter(tl)]
  {
    if |s| != 1 then None
    else
      match s[0]
      case 'A' => Some(A)
      case 'B' => Some(B)
      case 'C' => Some(C)
      case 'D' => Some(D)
      case 'E' => Some(E)
      case 'F' => Some(F)
      case 'G' => Some(G)
      case 'H' => Some(H)
      case _ => None
  }

  /** `isTechLevelAtLeast`. */
  predicate IsTechLevelAtLeast(current: TechLevel, required: TechLevel)
  {
    TechLevelNumber(current) >= TechLevelNumber(required)
  }

  /** Comparing tech levels is comparing their letters alphabetically. */
  lemma TechLevelOrderIsLetterOrder(current: TechLevel, required: TechLevel)
    ensures IsTechLevelAtLeast(current, required) <==> TechLevelLetter(current) >= TechLevelLetter(required)
  {
  }

  /** The comparison is a total preorder (and antisymmetric: a total order). */
  lemma TechLevelAtLeastOrder(a: TechLevel, b: TechLevel, c: TechLevel)
    ensures IsTechLevelAtLeast(a, a)
    ensures IsTechLevelAtLeast(a, b) || IsTechLevelAtLeast(b, a)
    ensures IsTechLevelAtLeast(a, b) && IsTechLevelAtLeast(b, c) ==> IsTechLevelAtLeast(a, c)
    ensures IsTechLevelAtLeast(a, b) && IsTechLevelAtLeast(b, a) ==> a == b
  {
  }

  // ---------------------------------------------------------------------
  // Hull class, code and price

  /** The hull class 1 .. 10 `getHullCode` and `getHullCost` step on: the
      first of 10, 20, .., 100 the tonnage does not exceed, and 10 above
      100 tons. */
  function HullClass(tonnage: real): (k: int)
    ensures 1 <= k <= 10
  {
    if tonnage <= 10.0 then 1
    else if tonnage <= 20.0 then 2
    else if tonnage <= 30.0 then 3
    else if tonnage <= 40.0 then 4
    else if tonnage <= 50.0 then 5
    else if tonnage <= 60.0 then 6
    else if tonnage <= 70.0 then 7
    else if tonnage <= 80.0 then 8
    else if tonnage <= 90.0 then 9
    else 10
  }

  /** The class is the tonnage rounded up to tens, clamped to 1 .. 10. */
  lemma HullClassIsClampedBracket(tonnage: real)
    ensures HullClass(tonnage) == Clamp(Ceil(tonnage / 10.0), 1, 10)
  {
    var k := HullClass(tonnage);
    if 1 < k < 10 {
      CeilUnique(tonnage / 10.0, k);
    } else if k == 10 {
      CeilMonotone(90.0 / 10.0, tonnage / 10.0);
      CeilUnique(9.0, 9);
    } else {
      CeilMonotone(tonnage / 10.0, 10.0 / 10.0);
      CeilUnique(1.0, 1);
    }
  }

  /** A heavier hull never has a lower class. */
  lemma HullClassMonotone(t1: real, t2: real)
    requires t1 <= t2
    ensures HullClass(t1) <= HullClass(t2)
  {
  }

  /** `getHullCode`: "s1" .. "s10". */
  function HullCode(tonnage: real): (code: string)
    ensures code == "s" + Text.NatToString(HullClass(tonnage))
  {
    var k := HullClass(tonnage);
    if k == 10 then "s10" else "s" + [Text.DigitChar(k)]
  }

  /** Every hull over 100 tons is an s10. */
  lemma HullCodeAbove100(tonnage: real)
    requires tonnage > 100.0
    ensures HullCode(tonnage) == "s10" && HullCost(tonnage) == 2.0
  {
  }

  /** `getHullCost`, in MCr. */
  function HullCost(tonnage: real): real
  {
    if tonnage <= 10.0 then 1.0
    else if tonnage <= 20.0 then 1.2
    else if tonnage <= 30.0 then 1.3
    else if tonnage <= 40.0 then 1.4
    else if tonnage <= 50.0 then 1.5
    else if tonnage <= 60.0 then 1.6
    else if tonnage <= 70.0 then 1.7
    else if tonnage <= 80.0 then 1.8
    else if tonnage <= 90.0 then 1.9
    else 2.0
  }

  /** The price is 1 MCr for the smallest class and 1 + k/10 MCr for class
      k >= 2. */
  lemma HullCostByClass(tonnage: real)
    ensures var k := HullClass(tonnage);
      HullCost(tonnage) == if k == 1 then 1.0 else 1.0 + k as real / 10.0
  {
  }

  /** A heavier hull never costs less, and every hull costs 1 .. 2 MCr. */
  lemma HullCostMonotone(t1: real, t2: real)
    requires t1 <= t2
    ensures 1.0 <= HullCost(t1) <= HullCost(t2) <= 2.0
  {
  }

  /** `mcrToCredits`. */
  function McrToCredits(mcr: real): (credits: real)
    ensures credits / 1000000.0 == mcr
  {
    mcr * 1000000.0
  }

  /** A 100-ton hull is priced at two million credits. */
  lemma HundredTonHullPrice()
    ensures McrToCredits(HullCost(100.0)) == 2000000.0
  {
  }
}
