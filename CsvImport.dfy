/** Reading a design back from the CSV the summary panel writes: splitting a
    line into fields (quotes, doubled quotes, trimming), scanning the item
    rows below the `Category` header, reading the optional Name,
    Description and Hull lines at the top, and building the skeleton design
    with its hull and fittings. */
module CsvImport {
  import opened Util
  import opened Text
  import opened HullRules
  import opened ShipTypes

  // ---------------------------------------------------------------------
  // parseCSVLine

  /** The fields still to come from `s`, given whether the scan is inside a
      quoted span and the text of the field read so far. A quote toggles
      the span, except that two quotes inside a span stand for one literal
      quote; a comma outside a span ends a field; every field is trimmed. */
  function Scan(s: string, inQuotes: bool, current: string): (r: seq<string>)
    ensures |r| >= 1
    decreases |s|
  {
    if s == [] then [Trim(current)]
    else if s[0] == '"' then
      if inQuotes && |s| > 1 && s[1] == '"' then Scan(s[2..], inQuotes, current + ['"'])
      else Scan(s[1..], !inQuotes, current)
    else if s[0] == ',' && !inQuotes then [Trim(current)] + Scan(s[1..], false, "")
    else Scan(s[1..], inQuotes, current + [s[0]])
  }

  /** The fields of one line. */
  function Fields(line: string): (r: seq<string>)
    ensures |r| >= 1
  {
    Scan(line, false, "")
  }

  /** `parseCSVLine`. */
  method ParseCsvLine(line: string) returns (values: seq<string>)
    ensures values == Fields(line)
  {
    values := [];
    var currentValue := "";
    var inQuotes := false;
    var i := 0;
    while i < |line|
      invariant 0 <= i <= |line|
      invariant values + Scan(line[i..], inQuotes, currentValue) == Fields(line)
      decreases |line| - i
    {
      var c := line[i];
      ScanStep(line, i, inQuotes, currentValue);
      if c == '"' {
        if inQuotes && i + 1 < |line| && line[i + 1] == '"' {
          currentValue := currentValue + ['"'];
          i := i + 1;
        } else {
          inQuotes := !inQuotes;
        }
      } else if c == ',' && !inQuotes {
        values := values + [Trim(currentValue)];
        currentValue := "";
      } else {
        currentValue := currentValue + [c];
      }
      i := i + 1;
    }
    assert line[i..] == [];
    values := values + [Trim(currentValue)];
  }

  /** One step of the scan at position i of the line. */
  lemma ScanStep(line: string, i: nat, inQuotes: bool, current: string)
    requires i < |line|
    ensures line[i] == '"' && inQuotes && i + 1 < |line| && line[i + 1] == '"'
            ==> Scan(line[i..], inQuotes, current) == Scan(line[i + 2..], inQuotes, current + ['"'])
    ensures line[i] == '"' && !(inQuotes && i + 1 < |line| && line[i + 1] == '"')
            ==> Scan(line[i..], inQuotes, current) == Scan(line[i + 1..], !inQuotes, current)
    ensures line[i] == ',' && !inQuotes
            ==> Scan(line[i..], inQuotes, current) == [Trim(current)] + Scan(line[i + 1..], false, "")
    ensures line[i] != '"' && !(line[i] == ',' && !inQuotes)
            ==> Scan(line[i..], inQuotes, current) == Scan(line[i + 1..], inQuotes, current + [line[i]])
  {
    var s := line[i..];
    assert s[0] == line[i] && s[1..] == line[i + 1..];
    if i + 1 < |line| {
      assert s[1] == line[i + 1] && s[2..] == line[i + 2..];
    }
  }

  /** The commas of `s` that stand outside quoted spans, counting every
      quote as a toggle (a doubled quote toggles twice, leaving the span as
      it was). */
  function CommasOutsideQuotes(s: string, inQuotes: bool): nat
  {
    if s == [] then 0
    else (if s[0] == ',' && !inQuotes then 1 else 0)
         + CommasOutsideQuotes(s[1..], if s[0] == '"' then !inQuotes else inQuotes)
  }

  /** A line has one field more than it has commas outside quotes: a comma
      inside a quoted span does not split, and the result is never empty. */
  lemma {:induction false} ScanCount(s: string, inQuotes: bool, current: string)
    ensures |Scan(s, inQuotes, current)| == 1 + CommasOutsideQuotes(s, inQuotes)
    decreases |s|
  {
    if s != [] {
      if s[0] == '"' {
        if inQuotes && |s| > 1 && s[1] == '"' {
          ScanCount(s[2..], inQuotes, current + ['"']);
          assert s[1..][1..] == s[2..];
        } else {
          ScanCount(s[1..], !inQuotes, current);
        }
      } else if s[0] == ',' && !inQuotes {
        ScanCount(s[1..], false, "");
      } else {
        ScanCount(s[1..], inQuotes, current + [s[0]]);
      }
    }
  }

  lemma FieldCount(line: string)
    ensures |Fields(line)| == 1 + CommasOutsideQuotes(line, false)
  {
    ScanCount(line, false, "");
  }

  /** Every field comes out trimmed. */
  lemma {:induction false} ScanTrimmed(s: string, inQuotes: bool, current: string)
    ensures forall k :: 0 <= k < |Scan(s, inQuotes, current)| ==> IsTrimmed(Scan(s, inQuotes, current)[k])
    decreases |s|
  {
    TrimSpec(current);
    if s != [] {
      if s[0] == '"' {
        if inQuotes && |s| > 1 && s[1] == '"' {
          ScanTrimmed(s[2..], inQuotes, current + ['"']);
        } else {
          ScanTrimmed(s[1..], !inQuotes, current);
        }
      } else if s[0] == ',' && !inQuotes {
        ScanTrimmed(s[1..], false, "");
      } else {
        ScanTrimmed(s[1..], inQuotes, current + [s[0]]);
      }
    }
  }

  lemma FieldsTrimmed(line: string)
    ensures forall k :: 0 <= k < |Fields(line)| ==> IsTrimmed(Fields(line)[k])
  {
    ScanTrimmed(line, false, "");
  }

  /** Text without quotes or commas is read into the current field as it
      stands. */
  lemma {:induction false} ScanPlain(v: string, rest: string, current: string)
    requires '"' !in v && ',' !in v
    ensures Scan(v + rest, false, current) == Scan(rest, false, current + v)
    decreases |v|
  {
    if v == [] {
      assert v + rest == rest;
      assert current + v == current;
    } else {
      assert (v + rest)[1..] == v[1..] + rest;
      ScanPlain(v[1..], rest, current + [v[0]]);
      assert current + [v[0]] + v[1..] == current + v;
    }
  }

  /** An opening quote outside a span starts one. */
  lemma ScanOpenQuote(tail: string, current: string)
    ensures Scan("\"" + tail, false, current) == Scan(tail, true, current)
  {
    var s := "\"" + tail;
    assert s[0] == '"' && s[1..] == tail;
  }

  /** A closing quote not followed by another quote ends the span. */
  lemma ScanCloseQuote(rest: string, current: string)
    requires rest == [] || rest[0] != '"'
    ensures Scan("\"" + rest, true, current) == Scan(rest, false, current)
  {
    var s := "\"" + rest;
    assert s[1..] == rest;
  }

  /** Inside a span, a doubled quote reads as one quote and any other
      character, a comma included, as itself. */
  lemma ScanInsideQuotes(c: char, tail: string, current: string)
    ensures Scan(DoubleQuotes([c]) + tail, true, current) == Scan(tail, true, current + [c])
  {
    if c == '"' {
      assert DoubleQuotes([c]) == "\"\"";
      var s := "\"\"" + tail;
      assert s[0] == '"' && s[1] == '"' && s[2..] == tail;
    } else {
      assert DoubleQuotes([c]) == [c];
      var s := [c] + tail;
      assert s[1..] == tail;
    }
  }

  /** Inside a quoted span, the doubled-quote form of `v` followed by the
      closing quote reads as `v` itself, commas included, and closes the
      span. */
  lemma {:induction false} ScanQuoted(v: string, rest: string, current: string)
    requires rest == [] || rest[0] != '"'
    ensures Scan(DoubleQuotes(v) + "\"" + rest, true, current) == Scan(rest, false, current + v)
    decreases |v|
  {
    if v == [] {
      assert DoubleQuotes(v) + "\"" + rest == "\"" + rest;
      ScanCloseQuote(rest, current);
      assert current + v == current;
    } else {
      var tail := DoubleQuotes(v[1..]) + "\"" + rest;
      assert DoubleQuotes(v) == DoubleQuotes([v[0]]) + DoubleQuotes(v[1..]);
      assert DoubleQuotes(v) + "\"" + rest == DoubleQuotes([v[0]]) + tail;
      ScanInsideQuotes(v[0], tail, current);
      ScanQuoted(v[1..], rest, current + [v[0]]);
      assert current + [v[0]] + v[1..] == current + v;
    }
  }

  // ---------------------------------------------------------------------
  // parseCSVRows

  datatype CsvRow = CsvRow(category: string, item: string, tons: string, cost: string)

  /** Lines that `line.trim().length > 0` keeps. */
  predicate NotBlank(line: string)
  {
    Trim(line) != ""
  }

  /** `values[0]?.toLowerCase() === 'category'`. JavaScript lower-cases
      all of Unicode, but no character outside ASCII lower-cases to one of
      the letters of "category", so ASCII folding decides the same. */
  predicate IsHeaderRow(values: seq<string>)
  {
    |values| >= 1 && EqualsIgnoreCase(values[0], "category")
  }

  /** Rows the scanner drops: too few fields, or one of the totals rows. */
  predicate IsSkipped(values: seq<string>)
  {
    |values| < 2 || values[0] == "TOTALS" || values[1] == "Total Mass"
  }

  function DropDigits(s: string): string
  {
    s[|LeadingDigits(s)|..]
  }

  /** `/^\s*S\d+\s*\(/`: the hull detail item, such as "S9 (90 tons)". */
  predicate IsHullDetail(item: string)
  {
    var t := TrimStart(item);
    |t| >= 2 && t[0] == 'S' && IsDigit(t[1])
    && var after := TrimStart(DropDigits(t[1..]));
       |after| >= 1 && after[0] == '('
  }

  /** `values[i] || '0'`. */
  function CellOrZero(values: seq<string>, i: nat): (r: string)
    ensures r != ""
  {
    if i < |values| && values[i] != "" then values[i] else "0"
  }

  /** The category a non-skipped row carries: its own first field, or the
      one carried forward. */
  function NextCategory(values: seq<string>, category: string): string
    requires |values| >= 1
  {
    if |Trim(values[0])| > 0 then Trim(values[0]) else category
  }

  /** The rows that the lines' fields yield, given whether the `Category`
      header has been seen and the category carried forward from the rows
      above. */
  function RowsFrom(records: seq<seq<string>>, foundHeader: bool, category: string): seq<CsvRow>
    requires forall k :: 0 <= k < |records| ==> |records[k]| >= 1
    decreases |records|
  {
    if records == [] then []
    else
      var values := records[0];
      var rest := records[1..];
      assert forall k :: 0 <= k < |rest| ==> |rest[k]| >= 1 by {
        forall k | 0 <= k < |rest| ensures |rest[k]| >= 1 { assert rest[k] == records[k + 1]; }
      }
      if !foundHeader then RowsFrom(rest, IsHeaderRow(values), category)
      else if IsSkipped(values) then RowsFrom(rest, true, category)
      else
        var currentCategory := NextCategory(values, category);
        if currentCategory == "Hull" && values[1] != "" && IsHullDetail(values[1]) then
          RowsFrom(rest, true, currentCategory)
        else
          [CsvRow(currentCategory, values[1], CellOrZero(values, 2), CellOrZero(values, 3))]
          + RowsFrom(rest, true, currentCategory)
  }

  /** The fields of each line. */
  function FieldsOfLines(lines: seq<string>): (r: seq<seq<string>>)
    ensures |r| == |lines|
    ensures forall k :: 0 <= k < |r| ==> r[k] == Fields(lines[k]) && |r[k]| >= 1
  {
    seq(|lines|, k requires 0 <= k < |lines| => Fields(lines[k]))
  }

  /** The rows of a list of lines: blank lines dropped, scanning from
      before the header with no category. */
  function RowsOfLines(lines: seq<string>): seq<CsvRow>
  {
    RowsFrom(FieldsOfLines(Filter(lines, NotBlank)), false, "")
  }

  /** `parseCSVRows`: the non-blank lines, scanned in order. */
  method ParseCsvRows(csvContent: string) returns (rows: seq<CsvRow>)
    ensures rows == RowsOfLines(Split(csvContent, '\n'))
  {
    var lines := Filter(Split(csvContent, '\n'), NotBlank);
    rows := ScanRows(lines);
  }

  /** The loop of `parseCSVRows` over the non-blank lines. */
  method ScanRows(lines: seq<string>) returns (rows: seq<CsvRow>)
    ensures rows == RowsFrom(FieldsOfLines(lines), false, "")
  {
    ghost var records := FieldsOfLines(lines);
    rows := [];
    var foundHeader := false;
    var currentCategory := "";
    var i := 0;
    while i < |lines|
      invariant 0 <= i <= |lines|
      invariant rows + RowsFrom(records[i..], foundHeader, currentCategory) == RowsFrom(records, false, "")
    {
      var values := ParseCsvLine(lines[i]);
      ghost var rest := records[i..];
      assert rest[0] == values && rest[1..] == records[i + 1..];
      if !foundHeader {
        if IsHeaderRow(values) {
          foundHeader := true;
        }
      } else if !IsSkipped(values) {
        if |Trim(values[0])| > 0 {
          currentCategory := Trim(values[0]);
        }
        if !(currentCategory == "Hull" && values[1] != "" && IsHullDetail(values[1])) {
          rows := rows + [CsvRow(currentCategory, values[1], CellOrZero(values, 2), CellOrZero(values, 3))];
        }
      }
      i := i + 1;
    }
  }

  /** A blank line anywhere changes nothing. */
  lemma BlankLinesIgnored(before: seq<string>, blank: string, after: seq<string>)
    requires !NotBlank(blank)
    ensures RowsOfLines(before + [blank] + after) == RowsOfLines(before + after)
  {
    FilterSkip(before, blank, after, NotBlank);
  }

  /** Before the header nothing is emitted; the header line itself is
      consumed, and scanning goes on from the line after it. */
  lemma {:induction false} HeaderGate(before: seq<seq<string>>, header: seq<string>, after: seq<seq<string>>, category: string)
    requires forall k :: 0 <= k < |before| ==> |before[k]| >= 1 && !IsHeaderRow(before[k])
    requires IsHeaderRow(header)
    requires forall k :: 0 <= k < |after| ==> |after[k]| >= 1
    ensures RowsFrom(before + [header] + after, false, category) == RowsFrom(after, true, category)
    decreases |before|
  {
    var records := before + [header] + after;
    if before == [] {
      assert records[0] == header && records[1..] == after;
    } else {
      assert records[0] == before[0] && records[1..] == before[1..] + [header] + after;
      HeaderGate(before[1..], header, after, category);
    }
  }

  /** Without a header line, no rows at all. */
  lemma {:induction false} NoHeaderNoRows(records: seq<seq<string>>, category: string)
    requires forall k :: 0 <= k < |records| ==> |records[k]| >= 1 && !IsHeaderRow(records[k])
    ensures RowsFrom(records, false, category) == []
    decreases |records|
  {
    if records != [] {
      NoHeaderNoRows(records[1..], category);
    }
  }

  /** Fields as the line scanner returns them: at least one, all trimmed. */
  predicate WellFormed(records: seq<seq<string>>)
  {
    forall k :: 0 <= k < |records| ==>
      |records[k]| >= 1 && forall j :: 0 <= j < |records[k]| ==> IsTrimmed(records[k][j])
  }

  lemma FieldsOfLinesWellFormed(lines: seq<string>)
    ensures WellFormed(FieldsOfLines(lines))
  {
    forall k | 0 <= k < |lines|
      ensures forall j :: 0 <= j < |Fields(lines[k])| ==> IsTrimmed(Fields(lines[k])[j])
    {
      FieldsTrimmed(lines[k]);
    }
  }

  /** What every emitted row satisfies: it is not a totals row, not the
      hull detail row, its tons and cost are never empty, and its category
      and item are trimmed. */
  predicate WellShaped(row: CsvRow)
  {
    && row.item != "Total Mass" && row.category != "TOTALS"
    && IsTrimmed(row.category) && IsTrimmed(row.item)
    && row.tons != "" && row.cost != ""
    && !(row.category == "Hull" && row.item != "" && IsHullDetail(row.item))
  }

  lemma WellFormedTail(records: seq<seq<string>>)
    requires records != [] && WellFormed(records)
    ensures WellFormed(records[1..])
  {
    assert forall k :: 0 <= k < |records[1..]| ==> records[1..][k] == records[k + 1];
  }

  /** Every emitted row is well shaped, there is at most one row per line,
      and once a category has been seen no row is without one. */
  lemma {:induction false} RowsShape(records: seq<seq<string>>, foundHeader: bool, category: string)
    requires WellFormed(records)
    requires IsTrimmed(category) && category != "TOTALS"
    ensures var rows := RowsFrom(records, foundHeader, category);
      && |rows| <= |records|
      && forall k :: 0 <= k < |rows| ==> WellShaped(rows[k]) && (category != "" ==> rows[k].category != "")
    decreases |records|, 1
  {
    if records != [] {
      WellFormedTail(records);
      if !foundHeader {
        RowsShape(records[1..], IsHeaderRow(records[0]), category);
      } else if IsSkipped(records[0]) {
        RowsShape(records[1..], true, category);
      } else {
        RowsShapeEmit(records, category);
      }
    }
  }

  /** The step of `RowsShape` for a line below the header that is kept. */
  lemma {:induction false} RowsShapeEmit(records: seq<seq<string>>, category: string)
    requires records != [] && WellFormed(records) && !IsSkipped(records[0])
    requires IsTrimmed(category) && category != "TOTALS"
    ensures var rows := RowsFrom(records, true, category);
      && |rows| <= |records|
      && forall k :: 0 <= k < |rows| ==> WellShaped(rows[k]) && (category != "" ==> rows[k].category != "")
    decreases |records|, 0
  {
    var values := records[0];
    WellFormedTail(records);
    assert IsTrimmed(values[0]) && IsTrimmed(values[1]);
    TrimTrimmed(values[0]);
    var currentCategory := NextCategory(values, category);
    assert IsTrimmed(currentCategory) && currentCategory != "TOTALS";
    RowsShape(records[1..], true, currentCategory);
    var tail := RowsFrom(records[1..], true, currentCategory);
    if !(currentCategory == "Hull" && values[1] != "" && IsHullDetail(values[1])) {
      var row := CsvRow(currentCategory, values[1], CellOrZero(values, 2), CellOrZero(values, 3));
      assert WellShaped(row);
      assert RowsFrom(records, true, category) == [row] + tail;
    }
  }

  /** The rows of a whole text are well shaped. */
  lemma RowsOfLinesShape(lines: seq<string>)
    ensures forall k :: 0 <= k < |RowsOfLines(lines)| ==> WellShaped(RowsOfLines(lines)[k])
  {
    FieldsOfLinesWellFormed(Filter(lines, NotBlank));
    RowsShape(FieldsOfLines(Filter(lines, NotBlank)), false, "");
  }

  /** A row whose first field is blank takes the category of the row
      above: it is emitted under that category, with its missing tons and
      cost read as "0", and the category goes on to the rows below. */
  lemma CategoryCarriesForward(values: seq<string>, rest: seq<seq<string>>, category: string)
    requires |values| >= 2 && Trim(values[0]) == "" && values[1] != "Total Mass"
    requires category != "Hull"
    requires forall k :: 0 <= k < |rest| ==> |rest[k]| >= 1
    ensures RowsFrom([values] + rest, true, category)
         == [CsvRow(category, values[1], CellOrZero(values, 2), CellOrZero(values, 3))]
            + RowsFrom(rest, true, category)
  {
    assert values[0] != "TOTALS" by {
      if values[0] == "TOTALS" {
        assert TrimStart(values[0]) == values[0] by {
          assert !IsWhitespace(values[0][0]);
        }
        assert false;
      }
    }
    var records := [values] + rest;
    assert records[0] == values && records[1..] == rest;
    assert NextCategory(values, category) == category;
  }

  /** A row with its own category starts that category: it is emitted under
      it, and the rows below carry it forward. */
  lemma CategoryStarts(values: seq<string>, rest: seq<seq<string>>, category: string)
    requires |values| >= 2 && Trim(values[0]) != "" && Trim(values[0]) != "Hull"
    requires values[0] != "TOTALS" && values[1] != "Total Mass"
    requires forall k :: 0 <= k < |rest| ==> |rest[k]| >= 1
    ensures RowsFrom([values] + rest, true, category)
         == [CsvRow(Trim(values[0]), values[1], CellOrZero(values, 2), CellOrZero(values, 3))]
            + RowsFrom(rest, true, Trim(values[0]))
  {
    var records := [values] + rest;
    assert records[0] == values && records[1..] == rest;
  }

  // ---------------------------------------------------------------------
  // extractHeaderInfo

  datatype HeaderInfo = HeaderInfo(
    shipName: string,
    description: string,
    hullTonnage: real,
    hullCost: real,
    remainingContent: string)

  /** The characters `.` in a regular expression does not match. */
  predicate IsLineTerminator(c: char)
  {
    c == '\n' || c == '\r' || c as int == 0x2028 || c as int == 0x2029
  }

  /** `filename.replace(/\.csv$/i, '')`. */
  function StripCsvExtension(filename: string): (r: string)
    ensures r == filename || (|r| + 4 == |filename| && r == filename[..|r|])
  {
    if |filename| >= 4 && EqualsIgnoreCase(filename[|filename| - 4..], ".csv")
    then filename[..|filename| - 4] else filename
  }

  /** The extension goes in any mix of cases: `ship.CSV` and `ship.Csv`
      both give `ship`. */
  lemma StripCsvExtensionCuts(name: string, ext: string)
    requires |ext| == 4 && EqualsIgnoreCase(ext, ".csv")
    ensures StripCsvExtension(name + ext) == name
  {
    var filename := name + ext;
    assert filename[|filename| - 4..] == ext;
    assert filename[..|filename| - 4] == name;
  }

  /** A name whose fourth character from the end is not a point has no
      extension to strip, and neither has one shorter than `.csv`. */
  lemma StripCsvExtensionKeeps(filename: string)
    requires |filename| < 4 || filename[|filename| - 4] != '.'
    ensures StripCsvExtension(filename) == filename
  {
    if |filename| >= 4 {
      var ext := filename[|filename| - 4..];
      assert LowerAsciiString(ext)[0] == LowerAscii(ext[0]) != '.';
    }
  }

  /** `/^<tag>(.+)$/i` on one line, where `tag` is lower case and ends
      in a comma: the text after the tag, if there is some and it holds
      no line terminator. */
  function LabelledValue(line: string, tag: string): (r: Option<string>)
    ensures r.Some? ==> StartsWithIgnoreCase(line, tag) && |tag| < |line| && r.value == line[|tag|..]
  {
    if StartsWithIgnoreCase(line, tag) && |line| > |tag|
       && forall k :: |tag| <= k < |line| ==> !IsLineTerminator(line[k])
    then Some(line[|tag|..]) else None
  }

  /** A value that starts and ends with a quote loses those quotes and has
      its doubled quotes undoubled; any other value is kept. */
  function Unquote(s: string): string
  {
    if |s| >= 1 && s[0] == '"' && s[|s| - 1] == '"' then
      UndoubleQuotes(if |s| == 1 then "" else s[1..|s| - 1])
    else s
  }

  /** The value of a `Name,` or `Description,` line, trimmed and unquoted. */
  function HeaderValue(line: string, tag: string): (r: Option<string>)
    ensures r.Some? ==> StartsWithIgnoreCase(Trim(line), tag)
  {
    match LabelledValue(Trim(line), tag)
    case None => None
    case Some(v) => Some(Unquote(Trim(v)))
  }

  /** `\d+(?:\.\d+)?` at the start of `s`, read as `parseFloat` reads it,
      and the text after it. */
  function Decimal(s: string): (r: Option<(real, string)>)
    ensures r.Some? ==> r.value.0 >= 0.0 && |r.value.1| < |s|
  {
    var intPart := LeadingDigits(s);
    if intPart == "" then None
    else
      var rest := s[|intPart|..];
      if |rest| >= 2 && rest[0] == '.' && IsDigit(rest[1]) then
        var frac := LeadingDigits(rest[1..]);
        Some((DecimalValue(intPart, frac), rest[1 + |frac|..]))
      else Some((DecimalValue(intPart, ""), rest))
  }

  /** `/^Hull,\s*(\d+(?:\.\d+)?)\s*tons?\s*,\s*(\d+(?:\.\d+)?)\s*MCr/i` on
      the trimmed line: the tonnage and the price in MCr. Every quantifier
      in the pattern is followed by a character it cannot take, so reading
      greedily from left to right is the only way to match. */
  function HullNumbers(line: string): (r: Option<(real, real)>)
    ensures r.Some? ==> r.value.0 >= 0.0 && r.value.1 >= 0.0
    ensures r.Some? ==> StartsWithIgnoreCase(Trim(line), "hull,")
  {
    HullFields(Trim(line))
  }

  /** The Hull pattern on a line that is trimmed already. */
  function HullFields(t: string): (r: Option<(real, real)>)
    ensures r.Some? ==> r.value.0 >= 0.0 && r.value.1 >= 0.0
    ensures r.Some? ==> StartsWithIgnoreCase(t, "hull,")
  {
    if !StartsWithIgnoreCase(t, "hull,") then None
    else
      match Decimal(TrimStart(t[5..]))
      case None => None
      case Some((tonnage, afterTonnage)) =>
        match AfterTons(afterTonnage)
        case None => None
        case Some(afterComma) =>
          match Decimal(TrimStart(afterComma))
          case None => None
          case Some((mcr, afterCost)) =>
            if StartsWithIgnoreCase(TrimStart(afterCost), "mcr") then Some((tonnage, mcr)) else None
  }

  /** `\s*tons?\s*,` of the Hull pattern: what follows the comma. */
  function AfterTons(s: string): (r: Option<string>)
    ensures r.Some? ==> |r.value| < |s|
  {
    AfterTonWord(TrimStart(s))
  }

  /** `tons?\s*,` where the white space before it is gone already. */
  function AfterTonWord(u: string): (r: Option<string>)
    ensures r.Some? ==> |r.value| < |u|
  {
    if !StartsWithIgnoreCase(u, "ton") then None
    else AfterComma(if |u| > 3 && LowerAscii(u[3]) == 's' then u[4..] else u[3..])
  }

  /** `\s*,`: what follows the comma. */
  function AfterComma(a: string): (r: Option<string>)
    ensures r.Some? ==> |r.value| < |a|
  {
    var v := TrimStart(a);
    if |v| >= 1 && v[0] == ',' then Some(v[1..]) else None
  }

  /** A non-negative number as `String(n)` writes it: its digits, then a
      point and the digits of its fraction when it has one. */
  function Numeral(intPart: string, frac: string): string
  {
    if frac == "" then intPart else intPart + "." + frac
  }

  predicate NumeralParts(intPart: string, frac: string)
  {
    intPart != "" && AllDigits(intPart) && AllDigits(frac)
  }

  /** A numeral followed by something that cannot continue it reads as its
      value, and reading stops right after it. */
  lemma DecimalOfNumeral(intPart: string, frac: string, rest: string)
    requires NumeralParts(intPart, frac)
    requires rest == [] || !(IsDigit(rest[0]) || rest[0] == '.')
    ensures Decimal(Numeral(intPart, frac) + rest) == Some((DecimalValue(intPart, frac), rest))
  {
    if frac == "" {
      DecimalOfWhole(intPart, rest);
    } else {
      DecimalOfFraction(intPart, frac, rest);
    }
  }

  lemma DecimalOfWhole(intPart: string, rest: string)
    requires intPart != "" && AllDigits(intPart)
    requires rest == [] || !(IsDigit(rest[0]) || rest[0] == '.')
    ensures Decimal(intPart + rest) == Some((DecimalValue(intPart, ""), rest))
  {
    LeadingDigitsOf(intPart, rest);
    assert (intPart + rest)[|intPart|..] == rest;
  }

  lemma DecimalOfFraction(intPart: string, frac: string, rest: string)
    requires intPart != "" && AllDigits(intPart) && frac != "" && AllDigits(frac)
    requires rest == [] || !IsDigit(rest[0])
    ensures Decimal(intPart + "." + frac + rest) == Some((DecimalValue(intPart, frac), rest))
  {
    var tail := "." + frac + rest;
    var s := intPart + tail;
    assert intPart + "." + frac + rest == s;
    LeadingDigitsOf(intPart, tail);
    assert s[|intPart|..] == tail;
    FractionAfterPoint(frac, rest);
  }

  /** After the point: the fraction's digits, then what follows them. */
  lemma FractionAfterPoint(frac: string, rest: string)
    requires frac != "" && AllDigits(frac)
    requires rest == [] || !IsDigit(rest[0])
    ensures var tail := "." + frac + rest;
      && |tail| >= 2 && tail[0] == '.' && IsDigit(tail[1])
      && LeadingDigits(tail[1..]) == frac && tail[1 + |frac|..] == rest
  {
    var tail := "." + frac + rest;
    assert tail[1..] == frac + rest;
    assert tail[1] == frac[0];
    LeadingDigitsOf(frac, rest);
  }

  /** A numeral starts with a digit, so no white space is trimmed before it. */
  lemma NumeralUntrimmed(intPart: string, frac: string, rest: string)
    requires NumeralParts(intPart, frac)
    ensures TrimStart(Numeral(intPart, frac) + rest) == Numeral(intPart, frac) + rest
  {
    assert (Numeral(intPart, frac) + rest)[0] == intPart[0];
  }

  /** One space before a word is all `TrimStart` removes. */
  lemma TrimStartAfterSpace(u: string)
    requires u != [] && !IsWhitespace(u[0])
    ensures TrimStart([' '] + u) == u
  {
    assert ([' '] + u)[1..] == u;
  }

  /** The units the export writes after the tonnage read as the pattern's
      `\s*tons?\s*,`. */
  lemma AfterTonsWritten(tail: string)
    ensures AfterTons(" tons," + tail) == Some(tail)
  {
    SpaceBeforeTons(tail);
    SpaceThenWord("tons," + tail);
    TonsWord(tail);
  }

  lemma SpaceBeforeTons(tail: string)
    ensures " tons," + tail == " " + ("tons," + tail)
  {
    assert " tons," == " " + "tons,";
  }

  lemma SpaceThenWord(u: string)
    requires u != [] && u[0] == 't'
    ensures AfterTons(" " + u) == AfterTonWord(u)
  {
    assert " " + u == [' '] + u;
    TrimStartAfterSpace(u);
  }

  lemma TonsWord(tail: string)
    ensures AfterTonWord("tons," + tail) == Some(tail)
  {
    var u := "tons," + tail;
    assert u[..3] == "ton" && u[3] == 's' && u[4..] == "," + tail;
    LowerWordTon();
    CommaFirst(tail);
  }

  lemma LowerWordTon()
    ensures LowerAsciiString("ton") == "ton"
  {
    var low := LowerAsciiString("ton");
    assert low[0] == 't' && low[1] == 'o' && low[2] == 'n';
  }

  lemma CommaFirst(tail: string)
    ensures AfterComma("," + tail) == Some(tail)
  {
    var a := "," + tail;
    assert a[0] == ',' && a[1..] == tail;
    assert TrimStart(a) == a;
  }

  /** The export's ` MCr` reads as the pattern's `\s*MCr`. */
  lemma McrWritten()
    ensures StartsWithIgnoreCase(TrimStart(" MCr"), "mcr")
  {
    McrUntrimmed();
    LowerWordMcr();
    assert "MCr"[..3] == "MCr";
  }

  lemma McrUntrimmed()
    ensures TrimStart(" MCr") == "MCr"
  {
    assert " MCr" == [' '] + "MCr";
    TrimStartAfterSpace("MCr");
  }

  lemma LowerWordMcr()
    ensures LowerAsciiString("MCr") == "mcr"
  {
    var low := LowerAsciiString("MCr");
    assert low[0] == 'm' && low[1] == 'c' && low[2] == 'r';
  }

  /** The Hull line as the export writes it, with the tonnage and the
      price in MCr written as numerals, reads back as those two numbers. */
  lemma HullNumbersOfLine(d1: string, f1: string, d2: string, f2: string)
    requires NumeralParts(d1, f1) && NumeralParts(d2, f2)
    ensures HullNumbers("Hull," + Numeral(d1, f1) + " tons," + Numeral(d2, f2) + " MCr")
         == Some((DecimalValue(d1, f1), DecimalValue(d2, f2)))
  {
    var n1, n2 := Numeral(d1, f1), Numeral(d2, f2);
    var cost := n2 + " MCr";
    var afterHull := n1 + (" tons," + cost);
    HullLineParts(n1, n2);
    HullLineTrimmed(afterHull);
    TonnageRead(d1, f1, cost);
    CostRead(d2, f2);
    HullFieldsBySteps("Hull," + afterHull, afterHull, DecimalValue(d1, f1), " tons," + cost,
                      cost, DecimalValue(d2, f2), " MCr");
    HullNumbersTrimmed("Hull," + afterHull);
  }

  /** The Hull pattern piece by piece: when each piece reads as stated, the
      trimmed line reads as the tonnage and the price. */
  lemma HullFieldsBySteps(t: string, afterHull: string, tonnage: real, afterTonnage: string,
                          afterComma: string, mcr: real, afterCost: string)
    requires |t| > 5 && t[5..] == afterHull && StartsWithIgnoreCase(t, "hull,")
    requires Decimal(TrimStart(afterHull)) == Some((tonnage, afterTonnage))
    requires AfterTons(afterTonnage) == Some(afterComma)
    requires Decimal(TrimStart(afterComma)) == Some((mcr, afterCost))
    requires StartsWithIgnoreCase(TrimStart(afterCost), "mcr")
    ensures HullFields(t) == Some((tonnage, mcr))
  {
  }

  /** A line with nothing to trim is read as it stands. */
  lemma HullNumbersTrimmed(line: string)
    requires IsTrimmed(line)
    ensures HullNumbers(line) == HullFields(line)
  {
    TrimTrimmed(line);
  }

  lemma HullLineParts(n1: string, n2: string)
    ensures "Hull," + n1 + " tons," + n2 + " MCr" == "Hull," + (n1 + (" tons," + (n2 + " MCr")))
  {
  }

  /** The tonnage and the units after it, up to the comma. */
  lemma TonnageRead(d1: string, f1: string, cost: string)
    requires NumeralParts(d1, f1)
    ensures Decimal(TrimStart(Numeral(d1, f1) + (" tons," + cost)))
         == Some((DecimalValue(d1, f1), " tons," + cost))
    ensures AfterTons(" tons," + cost) == Some(cost)
  {
    var rest := " tons," + cost;
    assert rest[0] == ' ';
    NumeralUntrimmed(d1, f1, rest);
    DecimalOfNumeral(d1, f1, rest);
    AfterTonsWritten(cost);
  }

  /** The price and the `MCr` after it. */
  lemma CostRead(d2: string, f2: string)
    requires NumeralParts(d2, f2)
    ensures Decimal(TrimStart(Numeral(d2, f2) + " MCr")) == Some((DecimalValue(d2, f2), " MCr"))
    ensures StartsWithIgnoreCase(TrimStart(" MCr"), "mcr")
  {
    NumeralUntrimmed(d2, f2, " MCr");
    DecimalOfNumeral(d2, f2, " MCr");
    McrWritten();
  }

  /** A line that starts with `Hull,` and ends in `r` is trimmed already
      and starts with the tag. */
  lemma HullLineTrimmed(afterHull: string)
    requires afterHull != [] && afterHull[|afterHull| - 1] == 'r'
    ensures |"Hull," + afterHull| > 5 && ("Hull," + afterHull)[5..] == afterHull
    ensures IsTrimmed("Hull," + afterHull)
    ensures StartsWithIgnoreCase("Hull," + afterHull, "hull,")
  {
    HullLineEnds(afterHull);
    LowerWordHull();
    HullLinePrefix(afterHull);
  }

  lemma HullLineEnds(afterHull: string)
    requires afterHull != [] && afterHull[|afterHull| - 1] == 'r'
    ensures IsTrimmed("Hull," + afterHull)
  {
    var line := "Hull," + afterHull;
    assert line[0] == 'H' && line[|line| - 1] == 'r';
  }

  lemma HullLinePrefix(afterHull: string)
    ensures ("Hull," + afterHull)[..5] == "Hull,"
    ensures ("Hull," + afterHull)[5..] == afterHull
  {
  }

  lemma LowerWordHull()
    ensures LowerAsciiString("Hull,") == "hull,"
  {
    var low := LowerAsciiString("Hull,");
    assert low[0] == 'h' && low[1] == 'u' && low[2] == 'l' && low[3] == 'l' && low[4] == ',';
  }

  /** A whole number written as its digits on both sides of the Hull line
      reads back as itself. */
  lemma HullNumbersOfWholeNumbers(tonnage: nat, mcr: nat)
    ensures HullNumbers("Hull," + NatToString(tonnage) + " tons," + NatToString(mcr) + " MCr")
         == Some((tonnage as real, mcr as real))
  {
    HullNumbersOfLine(NatToString(tonnage), "", NatToString(mcr), "");
    NatToStringValue(tonnage);
    NatToStringValue(mcr);
  }

  /** `extractHeaderInfo`: an optional Name line, then an optional
      Description line, then an optional Hull line, each looked for only on
      the line after the ones consumed before it. */
  function ExtractHeaderInfo(csvContent: string, filename: string): (info: HeaderInfo)
    ensures info.hullTonnage >= 0.0 && info.hullCost >= 0.0
  {
    var lines := Split(csvContent, '\n');
    var name := HeaderValue(lines[0], "name,");
    var lineIndex := if name.Some? then 1 else 0;
    var description := if |lines| > lineIndex then HeaderValue(lines[lineIndex], "description,") else None;
    var lineIndex' := if description.Some? then lineIndex + 1 else lineIndex;
    var hull := if |lines| > lineIndex' then HullNumbers(lines[lineIndex']) else None;
    var lineIndex'' := if hull.Some? then lineIndex' + 1 else lineIndex';
    HeaderInfo(
      if name.Some? then name.value else StripCsvExtension(filename),
      if description.Some? then description.value else "",
      if hull.Some? then hull.value.0 else 0.0,
      if hull.Some? then McrToCredits(hull.value.1) else 0.0,
      Join(lines[lineIndex''..], '\n'))
  }

  /** The label words are distinct: no line is both a Name and a
      Description line, or a Hull line and either. */
  lemma LabelsDisjoint(line: string)
    ensures !(HeaderValue(line, "name,").Some? && HeaderValue(line, "description,").Some?)
    ensures HeaderValue(line, "name,").Some? ==> HullNumbers(line).None?
    ensures HeaderValue(line, "description,").Some? ==> HullNumbers(line).None?
  {
    var t := Trim(line);
    if HeaderValue(line, "name,").Some? {
      assert LowerAscii(t[0]) == 'n' by {
        FirstLetter(t, "name,");
      }
    }
    if HeaderValue(line, "description,").Some? {
      assert LowerAscii(t[0]) == 'd' by {
        FirstLetter(t, "description,");
      }
    }
    if HullNumbers(line).Some? {
      assert LowerAscii(t[0]) == 'h' by {
        FirstLetter(t, "hull,");
      }
    }
  }

  lemma FirstLetter(s: string, word: string)
    requires |word| >= 1 && StartsWithIgnoreCase(s, word)
    ensures LowerAscii(s[0]) == word[0]
  {
    assert LowerAsciiString(s[..|word|])[0] == LowerAscii(s[0]);
  }

  /** Without a Name, Description or Hull line at the top, the name is the
      file's, nothing is consumed, and the content is handed on whole. */
  lemma NoHeaderLines(csvContent: string, filename: string)
    requires var first := Split(csvContent, '\n')[0];
      HeaderValue(first, "name,").None? && HeaderValue(first, "description,").None?
      && HullNumbers(first).None?
    ensures ExtractHeaderInfo(csvContent, filename)
         == HeaderInfo(StripCsvExtension(filename), "", 0.0, 0.0, csvContent)
  {
    JoinSplit(csvContent, '\n');
    assert Split(csvContent, '\n')[0..] == Split(csvContent, '\n');
  }

  /** The three header lines in order are all consumed, and what follows
      them is handed on. */
  lemma AllHeaderLines(csvContent: string, filename: string)
    requires var lines := Split(csvContent, '\n');
      && |lines| >= 3
      && HeaderValue(lines[0], "name,").Some? && HeaderValue(lines[1], "description,").Some?
      && HullNumbers(lines[2]).Some?
    ensures var lines := Split(csvContent, '\n');
      var info := ExtractHeaderInfo(csvContent, filename);
      && info.shipName == HeaderValue(lines[0], "name,").value
      && info.description == HeaderValue(lines[1], "description,").value
      && info.hullTonnage == HullNumbers(lines[2]).value.0
      && info.hullCost == McrToCredits(HullNumbers(lines[2]).value.1)
      && info.remainingContent == Join(lines[3..], '\n')
  {
  }

  /** After a Name line, the line below it is the one looked at for a
      Description. */
  lemma NameLineFirst(csvContent: string, filename: string)
    requires var lines := Split(csvContent, '\n');
      |lines| >= 2 && HeaderValue(lines[0], "name,").Some?
    ensures var lines := Split(csvContent, '\n');
      var info := ExtractHeaderInfo(csvContent, filename);
      var description := HeaderValue(lines[1], "description,");
      && info.shipName == HeaderValue(lines[0], "name,").value
      && info.description == if description.Some? then description.value else ""
  {
  }

  /** The lines are looked for strictly in order: when a Description line
      comes first, it is taken as the description, the name falls back to
      the file name, and the Name line after it is left in the remaining
      content. */
  lemma DescriptionBeforeNameIgnored(csvContent: string, filename: string)
    requires var lines := Split(csvContent, '\n');
      |lines| >= 2 && HeaderValue(lines[0], "description,").Some? && HeaderValue(lines[1], "name,").Some?
    ensures var lines := Split(csvContent, '\n');
      var info := ExtractHeaderInfo(csvContent, filename);
      && info.shipName == StripCsvExtension(filename)
      && info.description == HeaderValue(lines[0], "description,").value
      && info.remainingContent == Join(lines[1..], '\n')
  {
    var lines := Split(csvContent, '\n');
    LabelsDisjoint(lines[0]);
    LabelsDisjoint(lines[1]);
  }

  // ---------------------------------------------------------------------
  // importFromCSV: the skeleton design, the hull and the fittings

  /** `parseFloat(s) || 0` for unsigned decimals: leading white space
      skipped, then digits with an optional fraction; anything that is not
      a number reads as 0. */
  function ParseFloatOrZero(s: string): (r: real)
    ensures r >= 0.0
  {
    var t := TrimStart(s);
    var intPart := LeadingDigits(t);
    DecimalValue(intPart, FractionDigits(t[|intPart|..]))
  }

  /** The digits after a leading `.`, if any. */
  function FractionDigits(rest: string): (r: string)
    ensures AllDigits(r)
  {
    if |rest| >= 1 && rest[0] == '.' then LeadingDigits(rest[1..]) else ""
  }

  /** The value of `<intPart>.<frac>`; no digits at all read as 0. */
  function DecimalValue(intPart: string, frac: string): (r: real)
    requires AllDigits(intPart) && AllDigits(frac)
    ensures r >= 0.0
    ensures frac == "" ==> r == DigitsValue(intPart) as real
  {
    if intPart == "" && frac == "" then 0.0
    else DigitsValue(intPart) as real + DigitsValue(frac) as real / Pow10(|frac|) as real
  }

  /** A numeral reads as its value. */
  lemma ParseFloatOfNumeral(n: nat)
    ensures ParseFloatOrZero(NatToString(n)) == n as real
  {
    NatToStringValue(n);
    ParseFloatOfDigits(NatToString(n));
  }

  /** A run of digits reads as its value. */
  lemma ParseFloatOfDigits(s: string)
    requires |s| >= 1 && AllDigits(s)
    ensures ParseFloatOrZero(s) == DigitsValue(s) as real
  {
    DigitsUntrimmed(s);
    AllLeadingDigits(s);
    assert FractionDigits(s[|s|..]) == "";
  }

  lemma DigitsUntrimmed(s: string)
    requires |s| >= 1 && AllDigits(s)
    ensures TrimStart(s) == s
  {
    assert IsDigit(s[0]);
  }

  lemma AllLeadingDigits(s: string)
    requires AllDigits(s)
    ensures LeadingDigits(s) == s
  {
    assert |LeadingDigits(s)| == |s|;
  }

  /** The `xN` at the end of a fitting's item, if there is one. */
  function QuantitySuffix(item: string): (r: Option<nat>)
  {
    var digits := TrailingDigits(item);
    if |digits| >= 1 && |item| > |digits| && item[|item| - |digits| - 1] == 'x'
    then Some(DigitsValue(digits)) else None
  }

  /** `/x(\d+)$/`: the quantity written after the item, or 1. */
  function FittingQuantity(item: string): (q: int)
    ensures q >= 0
  {
    match QuantitySuffix(item)
    case Some(n) => n
    case None => 1
  }

  /** `item.replace(/\s*x\d+$/, '').trim()`. */
  function FittingName(item: string): string
  {
    if QuantitySuffix(item).Some? then Trim(item[..|item| - |TrailingDigits(item)| - 1])
    else Trim(item)
  }

  /** An item written as `<name> x<n>` reads back as n of `<name>`,
      trimmed. */
  lemma FittingQuantityRoundTrip(name: string, n: nat)
    ensures FittingQuantity(name + " x" + NatToString(n)) == n
    ensures FittingName(name + " x" + NatToString(n)) == Trim(name)
  {
    QuantitySuffixOf(name, n);
    NameBeforeSuffix(name, NatToString(n));
    TrimTrailingSpace(name);
  }

  lemma NameBeforeSuffix(name: string, d: string)
    ensures var item := name + " x" + d; item[..|item| - |d| - 1] == name + " "
  {
    var item := name + " x" + d;
    var head := item[..|item| - |d| - 1];
    assert |head| == |name| + 1;
    assert forall k :: 0 <= k < |head| ==> head[k] == (name + " ")[k];
  }

  /** The `x<n>` written after a name is read back as the suffix. */
  lemma QuantitySuffixOf(name: string, n: nat)
    ensures TrailingDigits(name + " x" + NatToString(n)) == NatToString(n)
    ensures QuantitySuffix(name + " x" + NatToString(n)) == Some(n)
  {
    var item := name + " x" + NatToString(n);
    assert item == (name + " x") + NatToString(n);
    TrailingDigitsOf(name + " x", NatToString(n));
    NatToStringValue(n);
    assert item[|item| - |NatToString(n)| - 1] == 'x';
  }

  /** An item that does not end in a digit has no quantity suffix: it is
      one of itself, trimmed. */
  lemma FittingWithoutQuantity(item: string)
    requires item == [] || !IsDigit(item[|item| - 1])
    ensures FittingQuantity(item) == 1 && FittingName(item) == Trim(item)
  {
    assert TrailingDigits(item) == [];
  }

  /** One fitting row as `importFromCSV` turns it into a fitting. */
  function FittingOfRow(row: CsvRow, index: nat): (f: Fitting)
    ensures f.quantity >= 0 && f.mass >= 0.0 && f.cost >= 0.0
    ensures f.fittingType == "other" && f.name == FittingName(row.item)
  {
    Fitting("fitting-" + NatToString(index), "other", FittingName(row.item),
            ParseFloatOrZero(row.tons), McrToCredits(ParseFloatOrZero(row.cost)),
            FittingQuantity(row.item), None, None, None, None)
  }

  predicate IsFittingsRow(row: CsvRow)
  {
    row.category == "Fittings"
  }

  /** The fitting loop of `importFromCSV`: one fitting per `Fittings` row,
      in order, numbered from 0. */
  method ImportFittings(rows: seq<CsvRow>) returns (fittings: seq<Fitting>)
    ensures fittings == SeqOfFittings(rows)
  {
    fittings := NumberFittings(Filter(rows, IsFittingsRow));
  }

  /** The loop body of `importFromCSV` over the fitting rows already picked
      out. */
  method NumberFittings(fittingRows: seq<CsvRow>) returns (fittings: seq<Fitting>)
    ensures fittings == MapIndexed(fittingRows, FittingOfRow)
  {
    fittings := [];
    for index := 0 to |fittingRows|
      invariant fittings == MapIndexed(fittingRows[..index], FittingOfRow)
    {
      MapIndexedSnoc(fittingRows, index, FittingOfRow);
      fittings := fittings + [FittingOfRow(fittingRows[index], index)];
    }
    assert fittingRows[..|fittingRows|] == fittingRows;
  }

  /** The hull `importFromCSV` starts from: the header's name, tonnage and
      price, technology level A, and a tonnage code only for a positive
      tonnage. `numberText` stands for JavaScript's number-to-text. */
  function ImportedHull(info: HeaderInfo, numberText: real -> string): (h: Hull)
    ensures info.hullTonnage > 0.0 ==> h.tonnageCode == HullCode(info.hullTonnage)
    ensures info.hullTonnage <= 0.0 ==> h.tonnageCode == ""
    ensures h.name == info.shipName && h.techLevel == "A"
    ensures h.tonnage == info.hullTonnage && h.cost == info.hullCost
  {
    Hull(info.shipName, "A",
         if info.hullTonnage > 0.0 then HullCode(info.hullTonnage) else "",
         info.hullTonnage, info.hullCost,
         Some(if info.hullTonnage > 0.0 then numberText(info.hullTonnage) + " tons" else ""))
  }

  /** `importFromCSV` up to and including the fittings; the armor, drive,
      fuel, weapon, cargo and staff rows are not read here, so those parts
      stay as the skeleton has them. */
  method ImportFromCsv(csvContent: string, filename: string, numberText: real -> string)
    returns (design: Design)
    ensures var info := ExtractHeaderInfo(csvContent, filename);
      && design.name == info.shipName
      && design.description == (if info.description == "" then None else Some(info.description))
      && design.hull == ImportedHull(info, numberText)
      && design.armor == None && design.drives == [] && design.weapons == []
      && design.fuel == Fuel(0.0, 0.0, 0.0)
      && design.cargo == Cargo(0.0, 0.0, 0.0, Some(0.0), false)
      && design.staff == Staff(1, 0, false, false, false, false, 0)
      && design.fittings == SeqOfFittings(RowsOfLines(Split(info.remainingContent, '\n')))
  {
    var info := ExtractHeaderInfo(csvContent, filename);
    var rows := ParseCsvRows(info.remainingContent);
    design := Design(
      info.shipName,
      if info.description == "" then None else Some(info.description),
      ImportedHull(info, numberText),
      None,
      [],
      Fuel(0.0, 0.0, 0.0),
      [],
      [],
      Cargo(0.0, 0.0, 0.0, Some(0.0), false),
      Staff(1, 0, false, false, false, false, 0));
    var fittings := ImportFittings(rows);
    design := design.(fittings := fittings);
  }

  /** The fittings the rows yield: one per `Fittings` row, in order,
      numbered from 0. */
  function SeqOfFittings(rows: seq<CsvRow>): (r: seq<Fitting>)
    ensures |r| == Count(rows, IsFittingsRow)
  {
    FilterLength(rows, IsFittingsRow);
    MapIndexed(Filter(rows, IsFittingsRow), FittingOfRow)
  }
}
