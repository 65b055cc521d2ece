/** The CSV export of the filtered claims (the "Export CSV" button of the
    WebGIS view in frontend/src/App.jsx): a header row, then one row of six
    fields per shown claim, each field with its double quotes doubled, the
    fields joined by commas and the rows by newlines. */
module CsvExport {
  import opened Common
  import opened Text
  import opened MapView

  const Header: seq<string> := ["claim_id", "claimant", "state", "status", "lon", "lat"]

  /** `v ?? ''`: a missing value prints as the empty field. */
  function FieldText(v: Option<string>): string {
    v.GetOr("")
  }

  /** `[lon, lat] = coordinates || [null, null]`: the k-th coordinate,
      missing when there is no geometry or the array is too short. */
  function Coordinate(coords: Option<seq<Option<string>>>, k: nat): Option<string> {
    if coords.Some? && k < |coords.value| then coords.value[k] else None
  }

  /** The row written for one claim. */
  function RowOf(f: Feature): (r: seq<string>)
    ensures |r| == |Header|
  {
    [FieldText(f.claimId), FieldText(f.claimant), FieldText(f.state), FieldText(f.status),
     FieldText(Coordinate(f.coordinates, 0)), FieldText(Coordinate(f.coordinates, 1))]
  }

  /** The rows written for the claims that pass the filter, in order. */
  function ExportRows(fs: seq<Feature>, filterState: string, filterStatus: string): seq<seq<string>> {
    if fs == [] then []
    else
      var init := ExportRows(fs[..|fs| - 1], filterState, filterStatus);
      var f := fs[|fs| - 1];
      if Keep(f, filterState, filterStatus) then init + [RowOf(f)] else init
  }

  /** `String(v).replaceAll('"', '""')` */
  function Escape(s: string): (r: string)
    ensures |r| >= |s|
  {
    if s == [] then []
    else (if s[0] == '"' then "\"\"" else [s[0]]) + Escape(s[1..])
  }

  /** Reads an escaped field back: a doubled quote is one quote. */
  function Unescape(s: string): string {
    if s == [] then []
    else if |s| >= 2 && s[0] == '"' && s[1] == '"' then "\"" + Unescape(s[2..])
    else [s[0]] + Unescape(s[1..])
  }

  /** One line of the file: the escaped fields joined by commas. */
  function Line(row: seq<string>): string {
    Join(seq(|row|, i requires 0 <= i < |row| => Escape(row[i])), ",")
  }

  /** The whole file: the lines joined by newlines. */
  function CsvText(rows: seq<seq<string>>): string {
    Join(seq(|rows|, i requires 0 <= i < |rows| => Line(rows[i])), "\n")
  }

  /** Reads a file written this way: split into lines at newlines, each line
      into fields at commas, and undouble the quotes of each field. */
  function Parse(text: string): seq<seq<string>> {
    var lines := Split(text, '\n');
    seq(|lines|, i requires 0 <= i < |lines| =>
      var fields := Split(lines[i], ',');
      seq(|fields|, j requires 0 <= j < |fields| => Unescape(fields[j])))
  }

  /** The export button: nothing when the claims layer is not loaded;
      otherwise the header, then for each feature that passes the filter a
      row of its id, claimant, state, status, longitude and latitude. */
  method ExportCsv(gj: Option<GeoJson>, filterState: string, filterStatus: string) returns (csv: Option<string>)
    ensures gj.None? ==> csv.None?
    ensures gj.Some? ==>
      csv == Some(CsvText([Header] + ExportRows(FeaturesOf(gj.value), filterState, filterStatus)))
  {
    if gj.None? {
      return None;
    }
    var fs := gj.value.features.GetOr([]);
    var rows := [Header];
    for i := 0 to |fs|
      invariant rows == [Header] + ExportRows(fs[..i], filterState, filterStatus)
    {
      assert fs[..i + 1][..i] == fs[..i];
      var f := fs[i];
      var stateOk := if filterState == All then true else f.state == Some(filterState);
      var statusOk := if filterStatus == All then true else f.status == Some(filterStatus);
      if !(stateOk && statusOk) {
        continue;
      }
      var lon, lat := None, None;
      if f.coordinates.Some? {
        var cs := f.coordinates.value;
        if |cs| > 0 { lon := cs[0]; }
        if |cs| > 1 { lat := cs[1]; }
      }
      rows := rows + [[f.claimId.GetOr(""), f.claimant.GetOr(""), f.state.GetOr(""),
                       f.status.GetOr(""), lon.GetOr(""), lat.GetOr("")]];
    }
    assert fs[..|fs|] == fs;
    csv := Some(CsvText(rows));
  }

  // ----- what the export contains -----

  /** The exported rows are exactly the rows of the claims the map shows
      (the same filter as the map and the GeoJSON export), in their order. */
  lemma {:induction false} ExportMatchesMap(fs: seq<Feature>, st: string, su: string)
    ensures var shown := Filter(fs, st, su);
      ExportRows(fs, st, su) == seq(|shown|, i requires 0 <= i < |shown| => RowOf(shown[i]))
  {
    if fs != [] {
      ExportMatchesMap(fs[..|fs| - 1], st, su);
    }
  }

  /** Every row has the six columns of the header, and a missing property
      or coordinate is an empty field. */
  lemma RowShape(f: Feature)
    ensures |RowOf(f)| == |Header| == 6
    ensures f.claimId.None? ==> RowOf(f)[0] == ""
    ensures f.claimant.None? ==> RowOf(f)[1] == ""
    ensures f.state.None? ==> RowOf(f)[2] == ""
    ensures f.status.None? ==> RowOf(f)[3] == ""
    ensures f.coordinates.None? ==> RowOf(f)[4] == "" && RowOf(f)[5] == ""
  {
  }

  // ----- reading the file back -----

  /** Undoubling the quotes gives the field back. */
  lemma {:induction false} UnescapeEscape(s: string)
    ensures Unescape(Escape(s)) == s
  {
    if s != [] {
      UnescapeEscape(s[1..]);
      var e := Escape(s);
      if s[0] == '"' {
        assert e == "\"\"" + Escape(s[1..]);
        assert e[2..] == Escape(s[1..]);
      } else {
        assert e == [s[0]] + Escape(s[1..]);
        assert e[1..] == Escape(s[1..]);
      }
    }
  }

  /** Escaping doubles every quote and changes nothing else: a value
      without quotes is written as it is. */
  lemma {:induction false} EscapeDoublesQuotes(s: string)
    ensures Occurrences(Escape(s), '"') == 2 * Occurrences(s, '"')
    ensures |Escape(s)| == |s| + Occurrences(s, '"')
    ensures '"' !in s ==> Escape(s) == s
  {
    if s != [] {
      EscapeDoublesQuotes(s[1..]);
      OccurrencesAppend(if s[0] == '"' then "\"\"" else [s[0]], Escape(s[1..]), '"');
    }
  }

  /** Escaping adds only quotes. */
  lemma {:induction false} EscapeAvoids(s: string, c: char)
    requires c != '"' && c !in s
    ensures c !in Escape(s)
  {
    if s != [] {
      EscapeAvoids(s[1..], c);
    }
  }

  /** A field that a comma-and-newline reader reads back unchanged. */
  predicate Plain(s: string) {
    ',' !in s && '\n' !in s
  }

  /** Each row of a file with a comma- and newline-free field is read back
      as written. */
  lemma LineRoundTrip(row: seq<string>)
    requires row != []
    requires forall j :: 0 <= j < |row| ==> Plain(row[j])
    ensures '\n' !in Line(row)
    ensures var fields := Split(Line(row), ',');
      seq(|fields|, j requires 0 <= j < |fields| => Unescape(fields[j])) == row
  {
    var escaped := seq(|row|, j requires 0 <= j < |row| => Escape(row[j]));
    forall j | 0 <= j < |row|
      ensures ',' !in escaped[j] && '\n' !in escaped[j]
    {
      EscapeAvoids(row[j], ',');
      EscapeAvoids(row[j], '\n');
    }
    JoinAvoids(escaped, ",", '\n');
    SplitJoin(escaped, ',');
    forall j | 0 <= j < |row|
      ensures Unescape(escaped[j]) == row[j]
    {
      UnescapeEscape(row[j]);
    }
  }

  /** A file of non-empty rows whose fields hold no comma and no newline is
      read back as the rows written. */
  lemma CsvRoundTrip(rows: seq<seq<string>>)
    requires rows != []
    requires forall i :: 0 <= i < |rows| ==> rows[i] != []
    requires forall i, j :: 0 <= i < |rows| && 0 <= j < |rows[i]| ==> Plain(rows[i][j])
    ensures Parse(CsvText(rows)) == rows
  {
    var lines := seq(|rows|, i requires 0 <= i < |rows| => Line(rows[i]));
    forall i | 0 <= i < |rows|
      ensures '\n' !in lines[i]
      ensures var fields := Split(lines[i], ',');
        seq(|fields|, j requires 0 <= j < |fields| => Unescape(fields[j])) == rows[i]
    {
      LineRoundTrip(rows[i]);
    }
    SplitJoin(lines, '\n');
  }

  /** A claim value is safe to export when it holds no comma and no newline. */
  predicate SafeValue(v: Option<string>) {
    v.None? || Plain(v.value)
  }

  predicate SafeFeature(f: Feature) {
    && SafeValue(f.claimId) && SafeValue(f.claimant) && SafeValue(f.state) && SafeValue(f.status)
    && SafeValue(Coordinate(f.coordinates, 0)) && SafeValue(Coordinate(f.coordinates, 1))
  }

  /** Every row exported for safe claims has six plain fields. */
  lemma {:induction false} ExportRowsPlain(fs: seq<Feature>, st: string, su: string)
    requires forall i :: 0 <= i < |fs| ==> SafeFeature(fs[i])
    ensures forall i :: 0 <= i < |ExportRows(fs, st, su)| ==> |ExportRows(fs, st, su)[i]| == 6
    ensures forall i, j :: 0 <= i < |ExportRows(fs, st, su)| && 0 <= j < |ExportRows(fs, st, su)[i]| ==>
      Plain(ExportRows(fs, st, su)[i][j])
  {
    if fs != [] {
      ExportRowsPlain(fs[..|fs| - 1], st, su);
    }
  }

  /** When no shown claim has a comma or newline in its values, reading the
      exported file gives back the header and one six-field row per shown
      claim. */
  lemma ExportRoundTrip(fs: seq<Feature>, st: string, su: string)
    requires forall i :: 0 <= i < |fs| ==> SafeFeature(fs[i])
    ensures Parse(CsvText([Header] + ExportRows(fs, st, su))) == [Header] + ExportRows(fs, st, su)
  {
    var body := ExportRows(fs, st, su);
    ExportRowsPlain(fs, st, su);
    var rows := [Header] + body;
    assert forall j :: 0 <= j < |Header| ==> Plain(Header[j]);
    assert forall i :: 1 <= i < |rows| ==> rows[i] == body[i - 1];
    CsvRoundTrip(rows);
  }

  // ----- unquoted fields -----

  /** The number of commas inside the fields of a row. */
  function Commas(row: seq<string>): nat {
    if row == [] then 0 else Occurrences(row[0], ',') + Commas(row[1..])
  }

  lemma {:induction false} OccurrencesAppend(a: string, b: string, c: char)
    ensures Occurrences(a + b, c) == Occurrences(a, c) + Occurrences(b, c)
  {
    if a != [] {
      OccurrencesAppend(a[1..], b, c);
      assert (a + b)[0] == a[0] && (a + b)[1..] == a[1..] + b;
    } else {
      assert a + b == b;
    }
  }

  lemma {:induction false} EscapeKeepsCommas(s: string)
    ensures Occurrences(Escape(s), ',') == Occurrences(s, ',')
  {
    if s != [] {
      EscapeKeepsCommas(s[1..]);
      OccurrencesAppend(if s[0] == '"' then "\"\"" else [s[0]], Escape(s[1..]), ',');
    }
  }

  lemma {:induction false} JoinCommas(parts: seq<string>)
    requires parts != []
    ensures Occurrences(Join(parts, ","), ',') == Commas(parts) + |parts| - 1
  {
    if |parts| > 1 {
      JoinCommas(parts[1..]);
      OccurrencesAppend(parts[0] + ",", Join(parts[1..], ","), ',');
      OccurrencesAppend(parts[0], ",", ',');
    }
  }

  lemma {:induction false} EscapedCommas(row: seq<string>)
    ensures var escaped := seq(|row|, j requires 0 <= j < |row| => Escape(row[j]));
      Commas(escaped) == Commas(row)
  {
    if row != [] {
      EscapedCommas(row[1..]);
      EscapeKeepsCommas(row[0]);
      var escaped := seq(|row|, j requires 0 <= j < |row| => Escape(row[j]));
      assert escaped[1..] == seq(|row| - 1, j requires 0 <= j < |row| - 1 => Escape(row[1..][j]));
    }
  }

  /** The fields are not enclosed in quotes, so every comma inside a value
      starts a new column when the file is read back: a row is read back as
      one field more per such comma (a claimant "Doe, J" turns six columns
      into seven). */
  lemma CommasShiftColumns(row: seq<string>)
    requires row != []
    requires forall j :: 0 <= j < |row| ==> '\n' !in row[j]
    ensures |Parse(CsvText([row]))| == 1
    ensures |Parse(CsvText([row]))[0]| == |row| + Commas(row)
  {
    var escaped := seq(|row|, j requires 0 <= j < |row| => Escape(row[j]));
    forall j | 0 <= j < |row|
      ensures '\n' !in escaped[j]
    {
      EscapeAvoids(row[j], '\n');
    }
    JoinAvoids(escaped, ",", '\n');
    assert CsvText([row]) == Line(row);
    SplitNoSep(Line(row), '\n');
    JoinCommas(escaped);
    EscapedCommas(row);
  }
}
