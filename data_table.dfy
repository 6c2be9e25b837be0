/** The results table of the simulation and its export (DataTable.cpp): a grid of
    text cells under a header chosen by clustering method, a row accepted only when
    its width is the column count, and an export that writes the header, then every
    row, as tab-terminated fields, one line each. */
module DataTables {
  import opened Common

  /** The clustering methods a table can be set up for. */
  datatype Method = HALLEY | FRACTAL

  /** A value handed to `QString::number`: an integer, or a floating-point value with
      the number of significant digits it is printed with. */
  datatype Number = Integer(i: int) | Decimal(d: real, precision: nat)

  /** How an operation ends: normally, or by throwing `std::logic_error`. */
  datatype Outcome = Done | LogicError(message: string)

  /** The field separator of the export (Global.h:18). */
  const SEPARATOR: char := '\t'
  /** The precision `QString::number` uses when none is given. */
  const DEFAULT_PRECISION: nat := 6
  /** The precision of the floating-point cells of a FRACTAL row. */
  const FRACTAL_PRECISION: nat := 14

  const ROW_WIDTH_ERROR: string := "Row element count doesn't match cosumn count"
  const UNSPECIALIZED_ERROR: string := "Unspecialized addRow function called"

  const HFOV_LABEL: string := "HFOV [deg]"
  const VFOV_LABEL: string := "VOFV [deg]"
  const AREA_LABEL: string := "Angular area [arcsec\U{B2}]"

  const SHELL_INDEX_TITLE: string := "Shell index"
  const LEVEL_INDEX_TITLE: string := "Level index"
  const STAR_COUNT_TITLE: string := "Visible star count \n n\U{1D65} [1]"
  const APVMAG_TITLE: string := "Total apvmag \n m\U{1D65} [mag]"
  const SKY_BRIGHTNESS_TITLE: string := "Sky brightness \n \U{3BC} [mag*arcsec\U{207B}\U{B2}]"
  const LINEAR_TITLE: string := "e^(-\U{3BC})"

  // ---------------------------------------------------------------------------
  // Headers and rows

  /** The column titles of each method as the header table has them: four for
      FRACTAL, with no index column. */
  function HeaderAsWritten(m: Method): (h: seq<string>)
    ensures |h| == if m == HALLEY then 5 else 4
  {
    match m
    case HALLEY => [SHELL_INDEX_TITLE, STAR_COUNT_TITLE, APVMAG_TITLE, SKY_BRIGHTNESS_TITLE, LINEAR_TITLE]
    case FRACTAL => [STAR_COUNT_TITLE, APVMAG_TITLE, SKY_BRIGHTNESS_TITLE, LINEAR_TITLE]
  }

  /** The column titles of each method, with the level index column a FRACTAL row
      starts with. */
  function Header(m: Method): (h: seq<string>)
    ensures |h| == 5
  {
    match m
    case HALLEY => HeaderAsWritten(HALLEY)
    case FRACTAL => [LEVEL_INDEX_TITLE] + HeaderAsWritten(FRACTAL)
  }

  /** The values of one row of `addRow<m>`: the shell or level index, the star
      count, and three floating-point values, printed with six significant digits
      for HALLEY and fourteen for FRACTAL. */
  function RowCells(m: Method, index: int, starCount: int, totalApvmag: real,
                    apvmagPerSqArcsec: real, linearSurfaceBrightness: real): (cells: seq<Number>)
    ensures |cells| == 5
  {
    var p := if m == HALLEY then DEFAULT_PRECISION else FRACTAL_PRECISION;
    [Integer(index), Integer(starCount), Decimal(totalApvmag, p), Decimal(apvmagPerSqArcsec, p),
     Decimal(linearSurfaceBrightness, p)]
  }

  /** Each row of a method fits the header of that method. */
  lemma RowsFitHeader(m: Method, index: int, starCount: int, totalApvmag: real,
                      apvmagPerSqArcsec: real, linearSurfaceBrightness: real)
    ensures |RowCells(m, index, starCount, totalApvmag, apvmagPerSqArcsec, linearSurfaceBrightness)| ==
            |Header(m)|
  {
  }

  /** Under the header table as written, every FRACTAL row is one cell too wide, so
      the table rejects it; HALLEY rows fit. */
  lemma FractalRowRejectedAsWritten(index: int, starCount: int, totalApvmag: real,
                                    apvmagPerSqArcsec: real, linearSurfaceBrightness: real)
    ensures |RowCells(FRACTAL, index, starCount, totalApvmag, apvmagPerSqArcsec, linearSurfaceBrightness)| ==
            |HeaderAsWritten(FRACTAL)| + 1
    ensures |RowCells(HALLEY, index, starCount, totalApvmag, apvmagPerSqArcsec, linearSurfaceBrightness)| ==
            |HeaderAsWritten(HALLEY)|
  {
  }

  /** A row of texts as placed in the table: every cell holds its text. */
  function Filled(text: seq<string>): (row: seq<Option<string>>)
    ensures |row| == |text| && forall i :: 0 <= i < |text| ==> row[i] == Some(text[i])
  {
    seq(|text|, i requires 0 <= i < |text| => Some(text[i]))
  }

  // ---------------------------------------------------------------------------
  // The export text

  /** The text of `fields`, each followed by `c`. */
  function Terminated(fields: seq<string>, c: char): string
  {
    if fields == [] then "" else Terminated(fields[..|fields| - 1], c) + fields[|fields| - 1] + [c]
  }

  /** A header text as exported: each line break becomes a slash. */
  function Slashed(s: string): (r: string)
    ensures |r| == |s| && '\n' !in r
    ensures forall i :: 0 <= i < |s| && s[i] != '\n' ==> r[i] == s[i]
  {
    seq(|s|, i requires 0 <= i < |s| => if s[i] == '\n' then '/' else s[i])
  }

  function SlashedAll(header: seq<string>): (r: seq<string>)
    ensures |r| == |header| && forall i :: 0 <= i < |header| ==> r[i] == Slashed(header[i])
  {
    seq(|header|, i requires 0 <= i < |header| => Slashed(header[i]))
  }

  /** The text of a cell; an empty cell exports as nothing. */
  function CellText(cell: Option<string>): string
  {
    match cell
    case None => ""
    case Some(t) => t
  }

  function CellTexts(row: seq<Option<string>>): (r: seq<string>)
    ensures |r| == |row| && forall i :: 0 <= i < |row| ==> r[i] == CellText(row[i])
  {
    seq(|row|, i requires 0 <= i < |row| => CellText(row[i]))
  }

  /** The header line, without its line break: every column title, then the
      horizontal and vertical field of view and the angular area labels. */
  function HeaderLine(header: seq<string>): string
  {
    Terminated(SlashedAll(header), SEPARATOR) + (HFOV_LABEL + [SEPARATOR] + VFOV_LABEL + [SEPARATOR] + AREA_LABEL)
  }

  /** A data line, without its line break: every cell; the first row also carries
      the camera's fields of view and angular area. */
  function RowLine(row: seq<Option<string>>, first: bool, hfov: string, vfov: string, area: string): string
  {
    Terminated(CellTexts(row), SEPARATOR) + if first then hfov + [SEPARATOR] + vfov + [SEPARATOR] + area else ""
  }

  /** The contents of a table, as a value: the header titles, the column count and
      the cells of each row, where an empty cell holds nothing. */
  datatype Table = Table(header: seq<string>, columnCount: nat, rows: seq<seq<Option<string>>>)

  /** Every title and every row is as wide as the column count. */
  ghost predicate Rectangular(t: Table)
  {
    |t.header| == t.columnCount && forall r :: 0 <= r < |t.rows| ==> |t.rows[r]| == t.columnCount
  }

  /** The lines of the export of `t`, header line first. */
  function Lines(t: Table, hfov: string, vfov: string, area: string): (lines: seq<string>)
    ensures |lines| == |t.rows| + 1 && lines[0] == HeaderLine(t.header)
    ensures forall r :: 0 <= r < |t.rows| ==> lines[r + 1] == RowLine(t.rows[r], r == 0, hfov, vfov, area)
  {
    [HeaderLine(t.header)] + seq(|t.rows|, r requires 0 <= r < |t.rows| => RowLine(t.rows[r], r == 0, hfov, vfov, area))
  }

  /** What the export writes: nothing for a table with no row, and otherwise each
      line followed by a line break. */
  function ExportText(t: Table, hfov: string, vfov: string, area: string): (text: Option<string>)
    ensures text == None <==> t.rows == []
  {
    if t.rows == [] then None else Some(Terminated(Lines(t, hfov, vfov, area), '\n'))
  }

  // ---------------------------------------------------------------------------
  // Reading an export back

  /** The pieces of `s` between occurrences of `c`. */
  function SplitOn(s: string, c: char): (pieces: seq<string>)
    ensures |pieces| >= 1
    decreases |s|
  {
    if s == [] then [""]
    else if s[0] == c then [""] + SplitOn(s[1..], c)
    else var rest := SplitOn(s[1..], c); [[s[0]] + rest[0]] + rest[1..]
  }

  lemma {:induction false} SplitOnPlain(w: string, c: char)
    requires c !in w
    ensures SplitOn(w, c) == [w]
    decreases |w|
  {
    if w != [] {
      SplitOnPlain(w[1..], c);
      assert [w[0]] + w[1..] == w;
    }
  }

  lemma {:induction false} SplitOnAfter(w: string, c: char, rest: string)
    requires c !in w
    ensures SplitOn(w + [c] + rest, c) == [w] + SplitOn(rest, c)
    decreases |w|
  {
    var s := w + [c] + rest;
    if w == [] {
      assert s[1..] == rest;
    } else {
      assert s[1..] == w[1..] + [c] + rest;
      SplitOnAfter(w[1..], c, rest);
      assert [w[0]] + w[1..] == w;
    }
  }

  /** Splitting terminated fields on their terminator gives the fields back, when no
      field holds the terminator. */
  lemma {:induction false} SplitTerminated(fields: seq<string>, c: char, rest: string)
    requires forall i :: 0 <= i < |fields| ==> c !in fields[i]
    ensures SplitOn(Terminated(fields, c) + rest, c) == fields + SplitOn(rest, c)
    decreases |fields|
  {
    if fields != [] {
      var init, last := fields[..|fields| - 1], fields[|fields| - 1];
      assert Terminated(fields, c) + rest == Terminated(init, c) + (last + [c] + rest);
      assert forall i :: 0 <= i < |init| ==> init[i] == fields[i];
      SplitTerminated(init, c, last + [c] + rest);
      SplitOnAfter(last, c, rest);
      calc {
        SplitOn(Terminated(fields, c) + rest, c);
        init + SplitOn(last + [c] + rest, c);
        init + ([last] + SplitOn(rest, c));
        (init + [last]) + SplitOn(rest, c);
        { assert init + [last] == fields; }
        fields + SplitOn(rest, c);
      }
    } else {
      assert Terminated(fields, c) + rest == rest;
    }
  }

  lemma {:induction false} TerminatedConcat(a: seq<string>, b: seq<string>, c: char)
    ensures Terminated(a + b, c) == Terminated(a, c) + Terminated(b, c)
    decreases |b|
  {
    if b != [] {
      var init, last := b[..|b| - 1], b[|b| - 1];
      assert (a + b)[..|a + b| - 1] == a + init && (a + b)[|a + b| - 1] == last;
      TerminatedConcat(a, init, c);
      calc {
        Terminated(a + b, c);
        Terminated(a + init, c) + last + [c];
        Terminated(a, c) + Terminated(init, c) + last + [c];
        Terminated(a, c) + (Terminated(init, c) + last + [c]);
      }
    } else {
      assert a + b == a;
    }
  }

  /** Terminating one more field appends it and its terminator. */
  lemma TerminatedStep(fields: seq<string>, k: nat, c: char)
    requires k < |fields|
    ensures Terminated(fields[..k + 1], c) == Terminated(fields[..k], c) + fields[k] + [c]
  {
    assert fields[..k + 1][..k] == fields[..k];
  }

  lemma TerminatedPair(x: string, y: string, c: char)
    ensures Terminated([x, y], c) == x + [c] + y + [c]
  {
    assert [x, y][..1] == [x] && [x][..0] == [];
    calc {
      Terminated([x, y], c);
      Terminated([x], c) + y + [c];
      Terminated([], c) + x + [c] + y + [c];
    }
  }

  /** A field with neither separator nor line break. */
  predicate Plain(s: string)
  {
    SEPARATOR !in s && '\n' !in s
  }

  lemma {:induction false} TerminatedHasNo(fields: seq<string>, c: char, d: char)
    requires c != d && forall i :: 0 <= i < |fields| ==> d !in fields[i]
    ensures d !in Terminated(fields, c)
    decreases |fields|
  {
    if fields != [] {
      TerminatedHasNo(fields[..|fields| - 1], c, d);
    }
  }

  /** The export of a table reads back: split on line breaks it gives one line for
      the header, one per row and an empty remainder; the header line splits on tabs
      into every title, with slashes for line breaks, and the three camera labels;
      each row line splits into its cell texts, followed by the camera's fields of
      view and angular area on the first row and by an empty remainder on the
      others. */
  lemma ExportReadsBack(t: Table, hfov: string, vfov: string, area: string)
    requires Rectangular(t) && t.rows != []
    requires forall i :: 0 <= i < |t.header| ==> SEPARATOR !in t.header[i]
    requires forall r, i :: 0 <= r < |t.rows| && 0 <= i < t.columnCount ==> Plain(CellText(t.rows[r][i]))
    requires Plain(hfov) && Plain(vfov) && Plain(area)
    ensures var lines := SplitOn(ExportText(t, hfov, vfov, area).value, '\n');
            |lines| == |t.rows| + 2 && lines[|t.rows| + 1] == "" &&
            SplitOn(lines[0], SEPARATOR) == SlashedAll(t.header) + [HFOV_LABEL, VFOV_LABEL, AREA_LABEL] &&
            forall r :: 0 <= r < |t.rows| ==>
              SplitOn(lines[r + 1], SEPARATOR) ==
                CellTexts(t.rows[r]) + if r == 0 then [hfov, vfov, area] else [""]
  {
    var lines := Lines(t, hfov, vfov, area);
    ExportSplitsIntoLines(t, hfov, vfov, area);
    HeaderLineReadsBack(t.header);
    forall r | 0 <= r < |t.rows|
      ensures SplitOn(lines[r + 1], SEPARATOR) == CellTexts(t.rows[r]) + if r == 0 then [hfov, vfov, area] else [""]
    {
      RowLineReadsBack(t.rows[r], r == 0, hfov, vfov, area);
    }
  }

  /** Split on line breaks, the export gives back its lines and an empty remainder. */
  lemma ExportSplitsIntoLines(t: Table, hfov: string, vfov: string, area: string)
    requires Rectangular(t) && t.rows != []
    requires forall i :: 0 <= i < |t.header| ==> SEPARATOR !in t.header[i]
    requires forall r, i :: 0 <= r < |t.rows| && 0 <= i < t.columnCount ==> Plain(CellText(t.rows[r][i]))
    requires Plain(hfov) && Plain(vfov) && Plain(area)
    ensures SplitOn(ExportText(t, hfov, vfov, area).value, '\n') == Lines(t, hfov, vfov, area) + [""]
  {
    var lines := Lines(t, hfov, vfov, area);
    forall k | 0 <= k < |lines|
      ensures '\n' !in lines[k]
    {
      if k == 0 {
        HeaderLineReadsBack(t.header);
      } else {
        RowLineReadsBack(t.rows[k - 1], k - 1 == 0, hfov, vfov, area);
      }
    }
    SplitTerminated(lines, '\n', "");
    assert Terminated(lines, '\n') + "" == Terminated(lines, '\n');
  }

  /** A line of terminated fields followed by three separated fields reads back
      into all of them. */
  lemma TrailerReadsBack(fields: seq<string>, x: string, y: string, z: string)
    requires forall i :: 0 <= i < |fields| ==> Plain(fields[i])
    requires Plain(x) && Plain(y) && Plain(z)
    ensures '\n' !in Terminated(fields, SEPARATOR) + (x + [SEPARATOR] + y + [SEPARATOR] + z)
    ensures SplitOn(Terminated(fields, SEPARATOR) + (x + [SEPARATOR] + y + [SEPARATOR] + z), SEPARATOR) ==
            fields + [x, y, z]
  {
    var all := fields + [x, y];
    var line := Terminated(fields, SEPARATOR) + (x + [SEPARATOR] + y + [SEPARATOR] + z);
    calc {
      line;
      Terminated(fields, SEPARATOR) + (x + [SEPARATOR] + y + [SEPARATOR]) + z;
      { TerminatedPair(x, y, SEPARATOR); }
      Terminated(fields, SEPARATOR) + Terminated([x, y], SEPARATOR) + z;
      { TerminatedConcat(fields, [x, y], SEPARATOR); }
      Terminated(all, SEPARATOR) + z;
    }
    SplitTerminated(all, SEPARATOR, z);
    SplitOnPlain(z, SEPARATOR);
    assert all + [z] == fields + [x, y, z];
    TerminatedHasNo(all, SEPARATOR, '\n');
  }

  lemma LabelsPlain()
    ensures Plain(HFOV_LABEL) && Plain(VFOV_LABEL) && Plain(AREA_LABEL)
  {
  }

  lemma HeaderLineReadsBack(header: seq<string>)
    requires forall i :: 0 <= i < |header| ==> SEPARATOR !in header[i]
    ensures '\n' !in HeaderLine(header)
    ensures SplitOn(HeaderLine(header), SEPARATOR) == SlashedAll(header) + [HFOV_LABEL, VFOV_LABEL, AREA_LABEL]
  {
    var titles := SlashedAll(header);
    forall i | 0 <= i < |titles|
      ensures Plain(titles[i])
    {
      assert SEPARATOR !in header[i];
    }
    LabelsPlain();
    TrailerReadsBack(titles, HFOV_LABEL, VFOV_LABEL, AREA_LABEL);
  }

  lemma RowLineReadsBack(row: seq<Option<string>>, first: bool, hfov: string, vfov: string, area: string)
    requires forall i :: 0 <= i < |row| ==> Plain(CellText(row[i]))
    requires Plain(hfov) && Plain(vfov) && Plain(area)
    ensures '\n' !in RowLine(row, first, hfov, vfov, area)
    ensures SplitOn(RowLine(row, first, hfov, vfov, area), SEPARATOR) ==
              CellTexts(row) + if first then [hfov, vfov, area] else [""]
  {
    var cells := CellTexts(row);
    if first {
      TrailerReadsBack(cells, hfov, vfov, area);
    } else {
      TerminatedHasNo(cells, SEPARATOR, '\n');
      assert RowLine(row, first, hfov, vfov, area) == Terminated(cells, SEPARATOR) + "";
      SplitTerminated(cells, SEPARATOR, "");
    }
  }

  // ---------------------------------------------------------------------------
  // The table

  class DataTable {
    /** The horizontal header titles. */
    var header: seq<string>
    var columnCount: nat
    /** The cells of each row; a cell no item was set for holds nothing. */
    var rows: seq<seq<Option<string>>>
    /** The texts of the camera data fields. */
    var hfovText: string
    var vfovText: string
    var areaSqDegText: string
    var areaSqArcsecText: string

    ghost function Contents(): Table
      reads this
    {
      Table(header, columnCount, rows)
    }

    /** Every title and every row is as wide as the column count. */
    ghost predicate Valid()
      reads this
    {
      Rectangular(Contents())
    }

    constructor ()
      ensures Valid() && Contents() == Table([], 0, [])
      ensures hfovText == vfovText == areaSqDegText == areaSqArcsecText == ""
    {
      header, columnCount, rows := [], 0, [];
      hfovText, vfovText, areaSqDegText, areaSqArcsecText := "", "", "", "";
    }

    /** setCameraData: each field shows its value printed by `number`. */
    method SetCameraData(hfov: real, vfov: real, areaSqDeg: real, areaSqArcsec: real, number: Number -> string)
      modifies this`hfovText, this`vfovText, this`areaSqDegText, this`areaSqArcsecText
      ensures hfovText == number(Decimal(hfov, DEFAULT_PRECISION))
      ensures vfovText == number(Decimal(vfov, DEFAULT_PRECISION))
      ensures areaSqDegText == number(Decimal(areaSqDeg, DEFAULT_PRECISION))
      ensures areaSqArcsecText == number(Decimal(areaSqArcsec, DEFAULT_PRECISION))
    {
      hfovText := number(Decimal(hfov, DEFAULT_PRECISION));
      vfovText := number(Decimal(vfov, DEFAULT_PRECISION));
      areaSqDegText := number(Decimal(areaSqDeg, DEFAULT_PRECISION));
      areaSqArcsecText := number(Decimal(areaSqArcsec, DEFAULT_PRECISION));
    }

    /** clear: no title, no column and no row is left. */
    method Clear()
      modifies this`header, this`columnCount, this`rows
      ensures Valid() && Contents() == Table([], 0, [])
    {
      header := [];
      columnCount := 0;
      rows := [];
    }

    /** setHeader, corrected: the table is cleared, then gets one column per title
        of `m`, FRACTAL's level index included. */
    method SetHeader(m: Method)
      modifies this`header, this`columnCount, this`rows
      ensures Valid() && Contents() == Table(Header(m), |Header(m)|, [])
    {
      InstallHeader(Header(m));
    }

    /** setHeader as written: the table is cleared, then gets one column per title of
        `m` in the header table, which has no FRACTAL index column. */
    method SetHeaderAsWritten(m: Method)
      modifies this`header, this`columnCount, this`rows
      ensures Valid() && Contents() == Table(HeaderAsWritten(m), |HeaderAsWritten(m)|, [])
    {
      InstallHeader(HeaderAsWritten(m));
    }

    /** The table is cleared, then gets one column per title. */
    method InstallHeader(titles: seq<string>)
      modifies this`header, this`columnCount, this`rows
      ensures Valid() && Contents() == Table(titles, |titles|, [])
    {
      Clear();
      columnCount := |titles|;
      header := titles;
    }

    /** placeRow: a row whose width is not the column count is refused and the table
        is left as it was; any other row is added at the end, one cell per text. */
    method PlaceRow(text: seq<string>) returns (r: Outcome)
      requires Valid()
      modifies this`rows
      ensures Valid()
      ensures |text| != columnCount ==> r == LogicError(ROW_WIDTH_ERROR) && rows == old(rows)
      ensures |text| == columnCount ==> r == Done && rows == old(rows) + [Filled(text)]
    {
      if |text| != columnCount {
        return LogicError(ROW_WIDTH_ERROR);
      }
      var last := |rows|;
      rows := rows + [seq(columnCount, _ => None)];
      for i := 0 to |text|
        invariant |rows| == last + 1 && rows[..last] == old(rows) && |rows[last]| == columnCount
        invariant forall j :: 0 <= j < columnCount ==> rows[last][j] == if j < i then Some(text[j]) else None
      {
        rows := rows[last := rows[last][i := Some(text[i])]];
      }
      assert rows[last] == Filled(text);
      assert rows == rows[..last] + [rows[last]];
      r := Done;
    }

    /** The `addRow` specialisation of `m`: the row's values are printed by `number`
        and placed. */
    method AddRow(m: Method, index: int, starCount: int, totalApvmag: real, apvmagPerSqArcsec: real,
                  linearSurfaceBrightness: real, number: Number -> string) returns (r: Outcome)
      requires Valid()
      modifies this`rows
      ensures Valid()
      ensures var cells := RowCells(m, index, starCount, totalApvmag, apvmagPerSqArcsec, linearSurfaceBrightness);
              if columnCount == |cells|
              then r == Done && rows == old(rows) + [Filled(seq(|cells|, i requires 0 <= i < |cells| => number(cells[i])))]
              else r == LogicError(ROW_WIDTH_ERROR) && rows == old(rows)
    {
      var cells := RowCells(m, index, starCount, totalApvmag, apvmagPerSqArcsec, linearSurfaceBrightness);
      var text := seq(|cells|, i requires 0 <= i < |cells| => number(cells[i]));
      r := PlaceRow(text);
    }

    /** export: nothing for a table with no row; otherwise the header line, then
        one line per row. */
    method Export() returns (text: Option<string>)
      requires Valid()
      ensures text == ExportText(Contents(), hfovText, vfovText, areaSqArcsecText)
    {
      if |rows| == 0 {
        return None;
      }
      ghost var lines := Lines(Contents(), hfovText, vfovText, areaSqArcsecText);
      var head := WriteHeader();
      TerminatedStep(lines, 0, '\n');
      assert lines[..0] == [];
      var out := WriteRows(head + "\n");
      text := Some(out);
    }

    /** The data lines of the export, each followed by a line break, written after
        the header line and its line break. */
    method WriteRows(head: string) returns (out: string)
      requires Valid() && |rows| > 0
      requires head == Terminated(Lines(Contents(), hfovText, vfovText, areaSqArcsecText)[..1], '\n')
      ensures out == Terminated(Lines(Contents(), hfovText, vfovText, areaSqArcsecText), '\n')
    {
      ghost var lines := Lines(Contents(), hfovText, vfovText, areaSqArcsecText);
      out := head;
      for row := 0 to |rows|
        invariant out == Terminated(lines[..row + 1], '\n')
      {
        var line := WriteRow(row);
        TerminatedStep(lines, row + 1, '\n');
        out := out + line + "\n";
      }
      assert lines[..|rows| + 1] == lines;
    }

    /** The header line of the export, written title by title. */
    method WriteHeader() returns (out: string)
      requires Valid()
      ensures out == HeaderLine(header)
    {
      out := "";
      var titles := SlashedAll(header);
      for col := 0 to columnCount
        invariant out == Terminated(titles[..col], SEPARATOR)
      {
        TerminatedStep(titles, col, SEPARATOR);
        out := out + Slashed(header[col]) + [SEPARATOR];
      }
      assert titles[..columnCount] == titles;
      out := out + HFOV_LABEL + [SEPARATOR] + VFOV_LABEL + [SEPARATOR] + AREA_LABEL;
    }

    /** Data line `row` of the export, written cell by cell: an empty cell as a bare
        separator; the first row also carries the camera data. */
    method WriteRow(row: nat) returns (out: string)
      requires Valid() && row < |rows|
      ensures out == RowLine(rows[row], row == 0, hfovText, vfovText, areaSqArcsecText)
    {
      out := "";
      var cells := CellTexts(rows[row]);
      for col := 0 to columnCount
        invariant out == Terminated(cells[..col], SEPARATOR)
      {
        TerminatedStep(cells, col, SEPARATOR);
        match rows[row][col]
        case None =>
          out := out + [SEPARATOR];
        case Some(t) =>
          out := out + t + [SEPARATOR];
      }
      assert cells[..columnCount] == cells;
      if row == 0 {
        out := out + hfovText + [SEPARATOR] + vfovText + [SEPARATOR] + areaSqArcsecText;
      }
    }
  }

  /** One FRACTAL row after setHeader<FRACTAL>: the header table as written makes the
      table refuse it, the corrected header makes it the table's first row. */
  method FractalRowAfterHeader(index: int, starCount: int, totalApvmag: real, apvmagPerSqArcsec: real,
                               linearSurfaceBrightness: real, number: Number -> string)
    returns (asWritten: Outcome, corrected: Outcome, rowsAsWritten: nat, rowsCorrected: nat)
    ensures asWritten == LogicError(ROW_WIDTH_ERROR) && rowsAsWritten == 0
    ensures corrected == Done && rowsCorrected == 1
  {
    var t := new DataTable();
    t.SetHeaderAsWritten(FRACTAL);
    asWritten := t.AddRow(FRACTAL, index, starCount, totalApvmag, apvmagPerSqArcsec,
                          linearSurfaceBrightness, number);
    rowsAsWritten := |t.rows|;
    t.SetHeader(FRACTAL);
    corrected := t.AddRow(FRACTAL, index, starCount, totalApvmag, apvmagPerSqArcsec,
                          linearSurfaceBrightness, number);
    rowsCorrected := |t.rows|;
  }

  /** The unspecialised `addRow`, reached by any argument list neither
      specialisation takes: it always throws. */
  method AddRowUnspecialized(args: seq<Number>) returns (r: Outcome)
    ensures r == LogicError(UNSPECIALIZED_ERROR)
  {
    r := LogicError(UNSPECIALIZED_ERROR);
  }
}
