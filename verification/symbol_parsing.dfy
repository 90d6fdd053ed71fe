/**
 * The two parsers of the symbol importer: the pipe-delimited symbol
 * directory files (`parse_nasdaq_txt`) and CSV files read through
 * `csv.DictReader` (`parse_csv_symbols`). Each parser is a method with the
 * source's loops, proved equal to a function that is the specification;
 * the properties of the output are lemmas about that function.
 */
module SymbolParsing {
  import opened Optional
  import opened Text

  // ---------------------------------------------------------------------
  // Pipe-delimited symbol directories
  // ---------------------------------------------------------------------

  /** Header names that identify the ticker column, in the order they are tried. */
  const SymbolHeaders: seq<string> := ["Symbol", "ACT Symbol", "NASDAQ Symbol", "CQS Symbol"]

  /**
   * The ticker column: the position in `header` of the first of `candidates`
   * that occurs in it, or 0 when none does.
   */
  function SymbolColumn(header: seq<string>, candidates: seq<string>): (idx: nat)
    ensures forall k :: 0 <= k < |candidates| && candidates[k] in header
                        && (forall j :: 0 <= j < k ==> candidates[j] !in header)
                        ==> idx == IndexOf(header, candidates[k])
    ensures (forall k :: 0 <= k < |candidates| ==> candidates[k] !in header) ==> idx == 0
  {
    if candidates == [] then 0
    else if candidates[0] in header then IndexOf(header, candidates[0])
    else SymbolColumn(header, candidates[1..])
  }

  /** A line that is blank or a banner/trailer ("File Creation ...", "NASDAQ ...") is skipped. */
  predicate SkippedLine(line: string) {
    line == "" || StartsWith(line, "File Creation") || StartsWith(line, "NASDAQ")
  }

  /** What one data line contributes: its stripped, upper-cased ticker field, if usable. */
  function LineSymbol(line: string, idx: nat): (r: Option<string>)
    ensures r.Some? ==> !SkippedLine(line)
    ensures r.Some? ==> r.value != "" && Upper(r.value) == r.value && r.value != "SYMBOL"
  {
    if SkippedLine(line) then None
    else
      var parts := Split(line, '|');
      if |parts| > idx then
        var s := Strip(parts[idx]);
        UpperIdempotent(s);
        if s != "" && Upper(s) != "SYMBOL" then Some(Upper(s)) else None
      else None
  }

  /** The tickers of `lines`, in order (the lines after the header). */
  function LinesSymbols(lines: seq<string>, idx: nat): seq<string> {
    if lines == [] then []
    else
      var init := LinesSymbols(lines[..|lines| - 1], idx);
      match LineSymbol(lines[|lines| - 1], idx)
      case Some(s) => init + [s]
      case None => init
  }

  /** The specification of `parse_nasdaq_txt`. */
  function NasdaqSymbols(text: string): seq<string> {
    var lines := SplitLines(text);
    if lines == [] then []
    else LinesSymbols(lines[1..], SymbolColumn(Split(lines[0], '|'), SymbolHeaders))
  }

  /** Every ticker comes from one of `lines`, is usable, and there is at most one per line. */
  lemma {:induction false} LinesSymbolsSound(lines: seq<string>, idx: nat)
    ensures |LinesSymbols(lines, idx)| <= |lines|
    ensures forall s :: s in LinesSymbols(lines, idx) ==>
              s != "" && Upper(s) == s && s != "SYMBOL"
              && exists j :: 0 <= j < |lines| && LineSymbol(lines[j], idx) == Some(s)
  {
    if lines != [] {
      var init := lines[..|lines| - 1];
      LinesSymbolsSound(init, idx);
      forall s | s in LinesSymbols(lines, idx)
        ensures exists j :: 0 <= j < |lines| && LineSymbol(lines[j], idx) == Some(s)
      {
        if s in LinesSymbols(init, idx) {
          var j :| 0 <= j < |init| && LineSymbol(init[j], idx) == Some(s);
          assert lines[j] == init[j];
        } else {
          assert LineSymbol(lines[|lines| - 1], idx) == Some(s);
        }
      }
    }
  }

  /**
   * The outputs of `parse_nasdaq_txt`: at most one per line after the header,
   * each non-empty, upper-case, not "SYMBOL", and taken from the ticker column
   * of a line other than the header (line 0).
   */
  lemma NasdaqSymbolsSound(text: string)
    ensures var lines := SplitLines(text);
            var out := NasdaqSymbols(text);
            (lines == [] ==> out == [])
            && (lines != [] ==> |out| <= |lines| - 1)
            && forall s :: s in out ==>
                 s != "" && Upper(s) == s && s != "SYMBOL"
                 && exists j :: 1 <= j < |lines|
                      && LineSymbol(lines[j], SymbolColumn(Split(lines[0], '|'), SymbolHeaders)) == Some(s)
  {
    var lines := SplitLines(text);
    if lines != [] {
      var idx := SymbolColumn(Split(lines[0], '|'), SymbolHeaders);
      LinesSymbolsSound(lines[1..], idx);
      forall s | s in NasdaqSymbols(text)
        ensures exists j :: 1 <= j < |lines| && LineSymbol(lines[j], idx) == Some(s)
      {
        var j :| 0 <= j < |lines[1..]| && LineSymbol(lines[1..][j], idx) == Some(s);
        assert lines[j + 1] == lines[1..][j];
      }
    }
  }

  /** The header scan of `parse_nasdaq_txt`: the first candidate header present wins. */
  method FindSymbolColumn(header: seq<string>) returns (idx: nat)
    ensures idx == SymbolColumn(header, SymbolHeaders)
  {
    idx := 0;
    var c := 0;
    while c < |SymbolHeaders|
      invariant 0 <= c <= |SymbolHeaders|
      invariant SymbolColumn(header, SymbolHeaders[c..]) == SymbolColumn(header, SymbolHeaders)
    {
      if SymbolHeaders[c] in header {
        idx := IndexOf(header, SymbolHeaders[c]);
        return;
      }
      c := c + 1;
    }
  }

  /** The data-line loop of `parse_nasdaq_txt`. */
  method ReadTickers(rest: seq<string>, idx: nat) returns (out: seq<string>)
    ensures out == LinesSymbols(rest, idx)
  {
    out := [];
    for i := 0 to |rest|
      invariant out == LinesSymbols(rest[..i], idx)
    {
      assert rest[..i + 1][..i] == rest[..i];
      var line := rest[i];
      if line == "" || StartsWith(line, "File Creation") || StartsWith(line, "NASDAQ") {
        assert LineSymbol(line, idx) == None;
        continue;
      }
      var parts := Split(line, '|');
      if |parts| > idx {
        var s := Strip(parts[idx]);
        if s != "" && Upper(s) != "SYMBOL" {
          assert LineSymbol(line, idx) == Some(Upper(s));
          out := out + [Upper(s)];
        } else {
          assert LineSymbol(line, idx) == None;
        }
      } else {
        assert LineSymbol(line, idx) == None;
      }
    }
    assert rest[..|rest|] == rest;
  }

  /** `parse_nasdaq_txt`: find the ticker column in the header, then read it from every data line. */
  method ParseNasdaqTxt(text: string) returns (out: seq<string>)
    ensures out == NasdaqSymbols(text)
  {
    var lines := SplitLines(text);
    if lines == [] {
      return [];
    }
    var idx := FindSymbolColumn(Split(lines[0], '|'));
    out := ReadTickers(lines[1..], idx);
  }

  // ---------------------------------------------------------------------
  // CSV files
  // ---------------------------------------------------------------------

  /**
   * A dict row of `csv.DictReader`. A header name past the end of a short
   * row gets the reader's `restval`, None; it is written "" here, because
   * the parser only asks whether a value is truthy, and None and "" are both
   * falsy. Fields past the header go under the key None, which no candidate
   * column names, and are left out.
   */
  type Row = map<string, string>

  /** The default candidate columns of `parse_csv_symbols`, in the order they are tried. */
  const DefaultColumns: seq<string> := ["Symbol", "symbol", "Ticker", "ticker", "code"]

  /**
   * The fields of one line: `csv.reader` turns an empty line into no fields
   * and otherwise splits at commas (quoting is not modelled).
   */
  function Fields(line: string): seq<string> {
    if line == "" then [] else Split(line, ',')
  }

  /** A line has no fields exactly when it is empty; otherwise its fields, rejoined by commas, are the line. */
  lemma FieldsOfLine(line: string)
    ensures Fields(line) == [] <==> line == ""
    ensures line != "" ==> Join(Fields(line), ',') == line
                           && forall f :: f in Fields(line) ==> ',' !in f
  {
    if line != "" {
      JoinSplit(line, ',');
      SplitParts(line, ',');
    }
  }

  /** The field under header position `j`, or the `restval` when the row is too short. */
  function FieldAt(fields: seq<string>, j: nat): string {
    if j < |fields| then fields[j] else ""
  }

  /**
   * The first `n` header positions, in order, each given its field: `zip`
   * followed by the `restval` padding of a short row.
   */
  function ZipRow(header: seq<string>, fields: seq<string>, n: nat): Row
    requires n <= |header|
  {
    if n == 0 then map[] else ZipRow(header, fields, n - 1)[header[n - 1] := FieldAt(fields, n - 1)]
  }

  /** `dict(zip(fieldnames, row))` padded with `restval`: the row under `header`. */
  function RowOf(header: seq<string>, fields: seq<string>): Row {
    ZipRow(header, fields, |header|)
  }

  /** No later one of the first `n` header positions repeats the name at `j`. */
  predicate LastOccurrence(header: seq<string>, j: int, n: nat) {
    0 <= j < n <= |header| && forall k :: j < k < n ==> header[k] != header[j]
  }

  /** The first `n` positions give one key per header name among them. */
  lemma {:induction false} ZipRowKeys(header: seq<string>, fields: seq<string>, n: nat)
    requires n <= |header|
    ensures forall x :: x in ZipRow(header, fields, n) <==> x in header[..n]
  {
    if n > 0 {
      ZipRowKeys(header, fields, n - 1);
      assert header[..n] == header[..n - 1] + [header[n - 1]];
    }
  }

  /** A repeated name keeps the field (or padding) of its last position among the first `n`. */
  lemma {:induction false} ZipRowValues(header: seq<string>, fields: seq<string>, n: nat)
    requires n <= |header|
    ensures forall j :: LastOccurrence(header, j, n) ==>
              header[j] in ZipRow(header, fields, n) && ZipRow(header, fields, n)[header[j]] == FieldAt(fields, j)
  {
    if n > 0 {
      ZipRowValues(header, fields, n - 1);
      forall j | LastOccurrence(header, j, n)
        ensures header[j] in ZipRow(header, fields, n) && ZipRow(header, fields, n)[header[j]] == FieldAt(fields, j)
      {
        if j < n - 1 {
          assert LastOccurrence(header, j, n - 1);
        }
      }
    }
  }

  /** The row's keys are exactly the header names, each holding the field at its last position, or "" past the row's end. */
  lemma RowOfSpec(header: seq<string>, fields: seq<string>)
    ensures forall x :: x in RowOf(header, fields) <==> x in header
    ensures forall j :: LastOccurrence(header, j, |header|) ==> RowOf(header, fields)[header[j]] == FieldAt(fields, j)
  {
    ZipRowKeys(header, fields, |header|);
    ZipRowValues(header, fields, |header|);
    assert header[..|header|] == header;
  }

  /** A repeated header name takes the padding of a short row, hiding the earlier field. */
  lemma RepeatedHeaderPadded()
    ensures RowSymbol(RowOf(["Symbol", "Name", "Symbol"], ["AAPL", "Apple"]), ["Symbol"]) == None
  {
    var row := RowOf(["Symbol", "Name", "Symbol"], ["AAPL", "Apple"]);
    assert row["Symbol"] == "";
  }

  /** The data rows under `header`; lines with no fields are skipped. */
  function DataRows(header: seq<string>, lines: seq<string>): seq<Row> {
    if lines == [] then []
    else
      var init := DataRows(header, lines[..|lines| - 1]);
      var last := lines[|lines| - 1];
      if Fields(last) == [] then init else init + [RowOf(header, Fields(last))]
  }

  /** The lines that have fields, in order. */
  function NonEmpty(lines: seq<string>): seq<string> {
    if lines == [] then []
    else
      var init := NonEmpty(lines[..|lines| - 1]);
      var last := lines[|lines| - 1];
      if last == "" then init else init + [last]
  }

  /** One row per non-empty line, in order, each the line's fields under `header`. */
  lemma {:induction false} DataRowsSpec(header: seq<string>, lines: seq<string>)
    ensures |DataRows(header, lines)| == |NonEmpty(lines)| <= |lines|
    ensures forall k :: 0 <= k < |DataRows(header, lines)| ==>
              DataRows(header, lines)[k] == RowOf(header, Fields(NonEmpty(lines)[k]))
    ensures forall l :: l in NonEmpty(lines) <==> l in lines && l != ""
  {
    if lines != [] {
      var init := lines[..|lines| - 1];
      var last := lines[|lines| - 1];
      DataRowsSpec(header, init);
      FieldsOfLine(last);
      assert lines == init + [last];
    }
  }

  /** `csv.DictReader(text.splitlines())`: the first line names the columns. */
  function CsvRows(text: string): seq<Row> {
    var lines := SplitLines(text);
    if lines == [] then [] else DataRows(Fields(lines[0]), lines[1..])
  }

  /**
   * Empty text has no rows; otherwise the first line is the header, and the
   * rows are the later non-empty lines' fields under it, one each, in order.
   */
  lemma CsvRowsSpec(text: string)
    ensures text == "" ==> CsvRows(text) == []
    ensures text != "" ==>
              var lines := SplitLines(text);
              |CsvRows(text)| == |NonEmpty(lines[1..])| < |lines|
              && forall k :: 0 <= k < |CsvRows(text)| ==>
                   CsvRows(text)[k] == RowOf(Fields(lines[0]), Fields(NonEmpty(lines[1..])[k]))
  {
    var lines := SplitLines(text);
    if lines != [] {
      DataRowsSpec(Fields(lines[0]), lines[1..]);
    }
  }

  /** `c in row and row[c]` */
  predicate Filled(row: Row, c: string) {
    c in row && row[c] != ""
  }

  /**
   * What one row contributes: the stripped, upper-cased value of the first
   * candidate column (in candidate order) that has a non-empty value.
   */
  function RowSymbol(row: Row, candidates: seq<string>): Option<string> {
    if candidates == [] then None
    else if Filled(row, candidates[0]) then Some(Upper(Strip(row[candidates[0]])))
    else RowSymbol(row, candidates[1..])
  }

  /** `candidates[k]` is the first candidate column with a value in `row`. */
  predicate FirstFilled(row: Row, candidates: seq<string>, k: int) {
    0 <= k < |candidates| && Filled(row, candidates[k])
    && forall j :: 0 <= j < k ==> !Filled(row, candidates[j])
  }

  /** A row contributes nothing exactly when no candidate column has a value. */
  lemma {:induction false} RowSymbolNone(row: Row, candidates: seq<string>)
    ensures RowSymbol(row, candidates).None? <==> forall k :: 0 <= k < |candidates| ==> !Filled(row, candidates[k])
  {
    if candidates != [] && !Filled(row, candidates[0]) {
      var rest := candidates[1..];
      RowSymbolNone(row, rest);
      assert forall k :: 0 <= k < |rest| ==> rest[k] == candidates[k + 1];
    }
  }

  /** A row that contributes gives the stripped, upper-cased value of its first filled candidate column. */
  lemma {:induction false} RowSymbolFirst(row: Row, candidates: seq<string>)
    requires RowSymbol(row, candidates).Some?
    ensures exists k :: FirstFilled(row, candidates, k)
                        && RowSymbol(row, candidates).value == Upper(Strip(row[candidates[k]]))
  {
    if Filled(row, candidates[0]) {
      assert FirstFilled(row, candidates, 0);
    } else {
      var rest := candidates[1..];
      RowSymbolFirst(row, rest);
      var k :| FirstFilled(row, rest, k) && RowSymbol(row, rest).value == Upper(Strip(row[rest[k]]));
      forall j | 0 <= j < k + 1
        ensures !Filled(row, candidates[j])
      {
        if j > 0 {
          assert candidates[j] == rest[j - 1];
        }
      }
      assert FirstFilled(row, candidates, k + 1);
    }
  }

  function RowsSymbols(rows: seq<Row>, candidates: seq<string>): seq<string> {
    if rows == [] then []
    else
      var init := RowsSymbols(rows[..|rows| - 1], candidates);
      match RowSymbol(rows[|rows| - 1], candidates)
      case Some(s) => init + [s]
      case None => init
  }

  /** The specification of `parse_csv_symbols`. */
  function CsvSymbols(text: string, candidates: seq<string>): seq<string> {
    RowsSymbols(CsvRows(text), candidates)
  }

  /** At most one symbol per row, each the pick of some row. */
  lemma {:induction false} RowsSymbolsSound(rows: seq<Row>, candidates: seq<string>)
    ensures |RowsSymbols(rows, candidates)| <= |rows|
    ensures forall s :: s in RowsSymbols(rows, candidates) ==>
              exists i :: 0 <= i < |rows| && RowSymbol(rows[i], candidates) == Some(s)
  {
    if rows != [] {
      var init := rows[..|rows| - 1];
      RowsSymbolsSound(init, candidates);
      forall s | s in RowsSymbols(rows, candidates)
        ensures exists i :: 0 <= i < |rows| && RowSymbol(rows[i], candidates) == Some(s)
      {
        if s in RowsSymbols(init, candidates) {
          var i :| 0 <= i < |init| && RowSymbol(init[i], candidates) == Some(s);
          assert rows[i] == init[i];
        } else {
          assert RowSymbol(rows[|rows| - 1], candidates) == Some(s);
        }
      }
    }
  }

  /** `parse_csv_symbols`: for each row, the first candidate column with a value. */
  method ParseCsvSymbols(text: string, candidates: seq<string>) returns (out: seq<string>)
    ensures out == CsvSymbols(text, candidates)
  {
    var rows := CsvRows(text);
    out := [];
    for i := 0 to |rows|
      invariant out == RowsSymbols(rows[..i], candidates)
    {
      assert rows[..i + 1][..i] == rows[..i];
      var row := rows[i];
      var k := 0;
      while k < |candidates|
        invariant 0 <= k <= |candidates|
        invariant RowSymbol(row, candidates[k..]) == RowSymbol(row, candidates)
        invariant out == RowsSymbols(rows[..i], candidates)
      {
        var c := candidates[k];
        if c in row && row[c] != "" {
          out := out + [Upper(Strip(row[c]))];
          break;
        }
        k := k + 1;
      }
    }
    assert rows[..|rows|] == rows;
  }
}
