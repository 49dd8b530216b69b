/**
  `exportToCSV` without its download step: a list of objects becomes CSV text.

  The header row is the first object's keys, in key order, joined by commas and not
  quoted. Each data row has one field per header key, in header order; every field is
  enclosed in double quotes and an embedded double quote is doubled, as items 6 and 7 of
  section 2 of RFC 4180 describe. Lines are joined by LF, not the CRLF of item 1, and no
  line break follows the last row.

  The second half of the module is a reader for that text, the inverse used to state
  what the export preserves.
 */
module CsvExport {
  import opened Js

  /** One exported object: its keys in `Object.keys` order, each with its value. */
  type Row = seq<(string, string)>

  function Keys(row: Row): (keys: seq<string>)
    ensures |keys| == |row|
    ensures forall i :: 0 <= i < |row| ==> keys[i] == row[i].0
  {
    if row == [] then [] else [row[0].0] + Keys(row[1..])
  }

  /** `row[key]`: the value of the first entry with that key, if any. */
  function Lookup(row: Row, key: string): Option<string> {
    if row == [] then None
    else if row[0].0 == key then Some(row[0].1)
    else Lookup(row[1..], key)
  }

  /** The cell for `key`: the value of the object's own property `key`, or the empty
      string when it has none. Only own properties are read; a key naming an inherited
      `Object.prototype` member is treated as missing. */
  function CellText(row: Row, key: string): string {
    match Lookup(row, key)
    case Some(v) => v
    case None => ""
  }

  /** The values of `row` under `headers`, in header order, before quoting. */
  function Cells(headers: seq<string>, row: Row): (cells: seq<string>)
    ensures |cells| == |headers|
    ensures forall j :: 0 <= j < |headers| ==> cells[j] == CellText(row, headers[j])
  {
    if headers == [] then [] else [CellText(row, headers[0])] + Cells(headers[1..], row)
  }

  /** `val.replace(/"/g, '""')` */
  function Escape(v: string): (e: string)
    ensures |e| >= |v|
    ensures '"' !in v ==> e == v
  {
    if v == [] then []
    else (if v[0] == '"' then "\"\"" else [v[0]]) + Escape(v[1..])
  }

  /** One field as written: enclosed in double quotes, embedded quotes doubled. */
  function Quote(v: string): (q: string)
    ensures |q| >= |v| + 2 && q[0] == '"' && q[|q| - 1] == '"'
  {
    "\"" + Escape(v) + "\""
  }

  function QuoteAll(vs: seq<string>): (qs: seq<string>)
    ensures |qs| == |vs|
  {
    if vs == [] then [] else [Quote(vs[0])] + QuoteAll(vs[1..])
  }

  /** `parts.join(sep)` */
  function Join(sep: char, parts: seq<string>): string {
    if parts == [] then []
    else if |parts| == 1 then parts[0]
    else parts[0] + [sep] + Join(sep, parts[1..])
  }

  /** One data line: the quoted fields joined by commas. */
  function FormatRow(values: seq<string>): string {
    Join(',', QuoteAll(values))
  }

  /** The data lines for `data`, one per object, each read through `headers`. */
  function DataLines(headers: seq<string>, data: seq<Row>): (lines: seq<string>)
    ensures |lines| == |data|
  {
    if data == [] then [] else [FormatRow(Cells(headers, data[0]))] + DataLines(headers, data[1..])
  }

  /** The CSV text, or `None` when there is nothing to export (the source then only
      shows the "No data to export." alert). */
  function ExportToCsv(data: seq<Row>): (csv: Option<string>)
    ensures csv.None? <==> data == []
  {
    if data == [] then None
    else
      var headers := Keys(data[0]);
      Some(Join('\n', [Join(',', headers)] + DataLines(headers, data)))
  }

  // ---------------------------------------------------------------------------
  // Reading the text back.

  /** The table the export encodes: for each object, its values under `headers`. */
  function Table(headers: seq<string>, data: seq<Row>): (t: seq<seq<string>>)
    ensures |t| == |data|
    ensures forall i :: 0 <= i < |data| ==> t[i] == Cells(headers, data[i])
  {
    if data == [] then [] else [Cells(headers, data[0])] + Table(headers, data[1..])
  }

  /** Reads the rest of a quoted field after its opening quote: a doubled quote stands
      for one quote and a single quote closes the field. Gives the value and the text
      after the closing quote. */
  function ReadQuoted(s: string): (r: Option<(string, string)>)
    ensures r.Some? ==> |r.value.1| < |s|
  {
    if s == [] then None
    else if s[0] == '"' then
      if |s| >= 2 && s[1] == '"' then
        match ReadQuoted(s[2..])
        case None => None
        case Some((v, rest)) => Some(("\"" + v, rest))
      else
        Some(([], s[1..]))
    else
      match ReadQuoted(s[1..])
      case None => None
      case Some((v, rest)) => Some(([s[0]] + v, rest))
  }

  /** Reads one quoted field. */
  function ReadField(s: string): (r: Option<(string, string)>)
    ensures r.Some? ==> |r.value.1| < |s|
  {
    if s != [] && s[0] == '"' then ReadQuoted(s[1..]) else None
  }

  /** Reads the comma-separated quoted fields of one line, stopping at the end of the
      text or in front of a line feed. */
  function ReadCells(s: string): (r: Option<(seq<string>, string)>)
    ensures r.Some? ==> |r.value.1| < |s| && (r.value.1 == [] || r.value.1[0] == '\n')
    decreases |s|
  {
    match ReadField(s)
    case None => None
    case Some((v, rest)) =>
      if rest == [] then Some(([v], []))
      else if rest[0] == '\n' then Some(([v], rest))
      else if rest[0] == ',' then
        match ReadCells(rest[1..])
        case None => None
        case Some((vs, tail)) => Some(([v] + vs, tail))
      else None
  }

  /** Reads LF-separated lines of quoted fields up to the end of the text. */
  function ReadRecords(s: string): (r: Option<seq<seq<string>>>)
    decreases |s|
  {
    match ReadCells(s)
    case None => None
    case Some((cells, rest)) =>
      if rest == [] then Some([cells])
      else
        match ReadRecords(rest[1..])
        case None => None
        case Some(more) => Some([cells] + more)
  }

  /** `s.split(sep)` */
  function SplitOn(sep: char, s: string): (parts: seq<string>)
    ensures |parts| >= 1
  {
    if s == [] then [[]]
    else
      var rest := SplitOn(sep, s[1..]);
      if s[0] == sep then [[]] + rest else [[s[0]] + rest[0]] + rest[1..]
  }

  /** The text before the first line feed and the text after it. */
  function FirstLine(s: string): Option<(string, string)> {
    if s == [] then None
    else if s[0] == '\n' then Some(([], s[1..]))
    else
      match FirstLine(s[1..])
      case None => None
      case Some((line, rest)) => Some(([s[0]] + line, rest))
  }

  /** Reads exported text back into its header keys and the table of field values. */
  function ParseCsv(text: string): Option<(seq<string>, seq<seq<string>>)> {
    match FirstLine(text)
    case None => None
    case Some((header, body)) =>
      match ReadRecords(body)
      case None => None
      case Some(records) => Some((SplitOn(',', header), records))
  }

  // ---------------------------------------------------------------------------
  // Properties.

  /** Removing the quotes of a written field and un-doubling its embedded quotes gives
      the value back, whatever follows the field unless it is another quote. */
  lemma {:induction false} ReadQuotedEscape(v: string, rest: string)
    requires rest == [] || rest[0] != '"'
    ensures ReadQuoted(Escape(v) + "\"" + rest) == Some((v, rest))
  {
    var s := Escape(v) + "\"" + rest;
    if v == [] {
      assert s == "\"" + rest;
      assert s[1..] == rest;
    } else if v[0] == '"' {
      assert s == "\"\"" + (Escape(v[1..]) + "\"" + rest);
      assert s[2..] == Escape(v[1..]) + "\"" + rest;
      ReadQuotedEscape(v[1..], rest);
      assert "\"" + v[1..] == v;
    } else {
      assert s == [v[0]] + (Escape(v[1..]) + "\"" + rest);
      assert s[1..] == Escape(v[1..]) + "\"" + rest;
      ReadQuotedEscape(v[1..], rest);
      assert [v[0]] + v[1..] == v;
    }
  }

  /** A written field reads back as its value. */
  lemma ReadFieldQuote(v: string, rest: string)
    requires rest == [] || rest[0] != '"'
    ensures ReadField(Quote(v) + rest) == Some((v, rest))
  {
    var s := Quote(v) + rest;
    assert s[1..] == Escape(v) + "\"" + rest;
    ReadQuotedEscape(v, rest);
  }

  /** A written data line reads back as its values, up to a following line feed. */
  lemma {:induction false} ReadCellsFormatRow(vs: seq<string>, tail: string)
    requires vs != []
    requires tail == [] || tail[0] == '\n'
    ensures ReadCells(FormatRow(vs) + tail) == Some((vs, tail))
  {
    if |vs| == 1 {
      FormatRowSingle(vs);
      ReadCellsLast(vs[0], tail);
      assert [vs[0]] == vs;
    } else {
      FormatRowCons(vs);
      ReadCellsFormatRow(vs[1..], tail);
      ReadCellsComma(vs[0], FormatRow(vs[1..]), vs[1..], tail);
      assert [vs[0]] + vs[1..] == vs;
    }
  }

  lemma FormatRowSingle(vs: seq<string>)
    requires |vs| == 1
    ensures FormatRow(vs) == Quote(vs[0])
  {
    assert QuoteAll(vs)[0] == Quote(vs[0]);
  }

  lemma FormatRowCons(vs: seq<string>)
    requires |vs| >= 2
    ensures FormatRow(vs) == Quote(vs[0]) + [','] + FormatRow(vs[1..])
  {
    var qs := QuoteAll(vs);
    assert qs[0] == Quote(vs[0]);
    assert qs[1..] == QuoteAll(vs[1..]);
  }

  /** The last field of a line. */
  lemma ReadCellsLast(v: string, tail: string)
    requires tail == [] || tail[0] == '\n'
    ensures ReadCells(Quote(v) + tail) == Some(([v], tail))
  {
    ReadFieldQuote(v, tail);
  }

  /** A field followed by a comma and the rest of the line. */
  lemma ReadCellsComma(v: string, line: string, vs: seq<string>, tail: string)
    requires ReadCells(line + tail) == Some((vs, tail))
    ensures ReadCells(Quote(v) + [','] + line + tail) == Some(([v] + vs, tail))
  {
    var after := [','] + (line + tail);
    assert Quote(v) + [','] + line + tail == Quote(v) + after;
    ReadFieldQuote(v, after);
    assert after[1..] == line + tail;
  }

  /** The LF-joined data lines read back as the table they were written from. */
  lemma {:induction false} ReadRecordsLines(table: seq<seq<string>>)
    requires table != []
    requires forall i :: 0 <= i < |table| ==> table[i] != []
    ensures ReadRecords(Join('\n', FormatRows(table))) == Some(table)
  {
    var lines := FormatRows(table);
    if |table| == 1 {
      assert Join('\n', lines) == FormatRow(table[0]) + [];
      ReadCellsFormatRow(table[0], []);
      assert [table[0]] == table;
    } else {
      var more := Join('\n', FormatRows(table[1..]));
      assert lines[1..] == FormatRows(table[1..]);
      assert Join('\n', lines) == FormatRow(table[0]) + (['\n'] + more);
      ReadCellsFormatRow(table[0], ['\n'] + more);
      assert (['\n'] + more)[1..] == more;
      ReadRecordsLines(table[1..]);
      assert [table[0]] + table[1..] == table;
    }
  }

  function FormatRows(table: seq<seq<string>>): (lines: seq<string>)
    ensures |lines| == |table|
  {
    if table == [] then [] else [FormatRow(table[0])] + FormatRows(table[1..])
  }

  lemma {:induction false} DataLinesAreFormattedTable(headers: seq<string>, data: seq<Row>)
    ensures DataLines(headers, data) == FormatRows(Table(headers, data))
  {
    if data != [] {
      DataLinesAreFormattedTable(headers, data[1..]);
    }
  }

  /** Splitting a joined list of separator-free parts gives the parts back. */
  lemma {:induction false} SplitJoin(sep: char, parts: seq<string>)
    requires parts != []
    requires forall i :: 0 <= i < |parts| ==> sep !in parts[i]
    ensures SplitOn(sep, Join(sep, parts)) == parts
  {
    if |parts| == 1 {
      SplitWithout(sep, parts[0]);
    } else {
      SplitJoin(sep, parts[1..]);
      SplitFirst(sep, parts[0], Join(sep, parts[1..]));
      assert [parts[0]] + parts[1..] == parts;
    }
  }

  lemma {:induction false} SplitWithout(sep: char, s: string)
    requires sep !in s
    ensures SplitOn(sep, s) == [s]
  {
    if s != [] {
      SplitWithout(sep, s[1..]);
      assert [s[0]] + s[1..] == s;
    }
  }

  lemma {:induction false} SplitFirst(sep: char, part: string, rest: string)
    requires sep !in part
    ensures SplitOn(sep, part + [sep] + rest) == [part] + SplitOn(sep, rest)
  {
    var s := part + [sep] + rest;
    if part == [] {
      assert s[1..] == rest;
    } else {
      assert s[1..] == part[1..] + [sep] + rest;
      SplitFirst(sep, part[1..], rest);
      assert [part[0]] + part[1..] == part;
    }
  }

  /** A character absent from every part and different from the separator is absent
      from the joined text. */
  lemma {:induction false} JoinAvoids(c: char, sep: char, parts: seq<string>)
    requires c != sep
    requires forall i :: 0 <= i < |parts| ==> c !in parts[i]
    ensures c !in Join(sep, parts)
  {
    if |parts| > 1 {
      JoinAvoids(c, sep, parts[1..]);
    }
  }

  lemma {:induction false} FirstLineOf(line: string, rest: string)
    requires '\n' !in line
    ensures FirstLine(line + "\n" + rest) == Some((line, rest))
  {
    var s := line + "\n" + rest;
    if line == [] {
      assert s[1..] == rest;
    } else {
      assert s[1..] == line[1..] + "\n" + rest;
      FirstLineOf(line[1..], rest);
      assert [line[0]] + line[1..] == line;
    }
  }

  /** Round trip: reading the exported text gives back the first object's keys as the
      header and, for every object, its values under those keys (the empty string where
      a key is missing). Keys must be free of commas and line feeds, since the header
      row is not quoted. */
  lemma ExportRoundTrip(data: seq<Row>)
    requires data != []
    requires Keys(data[0]) != []
    requires forall i :: 0 <= i < |data[0]| ==> ',' !in data[0][i].0 && '\n' !in data[0][i].0
    ensures ExportToCsv(data).Some?
    ensures ParseCsv(ExportToCsv(data).value) == Some((Keys(data[0]), Table(Keys(data[0]), data)))
  {
    var headers := Keys(data[0]);
    var header := Join(',', headers);
    var table := Table(headers, data);
    DataLinesAreFormattedTable(headers, data);
    var lines := [header] + FormatRows(table);
    assert lines[1..] == FormatRows(table);
    var body := Join('\n', FormatRows(table));
    assert Join('\n', lines) == header + "\n" + body;
    JoinAvoids('\n', ',', headers);
    FirstLineOf(header, body);
    ReadRecordsLines(table);
    SplitJoin(',', headers);
  }

  /** When no key and no value holds a line feed, the text is exactly `data.length + 1`
      lines: the unquoted header, then one line per object. */
  lemma ExportLines(data: seq<Row>)
    requires data != []
    requires forall i :: 0 <= i < |data[0]| ==> '\n' !in data[0][i].0
    requires forall i, j :: 0 <= i < |data| && 0 <= j < |data[i]| ==> '\n' !in data[i][j].1
    ensures ExportToCsv(data).Some?
    ensures SplitOn('\n', ExportToCsv(data).value)
         == [Join(',', Keys(data[0]))] + FormatRows(Table(Keys(data[0]), data))
    ensures |SplitOn('\n', ExportToCsv(data).value)| == |data| + 1
  {
    var headers := Keys(data[0]);
    var table := Table(headers, data);
    DataLinesAreFormattedTable(headers, data);
    var lines := [Join(',', headers)] + FormatRows(table);
    JoinAvoids('\n', ',', headers);
    FormattedRowsAvoid('\n', headers, data);
    assert ExportToCsv(data).value == Join('\n', lines);
    forall i | 0 <= i < |lines| ensures '\n' !in lines[i] {
      if i > 0 {
        assert lines[i] == FormatRows(table)[i - 1];
      }
    }
    SplitJoin('\n', lines);
  }

  lemma {:induction false} FormattedRowsAvoid(c: char, headers: seq<string>, data: seq<Row>)
    requires c != '"' && c != ','
    requires forall i, j :: 0 <= i < |data| && 0 <= j < |data[i]| ==> c !in data[i][j].1
    ensures forall i :: 0 <= i < |data| ==> c !in FormatRows(Table(headers, data))[i]
  {
    if data != [] {
      CellsAvoid(c, headers, data[0]);
      FormatRowAvoids(c, Cells(headers, data[0]));
      assert forall i :: 0 <= i < |data[1..]| ==> data[1..][i] == data[i + 1];
      FormattedRowsAvoid(c, headers, data[1..]);
    }
  }

  lemma CellsAvoid(c: char, headers: seq<string>, row: Row)
    requires forall j :: 0 <= j < |row| ==> c !in row[j].1
    ensures forall j :: 0 <= j < |headers| ==> c !in Cells(headers, row)[j]
  {
    forall j | 0 <= j < |headers| ensures c !in Cells(headers, row)[j] {
      LookupValue(row, headers[j]);
    }
  }

  /** A looked-up cell is one of the row's values, or empty. */
  lemma {:induction false} LookupValue(row: Row, key: string)
    ensures CellText(row, key) == "" || exists j :: 0 <= j < |row| && row[j].1 == CellText(row, key)
  {
    if row != [] && row[0].0 != key {
      LookupValue(row[1..], key);
      if CellText(row[1..], key) != "" {
        var j :| 0 <= j < |row[1..]| && row[1..][j].1 == CellText(row[1..], key);
        assert row[j + 1].1 == CellText(row, key);
      }
    }
  }

  /** A key is read from its first occurrence in the row. */
  lemma {:induction false} LookupAt(row: Row, k: nat)
    requires k < |row|
    requires forall i :: 0 <= i < k ==> row[i].0 != row[k].0
    ensures CellText(row, row[k].0) == row[k].1
  {
    if k > 0 {
      assert row[1..][k - 1] == row[k];
      LookupAt(row[1..], k - 1);
    }
  }

  lemma FormatRowAvoids(c: char, values: seq<string>)
    requires c != '"' && c != ','
    requires forall j :: 0 <= j < |values| ==> c !in values[j]
    ensures c !in FormatRow(values)
  {
    QuoteAllAvoids(c, values);
    JoinAvoids(c, ',', QuoteAll(values));
  }

  lemma {:induction false} QuoteAllAvoids(c: char, values: seq<string>)
    requires c != '"'
    requires forall j :: 0 <= j < |values| ==> c !in values[j]
    ensures forall j :: 0 <= j < |values| ==> c !in QuoteAll(values)[j]
  {
    if values != [] {
      EscapeAvoids(c, values[0]);
      QuoteAllAvoids(c, values[1..]);
    }
  }

  lemma {:induction false} EscapeAvoids(c: char, v: string)
    requires c != '"' && c !in v
    ensures c !in Escape(v)
  {
    if v != [] {
      EscapeAvoids(c, v[1..]);
    }
  }
}
