/** ReportsService.exportToCsv, read back as section 2 of RFC 4180 prescribes, with LF between records. */
module Csv {
  import opened Wrappers

  // ── Printing ─────────────────────────────────────────────────────────────────

  /** A record: its keys in order, and the text `String(v ?? '')` of each of its values. */
  datatype Record = Record(keys: seq<string>, values: map<string, string>)

  predicate Needs(c: char) {
    c == ',' || c == '"' || c == '\n'
  }

  predicate Plain(s: string) {
    forall i :: 0 <= i < |s| ==> !Needs(s[i])
  }

  /** `s.replace(/"/g, '""')`. */
  function DoubleQuotes(s: string): string {
    if s == [] then [] else (if s[0] == '"' then "\"\"" else [s[0]]) + DoubleQuotes(s[1..])
  }

  function Escape(s: string): string {
    if Plain(s) then s else "\"" + DoubleQuotes(s) + "\""
  }

  function Join(parts: seq<string>, sep: string): string {
    if parts == [] then "" else if |parts| == 1 then parts[0] else parts[0] + sep + Join(parts[1..], sep)
  }

  function CellOf(r: Record, h: string): string {
    if h in r.values then r.values[h] else ""
  }

  function Cells(r: Record, headers: seq<string>): (cells: seq<string>)
    ensures |cells| == |headers|
  {
    seq(|headers|, i requires 0 <= i < |headers| => CellOf(r, headers[i]))
  }

  function EscapeAll(cells: seq<string>): (escaped: seq<string>)
    ensures |escaped| == |cells| && forall i :: 0 <= i < |cells| ==> escaped[i] == Escape(cells[i])
  {
    seq(|cells|, i requires 0 <= i < |cells| => Escape(cells[i]))
  }

  function Lines(data: seq<Record>, headers: seq<string>): (lines: seq<string>)
    ensures |lines| == |data|
  {
    seq(|data|, i requires 0 <= i < |data| => Join(EscapeAll(Cells(data[i], headers)), ","))
  }

  function ExportToCsv(data: seq<Record>): string {
    if data == [] then "No data available\n"
    else
      var headers := data[0].keys;
      Join([Join(headers, ",")] + Lines(data, headers), "\n")
  }

  // ── Reading ──────────────────────────────────────────────────────────────────

  datatype Mode = Start | Unquoted | Quoted | Closed

  type Table = seq<seq<string>>

  /**
    The reader: fields separated by commas, records by LF, a field that starts with a quote runs to
    its closing quote, and inside it two quotes stand for one. None if the text is malformed.
  */
  function Read(s: string, mode: Mode, field: string, fields: seq<string>, rows: Table): Option<Table> {
    if s == [] then
      if mode == Quoted then None else Some(rows + [fields + [field]])
    else
      var c, rest := s[0], s[1..];
      if mode == Quoted then Read(rest, if c == '"' then Closed else Quoted, if c == '"' then field else field + [c], fields, rows)
      else if c == ',' then Read(rest, Start, "", fields + [field], rows)
      else if c == '\n' then Read(rest, Start, "", [], rows + [fields + [field]])
      else if c != '"' then if mode == Closed then None else Read(rest, Unquoted, field + [c], fields, rows)
      else if mode == Unquoted then None
      else Read(rest, Quoted, if mode == Closed then field + [c] else field, fields, rows)
  }

  function ReadCsv(text: string): Option<Table> {
    Read(text, Start, "", [], [])
  }

  /** The table the text should carry. */
  function TableOf(data: seq<Record>): Table
    requires data != []
  {
    [data[0].keys] + seq(|data|, i requires 0 <= i < |data| => Cells(data[i], data[0].keys))
  }

  /** The table carries the data: the header row, and for each record and header the record's text under it, or nothing. */
  predicate Carries(data: seq<Record>, t: Table)
    requires data != []
  {
    && |t| == |data| + 1 && t[0] == data[0].keys
    && forall i :: 0 <= i < |data| ==>
         && |t[i + 1]| == |data[0].keys|
         && forall j :: 0 <= j < |data[0].keys| ==>
              t[i + 1][j] == if data[0].keys[j] in data[i].values then data[i].values[data[0].keys[j]] else ""
  }

  lemma CarriesExactly(data: seq<Record>, t: Table)
    requires data != []
    ensures Carries(data, t) <==> t == TableOf(data)
  {
    if Carries(data, t) {
      forall i | 0 < i < |t|
        ensures t[i] == TableOf(data)[i]
      {
        var k := i - 1;
        assert data[k] == data[i - 1] && t[k + 1] == t[i] && TableOf(data)[i] == Cells(data[k], data[0].keys);
      }
    }
  }

  lemma NoData()
    ensures ExportToCsv([]) == "No data available\n"
  {
  }

  /** A cell is printed as it is exactly when it has no comma, quote or newline; otherwise it is quoted. */
  lemma EscapedIfNeeded(s: string)
    ensures Escape(s) == s <==> ',' !in s && '"' !in s && '\n' !in s
    ensures Escape(s) != s ==> |Escape(s)| >= 2 && Escape(s)[0] == '"' && Escape(s)[|Escape(s)| - 1] == '"'
  {
    QuotesDoubled(s, 0);
    assert Plain(s) <==> ',' !in s && '"' !in s && '\n' !in s;
  }

  // ── Reading back one field ───────────────────────────────────────────────────

  /** The rest of the text after a field. */
  predicate Delimited(rest: string) {
    rest == [] || rest[0] == ',' || rest[0] == '\n'
  }

  lemma {:induction false} ReadPlain(s: string, mode: Mode, rest: string, field: string, fields: seq<string>, rows: Table)
    requires Plain(s) && Delimited(rest) && (mode == Unquoted || mode == Start)
    ensures Read(s + rest, mode, field, fields, rows) == Read(rest, Closed, field + s, fields, rows)
  {
    if s == [] {
      assert s + rest == rest && field + s == field;
    } else {
      assert (s + rest)[1..] == s[1..] + rest;
      assert field + [s[0]] + s[1..] == field + s;
      ReadPlain(s[1..], Unquoted, rest, field + [s[0]], fields, rows);
    }
  }

  /** One character of a quoted field. */
  lemma ReadDoubled(s: string, rest: string, field: string, fields: seq<string>, rows: Table)
    requires s != []
    ensures Read(DoubleQuotes(s) + "\"" + rest, Quoted, field, fields, rows)
         == Read(DoubleQuotes(s[1..]) + "\"" + rest, Quoted, field + [s[0]], fields, rows)
  {
    var text := DoubleQuotes(s) + "\"" + rest;
    var next := DoubleQuotes(s[1..]) + "\"" + rest;
    if s[0] == '"' {
      assert text[1..] == "\"" + next && ("\"" + next)[1..] == next;
    } else {
      assert text[1..] == next;
    }
  }

  lemma {:induction false} ReadQuoted(s: string, rest: string, field: string, fields: seq<string>, rows: Table)
    requires Delimited(rest)
    ensures Read(DoubleQuotes(s) + "\"" + rest, Quoted, field, fields, rows) == Read(rest, Closed, field + s, fields, rows)
  {
    if s == [] {
      assert DoubleQuotes(s) + "\"" + rest == "\"" + rest;
      assert ("\"" + rest)[1..] == rest && field + s == field;
    } else {
      ReadDoubled(s, rest, field, fields, rows);
      ReadQuoted(s[1..], rest, field + [s[0]], fields, rows);
      assert field + [s[0]] + s[1..] == field + s;
    }
  }

  lemma OpenQuote(inner: string, fields: seq<string>, rows: Table)
    ensures Read("\"" + inner, Start, "", fields, rows) == Read(inner, Quoted, "", fields, rows)
  {
    assert ("\"" + inner)[1..] == inner;
  }

  lemma ReadEscaped(s: string, rest: string, fields: seq<string>, rows: Table)
    requires Delimited(rest)
    ensures Read(Escape(s) + rest, Start, "", fields, rows) == Read(rest, Closed, s, fields, rows)
  {
    assert "" + s == s;
    if Plain(s) {
      ReadPlain(s, Start, rest, "", fields, rows);
    } else {
      var inner := DoubleQuotes(s) + "\"" + rest;
      assert Escape(s) + rest == "\"" + inner;
      OpenQuote(inner, fields, rows);
      ReadQuoted(s, rest, "", fields, rows);
    }
  }

  // ── Reading back a record and a table ────────────────────────────────────────

  lemma JoinMore(part: string, parts: seq<string>, sep: string)
    requires parts != []
    ensures Join([part] + parts, sep) == part + sep + Join(parts, sep)
  {
    assert ([part] + parts)[1..] == parts;
  }

  /** A record ends at the end of the text or at an LF. */
  predicate Ended(rest: string) {
    rest == [] || rest[0] == '\n'
  }

  function AfterRecord(rest: string, cells: seq<string>, rows: Table): Option<Table>
    requires Ended(rest)
  {
    if rest == [] then Some(rows + [cells]) else Read(rest[1..], Start, "", [], rows + [cells])
  }

  /** One cell, and the comma after it. */
  lemma ReadCell(cell: string, more: string, fields: seq<string>, rows: Table)
    ensures Read(Escape(cell) + ("," + more), Start, "", fields, rows) == Read(more, Start, "", fields + [cell], rows)
  {
    ReadEscaped(cell, "," + more, fields, rows);
    assert ("," + more)[1..] == more;
  }

  lemma JoinFirst(cells: seq<string>, rest: string)
    requires |cells| > 1
    ensures Join(EscapeAll(cells), ",") + rest == Escape(cells[0]) + ("," + (Join(EscapeAll(cells[1..]), ",") + rest))
  {
    assert EscapeAll(cells)[1..] == EscapeAll(cells[1..]);
  }

  lemma {:induction false} ReadRecord(cells: seq<string>, rest: string, fields: seq<string>, rows: Table)
    requires cells != [] && Ended(rest)
    ensures Read(Join(EscapeAll(cells), ",") + rest, Start, "", fields, rows) == AfterRecord(rest, fields + cells, rows)
  {
    if |cells| == 1 {
      ReadEscaped(cells[0], rest, fields, rows);
      assert fields + cells == fields + [cells[0]];
    } else {
      JoinFirst(cells, rest);
      ReadCell(cells[0], Join(EscapeAll(cells[1..]), ",") + rest, fields, rows);
      ReadRecord(cells[1..], rest, fields + [cells[0]], rows);
      assert fields + [cells[0]] + cells[1..] == fields + cells;
    }
  }

  function Texts(table: Table): (lines: seq<string>)
    ensures |lines| == |table|
  {
    seq(|table|, i requires 0 <= i < |table| => Join(EscapeAll(table[i]), ","))
  }

  /** One record of a table, and the line feed after it. */
  lemma ReadLine(cells: seq<string>, more: string, rows: Table)
    requires cells != []
    ensures Read(Join(EscapeAll(cells), ",") + ("\n" + more), Start, "", [], rows) == Read(more, Start, "", [], rows + [cells])
  {
    assert [] + cells == cells && ("\n" + more)[1..] == more;
    ReadRecord(cells, "\n" + more, [], rows);
  }

  lemma TextsMore(table: Table)
    requires |table| > 1
    ensures Join(Texts(table), "\n") == Join(EscapeAll(table[0]), ",") + ("\n" + Join(Texts(table[1..]), "\n"))
  {
    assert Texts(table)[1..] == Texts(table[1..]);
  }

  lemma {:induction false} ReadTable(table: Table, rows: Table)
    requires table != [] && forall i :: 0 <= i < |table| ==> table[i] != []
    ensures Read(Join(Texts(table), "\n"), Start, "", [], rows) == Some(rows + table)
  {
    if |table| == 1 {
      var first := Join(EscapeAll(table[0]), ",");
      assert [] + table[0] == table[0] && first + [] == first;
      ReadRecord(table[0], [], [], rows);
      assert rows + table == rows + [table[0]];
    } else {
      TextsMore(table);
      ReadLine(table[0], Join(Texts(table[1..]), "\n"), rows);
      ReadTable(table[1..], rows + [table[0]]);
      assert rows + [table[0]] + table[1..] == rows + table;
    }
  }

  /** Header names are printed as they are. */
  predicate PlainHeaders(headers: seq<string>) {
    forall i :: 0 <= i < |headers| ==> Plain(headers[i])
  }

  lemma ExportIsTable(data: seq<Record>)
    requires data != [] && PlainHeaders(data[0].keys)
    ensures ExportToCsv(data) == Join(Texts(TableOf(data)), "\n")
  {
    var headers := data[0].keys;
    assert EscapeAll(headers) == headers;
    assert Texts(TableOf(data)) == [Join(headers, ",")] + Lines(data, headers);
  }

  lemma RoundTrip(data: seq<Record>)
    requires data != [] && data[0].keys != [] && PlainHeaders(data[0].keys)
    ensures ReadCsv(ExportToCsv(data)) == Some(TableOf(data))
    ensures Carries(data, ReadCsv(ExportToCsv(data)).value)
  {
    CarriesExactly(data, TableOf(data));
    ExportIsTable(data);
    ReadTable(TableOf(data), []);
    assert [] + TableOf(data) == TableOf(data);
  }

  // ── Only plain headers come back ─────────────────────────────────────────────

  /** What has been read stays read. */
  lemma {:induction false} Kept(s: string, mode: Mode, field: string, fields: seq<string>, rows: Table)
    ensures var r := Read(s, mode, field, fields, rows);
      r.Some? ==> |r.value| > |rows| && r.value[..|rows|] == rows && fields <= r.value[|rows|]
                  && |r.value[|rows|]| > |fields|
    decreases |s|
  {
    if s != [] {
      var c, rest := s[0], s[1..];
      if mode == Quoted {
        Kept(rest, if c == '"' then Closed else Quoted, if c == '"' then field else field + [c], fields, rows);
      } else if c == ',' {
        Kept(rest, Start, "", fields + [field], rows);
      } else if c == '\n' {
        Kept(rest, Start, "", [], rows + [fields + [field]]);
      } else {
        Kept(rest, Unquoted, field + [c], fields, rows);
        Kept(rest, Quoted, field + [c], fields, rows);
        Kept(rest, Quoted, field, fields, rows);
      }
    }
  }

  /** The field being read, in a successful reading. */
  function FieldRead(s: string, mode: Mode, field: string, fields: seq<string>, rows: Table): Option<string> {
    var r := Read(s, mode, field, fields, rows);
    if r.Some? && |rows| < |r.value| && |fields| < |r.value[|rows|]| then Some(r.value[|rows|][|fields|]) else None
  }

  /** An unquoted field ends at the first comma or LF. */
  lemma {:induction false} UnquotedField(s: string, n: nat, mode: Mode, field: string, fields: seq<string>, rows: Table)
    requires n < |s| && Plain(s[..n]) && Needs(s[n]) && (mode == Unquoted || mode == Start)
    requires mode == Start ==> s[0] != '"'
    ensures var f := FieldRead(s, mode, field, fields, rows);
      f.Some? ==> f.value == field + s[..n]
  {
    var c, rest := s[0], s[1..];
    if n == 0 {
      assert field + s[..0] == field;
      if c == ',' {
        Kept(rest, Start, "", fields + [field], rows);
      } else if c == '\n' {
        Kept(rest, Start, "", [], rows + [fields + [field]]);
      }
    } else {
      assert s[..n][0] == c && rest[..n - 1] == s[..n][1..];
      UnquotedField(rest, n - 1, Unquoted, field + [c], fields, rows);
      assert field + [c] + rest[..n - 1] == field + s[..n];
    }
  }

  /** A quoted field that reads as field + g was printed as g with its quotes doubled, and closed. */
  lemma {:induction false} QuotedField(s: string, mode: Mode, field: string, fields: seq<string>, rows: Table) returns (g: string)
    requires mode == Quoted || mode == Closed
    ensures var f := FieldRead(s, mode, field, fields, rows);
      f.Some? ==> f.value == field + g && DoubleQuotes(g) + "\"" <= (if mode == Closed then "\"" else "") + s
    decreases |s|
  {
    g := "";
    Kept(s, mode, field, fields, rows);
    assert field + "" == field;
    if s != [] {
      var c, rest := s[0], s[1..];
      if mode == Quoted && c == '"' {
        g := QuotedField(rest, Closed, field, fields, rows);
        assert "\"" + rest == s;
      } else if mode == Quoted {
        var h := QuotedField(rest, Quoted, field + [c], fields, rows);
        g := [c] + h;
        assert g[1..] == h && field + [c] + h == field + g;
        assert DoubleQuotes(g) + "\"" == [c] + (DoubleQuotes(h) + "\"") && [c] + rest == s;
      } else if c == ',' {
        Kept(rest, Start, "", fields + [field], rows);
      } else if c == '\n' {
        Kept(rest, Start, "", [], rows + [fields + [field]]);
      } else if c == '"' {
        var h := QuotedField(rest, Quoted, field + [c], fields, rows);
        g := [c] + h;
        assert g[1..] == h && field + [c] + h == field + g;
        assert DoubleQuotes(g) + "\"" == "\"\"" + (DoubleQuotes(h) + "\"") && "\"\"" + rest == "\"" + s;
      }
    }
  }

  lemma {:induction false} QuotesDoubled(h: string, k: nat)
    requires k <= |h| && forall i :: 0 <= i < k ==> h[i] == '"'
    ensures |DoubleQuotes(h)| >= |h| + k && forall i :: 0 <= i < 2 * k ==> DoubleQuotes(h)[i] == '"'
  {
    if h != [] {
      QuotesDoubled(h[1..], if k > 0 then k - 1 else 0);
    }
  }

  /** If a text's quoted form begins the rest of the text, the text is made of quotes. */
  lemma {:induction false} OnlyQuotes(h: string, rest: string, k: nat)
    requires 0 < k <= |h| && h[0] == '"' && DoubleQuotes(h) + "\"" <= h[1..] + rest
    ensures forall i :: 0 <= i < k ==> h[i] == '"'
  {
    if k > 1 {
      OnlyQuotes(h, rest, k - 1);
      QuotesDoubled(h, k - 1);
      var quoted := DoubleQuotes(h) + "\"";
      assert quoted[k - 2] == (h[1..] + rest)[k - 2] == h[k - 1];
    }
  }

  /** A text that starts with a quote is never its own quoted form up to a delimiter. */
  lemma NotItsOwnQuoting(h: string, rest: string)
    requires h != [] && h[0] == '"' && Delimited(rest)
    ensures !(DoubleQuotes(h) + "\"" <= h[1..] + rest)
  {
    var s := h[1..] + rest;
    assert rest != [] ==> s[|h| - 1] == rest[0];
    if DoubleQuotes(h) + "\"" <= s {
      OnlyQuotes(h, rest, |h|);
      QuotesDoubled(h, |h|);
    }
  }

  lemma FirstSpecial(h: string) returns (n: nat)
    requires !Plain(h)
    ensures n < |h| && Plain(h[..n]) && Needs(h[n])
  {
    n := 0;
    while !Needs(h[n])
      invariant n < |h| && Plain(h[..n]) && exists i :: n <= i < |h| && Needs(h[i])
      decreases |h| - n
    {
      n := n + 1;
    }
  }

  lemma QuotedHeader(h: string, rest: string, fields: seq<string>, rows: Table)
    requires h != [] && h[0] == '"' && Delimited(rest)
    ensures FieldRead(h + rest, Start, "", fields, rows) != Some(h)
  {
    var tail := h[1..] + rest;
    assert (h + rest)[0] == '"' && (h + rest)[1..] == tail;
    assert FieldRead(h + rest, Start, "", fields, rows) == FieldRead(tail, Quoted, "", fields, rows);
    var g := QuotedField(tail, Quoted, "", fields, rows);
    assert "" + g == g && "" + tail == tail;
    NotItsOwnQuoting(h, rest);
  }

  /** A header that is not plain does not come back as itself. */
  lemma SpecialHeader(h: string, rest: string, fields: seq<string>, rows: Table)
    requires !Plain(h) && Delimited(rest)
    ensures FieldRead(h + rest, Start, "", fields, rows) != Some(h)
  {
    if h[0] == '"' {
      QuotedHeader(h, rest, fields, rows);
    } else {
      var n := FirstSpecial(h);
      var s := h + rest;
      assert s[..n] == h[..n] && s[n] == h[n] && s[0] == h[0];
      UnquotedField(s, n, Start, "", fields, rows);
      assert "" + s[..n] == h[..n];
    }
  }

  /** If some header is not plain, the reading of the header line goes wrong at that header. */
  lemma {:induction false} HeadersComeBack(headers: seq<string>, more: string, fields: seq<string>)
    requires headers != [] && !PlainHeaders(headers)
    ensures var r := Read(Join(headers, ",") + ("\n" + more), Start, "", fields, []);
      r.Some? && r.value != [] ==> !(fields + headers <= r.value[0])
  {
    var h := headers[0];
    var rest := "\n" + more;
    if |headers| > 1 {
      rest := "," + (Join(headers[1..], ",") + ("\n" + more));
      assert Join(headers, ",") + ("\n" + more) == h + rest;
    }
    Kept(h + rest, Start, "", fields, []);
    assert (fields + headers)[|fields|] == h;
    if Plain(h) {
      assert |headers| > 1 && "" + h == h && rest[1..] == Join(headers[1..], ",") + ("\n" + more);
      ReadPlain(h, Start, rest, "", fields, []);
      HeadersComeBack(headers[1..], more, fields + [h]);
      assert fields + [h] + headers[1..] == fields + headers;
    } else {
      SpecialHeader(h, rest, fields, []);
    }
  }

  lemma SpecialHeadersLost(data: seq<Record>)
    requires data != [] && data[0].keys != [] && !PlainHeaders(data[0].keys)
    ensures ReadCsv(ExportToCsv(data)) != Some(TableOf(data))
  {
    var headers := data[0].keys;
    var more := Join(Lines(data, headers), "\n");
    JoinMore(Join(headers, ","), Lines(data, headers), "\n");
    assert ExportToCsv(data) == Join(headers, ",") + ("\n" + more);
    HeadersComeBack(headers, more, []);
    assert [] + headers == headers && TableOf(data)[0] == headers;
  }

  lemma NoColumnsLost(data: seq<Record>)
    requires data != [] && data[0].keys == []
    ensures ReadCsv(ExportToCsv(data)) != Some(TableOf(data))
  {
    Kept(ExportToCsv(data), Start, "", [], []);
    assert TableOf(data)[0] == [];
  }

  /**
    For a non-empty list of records, reading the export gives back the header row and every cell
    exactly when there is at least one column and no header name contains a comma, quote or newline.
    Cells may contain anything.
  */
  lemma RoundTripExactly(data: seq<Record>)
    requires data != []
    ensures ReadCsv(ExportToCsv(data)) == Some(TableOf(data)) <==> data[0].keys != [] && PlainHeaders(data[0].keys)
    ensures (ReadCsv(ExportToCsv(data)).Some? && Carries(data, ReadCsv(ExportToCsv(data)).value)) <==>
      && data[0].keys != []
      && forall j :: 0 <= j < |data[0].keys| ==> ',' !in data[0].keys[j] && '"' !in data[0].keys[j] && '\n' !in data[0].keys[j]
  {
    if ReadCsv(ExportToCsv(data)).Some? {
      CarriesExactly(data, ReadCsv(ExportToCsv(data)).value);
    }
    forall j | 0 <= j < |data[0].keys|
      ensures Plain(data[0].keys[j]) <==> ',' !in data[0].keys[j] && '"' !in data[0].keys[j] && '\n' !in data[0].keys[j]
    {
    }
    if data[0].keys == [] {
      NoColumnsLost(data);
    } else if PlainHeaders(data[0].keys) {
      RoundTrip(data);
    } else {
      SpecialHeadersLost(data);
    }
  }
}
