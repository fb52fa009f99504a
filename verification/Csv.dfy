/** The CSV export (server/src/routes/admin.ts), and a reader of section 2 of RFC 4180 that ends records at LF. */
module Csv {
  import opened Option

  type Row = seq<string>

  // ── The printer ──

  predicate NeedsQuotes(s: string) {
    ',' in s || '"' in s || '\n' in s
  }

  function Twice(ch: char): string {
    if ch == '"' then "\"\"" else [ch]
  }

  /** `replace(/"/g, '""')` */
  function Doubled(s: string): string {
    if s == "" then "" else Twice(s[0]) + Doubled(s[1..])
  }

  /** A cell; null and undefined print as nothing. */
  function Escape(v: Option<string>): string {
    match v
    case None => ""
    case Some(s) => if NeedsQuotes(s) then "\"" + Doubled(s) + "\"" else s
  }

  function JoinCommas(cells: seq<string>): string {
    if cells == [] then "" else if |cells| == 1 then cells[0] else cells[0] + "," + JoinCommas(cells[1..])
  }

  function Cells(row: seq<Option<string>>): seq<string> {
    if row == [] then [] else [Escape(row[0])] + Cells(row[1..])
  }

  function JoinLines(lines: seq<string>): string {
    if lines == [] then "" else if |lines| == 1 then lines[0] else lines[0] + "\n" + JoinLines(lines[1..])
  }

  function Lines(rows: seq<seq<Option<string>>>): seq<string> {
    if rows == [] then [] else [JoinCommas(Cells(rows[0]))] + Lines(rows[1..])
  }

  function ToCsv(rows: seq<seq<Option<string>>>, columns: seq<string>): string {
    JoinCommas(columns) + "\n" + JoinLines(Lines(rows)) + "\n"
  }

  // ── The reader ──

  /** Where the reader is: at the start of a field, in a bare one, in a quoted one, or after a quote in a quoted one. */
  datatype Place = Start | Bare | Quoted | Closed

  /** What is read so far: the finished records, the record and the field being read. */
  datatype Reader = Reader(records: seq<Row>, record: Row, field: string, place: Place)

  function FieldDone(r: Reader): Reader {
    r.(record := r.record + [r.field], field := "", place := Start)
  }

  function RecordDone(r: Reader): Reader {
    Reader(r.records + [r.record + [r.field]], [], "", Start)
  }

  /** One more character; None when the text is not CSV. */
  function Read1(r: Reader, ch: char): Option<Reader> {
    match r.place
    case Quoted => if ch == '"' then Some(r.(place := Closed)) else Some(r.(field := r.field + [ch]))
    case _ =>
      if ch == ',' then Some(FieldDone(r))
      else if ch == '\n' then Some(RecordDone(r))
      else if r.place == Closed then
        // A doubled quote is one quote of the field; anything else after the closing quote is an error.
        if ch == '"' then Some(r.(field := r.field + "\"", place := Quoted)) else None
      else if ch == '"' then
        if r.place == Start then Some(r.(place := Quoted)) else None
      else Some(r.(field := r.field + [ch], place := Bare))
  }

  function Read(r: Reader, text: string): Option<Reader>
    decreases |text|
  {
    if text == "" then Some(r)
    else
      match Read1(r, text[0])
      case None => None
      case Some(r') => Read(r', text[1..])
  }

  /** The records of a text that ends its last record. */
  function Parse(text: string): Option<seq<Row>> {
    match Read(Reader([], [], "", Start), text)
    case None => None
    case Some(r) => if r.record == [] && r.field == "" && r.place == Start then Some(r.records) else None
  }

  // ── The round trip ──

  lemma {:induction false} ReadAppend(r: Reader, a: string, b: string)
    ensures Read(r, a + b) == match Read(r, a) case None => None case Some(r') => Read(r', b)
    decreases |a|
  {
    if a == "" {
      assert a + b == b;
    } else {
      assert (a + b)[1..] == a[1..] + b;
      var next := Read1(r, a[0]);
      if next.Some? {
        ReadAppend(next.value, a[1..], b);
      }
    }
  }

  lemma {:induction false} ReadBare(r: Reader, s: string)
    requires !NeedsQuotes(s) && (r.place == Bare || (r.place == Start && r.field == ""))
    ensures Read(r, s) == Some(r.(field := r.field + s, place := if s == "" then r.place else Bare))
    decreases |s|
  {
    if s == "" {
      assert r.field + s == r.field;
    } else {
      assert s[0] in s;
      var next := r.(field := r.field + [s[0]], place := Bare);
      assert !NeedsQuotes(s[1..]) by {
        assert forall ch :: ch in s[1..] ==> ch in s;
      }
      ReadBare(next, s[1..]);
      assert r.field + [s[0]] + s[1..] == r.field + s;
    }
  }

  lemma ReadTwice(r: Reader, ch: char)
    requires r.place == Quoted
    ensures Read(r, Twice(ch)) == Some(r.(field := r.field + [ch]))
  {
    var text := Twice(ch);
    if ch == '"' {
      assert text[1..] == "\"" && text[1..][1..] == "";
      assert Read(r.(place := Closed), "\"") == Some(r.(field := r.field + "\""));
    } else {
      assert text[1..] == "";
    }
  }

  lemma {:induction false} ReadDoubled(r: Reader, s: string)
    requires r.place == Quoted
    ensures Read(r, Doubled(s)) == Some(r.(field := r.field + s))
    decreases |s|
  {
    if s == "" {
      assert r.field + s == r.field;
    } else {
      ReadTwice(r, s[0]);
      ReadAppend(r, Twice(s[0]), Doubled(s[1..]));
      ReadDoubled(r.(field := r.field + [s[0]]), s[1..]);
      assert r.field + [s[0]] + s[1..] == r.field + s;
    }
  }

  function Text(v: Option<string>): string {
    match v
    case None => ""
    case Some(s) => s
  }

  function Texts(row: seq<Option<string>>): Row {
    seq(|row|, i requires 0 <= i < |row| => Text(row[i]))
  }

  /** A printed cell, with what ends it, is read as the cell. */
  lemma ReadCell(r: Reader, v: Option<string>, end: char)
    requires r.place == Start && r.field == "" && (end == ',' || end == '\n')
    ensures var read := r.(field := Text(v));
      Read(r, Escape(v) + [end]) == Some(if end == ',' then FieldDone(read) else RecordDone(read))
  {
    ReadAppend(r, Escape(v), [end]);
    assert [end][1..] == "";
    if v.None? {
    } else if NeedsQuotes(v.value) {
      var inside, body := r.(place := Quoted), Doubled(v.value);
      assert Escape(v) == "\"" + (body + "\"");
      ReadAppend(r, "\"", body + "\"");
      ReadOneChar(r, '"', inside);
      ReadDoubled(inside, v.value);
      ReadAppend(inside, body, "\"");
      assert inside.field + v.value == v.value;
      ReadOneChar(inside.(field := v.value), '"', inside.(field := v.value, place := Closed));
    } else {
      ReadBare(r, v.value);
      assert r.field + v.value == v.value;
    }
  }

  lemma ReadOneChar(r: Reader, ch: char, next: Reader)
    requires Read1(r, ch) == Some(next)
    ensures Read(r, [ch]) == Some(next)
  {
    assert [ch][1..] == "";
  }

  lemma RowPrints(row: seq<Option<string>>)
    requires row != []
    ensures JoinCommas(Cells(row)) + "\n"
         == if |row| == 1 then Escape(row[0]) + "\n"
            else (Escape(row[0]) + ",") + (JoinCommas(Cells(row[1..])) + "\n")
  {
    if |row| == 1 {
      assert Cells(row) == [Escape(row[0])];
    } else {
      assert Cells(row)[1..] == Cells(row[1..]) && |Cells(row[1..])| >= 1;
    }
  }

  lemma {:induction false} ReadRow(r: Reader, row: seq<Option<string>>)
    requires r.place == Start && r.field == "" && row != []
    ensures Read(r, JoinCommas(Cells(row)) + "\n") == Some(Reader(r.records + [r.record + Texts(row)], [], "", Start))
    decreases |row|
  {
    RowPrints(row);
    if |row| == 1 {
      ReadCell(r, row[0], '\n');
      assert Texts(row) == [Text(row[0])];
    } else {
      var rest := JoinCommas(Cells(row[1..])) + "\n";
      ReadCell(r, row[0], ',');
      ReadAppend(r, Escape(row[0]) + ",", rest);
      var next := FieldDone(r.(field := Text(row[0])));
      ReadRow(next, row[1..]);
      assert next.record + Texts(row[1..]) == r.record + Texts(row);
    }
  }

  function AllTexts(rows: seq<seq<Option<string>>>): seq<Row> {
    seq(|rows|, i requires 0 <= i < |rows| => Texts(rows[i]))
  }

  lemma {:induction false} ReadRows(r: Reader, rows: seq<seq<Option<string>>>)
    requires r.place == Start && r.field == "" && r.record == [] && rows != []
    requires forall i :: 0 <= i < |rows| ==> rows[i] != []
    ensures Read(r, JoinLines(Lines(rows)) + "\n") == Some(Reader(r.records + AllTexts(rows), [], "", Start))
    decreases |rows|
  {
    var next := Reader(r.records + [Texts(rows[0])], [], "", Start);
    ReadRow(r, rows[0]);
    assert [] + Texts(rows[0]) == Texts(rows[0]);
    if |rows| == 1 {
      assert Lines(rows) == [JoinCommas(Cells(rows[0]))];
      assert AllTexts(rows) == [Texts(rows[0])];
    } else {
      var first, rest := JoinCommas(Cells(rows[0])) + "\n", JoinLines(Lines(rows[1..]));
      assert Lines(rows)[1..] == Lines(rows[1..]) && |Lines(rows[1..])| >= 1;
      assert JoinLines(Lines(rows)) + "\n" == first + (rest + "\n");
      ReadAppend(r, first, rest + "\n");
      ReadRows(next, rows[1..]);
      assert next.records + AllTexts(rows[1..]) == r.records + AllTexts(rows);
    }
  }

  function Header(columns: seq<string>): seq<Option<string>> {
    seq(|columns|, i requires 0 <= i < |columns| => Some(columns[i]))
  }

  lemma {:induction false} HeaderPrintsAsIs(columns: seq<string>)
    requires forall i :: 0 <= i < |columns| ==> !NeedsQuotes(columns[i])
    ensures Cells(Header(columns)) == columns
  {
    if columns != [] {
      HeaderPrintsAsIs(columns[1..]);
      assert Header(columns)[1..] == Header(columns[1..]);
      assert columns == [columns[0]] + columns[1..];
    }
  }

  /** Whatever the cells hold, commas, quotes and newlines too, a reader recovers the header and every cell, a
      missing one as empty: for any columns whose names need no quotes, and at least one row. */
  lemma CsvRoundTrips(rows: seq<seq<Option<string>>>, columns: seq<string>)
    requires rows != [] && columns != [] && (forall i :: 0 <= i < |rows| ==> |rows[i]| == |columns|)
    requires forall i :: 0 <= i < |columns| ==> !NeedsQuotes(columns[i])
    ensures Parse(ToCsv(rows, columns)) == Some([columns] + AllTexts(rows))
  {
    var r := Reader([], [], "", Start);
    var first, rest := JoinCommas(columns) + "\n", JoinLines(Lines(rows)) + "\n";
    assert ToCsv(rows, columns) == first + rest;
    HeaderPrintsAsIs(columns);
    ReadRow(r, Header(columns));
    assert [] + Texts(Header(columns)) == columns && r.records + [columns] == [columns];
    ReadAppend(r, first, rest);
    ReadRows(Reader([columns], [], "", Start), rows);
  }

  /** With no rows at all, the export reads back as a header and one record of one empty cell. */
  lemma NoRowsReadAsOneEmptyRecord(columns: seq<string>)
    requires columns != [] && (forall i :: 0 <= i < |columns| ==> !NeedsQuotes(columns[i]))
    ensures Parse(ToCsv([], columns)) == Some([columns, [""]])
  {
    var r := Reader([], [], "", Start);
    var first := JoinCommas(columns) + "\n";
    assert ToCsv([], columns) == first + "\n";
    HeaderPrintsAsIs(columns);
    ReadRow(r, Header(columns));
    assert [] + Texts(Header(columns)) == columns && r.records + [columns] == [columns];
    ReadAppend(r, first, "\n");
    var empty: Row := [] + [""];
    assert empty == [""] && [columns] + [empty] == [columns, [""]];
    ReadOneChar(Reader([columns], [], "", Start), '\n', Reader([columns, [""]], [], "", Start));
  }
}
