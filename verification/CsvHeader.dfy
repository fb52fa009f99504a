/** Exactly when an export's header reads back: the column names are printed as they are, quoted or not. */
module CsvHeader {
  import opened Option
  import opened Csv

  /** What is read begins with this record. */
  predicate HeaderIs(read: Option<Reader>, columns: Row) {
    read.Some? && read.value.records != [] && read.value.records[0] == columns
  }

  predicate Begins(s: string, start: string) {
    |start| <= |s| && s[..|start|] == start
  }

  // ── What is read stays read ──

  lemma {:induction false} FirstRecordStays(r: Reader, text: string)
    requires r.records != [] && Read(r, text).Some?
    ensures Read(r, text).value.records != [] && Read(r, text).value.records[0] == r.records[0]
    decreases |text|
  {
    if text != "" {
      FirstRecordStays(Read1(r, text[0]).value, text[1..]);
    }
  }

  /** The fields of the first record stay, and the one being read only grows. */
  lemma {:induction false} FieldsStay(r: Reader, text: string, columns: Row)
    requires r.records == [] && HeaderIs(Read(r, text), columns)
    ensures |r.record| < |columns| && columns[..|r.record|] == r.record && Begins(columns[|r.record|], r.field)
    decreases |text|
  {
    var next := Read1(r, text[0]).value;
    if next.records != [] {
      FirstRecordStays(next, text[1..]);
    } else {
      FieldsStay(next, text[1..], columns);
      if |next.record| > |r.record| {
        assert columns[|r.record|] == next.record[|r.record|] == r.field;
        assert columns[..|r.record|] == next.record[..|r.record|];
      } else {
        assert next.field[..|r.field|] == r.field;
      }
    }
  }

  /** A field that has ended is the column it stands for. */
  lemma EndedFieldIsTheColumn(r: Reader, ch: char, text: string, columns: Row)
    requires r.records == [] && r.place != Quoted && (ch == ',' || ch == '\n')
    requires Read1(r, ch).Some? && HeaderIs(Read(Read1(r, ch).value, text), columns)
    ensures |r.record| < |columns| && columns[|r.record|] == r.field
  {
    var next := Read1(r, ch).value;
    if ch == ',' {
      FieldsStay(next, text, columns);
      assert columns[|r.record|] == next.record[|r.record|];
    } else {
      FirstRecordStays(next, text);
    }
  }

  // ── A name that needs quotes ──

  /** A bare field stops, or breaks, at the first character that needs quotes. */
  lemma {:induction false} BareMisses(columns: Row, k: nat, j: nat, rest: string)
    requires k < |columns| && j <= |columns[k]| && NeedsQuotes(columns[k][j..])
    requires j == 0 ==> columns[k][0] != '"'
    ensures var r := Reader([], columns[..k], columns[k][..j], if j == 0 then Start else Bare);
      !HeaderIs(Read(r, columns[k][j..] + rest), columns)
    decreases |columns[k]| - j
  {
    var column := columns[k];
    var r := Reader([], columns[..k], column[..j], if j == 0 then Start else Bare);
    var ch, text := column[j], column[j + 1..] + rest;
    assert column[j..] + rest == [ch] + text;
    assert ([ch] + text)[1..] == text;
    if ch == ',' || ch == '\n' {
      if HeaderIs(Read(r, [ch] + text), columns) {
        EndedFieldIsTheColumn(r, ch, text, columns);
      }
    } else if ch != '"' {
      assert column[j..] == [ch] + column[j + 1..];
      assert column[..j] + [ch] == column[..j + 1];
      BareMisses(columns, k, j + 1, rest);
    }
  }

  function Quotes(n: nat): string {
    seq(n, _ => '"')
  }

  /** The reader after `j` quotes at the start of a field. */
  function AfterQuotes(record: Row, j: nat): Reader
    requires j > 0
  {
    if j % 2 == 1 then Reader([], record, Quotes((j - 1) / 2), Quoted)
    else Reader([], record, Quotes(j / 2 - 1), Closed)
  }

  lemma OneMoreQuote(record: Row, j: nat)
    requires j > 0
    ensures Read1(AfterQuotes(record, j), '"') == Some(AfterQuotes(record, j + 1))
  {
    if j % 2 == 0 {
      assert Quotes(j / 2 - 1) + "\"" == Quotes(j / 2);
    }
  }

  /** A quoted field cannot come out as the name that was printed: it is always behind it. */
  lemma {:induction false} QuotesMiss(columns: Row, k: nat, j: nat, text: string)
    requires k < |columns| && 0 < j <= |columns[k]| < |text| && text[..|columns[k]|] == columns[k]
    requires text[|columns[k]|] != '"' && forall i :: 0 <= i < j ==> text[i] == '"'
    ensures !HeaderIs(Read(AfterQuotes(columns[..k], j), text[j..]), columns)
    decreases |columns[k]| - j
  {
    var r, column, ch := AfterQuotes(columns[..k], j), columns[k], text[j];
    assert text[j..][0] == ch && text[j..][1..] == text[j + 1..];
    assert forall i :: 0 <= i < |column| ==> column[i] == text[..|column|][i];
    OneMoreQuote(columns[..k], j);
    if ch == '"' {
      QuotesMiss(columns, k, j + 1, text);
    } else if HeaderIs(Read(r, text[j..]), columns) {
      if j % 2 == 1 {
        var next := Read1(r, ch).value;
        assert next.field[(j - 1) / 2] == ch && text[(j - 1) / 2] == '"';
        FieldsStay(next, text[j + 1..], columns);
      } else {
        EndedFieldIsTheColumn(r, ch, text[j + 1..], columns);
      }
    }
  }

  lemma NameMisses(columns: Row, k: nat, end: char, rest: string)
    requires k < |columns| && NeedsQuotes(columns[k]) && (end == ',' || end == '\n')
    ensures !HeaderIs(Read(Reader([], columns[..k], "", Start), columns[k] + [end] + rest), columns)
  {
    var r, column := Reader([], columns[..k], "", Start), columns[k];
    var text := column + [end] + rest;
    if column[0] == '"' {
      assert text[0] == '"' && text[..|column|] == column;
      assert Quotes((1 - 1) / 2) == "";
      assert Read1(r, '"') == Some(AfterQuotes(columns[..k], 1));
      QuotesMiss(columns, k, 1, text);
    } else {
      assert column[0..] == column && column[..0] == "";
      BareMisses(columns, k, 0, [end] + rest);
      assert text == column + ([end] + rest);
    }
  }

  // ── The header ──

  lemma {:induction false} HeaderMisses(columns: Row, k: nat, rest: string)
    requires k < |columns| && exists i :: k <= i < |columns| && NeedsQuotes(columns[i])
    ensures !HeaderIs(Read(Reader([], columns[..k], "", Start), JoinCommas(columns[k..]) + "\n" + rest), columns)
    decreases |columns| - k
  {
    var r, tail := Reader([], columns[..k], "", Start), columns[k..];
    if |tail| == 1 {
      NameMisses(columns, k, '\n', rest);
    } else {
      var others := JoinCommas(columns[k + 1..]) + "\n" + rest;
      assert tail[1..] == columns[k + 1..];
      assert JoinCommas(tail) + "\n" + rest == columns[k] + "," + others;
      if NeedsQuotes(columns[k]) {
        NameMisses(columns, k, ',', others);
      } else {
        ReadCell(r, Some(columns[k]), ',');
        ReadAppend(r, columns[k] + ",", others);
        assert columns[..k] + [columns[k]] == columns[..k + 1];
        HeaderMisses(columns, k + 1, rest);
      }
    }
  }

  predicate NoneNeedsQuotes(columns: Row) {
    forall i :: 0 <= i < |columns| ==> !NeedsQuotes(columns[i])
  }

  lemma HeaderBreaks(rows: seq<seq<Option<string>>>, columns: seq<string>)
    requires columns != [] && !NoneNeedsQuotes(columns)
    ensures !HeaderIs(Read(Reader([], [], "", Start), ToCsv(rows, columns)), columns)
  {
    assert columns[..0] == [] && columns[0..] == columns;
    var rest := JoinLines(Lines(rows)) + "\n";
    HeaderMisses(columns, 0, rest);
    assert ToCsv(rows, columns) == JoinCommas(columns) + "\n" + rest;
  }

  /** For all rows and columns: an export reads back, header and cells, if and only if there is a row and no column's
      name needs quotes; and when one does, what is read does not even begin with the header. */
  lemma ExportReadsBackExactlyWhen(rows: seq<seq<Option<string>>>, columns: seq<string>)
    requires columns != [] && (forall i :: 0 <= i < |rows| ==> |rows[i]| == |columns|)
    ensures Parse(ToCsv(rows, columns)) == Some([columns] + AllTexts(rows)) <==> rows != [] && NoneNeedsQuotes(columns)
    ensures !NoneNeedsQuotes(columns) ==> !HeaderIs(Read(Reader([], [], "", Start), ToCsv(rows, columns)), columns)
  {
    if !NoneNeedsQuotes(columns) {
      HeaderBreaks(rows, columns);
    } else if rows != [] {
      CsvRoundTrips(rows, columns);
    } else {
      NoRowsReadAsOneEmptyRecord(columns);
    }
  }
}
