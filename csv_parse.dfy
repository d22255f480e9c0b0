/** A reader for the CSV text the export writes, following the field rules of
    section 2 of RFC 4180 (a field in double quotes may hold commas, line
    breaks and doubled double quotes) with the export's line feed as the
    record separator. It is the inverse the serialiser is proved against. */
module CsvParse {
  import opened Ledger
  import opened CsvExport

  /** Reads the inside of a quoted field, starting just after its opening
      quote: `""` stands for one quote and a lone `"` closes the field.
      Gives the field's text and what follows the closing quote, or None when
      the text ends before the field is closed. */
  function ReadQuoted(s: string): (r: Option<(string, string)>)
    ensures r.Some? ==> |r.value.1| < |s|
  {
    if s == [] then None
    else if s[0] == '"' then
      if |s| > 1 && s[1] == '"' then
        match ReadQuoted(s[2..])
        case None => None
        case Some((f, rest)) => Some(("\"" + f, rest))
      else Some(("", s[1..]))
    else
      match ReadQuoted(s[1..])
      case None => None
      case Some((f, rest)) => Some(([s[0]] + f, rest))
  }

  /** Reads an unquoted field: everything up to the next comma or line feed. */
  function ReadPlain(s: string): (r: (string, string))
    ensures |r.1| <= |s|
    ensures r.1 == [] || r.1[0] == ',' || r.1[0] == '\n'
  {
    if s == [] || s[0] == ',' || s[0] == '\n' then ("", s)
    else
      var (f, rest) := ReadPlain(s[1..]);
      ([s[0]] + f, rest)
  }

  function ReadField(s: string): (r: Option<(string, string)>)
    ensures r.Some? ==> |r.value.1| <= |s|
  {
    if s != [] && s[0] == '"' then ReadQuoted(s[1..]) else Some(ReadPlain(s))
  }

  /** Reads one record: its fields, and the text after its line feed, or None
      as the second component when the record ends the text. Text other than
      a separator after a closing quote is an error. */
  function ReadRecord(s: string): (r: Option<(seq<string>, Option<string>)>)
    ensures r.Some? && r.value.1.Some? ==> |r.value.1.value| < |s|
    decreases |s|
  {
    match ReadField(s)
    case None => None
    case Some((f, rest)) =>
      if rest == [] then Some(([f], None))
      else if rest[0] == '\n' then Some(([f], Some(rest[1..])))
      else if rest[0] == ',' then
        match ReadRecord(rest[1..])
        case None => None
        case Some((fs, next)) => Some(([f] + fs, next))
      else None
  }

  /** Reads every record of a CSV text. */
  function ParseCsv(s: string): Option<seq<seq<string>>>
    decreases |s|
  {
    match ReadRecord(s)
    case None => None
    case Some((record, None)) => Some([record])
    case Some((record, Some(rest))) =>
      match ParseCsv(rest)
      case None => None
      case Some(records) => Some([record] + records)
  }

  /** The text a reader recovers from a cell: `undefined` reads back as an
      empty field. */
  function CellText(c: Cell): string
  {
    match c
    case Text(s) => s
    case Undefined => ""
  }

  function CellTexts(row: seq<Cell>): seq<string>
  {
    if row == [] then [] else [CellText(row[0])] + CellTexts(row[1..])
  }

  /** What a reader recovers from a row: an empty row reads back as one empty
      field, since both are written as an empty line. */
  function RecordOf(row: seq<Cell>): seq<string>
  {
    if row == [] then [""] else CellTexts(row)
  }

  function RecordsOf(rows: seq<seq<Cell>>): seq<seq<string>>
  {
    if rows == [] then [] else [RecordOf(rows[0])] + RecordsOf(rows[1..])
  }

  /** A position where a field may end: the end of the text or a separator. */
  predicate AtFieldEnd(tail: string)
  {
    tail == [] || tail[0] == ',' || tail[0] == '\n'
  }

  lemma {:induction false} ReadQuotedDoubled(x: string, tail: string)
    requires tail == [] || tail[0] != '"'
    ensures ReadQuoted(DoubleQuotes(x) + "\"" + tail) == Some((x, tail))
  {
    var s := DoubleQuotes(x) + "\"" + tail;
    if x == [] {
      assert s == "\"" + tail;
    } else if x[0] == '"' {
      ReadQuotedDoubled(x[1..], tail);
      assert s == "\"\"" + (DoubleQuotes(x[1..]) + "\"" + tail);
      assert s[2..] == DoubleQuotes(x[1..]) + "\"" + tail;
      assert "\"" + x[1..] == x;
    } else {
      ReadQuotedDoubled(x[1..], tail);
      assert s == [x[0]] + (DoubleQuotes(x[1..]) + "\"" + tail);
      assert s[1..] == DoubleQuotes(x[1..]) + "\"" + tail;
      assert [x[0]] + x[1..] == x;
    }
  }

  lemma {:induction false} ReadPlainClean(x: string, tail: string)
    requires ',' !in x && '\n' !in x
    requires AtFieldEnd(tail)
    ensures ReadPlain(x + tail) == (x, tail)
  {
    if x == [] {
      assert x + tail == tail;
    } else {
      ReadPlainClean(x[1..], tail);
      assert (x + tail)[1..] == x[1..] + tail;
      assert [x[0]] + x[1..] == x;
    }
  }

  /** Every cell the serialiser writes reads back as the cell's text. */
  lemma {:induction false} CellRoundTrip(c: Cell, tail: string)
    requires AtFieldEnd(tail)
    ensures ReadField(QuoteCell(c) + tail) == Some((CellText(c), tail))
  {
    match c
    case Undefined =>
      assert QuoteCell(c) + tail == tail;
      ReadPlainClean("", tail);
    case Text(s) =>
      if NeedsQuoting(s) {
        ReadQuotedDoubled(s, tail);
        assert (QuoteCell(c) + tail)[1..] == DoubleQuotes(s) + "\"" + tail;
      } else {
        ReadPlainClean(s, tail);
        assert s != [] ==> s[0] != '"';
      }
  }

  /** A serialised row reads back as its record, and reading stops after the
      row's line feed, if any. */
  lemma {:induction false} RowRoundTrip(row: seq<Cell>, tail: string)
    requires tail == [] || tail[0] == '\n'
    ensures ReadRecord(SerializeRow(row) + tail) == Some((RecordOf(row), if tail == [] then None else Some(tail[1..])))
  {
    if row == [] {
      assert SerializeRow(row) + tail == tail;
      ReadPlainClean("", tail);
    } else if |row| == 1 {
      assert row[1..] == [];
      assert QuoteCells(row) == [QuoteCell(row[0])];
      assert CellTexts(row) == [CellText(row[0])];
      CellRoundTrip(row[0], tail);
    } else {
      RowRoundTrip(row[1..], tail);
      RowRoundTripStep(row, tail, if tail == [] then None else Some(tail[1..]));
    }
  }

  /** The step for a row of two or more cells: the first cell is read up to
      its comma, and the rest of the row reads back as before. */
  lemma {:induction false} RowRoundTripStep(row: seq<Cell>, tail: string, next: Option<string>)
    requires |row| > 1
    requires ReadRecord(SerializeRow(row[1..]) + tail) == Some((RecordOf(row[1..]), next))
    ensures ReadRecord(SerializeRow(row) + tail) == Some((RecordOf(row), next))
  {
    var first, rest := row[0], row[1..];
    var restText := SerializeRow(rest) + tail;
    var s := SerializeRow(row) + tail;
    assert QuoteCells(row) == [QuoteCell(first)] + QuoteCells(rest);
    assert QuoteCells(rest) != [];
    assert SerializeRow(row) == QuoteCell(first) + [','] + SerializeRow(rest);
    assert s == QuoteCell(first) + ("," + restText);
    CellRoundTrip(first, "," + restText);
    assert ReadField(s) == Some((CellText(first), "," + restText));
    assert ("," + restText)[1..] == restText;
    assert CellTexts(row) == [CellText(first)] + CellTexts(rest);
    assert RecordOf(rest) == CellTexts(rest);
  }

  lemma {:induction false} RowsRoundTrip(rows: seq<seq<Cell>>)
    requires rows != []
    ensures ParseCsv(Serialize(rows)) == Some(RecordsOf(rows))
  {
    if |rows| == 1 {
      assert rows[1..] == [];
      assert SerializeRows(rows) == [SerializeRow(rows[0])];
      assert RecordsOf(rows) == [RecordOf(rows[0])];
      assert Serialize(rows) == SerializeRow(rows[0]) + "";
      RowRoundTrip(rows[0], "");
    } else {
      var restText := Serialize(rows[1..]);
      assert SerializeRows(rows) == [SerializeRow(rows[0])] + SerializeRows(rows[1..]);
      assert Serialize(rows) == SerializeRow(rows[0]) + ("\n" + restText);
      RowRoundTrip(rows[0], "\n" + restText);
      assert ("\n" + restText)[1..] == restText;
      RowsRoundTrip(rows[1..]);
    }
  }

  /** Reading the exported CSV text recovers the text of every cell of the
      exported table, row by row. */
  lemma {:induction false} ExportRoundTrip(trip: Trip, es: seq<Expense>, ps: seq<Participant>, fmt: Formatters)
    ensures ParseCsv(Serialize(ExportTable(trip, es, ps, fmt))) == Some(RecordsOf(ExportTable(trip, es, ps, fmt)))
  {
    RowsRoundTrip(ExportTable(trip, es, ps, fmt));
  }
}
