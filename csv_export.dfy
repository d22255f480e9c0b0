/** The CSV export of one trip: a lookup from participant id to name, every
    participant's balance, a table of text cells with a fixed layout, and the
    serialiser that quotes cells and joins them with commas, and rows with
    line feeds. */
module CsvExport {
  import opened Ledger

  /** A cell is text, or the `undefined` that looking up an unknown payer
      yields; the serialiser writes the latter as nothing. */
  datatype Cell = Text(text: string) | Undefined

  /** The browser's formatting calls, which the model leaves uninterpreted:
      `new Date(d).toLocaleDateString()` and `x.toFixed(2)`. */
  datatype Formatters = Formatters(date: Date -> string, fixed2: real -> string)

  /** One entry of the export's `balances` dictionary. */
  datatype Balance = Balance(paid: real, owes: real, balance: real)

  /** A participant's figures as the export states them: what they paid, the
      equal share of the split pool, and the difference. */
  function BalanceOf(es: seq<Expense>, ps: seq<Participant>, id: int): Balance
  {
    var paid := AmountPaid(es, id);
    var owes := Share(es, |ps|);
    Balance(paid, owes, paid - owes)
  }

  /** Fills `participantsMap` one participant at a time. */
  method BuildLookup(ps: seq<Participant>) returns (names: map<int, string>)
    ensures names.Keys == Ids(ps)
    ensures forall id :: id in names ==> NameOf(ps, id) == Some(names[id])
  {
    names := map[];
    for i := 0 to |ps|
      invariant names.Keys == Ids(ps[..i])
      invariant forall id :: id in names ==> NameOf(ps[..i], id) == Some(names[id])
    {
      assert ps[..i + 1][..i] == ps[..i];
      names := names[ps[i].id := ps[i].name];
    }
    assert ps[..|ps|] == ps;
  }

  /** Computes the split pool's equal share, then fills `balances` one
      participant at a time. */
  method ComputeBalances(es: seq<Expense>, ps: seq<Participant>) returns (balances: map<int, Balance>)
    ensures balances.Keys == Ids(ps)
    ensures forall id :: id in balances ==>
              && balances[id].paid == AmountPaid(es, id)
              && balances[id].owes == Share(es, |ps|)
              && balances[id].balance == balances[id].paid - balances[id].owes
  {
    var totalSplit := Sum(SplitOnly(es));
    var perPersonSplit := if |ps| > 0 then totalSplit / |ps| as real else 0.0;
    balances := map[];
    for i := 0 to |ps|
      invariant balances.Keys == Ids(ps[..i])
      invariant forall id :: id in balances ==> balances[id] == BalanceOf(es, ps, id)
    {
      assert ps[..i + 1][..i] == ps[..i];
      var p := ps[i];
      var paid := Sum(PaidBy(es, p.id));
      balances := balances[p.id := Balance(paid, perPersonSplit, paid - perPersonSplit)];
    }
    assert ps[..|ps|] == ps;
  }

  function BalanceRow(p: Participant, b: Balance, fmt: Formatters): seq<Cell>
  {
    [Text(p.name), Text(fmt.fixed2(b.paid)), Text(fmt.fixed2(b.owes)), Text(fmt.fixed2(b.balance))]
  }

  /** The Type column. */
  function TypeLabel(splitType: string): (r: string)
    ensures r == "Split Equally" || r == "Individual"
    ensures r == "Split Equally" <==> splitType == "split"
  {
    if splitType == "split" then "Split Equally" else "Individual"
  }

  /** The Paid By column: the payer's name, or `undefined` for an id no
      participant carries. */
  function PayerCell(ps: seq<Participant>, id: int): (c: Cell)
    ensures c.Undefined? <==> id !in Ids(ps)
  {
    match NameOf(ps, id)
    case Some(name) => Text(name)
    case None => Undefined
  }

  function ExpenseRow(e: Expense, ps: seq<Participant>, fmt: Formatters): seq<Cell>
  {
    [Text(fmt.date(e.date)), Text(e.description), Text(fmt.fixed2(e.amount)),
     PayerCell(ps, e.paidBy), Text(TypeLabel(e.splitType))]
  }

  /** The four trip rows, a blank row, and the balances block's two headings. */
  function Preamble(trip: Trip, fmt: Formatters): seq<seq<Cell>>
  {
    [[Text("Trip Details")],
     [Text("Name"), Text(trip.name)],
     [Text("Start Date"), Text(fmt.date(trip.startDate))],
     [Text("End Date"), Text(fmt.date(trip.endDate))],
     [],
     [Text("Participant Balances")],
     [Text("Name"), Text("Paid"), Text("Owes"), Text("Balance")]]
  }

  /** A blank row and the expenses block's two headings. */
  const Interlude: seq<seq<Cell>> :=
    [[],
     [Text("Expenses")],
     [Text("Date"), Text("Description"), Text("Amount"), Text("Paid By"), Text("Type")]]

  /** The balance rows of the participants `qs`, in order; the share is
      taken over all of `ps`. */
  function BalanceRows(es: seq<Expense>, ps: seq<Participant>, qs: seq<Participant>, fmt: Formatters): (rows: seq<seq<Cell>>)
    ensures |rows| == |qs|
  {
    if qs == [] then []
    else BalanceRows(es, ps, qs[..|qs| - 1], fmt) + [BalanceRow(qs[|qs| - 1], BalanceOf(es, ps, qs[|qs| - 1].id), fmt)]
  }

  /** One row per expense, in input order. */
  function ExpenseRows(es: seq<Expense>, ps: seq<Participant>, fmt: Formatters): (rows: seq<seq<Cell>>)
    ensures |rows| == |es|
  {
    if es == [] then []
    else ExpenseRows(es[..|es| - 1], ps, fmt) + [ExpenseRow(es[|es| - 1], ps, fmt)]
  }

  lemma {:induction false} BalanceRowsAt(es: seq<Expense>, ps: seq<Participant>, qs: seq<Participant>, fmt: Formatters)
    ensures |BalanceRows(es, ps, qs, fmt)| == |qs|
    ensures forall i :: 0 <= i < |qs| ==> BalanceRows(es, ps, qs, fmt)[i] == BalanceRow(qs[i], BalanceOf(es, ps, qs[i].id), fmt)
  {
    if qs != [] {
      BalanceRowsAt(es, ps, qs[..|qs| - 1], fmt);
    }
  }

  lemma {:induction false} ExpenseRowsAt(es: seq<Expense>, ps: seq<Participant>, fmt: Formatters)
    ensures |ExpenseRows(es, ps, fmt)| == |es|
    ensures forall j :: 0 <= j < |es| ==> ExpenseRows(es, ps, fmt)[j] == ExpenseRow(es[j], ps, fmt)
  {
    if es != [] {
      ExpenseRowsAt(es[..|es| - 1], ps, fmt);
    }
  }

  /** The exported table: the preamble, the balance rows, the interlude and
      the expense rows. */
  function ExportTable(trip: Trip, es: seq<Expense>, ps: seq<Participant>, fmt: Formatters): seq<seq<Cell>>
  {
    Preamble(trip, fmt) + BalanceRows(es, ps, ps, fmt) + Interlude + ExpenseRows(es, ps, fmt)
  }

  /** The trip block and the balances block's headings, pushed one row at a
      time onto an empty `csvContent`. */
  method PushPreamble(trip: Trip, fmt: Formatters) returns (rows: seq<seq<Cell>>)
    ensures rows == Preamble(trip, fmt)
  {
    rows := [];
    rows := rows + [[Text("Trip Details")]];
    rows := rows + [[Text("Name"), Text(trip.name)]];
    rows := rows + [[Text("Start Date"), Text(fmt.date(trip.startDate))]];
    rows := rows + [[Text("End Date"), Text(fmt.date(trip.endDate))]];
    rows := rows + [[]];
    rows := rows + [[Text("Participant Balances")]];
    rows := rows + [[Text("Name"), Text("Paid"), Text("Owes"), Text("Balance")]];
  }

  /** Pushes one balance row per participant, in input order. */
  method PushBalanceRows(start: seq<seq<Cell>>, es: seq<Expense>, ps: seq<Participant>,
                         balances: map<int, Balance>, fmt: Formatters) returns (rows: seq<seq<Cell>>)
    requires forall id :: id in balances ==> balances[id] == BalanceOf(es, ps, id)
    requires balances.Keys == Ids(ps)
    ensures rows == start + BalanceRows(es, ps, ps, fmt)
  {
    rows := start;
    for i := 0 to |ps|
      invariant rows == start + BalanceRows(es, ps, ps[..i], fmt)
    {
      var p := ps[i];
      var b := balances[p.id];
      assert ps[..i + 1][..i] == ps[..i] && ps[..i + 1][i] == p;
      rows := rows + [[Text(p.name), Text(fmt.fixed2(b.paid)), Text(fmt.fixed2(b.owes)), Text(fmt.fixed2(b.balance))]];
    }
    assert ps[..|ps|] == ps;
  }

  /** Pushes one row per expense, in input order, with no sorting. */
  method PushExpenseRows(start: seq<seq<Cell>>, es: seq<Expense>, ps: seq<Participant>,
                         names: map<int, string>, fmt: Formatters) returns (rows: seq<seq<Cell>>)
    requires forall id :: id in names ==> NameOf(ps, id) == Some(names[id])
    requires names.Keys == Ids(ps)
    ensures rows == start + ExpenseRows(es, ps, fmt)
  {
    rows := start;
    for j := 0 to |es|
      invariant rows == start + ExpenseRows(es[..j], ps, fmt)
    {
      var e := es[j];
      var payer := if e.paidBy in names then Text(names[e.paidBy]) else Undefined;
      assert es[..j + 1][..j] == es[..j] && es[..j + 1][j] == e;
      rows := rows + [[Text(fmt.date(e.date)), Text(e.description), Text(fmt.fixed2(e.amount)),
                       payer, Text(if e.splitType == "split" then "Split Equally" else "Individual")]];
    }
    assert es[..|es|] == es;
  }

  /** Builds `csvContent`: the trip block, the balances block, a blank row,
      the expenses headings and the expense rows. */
  method BuildTable(trip: Trip, es: seq<Expense>, ps: seq<Participant>, names: map<int, string>,
                    balances: map<int, Balance>, fmt: Formatters) returns (rows: seq<seq<Cell>>)
    requires forall id :: id in names ==> NameOf(ps, id) == Some(names[id])
    requires names.Keys == Ids(ps)
    requires forall id :: id in balances ==> balances[id] == BalanceOf(es, ps, id)
    requires balances.Keys == Ids(ps)
    ensures rows == ExportTable(trip, es, ps, fmt)
  {
    rows := PushPreamble(trip, fmt);
    rows := PushBalanceRows(rows, es, ps, balances, fmt);
    rows := rows + [[]];
    rows := rows + [[Text("Expenses")]];
    rows := rows + [[Text("Date"), Text("Description"), Text("Amount"), Text("Paid By"), Text("Type")]];
    rows := PushExpenseRows(rows, es, ps, names, fmt);
  }

  /** A cell needs quotes when it holds a comma, a double quote or a line feed. */
  predicate NeedsQuoting(s: string)
  {
    ',' in s || '"' in s || '\n' in s
  }

  /** `replace(/"/g, '""')` */
  function DoubleQuotes(s: string): (r: string)
    ensures |r| >= |s|
  {
    if s == [] then [] else (if s[0] == '"' then "\"\"" else [s[0]]) + DoubleQuotes(s[1..])
  }

  /** Minimal quoting: a text cell that needs it is wrapped in double quotes
      with its own double quotes doubled; any other text is left as it is,
      and `undefined` becomes nothing when the row is joined. */
  function QuoteCell(c: Cell): (r: string)
    ensures c.Undefined? ==> r == ""
    ensures c.Text? && !NeedsQuoting(c.text) ==> r == c.text
    ensures c.Text? && NeedsQuoting(c.text) ==> |r| >= |c.text| + 2 && r[0] == '"' && r[|r| - 1] == '"'
  {
    match c
    case Undefined => ""
    case Text(s) => if NeedsQuoting(s) then "\"" + DoubleQuotes(s) + "\"" else s
  }

  /** `parts.join(sep)` */
  function Join(parts: seq<string>, sep: char): string
  {
    if |parts| == 0 then ""
    else if |parts| == 1 then parts[0]
    else parts[0] + [sep] + Join(parts[1..], sep)
  }

  function QuoteCells(row: seq<Cell>): seq<string>
  {
    if row == [] then [] else [QuoteCell(row[0])] + QuoteCells(row[1..])
  }

  function SerializeRow(row: seq<Cell>): string
  {
    Join(QuoteCells(row), ',')
  }

  function SerializeRows(rows: seq<seq<Cell>>): seq<string>
  {
    if rows == [] then [] else [SerializeRow(rows[0])] + SerializeRows(rows[1..])
  }

  /** The CSV text: cells joined with commas, rows with line feeds. */
  function Serialize(rows: seq<seq<Cell>>): string
  {
    Join(SerializeRows(rows), '\n')
  }

  /** `generateExpenseCSV`: the lookup, the balances, the table, the text. */
  method GenerateExpenseCsv(trip: Trip, es: seq<Expense>, ps: seq<Participant>, fmt: Formatters) returns (csv: string)
    ensures csv == Serialize(ExportTable(trip, es, ps, fmt))
  {
    var names := BuildLookup(ps);
    var balances := ComputeBalances(es, ps);
    var rows := BuildTable(trip, es, ps, names, balances, fmt);
    csv := Serialize(rows);
  }

  /** The layout of the exported table: 10 + |ps| + |es| rows; the
      preamble; one balance row per participant, in input order; the
      interlude; one row per expense, in input order. */
  lemma {:induction false} ExportTableLayout(trip: Trip, es: seq<Expense>, ps: seq<Participant>, fmt: Formatters)
    ensures var rows := ExportTable(trip, es, ps, fmt);
      && |rows| == 10 + |ps| + |es|
      && rows[..7] == Preamble(trip, fmt)
      && (forall i :: 0 <= i < |ps| ==> rows[7 + i] == BalanceRow(ps[i], BalanceOf(es, ps, ps[i].id), fmt))
      && rows[7 + |ps|..10 + |ps|] == Interlude
      && (forall j :: 0 <= j < |es| ==> rows[10 + |ps| + j] == ExpenseRow(es[j], ps, fmt))
  {
    var rows := ExportTable(trip, es, ps, fmt);
    BalanceRowsAt(es, ps, ps, fmt);
    ExpenseRowsAt(es, ps, fmt);
    var pre, bal, mid, exp := Preamble(trip, fmt), BalanceRows(es, ps, ps, fmt), Interlude, ExpenseRows(es, ps, fmt);
    assert rows == pre + bal + mid + exp;
    assert rows[..7] == pre;
    forall i | 0 <= i < |ps|
      ensures rows[7 + i] == BalanceRow(ps[i], BalanceOf(es, ps, ps[i].id), fmt)
    {
      assert rows[7 + i] == bal[i];
    }
    assert rows[7 + |ps|..10 + |ps|] == mid;
    forall j | 0 <= j < |es|
      ensures rows[10 + |ps| + j] == ExpenseRow(es[j], ps, fmt)
    {
      assert rows[10 + |ps| + j] == exp[j];
    }
  }

  /** What each expense row says: its description, an empty payer exactly
      when no participant has the payer's id, and "Split Equally" exactly for
      split expenses. */
  lemma {:induction false} ExpenseRowContents(trip: Trip, es: seq<Expense>, ps: seq<Participant>, fmt: Formatters, j: int)
    requires 0 <= j < |es|
    ensures var row := ExportTable(trip, es, ps, fmt)[10 + |ps| + j];
      && |row| == 5
      && row[1] == Text(es[j].description)
      && (row[3] == Undefined <==> es[j].paidBy !in Ids(ps))
      && (row[4] == Text("Split Equally") <==> IsSplit(es[j]))
      && (row[4] == Text("Individual") <==> !IsSplit(es[j]))
  {
    ExportTableLayout(trip, es, ps, fmt);
  }
}
