# Trip expense engine — a Dafny model

This project models the computing core of a small trip-expense web app. A trip
has participants and expenses. Each expense has a description, an amount, a
date, the id of the participant who paid, and a split type. An expense whose
split type is `"split"` is shared equally by everybody; any other expense is
"individual" and belongs to its payer alone. The app computes four things from
these records, and the model covers each of them:

- **The expense page summary** (`calculateSummary`). It gives the total, the
  equal share of the pool of split expenses, and each participant's paid,
  owed and balance figures. It also gives the export file name derived from
  the trip name. Module `ExpensePage`, file `expense_page.dfy`.
- **The CSV export** (`generateExpenseCSV`). It computes the same figures
  again, builds a fixed-layout table of text cells and turns it into CSV
  text. Module `CsvExport`, file `csv_export.dfy`. Module `CsvParse`
  (`csv_parse.dfy`) is a reader for that CSV text. It follows the field rules
  of section 2 of RFC 4180 and is the inverse the serialiser is proved
  against.
- **The statistics panel** (`loadStats`). It has a different per-participant
  figure, "spent": everyone's equal part of each split expense, plus the full
  amount of each other expense they paid. The lines are sorted from the
  largest to the smallest. Module `ExpenseStats`, file `expense_stats.dfy`.
- **The expense form** (`ExpenseForm`). It covers the initial form values, the
  submit guard and the conversion of the form into a record. Module
  `ExpenseForm`, file `expense_form.dfy`.

Module `Ledger` (`ledger.dfy`) holds the records and the reductions that all of
these share. Examples are the sum of amounts, the split filter, what one
participant paid and the equal share. Amounts are exact reals, so every sum
identity proved here is a property of the model's arithmetic. It is not a
property of the browser's floating-point arithmetic.

The code works by changing things step by step in four places:

- the dictionaries filled in `forEach` loops;
- `csvContent` growing by `push`;
- `byParticipant` updated in place;
- `participantExpenses` updated in nested loops.

These are modelled as methods with loops over `map` and `seq` values. Each
method is proved against a specification function (`AmountPaid`, `Share`,
`NameOf`, `ExportTable`, `Spent`). The properties of those functions are
then proved as lemmas. The filters, reductions, the serialiser, the file name
and the form are pure functions.

The main results are:

- **Conservation.** Assume at least one participant, distinct ids, and every
  payer a participant. Then the export's balances add up to the non-split
  expenses (`Ledger.BalancesConserve`), and the panel's "spent" figures add
  up to the total (`ExpenseStats.SpentConserves`).
- **Agreement.** The summary page and the export give every participant id
  the same name, paid, owed and balance figures
  (`ExpensePage.SummaryMatchesExport`).
- **CSV round trip.** Reading the exported text gives back the text of every
  cell of every row (`CsvParse.ExportRoundTrip`).
- **Table layout.** The table has `10 + |participants| + |expenses|` rows:
  fixed blocks, one balance row per participant and one row per expense,
  both in input order (`CsvExport.ExportTableLayout`).
- **Sorted statistics.** The statistics lines are in non-increasing order.
  They are a reordering of the per-participant lines and keep input order
  among equal amounts (`ExpenseStats.LoadStats`).
- **Form round trip.** Opening an expense in the form and submitting it
  unchanged gives the same record back, including the payer id, which
  passes through its text form (`ExpenseForm.ResubmitUnchanged`).

The browser's `toLocaleDateString()` and `toFixed(2)` are passed to the export
as uninterpreted functions (`CsvExport.Formatters`). The current date used by
a new form is a parameter.

Two behaviours of the code are kept as they are:

- A payer id that no participant carries yields `undefined` in the Paid By
  cell (travel-expense-tracker/src/utils/csvExport.js:56), and `join` writes
  it as nothing. The model keeps a distinct `Cell.Undefined`. Its serialised
  form is the empty string and it reads back as an empty field.
- The statistics panel divides the total by the number of participants with
  no guard (travel-expense-tracker/src/components/ExpenseStats.jsx:51). With
  no participants the model's `averagePerPerson` is `NotFinite` (NaN or an
  infinity), not 0.

## Model

| member | source | states |
|---|---|---|
| Ledger.SumAppend | travel-expense-tracker/src/utils/csvExport.js:10 | the `reduce` sum of two lists joined is the sum of their sums, so every amount is counted once whichever list it sits in |
| Ledger.SplitOnlyFilter | travel-expense-tracker/src/utils/csvExport.js:9 | the split filter keeps no more expenses than it is given, and an expense survives it exactly when it is in the list and its split type is `'split'` |
| Ledger.AmountPaidExtremes | travel-expense-tracker/src/utils/csvExport.js:17-18 | an id that paid none of the expenses has paid 0, and an id that paid all of them has paid the total |
| Ledger.Share | travel-expense-tracker/src/utils/csvExport.js:9-11 | with `n > 0` participants, `n` times the share is the sum of the split expenses' amounts; with none the share is 0 |
| Ledger.NameOf | travel-expense-tracker/src/utils/csvExport.js:3-6 | an id has a name exactly when some participant carries it; the last such participant's name wins |
| Ledger.AmountPaidStep | travel-expense-tracker/src/utils/csvExport.js:17-18 | a further expense adds its amount to its payer's paid amount and to nobody else's |
| Ledger.ShareStep | travel-expense-tracker/src/utils/csvExport.js:9-11 | a further split expense adds its amount over `n` to the share; any other expense leaves the share unchanged |
| Ledger.TotalSplitsByType | travel-expense-tracker/src/pages/ExpensePage.jsx:49-53 | the total of all amounts is the split pool plus the amounts of all other expenses |
| Ledger.SumPaidIsPaidByAny | travel-expense-tracker/src/utils/csvExport.js:15-18 | with distinct ids, adding up each participant's paid amount counts each expense paid by a participant exactly once |
| Ledger.SumBalancesIsPaidLessShares | travel-expense-tracker/src/utils/csvExport.js:19-21 | the balances add up to the paid amounts less the number of participants times the share |
| Ledger.BalancesConserve | travel-expense-tracker/src/utils/csvExport.js:9-22 | with participants, distinct ids and every payer a participant, the balances add up to the amount of the non-split expenses |
| CsvExport.BuildLookup | travel-expense-tracker/src/utils/csvExport.js:3-6 | the lookup has exactly the participant ids as keys, and maps each to the name of the last participant carrying it |
| CsvExport.ComputeBalances | travel-expense-tracker/src/utils/csvExport.js:9-22 | one entry per participant id: paid is everything that id paid, split and individual alike; owes is the equal share; balance is paid less owes |
| CsvExport.TypeLabel | travel-expense-tracker/src/utils/csvExport.js:57 | the Type cell is "Split Equally" exactly when the split type is "split", and "Individual" for every other value |
| CsvExport.PayerCell | travel-expense-tracker/src/utils/csvExport.js:56 | the Paid By cell is `undefined` exactly when no participant carries the payer id |
| CsvExport.PushPreamble | travel-expense-tracker/src/utils/csvExport.js:28-36 | the seven pushes give the trip rows, the blank row and the balances headings |
| CsvExport.PushBalanceRows | travel-expense-tracker/src/utils/csvExport.js:37-45 | appends one balance row per participant, in input order, formatted from that participant's entry |
| CsvExport.PushExpenseRows | travel-expense-tracker/src/utils/csvExport.js:51-59 | appends one row per expense, in input order, with the payer looked up by id |
| CsvExport.BuildTable | travel-expense-tracker/src/utils/csvExport.js:25-59 | the rows pushed onto `csvContent` are exactly the export table |
| CsvExport.GenerateExpenseCsv | travel-expense-tracker/src/utils/csvExport.js:1-73 | the returned text is the serialised export table |
| CsvExport.ExportTableLayout | travel-expense-tracker/src/utils/csvExport.js:28-59 | the table has 10 + participants + expenses rows: the fixed blocks, one balance row per participant and one row per expense, both in input order with no sorting |
| CsvExport.ExpenseRowContents | travel-expense-tracker/src/utils/csvExport.js:51-59 | each expense row has five cells: the description unchanged, an empty payer exactly for an unknown id, and the type label exactly by split type |
| CsvExport.QuoteCell | travel-expense-tracker/src/utils/csvExport.js:63-68 | `undefined` is written as nothing; a text with no comma, double quote or line feed is left as it is; any other text is written at least two characters longer, between double quotes |
| CsvParse.ReadQuotedDoubled | travel-expense-tracker/src/utils/csvExport.js:66 | a text with its double quotes doubled, followed by a closing quote, reads back as the original text |
| CsvParse.ReadPlainClean | travel-expense-tracker/src/utils/csvExport.js:68 | a text with no comma and no line feed, left unquoted, reads back as itself |
| CsvParse.CellRoundTrip | travel-expense-tracker/src/utils/csvExport.js:63-68 | every cell the serialiser writes, quoted or not, reads back as the cell's text (an `undefined` cell reads back as an empty field) |
| CsvParse.RowRoundTrip | travel-expense-tracker/src/utils/csvExport.js:63-69 | a row joined with commas reads back as its list of cell texts, and reading stops after the row's line feed |
| CsvParse.RowsRoundTrip | travel-expense-tracker/src/utils/csvExport.js:62-70 | a non-empty list of rows joined with line feeds reads back row by row |
| CsvParse.ExportRoundTrip | travel-expense-tracker/src/utils/csvExport.js:62-72 | reading the exported CSV text gives back the text of every cell of the export table |
| ExpensePage.CreateEntries | travel-expense-tracker/src/pages/ExpensePage.jsx:56-63 | one entry per participant id, holding the name, paid 0 and owes the equal share |
| ExpensePage.AddPayments | travel-expense-tracker/src/pages/ExpensePage.jsx:65-69 | every entry's paid grows by exactly what its id paid; no entry is created, and an expense by an unknown payer changes nothing |
| ExpensePage.SetBalances | travel-expense-tracker/src/pages/ExpensePage.jsx:71-73 | every entry gets balance = paid - owes, with its other fields unchanged |
| ExpensePage.CalculateSummary | travel-expense-tracker/src/pages/ExpensePage.jsx:48-80 | total is the sum of all amounts; perPerson is the equal share of the split pool (0 with no participants); one entry per participant id with its name, what it paid, perPerson owed and the difference |
| ExpensePage.SummaryMatchesExport | travel-expense-tracker/src/pages/ExpensePage.jsx:48-73 | the summary page and the CSV export give every participant id the same name, paid, owed and balance |
| ExpensePage.ReplaceNonAlnum | travel-expense-tracker/src/pages/ExpensePage.jsx:86 | same length; each ASCII letter or digit is kept in place and every other character becomes `_` |
| ExpensePage.ToLowerCase | travel-expense-tracker/src/pages/ExpensePage.jsx:86 | same length; each character is lowered in place |
| ExpensePage.ExportFilename | travel-expense-tracker/src/pages/ExpensePage.jsx:86 | the file name is a stem as long as the trip name, made only of `[a-z0-9_]`, followed by `_expenses.csv`; each letter or digit of the name survives lowered in its place and every other character becomes `_` |
| ExpenseStats.Plus | travel-expense-tracker/src/components/ExpenseStats.jsx:36-39 | `+=` stays finite exactly when both sides are finite, and then adds them |
| ExpenseStats.InitSpent | travel-expense-tracker/src/components/ExpenseStats.jsx:27-30 | one entry per participant id, each 0 |
| ExpenseStats.SpreadPart | travel-expense-tracker/src/components/ExpenseStats.jsx:34-37 | a split expense's part is added to each participant's entry once per participant carrying the id; no other entry changes and none is created |
| ExpenseStats.ChargeExpense | travel-expense-tracker/src/components/ExpenseStats.jsx:33-40 | each existing entry gets that expense's charge; a non-split payer with no entry gets a new NaN entry |
| ExpenseStats.AddCharges | travel-expense-tracker/src/components/ExpenseStats.jsx:32-41 | after the loop each participant's entry holds `Spent`; entries created for unknown payers hold NaN |
| ExpenseStats.Unsorted | travel-expense-tracker/src/components/ExpenseStats.jsx:44-46 | one line per participant, in list order, with its name; its spent amount is one part of the summary page's equal share per participant carrying its id plus what the id paid outside the split pool, and with distinct ids exactly the equal share plus its own non-split expenses |
| ExpenseStats.LoadStats | travel-expense-tracker/src/components/ExpenseStats.jsx:23-53 | total is the sum of all amounts; one line per participant, non-increasing by spent, a reordering of the unsorted lines that keeps list order among equal amounts; average is total over the number of participants, not finite with none |
| ExpenseStats.SortNonIncreasing | travel-expense-tracker/src/components/ExpenseStats.jsx:47 | the sorted lines run from the largest spent to the smallest |
| ExpenseStats.SortPermutes | travel-expense-tracker/src/components/ExpenseStats.jsx:47 | sorting only reorders the lines (same multiset) |
| ExpenseStats.SortStable | travel-expense-tracker/src/components/ExpenseStats.jsx:47 | lines with the same spent amount keep their relative order |
| ExpenseStats.PartsDistinct | travel-expense-tracker/src/components/ExpenseStats.jsx:35-37 | with distinct ids, the inner loop gives each participant exactly one part |
| ExpenseStats.SpentByKind | travel-expense-tracker/src/components/ExpenseStats.jsx:32-41 | spent is one part of the equal share per participant carrying the id, plus what the id paid in non-split expenses |
| ExpenseStats.SpentIsShareAndOwn | travel-expense-tracker/src/components/ExpenseStats.jsx:32-41 | with distinct ids, a participant's spent is the summary page's equal share plus their own non-split expenses |
| ExpenseStats.SpentConserves | travel-expense-tracker/src/components/ExpenseStats.jsx:32-41 | with participants, distinct ids and every non-split payer a participant, the spent figures add up to the total |
| ExpenseForm.InitialForm | travel-expense-tracker/src/components/ExpenseForm.jsx:8-14 | a new form is `''`, blank amount, the current date, `''`, `'split'`; an edited expense's description and date are taken; a non-zero amount is entered as itself and 0 leaves the field blank; a non-zero payer id becomes text that converts back to that id and 0 leaves the selector empty; an empty split type becomes `'split'` and any other is kept |
| ExpenseForm.HandleSubmit | travel-expense-tracker/src/components/ExpenseForm.jsx:33-46 | nothing is submitted exactly when the payer is empty, the amount is blank or 0, or the description is empty (not trimmed); otherwise the record keeps description, date and split type, converts amount and payer and adds the trip id |
| ExpenseForm.NatToString | travel-expense-tracker/src/components/ExpenseForm.jsx:12 | `String(n)` of a natural number is a non-empty string of digits that starts with `0` only for 0 itself |
| ExpenseForm.IntToString | travel-expense-tracker/src/components/ExpenseForm.jsx:12 | `String(n)` of an integer starts with `-` exactly when it is negative, and the rest is a string of digits that starts with `0` only for 0 itself |
| ExpenseForm.ParseNumber | travel-expense-tracker/src/components/ExpenseForm.jsx:44 | a number results exactly for an optional minus sign followed by digits |
| ExpenseForm.IntRoundTrip | travel-expense-tracker/src/components/ExpenseForm.jsx:44 | `Number(String(n))` is `n` for every id, ids being modelled as integers of any size |
| ExpenseForm.ResubmitUnchanged | travel-expense-tracker/src/components/ExpenseForm.jsx:8-45 | an expense opened for editing and submitted unchanged comes back as the same record with the same payer id, when none of its fields is falsy |

## Left out

- `downloadCSV` (travel-expense-tracker/src/utils/csvExport.js:75-90) builds a Blob and triggers a download through the DOM. This is browser I/O.
- The data store (travel-expense-tracker/src/db/database.js) wraps an IndexedDB library that is not part of this model, so its reads and writes are not modelled. The inputs are given as sequences in store order. `deleteTrip` (lines 48-53) deletes from the expenses and participants stores using the trip's id as a record key. It does not use the `tripId` index, so a trip's own expenses and participants would survive. This is noted here and not modelled.
- The `Promise.all` loads, React state, rendering, routing and the other pages and components are UI plumbing.
- `toLocaleDateString()` and `toFixed(2)` depend on the locale and on floating point. They are parameters with no stated behaviour (`CsvExport.Formatters`).
- Amounts are exact reals, not IEEE doubles. Sums have no rounding, and the conservation lemmas hold exactly only in the model. NaN appears only where the code can produce it and a caller sees it: the "spent" entries of unknown payers, and the average with no participants. An expense amount that is itself NaN or infinite is not modelled.
- The loops run over participants and expenses in sequence order. `Object.values` order in the summary's last pass is not modelled: that pass touches each entry once, and the result does not depend on the order.
- The rows are separated by a line feed, as in the code, not by the CRLF of section 2 of RFC 4180. The reader in `CsvParse` uses the same convention.
- ExpensePage.ReplaceNonAlnum: works on Dafny characters (code points), not UTF-16 code units. A character outside the Basic Multilingual Plane becomes two `_` in the browser and one here.
- ExpensePage.ToLowerCase: lowers only ASCII letters. After the replacement no other letter is left, so the file name is unaffected.
- ExpenseStats.SortBySpent: `Array.prototype.sort` is a library routine. It is modelled by the one result a stable sort with that comparator can give, not by its algorithm. The comparator is consistent because every participant's spent amount is finite.
- ExpenseStats.LoadStats: the average with no participants is `NotFinite`. The model does not tell NaN (a total of 0) from an infinity.
- ExpenseForm.IntRoundTrip: ids are modelled as integers of any size. A JS number holds integers exactly only up to 2^53, and `String` uses exponent notation from 1e21 on, which `IntToString` never produces. The store's auto-increment key never reaches 2^53, so the round trip is claimed for the ids it issues.
- ExpenseForm.ParseNumber: `Number(text)` is modelled only on decimal integer text, which is what the payer selector produces from `String(p.id)`. Other text that the browser would also convert to a number is treated as NaN here: a leading `+`, surrounding white space, exponents, hexadecimal, fractions.
- ExpenseForm.InitialForm: the edited expense's date is always taken. The model does not treat a falsy stored date as missing.
- The Mantine inputs' own behaviour (what the amount and date pickers deliver) is outside the model. The amount field is either blank or a number.
- `individualExpenses` (travel-expense-tracker/src/pages/ExpensePage.jsx:51) is computed and never used, so it is not modelled.
