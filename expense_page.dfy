/** The expense page of a trip: its summary (the total, the equal share of the
    split pool, and every participant's paid, owed and balance figures) and
    the name of the exported file. */
module ExpensePage {
  import opened Ledger
  import CsvExport

  /** An entry of `byParticipant` before its balance is set. */
  datatype Tally = Tally(name: string, paid: real, owes: real)

  /** An entry of `byParticipant` once the last pass has added its balance. */
  datatype ParticipantSummary = ParticipantSummary(name: string, paid: real, owes: real, balance: real)

  datatype Summary = Summary(total: real, perPerson: real, byParticipant: map<int, ParticipantSummary>)

  /** The first pass: one entry per participant id, with nothing paid and
      the equal share owed; a later participant with the same id replaces an
      earlier one. */
  method CreateEntries(ps: seq<Participant>, perPerson: real) returns (tallies: map<int, Tally>)
    ensures tallies.Keys == Ids(ps)
    ensures forall id :: id in tallies ==>
              NameOf(ps, id) == Some(tallies[id].name) && tallies[id].paid == 0.0 && tallies[id].owes == perPerson
  {
    tallies := map[];
    for i := 0 to |ps|
      invariant tallies.Keys == Ids(ps[..i])
      invariant forall id :: id in tallies ==>
                  NameOf(ps[..i], id) == Some(tallies[id].name) && tallies[id].paid == 0.0 && tallies[id].owes == perPerson
    {
      assert ps[..i + 1][..i] == ps[..i];
      tallies := tallies[ps[i].id := Tally(ps[i].name, 0.0, perPerson)];
    }
    assert ps[..|ps|] == ps;
  }

  /** The second pass: every expense is added to its payer's entry when the
      payer has one; an expense by anyone else changes nothing and creates
      nothing. */
  method AddPayments(start: map<int, Tally>, es: seq<Expense>) returns (tallies: map<int, Tally>)
    ensures tallies.Keys == start.Keys
    ensures forall id :: id in tallies ==>
              && tallies[id].name == start[id].name
              && tallies[id].paid == start[id].paid + AmountPaid(es, id)
              && tallies[id].owes == start[id].owes
  {
    tallies := start;
    for j := 0 to |es|
      invariant tallies.Keys == start.Keys
      invariant forall id :: id in tallies ==>
                  && tallies[id].name == start[id].name
                  && tallies[id].paid == start[id].paid + AmountPaid(es[..j], id)
                  && tallies[id].owes == start[id].owes
    {
      assert es[..j + 1][..j] == es[..j];
      forall id | id in tallies {
        AmountPaidStep(es[..j + 1], id);
      }
      var e := es[j];
      if e.paidBy in tallies {
        tallies := tallies[e.paidBy := tallies[e.paidBy].(paid := tallies[e.paidBy].paid + e.amount)];
      }
    }
    assert es[..|es|] == es;
  }

  /** The last pass, over `Object.values(byParticipant)`, whose keys are the
      participant ids: every entry gets its balance, paid less owed. */
  method SetBalances(tallies: map<int, Tally>, ps: seq<Participant>) returns (byParticipant: map<int, ParticipantSummary>)
    requires tallies.Keys == Ids(ps)
    ensures byParticipant.Keys == tallies.Keys
    ensures forall id :: id in byParticipant ==>
              var t := tallies[id];
              byParticipant[id] == ParticipantSummary(t.name, t.paid, t.owes, t.paid - t.owes)
  {
    byParticipant := map[];
    for i := 0 to |ps|
      invariant byParticipant.Keys == Ids(ps[..i])
      invariant forall id :: id in byParticipant ==>
                  id in tallies &&
                  var t := tallies[id];
                  byParticipant[id] == ParticipantSummary(t.name, t.paid, t.owes, t.paid - t.owes)
    {
      assert ps[..i + 1][..i] == ps[..i];
      var t := tallies[ps[i].id];
      byParticipant := byParticipant[ps[i].id := ParticipantSummary(t.name, t.paid, t.owes, t.paid - t.owes)];
    }
    assert ps[..|ps|] == ps;
  }

  /** `calculateSummary`: the total, the equal share of the split pool, and
      one entry per participant id holding the participant's name, what they
      paid, the share they owe and the difference. These are the figures the
      CSV export states for the same inputs. */
  method CalculateSummary(es: seq<Expense>, ps: seq<Participant>) returns (s: Summary)
    ensures s.total == Sum(es)
    ensures s.perPerson == Share(es, |ps|)
    ensures s.byParticipant.Keys == Ids(ps)
    ensures forall id :: id in s.byParticipant ==>
              && NameOf(ps, id) == Some(s.byParticipant[id].name)
              && s.byParticipant[id].paid == AmountPaid(es, id)
              && s.byParticipant[id].owes == s.perPerson
              && s.byParticipant[id].balance == s.byParticipant[id].paid - s.byParticipant[id].owes
  {
    var total := Sum(es);
    var totalSplit := Sum(SplitOnly(es));
    var perPerson := if |ps| > 0 then totalSplit / |ps| as real else 0.0;
    var tallies := CreateEntries(ps, perPerson);
    tallies := AddPayments(tallies, es);
    var byParticipant := SetBalances(tallies, ps);
    s := Summary(total, perPerson, byParticipant);
  }

  /** The summary page and the CSV export, given the same trip, show the same
      name, paid, owed and balance figures for every participant id. */
  method SummaryMatchesExport(es: seq<Expense>, ps: seq<Participant>)
    returns (s: Summary, names: map<int, string>, balances: map<int, CsvExport.Balance>)
    ensures s.byParticipant.Keys == names.Keys == balances.Keys == Ids(ps)
    ensures forall id :: id in balances ==>
              && names[id] == s.byParticipant[id].name
              && balances[id] == CsvExport.Balance(s.byParticipant[id].paid, s.byParticipant[id].owes, s.byParticipant[id].balance)
  {
    s := CalculateSummary(es, ps);
    names := CsvExport.BuildLookup(ps);
    balances := CsvExport.ComputeBalances(es, ps);
  }

  /** The characters `/[^a-z0-9]/gi` leaves alone. */
  predicate IsAsciiAlnum(c: char)
  {
    'a' <= c <= 'z' || 'A' <= c <= 'Z' || '0' <= c <= '9'
  }

  /** The characters an export file name stem is made of. */
  predicate IsStemChar(c: char)
  {
    'a' <= c <= 'z' || '0' <= c <= '9' || c == '_'
  }

  /** `replace(/[^a-z0-9]/gi, '_')` */
  function ReplaceNonAlnum(s: string): (r: string)
    ensures |r| == |s|
    ensures forall i :: 0 <= i < |s| ==> r[i] == if IsAsciiAlnum(s[i]) then s[i] else '_'
  {
    if s == [] then [] else [if IsAsciiAlnum(s[0]) then s[0] else '_'] + ReplaceNonAlnum(s[1..])
  }

  function LowerChar(c: char): char
  {
    if 'A' <= c <= 'Z' then (c as int - 'A' as int + 'a' as int) as char else c
  }

  /** `toLowerCase()`, on the letters that can reach it here: after the
      replacement only ASCII letters, digits and underscores are left. */
  function ToLowerCase(s: string): (r: string)
    ensures |r| == |s|
    ensures forall i :: 0 <= i < |s| ==> r[i] == LowerChar(s[i])
  {
    if s == [] then [] else [LowerChar(s[0])] + ToLowerCase(s[1..])
  }

  /** The file name `handleExportCSV` passes to the download: a stem as long
      as the trip name, made only of lower-case ASCII letters, digits and
      underscores, followed by `_expenses.csv`. Each letter or digit of the
      trip name survives, lowered, in its place, and every other character
      becomes an underscore. */
  function ExportFilename(tripName: string): (r: string)
    ensures |r| == |tripName| + |"_expenses.csv"|
    ensures r[|tripName|..] == "_expenses.csv"
    ensures forall i :: 0 <= i < |tripName| ==> IsStemChar(r[i])
    ensures forall i :: 0 <= i < |tripName| ==>
              r[i] == if IsAsciiAlnum(tripName[i]) then LowerChar(tripName[i]) else '_'
  {
    ToLowerCase(ReplaceNonAlnum(tripName)) + "_expenses.csv"
  }
}
