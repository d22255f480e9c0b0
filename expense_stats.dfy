/** The statistics panel of a trip: the total, what each participant "spent"
    (an equal part of every split expense, plus the full amount of every
    other expense they paid), listed from the largest to the smallest, and
    the total divided by the number of participants. */
module ExpenseStats {
  import opened Ledger

  /** One line of the panel. */
  datatype ParticipantStat = ParticipantStat(name: string, spent: real)

  datatype Stats = Stats(total: real, participantStats: seq<ParticipantStat>, averagePerPerson: Number)

  /** `+=` on a dictionary entry: adding to `undefined` or to NaN gives NaN. */
  function Plus(a: Number, b: Number): (r: Number)
    ensures r.Finite? <==> a.Finite? && b.Finite?
    ensures r.Finite? ==> r.value == a.value + b.value
  {
    if a.Finite? && b.Finite? then Finite(a.value + b.value) else NotFinite
  }

  /** `x` once for every participant carrying `id`: what the inner loop over
      the participants adds to the entry of `id` when it adds `x` to each. */
  function Parts(ps: seq<Participant>, id: int, x: real): real
  {
    if ps == [] then 0.0 else Parts(ps[..|ps| - 1], id, x) + (if ps[|ps| - 1].id == id then x else 0.0)
  }

  /** What one expense charges to the entry of `id`: a split expense an equal
      part per participant carrying `id`, any other expense its full amount
      to its payer. */
  function Charge(e: Expense, ps: seq<Participant>, id: int): real
  {
    if IsSplit(e) then
      if |ps| > 0 then Parts(ps, id, e.amount / |ps| as real) else 0.0
    else if e.paidBy == id then e.amount
    else 0.0
  }

  /** The amount the panel shows for `id`, summed in expense order. */
  function Spent(es: seq<Expense>, ps: seq<Participant>, id: int): real
  {
    if es == [] then 0.0 else Spent(es[..|es| - 1], ps, id) + Charge(es[|es| - 1], ps, id)
  }

  lemma {:induction false} PartsAdd(ps: seq<Participant>, id: int, x: real, y: real)
    ensures Parts(ps, id, x + y) == Parts(ps, id, x) + Parts(ps, id, y)
  {
    if ps != [] {
      PartsAdd(ps[..|ps| - 1], id, x, y);
    }
  }

  lemma {:induction false} PartsOfNothing(ps: seq<Participant>, id: int)
    ensures Parts(ps, id, 0.0) == 0.0
  {
    if ps != [] {
      PartsOfNothing(ps[..|ps| - 1], id);
    }
  }

  lemma {:induction false} PartsOutside(ps: seq<Participant>, id: int, x: real)
    requires id !in Ids(ps)
    ensures Parts(ps, id, x) == 0.0
  {
    if ps != [] {
      PartsOutside(ps[..|ps| - 1], id, x);
    }
  }

  /** With distinct ids every participant gets exactly one part. */
  lemma {:induction false} PartsDistinct(ps: seq<Participant>, i: nat, x: real)
    requires DistinctIds(ps) && i < |ps|
    ensures Parts(ps, ps[i].id, x) == x
  {
    var init := ps[..|ps| - 1];
    if i == |ps| - 1 {
      if ps[i].id in Ids(init) {
        var k := IdsWitness(init, ps[i].id);
        assert false;
      }
      PartsOutside(init, ps[i].id, x);
    } else {
      assert DistinctIds(init);
      PartsDistinct(init, i, x);
    }
  }

  /** Every participant starts at 0 spent. */
  method InitSpent(ps: seq<Participant>) returns (spent: map<int, Number>)
    ensures spent.Keys == Ids(ps)
    ensures forall id :: id in spent ==> spent[id] == Finite(0.0)
  {
    spent := map[];
    for i := 0 to |ps|
      invariant spent.Keys == Ids(ps[..i])
      invariant forall id :: id in spent ==> spent[id] == Finite(0.0)
    {
      assert ps[..i + 1][..i] == ps[..i];
      spent := spent[ps[i].id := Finite(0.0)];
    }
    assert ps[..|ps|] == ps;
  }

  /** The inner loop of a split expense: `part` is added to the entry of every
      participant, once per participant carrying the id; no other entry
      changes. */
  method SpreadPart(start: map<int, Number>, ps: seq<Participant>, part: real) returns (spent: map<int, Number>)
    requires Ids(ps) <= start.Keys
    ensures spent.Keys == start.Keys
    ensures forall id :: id in spent ==> spent[id] == Plus(start[id], Finite(Parts(ps, id, part)))
  {
    spent := start;
    for k := 0 to |ps|
      invariant spent.Keys == start.Keys
      invariant forall id :: id in spent ==> spent[id] == Plus(start[id], Finite(Parts(ps[..k], id, part)))
    {
      assert ps[..k + 1][..k] == ps[..k];
      spent := spent[ps[k].id := Plus(spent[ps[k].id], Finite(part))];
    }
    assert ps[..|ps|] == ps;
  }

  /** The body of the loop over the expenses, for one expense: every entry
      present gets the expense's charge added; a non-split payer with no
      entry gets one holding NaN (`undefined + amount`). */
  method ChargeExpense(start: map<int, Number>, e: Expense, ps: seq<Participant>) returns (spent: map<int, Number>)
    requires Ids(ps) <= start.Keys
    ensures start.Keys <= spent.Keys
    ensures forall id :: id in start ==> spent[id] == Plus(start[id], Finite(Charge(e, ps, id)))
    ensures forall id :: id in spent && id !in start ==> spent[id] == NotFinite
  {
    if IsSplit(e) {
      if |ps| > 0 {
        spent := SpreadPart(start, ps, e.amount / |ps| as real);
      } else {
        spent := start;
      }
    } else if e.paidBy in start {
      spent := start[e.paidBy := Plus(start[e.paidBy], Finite(e.amount))];
    } else {
      spent := start[e.paidBy := NotFinite];
    }
  }

  /** The loop over the expenses. An entry present at the start ends with
      what `Spent` charges it added; a payer with no entry gets one holding
      NaN, which no participant's line reads. */
  method AddCharges(start: map<int, Number>, es: seq<Expense>, ps: seq<Participant>) returns (spent: map<int, Number>)
    requires Ids(ps) <= start.Keys
    ensures start.Keys <= spent.Keys
    ensures forall id :: id in start ==> spent[id] == Plus(start[id], Finite(Spent(es, ps, id)))
    ensures forall id :: id in spent && id !in start ==> spent[id] == NotFinite
  {
    spent := start;
    for j := 0 to |es|
      invariant start.Keys <= spent.Keys
      invariant forall id :: id in start ==> spent[id] == Plus(start[id], Finite(Spent(es[..j], ps, id)))
      invariant forall id :: id in spent && id !in start ==> spent[id] == NotFinite
    {
      assert es[..j + 1][..j] == es[..j];
      spent := ChargeExpense(spent, es[j], ps);
    }
    assert es[..|es|] == es;
  }

  /** `participants.map(p => ({ name: p.name, spent: participantExpenses[p.id] }))`,
      with the amounts the loops leave in the dictionary. Each line shows the
      participant's parts of the equal share plus what they paid outside the
      split pool; with distinct ids, that is the share the expense page shows
      plus their own non-split expenses. */
  function Unsorted(es: seq<Expense>, ps: seq<Participant>): (r: seq<ParticipantStat>)
    ensures |r| == |ps|
    ensures forall i :: 0 <= i < |ps| ==> r[i].name == ps[i].name
    ensures forall i :: 0 <= i < |ps| ==>
              r[i].spent == Parts(ps, ps[i].id, Share(es, |ps|)) + AmountPaid(NonSplit(es), ps[i].id)
    ensures DistinctIds(ps) ==>
              forall i :: 0 <= i < |ps| ==> r[i].spent == Share(es, |ps|) + AmountPaid(NonSplit(es), ps[i].id)
  {
    var r := seq(|ps|, i requires 0 <= i < |ps| => ParticipantStat(ps[i].name, Spent(es, ps, ps[i].id)));
    assert forall i :: 0 <= i < |ps| ==>
             r[i].spent == Parts(ps, ps[i].id, Share(es, |ps|)) + AmountPaid(NonSplit(es), ps[i].id) by {
      forall i | 0 <= i < |ps| {
        SpentByKind(es, ps, ps[i].id);
      }
    }
    assert DistinctIds(ps) ==>
             forall i :: 0 <= i < |ps| ==> r[i].spent == Share(es, |ps|) + AmountPaid(NonSplit(es), ps[i].id) by {
      if DistinctIds(ps) {
        forall i | 0 <= i < |ps| {
          SpentIsShareAndOwn(es, ps, i);
        }
      }
    }
    r
  }

  /** Places `x` before the first line whose amount is not larger, so that
      `x`, which came first, stays ahead of the lines with the same amount. */
  function Insert(x: ParticipantStat, t: seq<ParticipantStat>): (r: seq<ParticipantStat>)
    ensures |r| == |t| + 1
  {
    if t == [] || x.spent >= t[0].spent then [x] + t else [t[0]] + Insert(x, t[1..])
  }

  /** `sort((a, b) => b.spent - a.spent)`: the sort is stable, so this is the
      one order it can produce. */
  function SortBySpent(s: seq<ParticipantStat>): (r: seq<ParticipantStat>)
    ensures |r| == |s|
  {
    if s == [] then [] else Insert(s[0], SortBySpent(s[1..]))
  }

  predicate NonIncreasing(s: seq<ParticipantStat>)
  {
    forall i, j :: 0 <= i < j < |s| ==> s[i].spent >= s[j].spent
  }

  /** The lines showing the amount `v`, in order. */
  function WithSpent(s: seq<ParticipantStat>, v: real): seq<ParticipantStat>
  {
    if s == [] then [] else (if s[0].spent == v then [s[0]] else []) + WithSpent(s[1..], v)
  }

  lemma {:induction false} InsertNonIncreasing(x: ParticipantStat, t: seq<ParticipantStat>)
    requires NonIncreasing(t)
    ensures NonIncreasing(Insert(x, t))
    ensures Insert(x, t)[0] == x || (t != [] && Insert(x, t)[0] == t[0])
  {
    if t != [] && x.spent < t[0].spent {
      InsertNonIncreasing(x, t[1..]);
    }
  }

  lemma {:induction false} InsertMultiset(x: ParticipantStat, t: seq<ParticipantStat>)
    ensures multiset(Insert(x, t)) == multiset(t) + multiset{x}
  {
    if t != [] && x.spent < t[0].spent {
      InsertMultiset(x, t[1..]);
      assert t == [t[0]] + t[1..];
    }
  }

  lemma {:induction false} InsertWithSpent(x: ParticipantStat, t: seq<ParticipantStat>, v: real)
    ensures WithSpent(Insert(x, t), v) == (if x.spent == v then [x] else []) + WithSpent(t, v)
  {
    if t == [] || x.spent >= t[0].spent {
      var r := [x] + t;
      assert r[0] == x && r[1..] == t;
    } else {
      var rest := Insert(x, t[1..]);
      var r := [t[0]] + rest;
      assert r[0] == t[0] && r[1..] == rest;
      InsertWithSpent(x, t[1..], v);
      if x.spent == v {
        assert t[0].spent != v;
        assert WithSpent(r, v) == WithSpent(rest, v);
        assert WithSpent(t, v) == WithSpent(t[1..], v);
      } else {
        assert WithSpent(rest, v) == WithSpent(t[1..], v);
      }
    }
  }

  /** The sorted lines run from the largest amount to the smallest. */
  lemma {:induction false} SortNonIncreasing(s: seq<ParticipantStat>)
    ensures NonIncreasing(SortBySpent(s))
  {
    if s != [] {
      SortNonIncreasing(s[1..]);
      InsertNonIncreasing(s[0], SortBySpent(s[1..]));
    }
  }

  /** Sorting only reorders the lines. */
  lemma {:induction false} SortPermutes(s: seq<ParticipantStat>)
    ensures multiset(SortBySpent(s)) == multiset(s)
  {
    if s != [] {
      SortPermutes(s[1..]);
      InsertMultiset(s[0], SortBySpent(s[1..]));
      assert s == [s[0]] + s[1..];
    }
  }

  /** Lines with equal amounts keep their participant-list order. */
  lemma {:induction false} SortStable(s: seq<ParticipantStat>, v: real)
    ensures WithSpent(SortBySpent(s), v) == WithSpent(s, v)
  {
    if s != [] {
      SortStable(s[1..], v);
      InsertWithSpent(s[0], SortBySpent(s[1..]), v);
    }
  }

  /** `loadStats`: the total of all amounts, one line per participant in
      non-increasing order of spent (a reordering of the participant list's
      lines, stable among equal amounts), and the total over the number of
      participants, which is NaN or an infinity when there are none. */
  method LoadStats(es: seq<Expense>, ps: seq<Participant>) returns (s: Stats)
    ensures s.total == Sum(es)
    ensures s.participantStats == SortBySpent(Unsorted(es, ps))
    ensures |s.participantStats| == |ps|
    ensures NonIncreasing(s.participantStats)
    ensures multiset(s.participantStats) == multiset(Unsorted(es, ps))
    ensures forall v :: WithSpent(s.participantStats, v) == WithSpent(Unsorted(es, ps), v)
    ensures s.averagePerPerson == if |ps| > 0 then Finite(Sum(es) / |ps| as real) else NotFinite
  {
    var total := Sum(es);
    var spent := InitSpent(ps);
    spent := AddCharges(spent, es, ps);
    var unsorted := seq(|ps|, i requires 0 <= i < |ps| => ParticipantStat(ps[i].name, spent[ps[i].id].value));
    assert unsorted == Unsorted(es, ps);
    var participantStats := SortBySpent(unsorted);
    SortNonIncreasing(unsorted);
    SortPermutes(unsorted);
    forall v
      ensures WithSpent(participantStats, v) == WithSpent(unsorted, v)
    {
      SortStable(unsorted, v);
    }
    var average := if |ps| > 0 then Finite(total / |ps| as real) else NotFinite;
    s := Stats(total, participantStats, average);
  }

  /** An independent reading of `Spent`: the id's participants' parts of the
      split pool, plus what the id paid outside it. */
  lemma {:induction false} SpentByKind(es: seq<Expense>, ps: seq<Participant>, id: int)
    ensures Spent(es, ps, id) == Parts(ps, id, Share(es, |ps|)) + AmountPaid(NonSplit(es), id)
  {
    if es == [] {
      PartsOfNothing(ps, id);
    } else {
      SpentByKind(es[..|es| - 1], ps, id);
      if IsSplit(es[|es| - 1]) {
        SpentByKindSplitStep(es, ps, id);
      } else {
        SpentByKindOtherStep(es, ps, id);
      }
    }
  }

  lemma {:induction false} SpentByKindSplitStep(es: seq<Expense>, ps: seq<Participant>, id: int)
    requires es != [] && IsSplit(es[|es| - 1])
    requires var init := es[..|es| - 1];
      Spent(init, ps, id) == Parts(ps, id, Share(init, |ps|)) + AmountPaid(NonSplit(init), id)
    ensures Spent(es, ps, id) == Parts(ps, id, Share(es, |ps|)) + AmountPaid(NonSplit(es), id)
  {
    var init, last := es[..|es| - 1], es[|es| - 1];
    assert NonSplit(es) == NonSplit(init);
    if |ps| > 0 {
      ShareStep(es, |ps|);
      PartsAdd(ps, id, Share(init, |ps|), last.amount / |ps| as real);
    }
  }

  lemma {:induction false} SpentByKindOtherStep(es: seq<Expense>, ps: seq<Participant>, id: int)
    requires es != [] && !IsSplit(es[|es| - 1])
    requires var init := es[..|es| - 1];
      Spent(init, ps, id) == Parts(ps, id, Share(init, |ps|)) + AmountPaid(NonSplit(init), id)
    ensures Spent(es, ps, id) == Parts(ps, id, Share(es, |ps|)) + AmountPaid(NonSplit(es), id)
  {
    var init, last := es[..|es| - 1], es[|es| - 1];
    assert NonSplit(es) == NonSplit(init) + [last];
    AmountPaidStep(NonSplit(es), id);
    if |ps| > 0 {
      ShareStep(es, |ps|);
    }
  }

  /** With distinct ids, a participant's line is the equal share of the split
      pool the expense page shows, plus their own non-split expenses. */
  lemma {:induction false} SpentIsShareAndOwn(es: seq<Expense>, ps: seq<Participant>, i: nat)
    requires DistinctIds(ps) && i < |ps|
    ensures Spent(es, ps, ps[i].id) == Share(es, |ps|) + AmountPaid(NonSplit(es), ps[i].id)
  {
    SpentByKind(es, ps, ps[i].id);
    PartsDistinct(ps, i, Share(es, |ps|));
  }

  /** The sum of the amounts on the lines for `qs`. */
  function SumSpent(es: seq<Expense>, ps: seq<Participant>, qs: seq<Participant>): real
  {
    if qs == [] then 0.0 else SumSpent(es, ps, qs[..|qs| - 1]) + Spent(es, ps, qs[|qs| - 1].id)
  }

  /** `x` added up `n` times. */
  function Copies(n: nat, x: real): real
  {
    if n == 0 then 0.0 else Copies(n - 1, x) + x
  }

  lemma {:induction false} CopiesIsProduct(n: nat, x: real)
    ensures Copies(n, x) == n as real * x
  {
    if n > 0 {
      CopiesIsProduct(n - 1, x);
      assert n as real * x == (n - 1) as real * x + x;
    }
  }

  lemma {:induction false} SumSpentOfSingles(es: seq<Expense>, ps: seq<Participant>, qs: seq<Participant>, share: real)
    requires forall i :: 0 <= i < |qs| ==> Spent(es, ps, qs[i].id) == share + AmountPaid(NonSplit(es), qs[i].id)
    ensures SumSpent(es, ps, qs) == Copies(|qs|, share) + SumPaid(NonSplit(es), qs)
  {
    if qs != [] {
      var init, last := qs[..|qs| - 1], qs[|qs| - 1];
      assert forall i :: 0 <= i < |init| ==> init[i] == qs[i];
      SumSpentOfSingles(es, ps, init, share);
      assert Spent(es, ps, last.id) == share + AmountPaid(NonSplit(es), last.id);
    }
  }

  lemma {:induction false} NonSplitPayers(es: seq<Expense>, ids: set<int>)
    requires forall i :: 0 <= i < |es| && !IsSplit(es[i]) ==> es[i].paidBy in ids
    ensures forall i :: 0 <= i < |NonSplit(es)| ==> NonSplit(es)[i].paidBy in ids
  {
    if es != [] {
      NonSplitPayers(es[..|es| - 1], ids);
    }
  }

  lemma {:induction false} SumSpentDistinct(es: seq<Expense>, ps: seq<Participant>)
    requires DistinctIds(ps)
    ensures SumSpent(es, ps, ps) == Copies(|ps|, Share(es, |ps|)) + SumPaid(NonSplit(es), ps)
  {
    var share := Share(es, |ps|);
    forall i | 0 <= i < |ps|
      ensures Spent(es, ps, ps[i].id) == share + AmountPaid(NonSplit(es), ps[i].id)
    {
      SpentIsShareAndOwn(es, ps, i);
    }
    SumSpentOfSingles(es, ps, ps, share);
  }

  /** The equal share, taken once per participant, is the split pool. */
  lemma {:induction false} CopiesOfShare(es: seq<Expense>, n: nat)
    requires n > 0
    ensures Copies(n, Share(es, n)) == Sum(SplitOnly(es))
  {
    CopiesIsProduct(n, Share(es, n));
  }

  lemma {:induction false} SumSpentCovered(es: seq<Expense>, ps: seq<Participant>)
    requires DistinctIds(ps)
    requires forall i :: 0 <= i < |es| && !IsSplit(es[i]) ==> es[i].paidBy in Ids(ps)
    ensures SumSpent(es, ps, ps) == Copies(|ps|, Share(es, |ps|)) + Sum(NonSplit(es))
  {
    SumSpentDistinct(es, ps);
    SumPaidIsPaidByAny(NonSplit(es), ps);
    NonSplitPayers(es, Ids(ps));
    PaidByAnyCovers(NonSplit(es), Ids(ps));
  }

  /** Conservation: with at least one participant, distinct ids and every
      non-split expense paid by a participant, the lines add up to the
      total. */
  lemma {:induction false} SpentConserves(es: seq<Expense>, ps: seq<Participant>)
    requires |ps| > 0 && DistinctIds(ps)
    requires forall i :: 0 <= i < |es| && !IsSplit(es[i]) ==> es[i].paidBy in Ids(ps)
    ensures SumSpent(es, ps, ps) == Sum(es)
  {
    SumSpentCovered(es, ps);
    CopiesOfShare(es, |ps|);
    TotalSplitsByType(es);
  }
}
