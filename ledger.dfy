/** The records a trip's figures are computed from, and the reductions over
    them that the summary page, the statistics panel and the CSV export all
    perform: the total, the pool of "split" expenses, the equal share of that
    pool and the amount each participant paid. Amounts are exact reals. */
module Ledger {

  datatype Option<T> = None | Some(value: T)

  /** The outcome of a number computation in the browser where the model needs
      to tell a finite value from NaN or an infinity. */
  datatype Number = Finite(value: real) | NotFinite

  /** A point in time; the model only ever passes it to a formatting function. */
  type Date = int

  datatype Trip = Trip(name: string, startDate: Date, endDate: Date)

  datatype Participant = Participant(id: int, name: string)

  /** `splitType` is free text: the form offers "split" and "individual", and
      every consumer tests only for "split". */
  datatype Expense = Expense(description: string, amount: real, date: Date, paidBy: int, splitType: string)

  predicate IsSplit(e: Expense)
  {
    e.splitType == "split"
  }

  /** `reduce((sum, e) => sum + e.amount, 0)`: folded from the left, so the
      last expense is added last. */
  function Sum(es: seq<Expense>): real
  {
    if es == [] then 0.0 else Sum(es[..|es| - 1]) + es[|es| - 1].amount
  }

  /** `filter(e => e.splitType === 'split')` */
  function SplitOnly(es: seq<Expense>): seq<Expense>
  {
    if es == [] then []
    else SplitOnly(es[..|es| - 1]) + (if IsSplit(es[|es| - 1]) then [es[|es| - 1]] else [])
  }

  /** The expenses the split filter drops: every split type other than "split". */
  function NonSplit(es: seq<Expense>): seq<Expense>
  {
    if es == [] then []
    else NonSplit(es[..|es| - 1]) + (if IsSplit(es[|es| - 1]) then [] else [es[|es| - 1]])
  }

  /** `filter(e => e.paidBy === id)` */
  function PaidBy(es: seq<Expense>, id: int): seq<Expense>
  {
    if es == [] then []
    else PaidBy(es[..|es| - 1], id) + (if es[|es| - 1].paidBy == id then [es[|es| - 1]] else [])
  }

  /** The expenses whose payer is one of `ids`. */
  function PaidByAny(es: seq<Expense>, ids: set<int>): seq<Expense>
  {
    if es == [] then []
    else PaidByAny(es[..|es| - 1], ids) + (if es[|es| - 1].paidBy in ids then [es[|es| - 1]] else [])
  }

  /** What a participant paid: split and individual expenses alike. */
  function AmountPaid(es: seq<Expense>, id: int): real
  {
    Sum(PaidBy(es, id))
  }

  /** The equal share of the split pool: `totalSplit / n`, or 0 when there is
      nobody to share it. */
  function Share(es: seq<Expense>, n: nat): (r: real)
    ensures n > 0 ==> n as real * r == Sum(SplitOnly(es))
    ensures n == 0 ==> r == 0.0
  {
    if n > 0 then Sum(SplitOnly(es)) / n as real else 0.0
  }

  /** The set of participant ids (the keys of every per-participant dictionary). */
  function Ids(ps: seq<Participant>): (r: set<int>)
    ensures forall i :: 0 <= i < |ps| ==> ps[i].id in r
  {
    if ps == [] then {} else Ids(ps[..|ps| - 1]) + {ps[|ps| - 1].id}
  }

  /** Every id in `Ids(ps)` is carried by some participant. */
  lemma {:induction false} IdsWitness(ps: seq<Participant>, id: int) returns (i: nat)
    requires id in Ids(ps)
    ensures i < |ps| && ps[i].id == id
  {
    if ps[|ps| - 1].id == id {
      i := |ps| - 1;
    } else {
      i := IdsWitness(ps[..|ps| - 1], id);
    }
  }

  /** The store gives every participant its own id. */
  predicate DistinctIds(ps: seq<Participant>)
  {
    forall i, j :: 0 <= i < j < |ps| ==> ps[i].id != ps[j].id
  }

  /** The name an id maps to once every participant has been written into a
      dictionary in order: the last participant carrying the id wins. */
  function NameOf(ps: seq<Participant>, id: int): (r: Option<string>)
    ensures r.Some? <==> id in Ids(ps)
  {
    if ps == [] then None
    else if ps[|ps| - 1].id == id then Some(ps[|ps| - 1].name)
    else NameOf(ps[..|ps| - 1], id)
  }

  /** The sum over `ps` of each participant's paid amount. */
  function SumPaid(es: seq<Expense>, ps: seq<Participant>): real
  {
    if ps == [] then 0.0 else SumPaid(es, ps[..|ps| - 1]) + AmountPaid(es, ps[|ps| - 1].id)
  }

  /** The sum over `ps` of each participant's balance, paid minus `share`. */
  function SumBalances(es: seq<Expense>, ps: seq<Participant>, share: real): real
  {
    if ps == [] then 0.0
    else SumBalances(es, ps[..|ps| - 1], share) + (AmountPaid(es, ps[|ps| - 1].id) - share)
  }

  lemma {:induction false} SumAppend(a: seq<Expense>, b: seq<Expense>)
    ensures Sum(a + b) == Sum(a) + Sum(b)
  {
    if b == [] {
      assert a + b == a;
    } else {
      assert (a + b)[..|a + b| - 1] == a + b[..|b| - 1];
      SumAppend(a, b[..|b| - 1]);
    }
  }

  /** Appending an expense adds its amount to its payer's paid amount and to
      nobody else's. */
  lemma {:induction false} AmountPaidStep(es: seq<Expense>, id: int)
    requires es != []
    ensures AmountPaid(es, id) ==
            AmountPaid(es[..|es| - 1], id) + (if es[|es| - 1].paidBy == id then es[|es| - 1].amount else 0.0)
  {
    var last := es[|es| - 1];
    SumAppend(PaidBy(es[..|es| - 1], id), if last.paidBy == id then [last] else []);
  }

  /** What an id paid is nothing when it paid none of the expenses, and the
      whole total when it paid all of them. */
  lemma {:induction false} AmountPaidExtremes(es: seq<Expense>, id: int)
    ensures (forall i :: 0 <= i < |es| ==> es[i].paidBy != id) ==> AmountPaid(es, id) == 0.0
    ensures (forall i :: 0 <= i < |es| ==> es[i].paidBy == id) ==> AmountPaid(es, id) == Sum(es)
  {
    if es != [] {
      var init := es[..|es| - 1];
      AmountPaidExtremes(init, id);
      AmountPaidStep(es, id);
      assert forall i :: 0 <= i < |init| ==> init[i] == es[i];
    }
  }

  /** The split filter keeps exactly the split expenses. */
  lemma {:induction false} SplitOnlyFilter(es: seq<Expense>)
    ensures |SplitOnly(es)| <= |es|
    ensures forall e :: e in SplitOnly(es) <==> e in es && IsSplit(e)
  {
    if es != [] {
      var init := es[..|es| - 1];
      SplitOnlyFilter(init);
      assert es == init + [es[|es| - 1]];
    }
  }

  /** Appending an expense adds its equal part to the share when it is split,
      and leaves the share alone otherwise. */
  lemma {:induction false} ShareStep(es: seq<Expense>, n: nat)
    requires es != [] && n > 0
    ensures Share(es, n) ==
            Share(es[..|es| - 1], n) + (if IsSplit(es[|es| - 1]) then es[|es| - 1].amount / n as real else 0.0)
  {
    var init, last := es[..|es| - 1], es[|es| - 1];
    var pool := Sum(SplitOnly(init));
    if IsSplit(last) {
      assert SplitOnly(es) == SplitOnly(init) + [last];
      SumAppend(SplitOnly(init), [last]);
      assert Sum(SplitOnly(es)) == pool + last.amount;
      assert (pool + last.amount) / n as real == pool / n as real + last.amount / n as real;
    } else {
      assert SplitOnly(es) == SplitOnly(init);
    }
  }

  /** The total is the split pool plus everything else. */
  lemma {:induction false} TotalSplitsByType(es: seq<Expense>)
    ensures Sum(es) == Sum(SplitOnly(es)) + Sum(NonSplit(es))
  {
    if es != [] {
      var init, last := es[..|es| - 1], es[|es| - 1];
      TotalSplitsByType(init);
      if IsSplit(last) {
        assert SplitOnly(es) == SplitOnly(init) + [last];
        assert NonSplit(es) == NonSplit(init);
        SumAppend(SplitOnly(init), [last]);
      } else {
        assert SplitOnly(es) == SplitOnly(init);
        assert NonSplit(es) == NonSplit(init) + [last];
        SumAppend(NonSplit(init), [last]);
      }
    }
  }

  lemma {:induction false} PaidByNobody(es: seq<Expense>)
    ensures Sum(PaidByAny(es, {})) == 0.0
  {
    if es != [] {
      PaidByNobody(es[..|es| - 1]);
      assert PaidByAny(es, {}) == PaidByAny(es[..|es| - 1], {});
    }
  }

  /** Adding one payer `x` to the set adds exactly what `x` paid. */
  lemma {:induction false} PaidByAnyInsert(es: seq<Expense>, ids: set<int>, x: int)
    requires x !in ids
    ensures Sum(PaidByAny(es, ids + {x})) == Sum(PaidByAny(es, ids)) + AmountPaid(es, x)
  {
    if es != [] {
      var init, last := es[..|es| - 1], es[|es| - 1];
      PaidByAnyInsert(init, ids, x);
      var inAll := if last.paidBy in ids + {x} then [last] else [];
      var inIds := if last.paidBy in ids then [last] else [];
      var byX := if last.paidBy == x then [last] else [];
      SumAppend(PaidByAny(init, ids + {x}), inAll);
      SumAppend(PaidByAny(init, ids), inIds);
      SumAppend(PaidBy(init, x), byX);
    }
  }

  /** When every payer is in `ids`, selecting by `ids` keeps every expense. */
  lemma {:induction false} PaidByAnyCovers(es: seq<Expense>, ids: set<int>)
    requires forall i :: 0 <= i < |es| ==> es[i].paidBy in ids
    ensures PaidByAny(es, ids) == es
  {
    if es != [] {
      PaidByAnyCovers(es[..|es| - 1], ids);
    }
  }

  /** With distinct ids, summing each participant's paid amount counts every
      expense paid by one of them exactly once. */
  lemma {:induction false} SumPaidIsPaidByAny(es: seq<Expense>, ps: seq<Participant>)
    requires DistinctIds(ps)
    ensures SumPaid(es, ps) == Sum(PaidByAny(es, Ids(ps)))
  {
    if ps == [] {
      PaidByNobody(es);
    } else {
      var init, last := ps[..|ps| - 1], ps[|ps| - 1];
      assert DistinctIds(init);
      if last.id in Ids(init) {
        var i := IdsWitness(init, last.id);
        assert false;
      }
      SumPaidIsPaidByAny(es, init);
      PaidByAnyInsert(es, Ids(init), last.id);
    }
  }

  lemma {:induction false} SumBalancesIsPaidLessShares(es: seq<Expense>, ps: seq<Participant>, share: real)
    ensures SumBalances(es, ps, share) == SumPaid(es, ps) - |ps| as real * share
  {
    if ps != [] {
      SumBalancesIsPaidLessShares(es, ps[..|ps| - 1], share);
    }
  }

  /** Conservation: when the participants are non-empty with distinct ids and
      every payer is one of them, the balances add up to the amount of the
      expenses that were not split. */
  lemma {:induction false} BalancesConserve(es: seq<Expense>, ps: seq<Participant>)
    requires |ps| > 0 && DistinctIds(ps)
    requires forall i :: 0 <= i < |es| ==> es[i].paidBy in Ids(ps)
    ensures SumBalances(es, ps, Share(es, |ps|)) == Sum(NonSplit(es))
  {
    var share := Share(es, |ps|);
    assert |ps| as real * share == Sum(SplitOnly(es));
    SumBalancesIsPaidLessShares(es, ps, share);
    SumPaidIsPaidByAny(es, ps);
    PaidByAnyCovers(es, Ids(ps));
    TotalSplitsByType(es);
  }
}
