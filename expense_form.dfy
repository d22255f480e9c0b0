/** The add/edit expense form: the values it starts with, and the guard and
    conversions it applies before handing a record to its `onSubmit`
    callback. */
module ExpenseForm {
  import opened Ledger

  /** The amount field: empty, or the number the input holds. */
  datatype AmountInput = Blank | Entered(value: real)

  /** The form state. `paidBy` is the text value of the payer selector, which
      offers `String(p.id)` for every participant. */
  datatype FormData = FormData(description: string, amount: AmountInput, date: Date, paidBy: string, splitType: string)

  /** The record passed to `onSubmit`. `paidBy` is `Number(formData.paidBy)`:
      None stands for NaN. */
  datatype Submission = Submission(description: string, amount: real, date: Date, paidBy: Option<int>,
                                   splitType: string, tripId: int)

  /** The initial form state: the edited expense's values, where they are
      truthy, or the defaults `''`, `''`, the current date, `''` and
      `'split'`. An amount or payer id of 0 and an empty split type are
      falsy and fall back to the default. */
  function InitialForm(editing: Option<Expense>, now: Date): (f: FormData)
    ensures editing.None? ==> f == FormData("", Blank, now, "", "split")
    ensures editing.Some? ==>
              && f.description == editing.value.description
              && f.date == editing.value.date
              && (editing.value.amount == 0.0 ==> f.amount == Blank)
              && (editing.value.amount != 0.0 ==> f.amount == Entered(editing.value.amount))
              && (editing.value.paidBy == 0 ==> f.paidBy == "")
              && (editing.value.paidBy != 0 ==> f.paidBy != "" && ParseNumber(f.paidBy) == Some(editing.value.paidBy))
              && (editing.value.splitType == "" ==> f.splitType == "split")
              && (editing.value.splitType != "" ==> f.splitType == editing.value.splitType)
  {
    match editing
    case None => FormData("", Blank, now, "", "split")
    case Some(e) =>
      IntRoundTrip(e.paidBy);
      FormData(e.description,
               if e.amount != 0.0 then Entered(e.amount) else Blank,
               e.date,
               if e.paidBy != 0 then IntToString(e.paidBy) else "",
               if e.splitType != "" then e.splitType else "split")
  }

  /** `handleSubmit`: nothing is submitted while the payer, the amount or the
      description is missing, and a zero amount counts as missing; the
      description is not trimmed. Otherwise the form's values go out with
      the amount and the payer as numbers and the trip id added. */
  function HandleSubmit(form: FormData, tripId: int): (r: Option<Submission>)
    ensures r.None? <==> form.paidBy == "" || form.amount in {Blank, Entered(0.0)} || form.description == ""
    ensures r.Some? ==>
              && r.value.description == form.description
              && Entered(r.value.amount) == form.amount
              && r.value.date == form.date
              && r.value.paidBy == ParseNumber(form.paidBy)
              && r.value.splitType == form.splitType
              && r.value.tripId == tripId
  {
    if form.paidBy == "" || !IsTruthy(form.amount) || form.description == "" then None
    else Some(Submission(form.description, form.amount.value, form.date, ParseNumber(form.paidBy), form.splitType, tripId))
  }

  predicate IsTruthy(a: AmountInput)
  {
    a.Entered? && a.value != 0.0
  }

  function DigitChar(d: nat): char
    requires d < 10
  {
    ('0' as int + d) as char
  }

  predicate IsDigit(c: char)
  {
    '0' <= c <= '9'
  }

  /** `String(n)` for a natural number: its decimal digits, without leading
      zeros (the text starts with `0` only for 0 itself). */
  function NatToString(n: nat): (s: string)
    ensures s != [] && forall i :: 0 <= i < |s| ==> IsDigit(s[i])
    ensures s[0] == '0' <==> n == 0
  {
    if n < 10 then [DigitChar(n)] else NatToString(n / 10) + [DigitChar(n % 10)]
  }

  /** `String(n)` for an integer: a minus sign for a negative number, then
      the digits of its magnitude with no leading zero. */
  function IntToString(n: int): (s: string)
    ensures s != []
    ensures s[0] == '-' <==> n < 0
    ensures var digits := if n < 0 then s[1..] else s;
      AllDigits(digits) && (digits[0] == '0' <==> n == 0)
  {
    if n < 0 then "-" + NatToString(-n) else NatToString(n)
  }

  /** The value of a string of decimal digits. */
  function DigitsValue(s: string): nat
    requires forall i :: 0 <= i < |s| ==> IsDigit(s[i])
  {
    if s == [] then 0
    else
      assert IsDigit(s[|s| - 1]);
      DigitsValue(s[..|s| - 1]) * 10 + (s[|s| - 1] as int - '0' as int)
  }

  predicate AllDigits(s: string)
  {
    s != [] && forall i :: 0 <= i < |s| ==> IsDigit(s[i])
  }

  /** `Number(text)` on decimal integer notation, an optional minus sign and
      at least one digit; any other text is NaN here. */
  function ParseNumber(s: string): (r: Option<int>)
    ensures r.Some? <==> AllDigits(s) || (s != [] && s[0] == '-' && AllDigits(s[1..]))
  {
    if AllDigits(s) then Some(DigitsValue(s) as int)
    else if s != [] && s[0] == '-' && AllDigits(s[1..]) then Some(-(DigitsValue(s[1..]) as int))
    else None
  }

  lemma {:induction false} NatRoundTrip(n: nat)
    ensures DigitsValue(NatToString(n)) == n
  {
    if n >= 10 {
      NatRoundTrip(n / 10);
      var s := NatToString(n);
      assert s[..|s| - 1] == NatToString(n / 10);
    }
  }

  /** `Number(String(n)) == n` for every integer. */
  lemma {:induction false} IntRoundTrip(n: int)
    ensures ParseNumber(IntToString(n)) == Some(n)
  {
    if n < 0 {
      NatRoundTrip(-n);
      var s := IntToString(n);
      assert s[1..] == NatToString(-n);
      assert !IsDigit(s[0]);
    } else {
      NatRoundTrip(n);
    }
  }

  /** Opening an expense for editing and submitting it unchanged gives back
      the same expense, with its payer id recovered from the selector's text,
      as long as none of its fields is falsy. */
  lemma {:induction false} ResubmitUnchanged(e: Expense, now: Date, tripId: int)
    requires e.description != "" && e.amount != 0.0 && e.paidBy != 0 && e.splitType != ""
    ensures HandleSubmit(InitialForm(Some(e), now), tripId) ==
            Some(Submission(e.description, e.amount, e.date, Some(e.paidBy), e.splitType, tripId))
  {
    IntRoundTrip(e.paidBy);
  }
}
