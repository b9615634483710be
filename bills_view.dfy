/** The bills screen's rules (src/components/Bills.jsx): which submissions
    become bills, the list order, and the due-soon flag and urgency label of
    each row. */
module BillsView {
  import opened JsValues
  import opened Text
  import opened Lists
  import opened Calculations
  import opened Records
  import opened Reminders

  // ----- The list -----

  /** The sort key of `sortByDueDate`: `new Date(value).getTime()`, with an
      empty or unparsable date as Infinity. `timestampOf` stands for the
      platform's parser (None for an Invalid Date). */
  function DueKey(bill: Bill, timestampOf: string -> Option<real>): (k: Key)
    ensures k.Infinite? <==> bill.dueDate == "" || timestampOf(bill.dueDate).None?
  {
    if bill.dueDate == "" then Infinite
    else match timestampOf(bill.dueDate)
      case None => Infinite
      case Some(t) => Finite(t)
  }

  /** `sortByDueDate(bills)`: a copy holding the same bills, earliest due
      first. */
  function SortByDueDate(bills: seq<Bill>, timestampOf: string -> Option<real>): (r: seq<Bill>)
    ensures multiset(r) == multiset(bills)
    ensures forall i, j :: 0 <= i < j < |r| ==> KeyLe(DueKey(r[i], timestampOf), DueKey(r[j], timestampOf))
  {
    SortBy(bills, (b: Bill) => DueKey(b, timestampOf))
  }

  /** Bills without a usable due date come after every dated bill. */
  lemma UndatedBillsComeLast(bills: seq<Bill>, timestampOf: string -> Option<real>, i: int, j: int)
    requires 0 <= i < |SortByDueDate(bills, timestampOf)| && 0 <= j < |SortByDueDate(bills, timestampOf)|
    requires DueKey(SortByDueDate(bills, timestampOf)[i], timestampOf).Infinite?
    requires DueKey(SortByDueDate(bills, timestampOf)[j], timestampOf).Finite?
    ensures j < i
  {
  }

  /** The row's "due soon" flag: `Number.isFinite(days) && days >= 0 && days <= 7`. */
  predicate DueSoon(bill: Bill, cal: Calendar) {
    var d := DaysUntil(bill.dueDate, cal);
    d.IsFinite() && 0 <= d.n <= 7
  }

  /** A row is flagged due soon exactly when the bill is among the upcoming
      bills of the reminders. */
  lemma DueSoonAgrees(bills: seq<Bill>, cal: Calendar, i: int)
    requires 0 <= i < |bills|
    ensures DueSoon(bills[i], cal) <==> bills[i] in GetUpcomingBills(bills, cal)
  {
    var up := GetUpcomingBills(bills, cal);
    if bills[i] in up {
      var k :| 0 <= k < |up| && up[k] == bills[i];
    }
  }

  /** The row's urgency icon: a flame when due soon, a warning when overdue,
      a check mark otherwise. */
  function UrgencyEmoji(d: DayCount): (e: string)
    ensures d.IsFinite() && 0 <= d.n <= 7 ==> e == "\U{1F525}"
    ensures d.IsPast() ==> e == "\U{26A0}\U{FE0F}"
    ensures !d.IsFinite() || d.n > 7 ==> e == "\U{2705}"
  {
    if d.IsFinite() && 0 <= d.n <= 7 then "\U{1F525}"
    else if d.IsPast() then "\U{26A0}\U{FE0F}"
    else "\U{2705}"
  }

  /** The row's urgency label. */
  function UrgencyLabel(d: DayCount): (s: string)
    ensures d.Day? && d.n > 0 ==>
              s == "Due in " + NatToString(d.n) + (if d.n == 1 then " day" else " days")
    ensures d.Day? && d.n == 0 ==> s == "Due today"
    ensures d.Day? && d.n < 0 ==> s == NatToString(-d.n) + " days past due"
    ensures !d.Day? ==> s == "Due date not set"
  {
    match d
    case Day(n) =>
      if n > 0 then "Due in " + IntToString(n) + (if n == 1 then " day" else " days")
      else if n == 0 then "Due today"
      else IntToString(-n) + " days past due"
    case _ => "Due date not set"
  }

  /** A due date that does not parse reads "Due date not set" with a check
      mark, like a bill that has no due date at all. */
  lemma UnparsableLooksUnset(bill: Bill, cal: Calendar)
    requires bill.dueDate != "" && cal.dayOf(bill.dueDate).None?
    ensures UrgencyLabel(DaysUntil(bill.dueDate, cal)) == UrgencyLabel(Missing) == "Due date not set"
    ensures UrgencyEmoji(DaysUntil(bill.dueDate, cal)) == UrgencyEmoji(Missing) == "\U{2705}"
  {
  }

  /** A string of digits before a space can be read back from the front. */
  lemma SplitAtSpace(x: string, y: string, t1: string, t2: string)
    requires AllDigits(x) && AllDigits(y)
    requires x + " " + t1 == y + " " + t2
    ensures x == y
  {
    var whole := x + " " + t1;
    assert whole[|x|] == ' ' && x == whole[..|x|];
    assert whole[|y|] == ' ' && y == whole[..|y|];
  }

  /** Labels of future dates start "Due in", the label of today is "Due
      today", and labels of past dates start with a digit. */
  lemma LabelShape(n: int)
    ensures |UrgencyLabel(Day(n))| > 4
    ensures n >= 0 <==> UrgencyLabel(Day(n))[0] == 'D'
    ensures n >= 0 ==> (n > 0 <==> UrgencyLabel(Day(n))[4] == 'i')
  {
    var s := UrgencyLabel(Day(n));
    if n < 0 {
      var digits := NatToString(-n);
      assert s == digits + " days past due";
      assert s[0] == digits[0];
    } else if n > 0 {
      var rest := NatToString(n) + (if n == 1 then " day" else " days");
      assert s == "Due in " + rest;
      assert s[0] == 'D' && s[4] == 'i';
    }
  }

  /** Different future day counts never share a label. */
  lemma FutureLabelInjective(a: int, b: int)
    requires a > 0 && b > 0
    requires UrgencyLabel(Day(a)) == UrgencyLabel(Day(b))
    ensures a == b
  {
    var la := UrgencyLabel(Day(a));
    var pre := "Due in ";
    var ta := if a == 1 then "day" else "days";
    var tb := if b == 1 then "day" else "days";
    assert la == pre + (NatToString(a) + " " + ta);
    assert la == pre + (NatToString(b) + " " + tb);
    assert NatToString(a) + " " + ta == la[|pre|..] == NatToString(b) + " " + tb;
    SplitAtSpace(NatToString(a), NatToString(b), ta, tb);
    NatToStringInjective(a, b);
  }

  /** Different numbers of days past due never share a label. */
  lemma PastLabelInjective(x: nat, y: nat)
    requires NatToString(x) + " days past due" == NatToString(y) + " days past due"
    ensures x == y
  {
    SameSuffix(NatToString(x), NatToString(y), " days past due");
    NatToStringInjective(x, y);
  }

  /** Different day counts never share a label. */
  lemma UrgencyLabelInjective(a: int, b: int)
    requires UrgencyLabel(Day(a)) == UrgencyLabel(Day(b))
    ensures a == b
  {
    LabelShape(a);
    LabelShape(b);
    if a > 0 && b > 0 {
      FutureLabelInjective(a, b);
    } else if a < 0 && b < 0 {
      PastLabelInjective(-a, -b);
    }
  }

  // ----- The form -----

  /** The form's fields; `amount` holds what `Number(...)` makes of the text. */
  datatype BillForm = BillForm(
    id: Option<string>,
    name: string,
    amount: JsNum,
    dueDate: string,
    recurring: bool,
    lastPaidDate: Option<string>,
    createdAt: Option<string>)

  const NameRequired := "Name is required."
  const DueDateRequired := "Due date is required."
  const AmountInvalid := "Amount must be a positive number."

  /** `handleSubmit`: the guards in order, then the payload. */
  function SubmitBill(form: BillForm, newId: string, now: string): (s: Submission<Bill>)
    ensures s == Rejected(NameRequired) <==> Trim(form.name) == ""
    ensures s == Rejected(DueDateRequired) <==> Trim(form.name) != "" && form.dueDate == ""
    ensures s == Rejected(AmountInvalid) <==>
              && Trim(form.name) != "" && form.dueDate != ""
              && (!form.amount.IsFinite() || form.amount.r < 0.0)
    ensures s.Accepted? <==>
              Trim(form.name) != "" && form.dueDate != "" && form.amount.IsFinite() && form.amount.r >= 0.0
    ensures s.Accepted? ==>
              && s.payload.id == form.id.GetOr(newId)
              && s.payload.name == Trim(form.name) && s.payload.name != ""
              && s.payload.amount == form.amount && s.payload.amount.IsFinite() && s.payload.amount.r >= 0.0
              && s.payload.dueDate == form.dueDate && s.payload.dueDate != ""
              && s.payload.recurring == form.recurring
              && s.payload.lastPaidDate == form.lastPaidDate
              && s.payload.createdAt == (if Truthy(form.id) then form.createdAt else Some(now))
              && s.payload.updatedAt == Some(now)
  {
    if Trim(form.name) == "" then Rejected(NameRequired)
    else if form.dueDate == "" then Rejected(DueDateRequired)
    else if !form.amount.IsFinite() || form.amount.r < 0.0 then Rejected(AmountInvalid)
    else
      Accepted(Bill(
        form.id.GetOr(newId),
        Trim(form.name),
        form.amount,
        form.dueDate,
        form.recurring,
        form.lastPaidDate,
        if Truthy(form.id) then form.createdAt else Some(now),
        Some(now)))
  }

  /** A bill of zero is accepted, although the message speaks of a positive
      amount. */
  lemma ZeroAmountAccepted(name: string, dueDate: string, newId: string, now: string)
    requires Trim(name) != "" && dueDate != ""
    ensures SubmitBill(BillForm(None, name, Fin(0.0), dueDate, false, None, None), newId, now).Accepted?
  {
  }

  /** `handleEdit(bill)`: the form filled from a stored bill, its due date cut
      to the first ten characters (the calendar date). */
  function EditBillForm(bill: Bill): (f: BillForm)
    ensures f.id == Some(bill.id) && f.name == bill.name && f.amount == bill.amount
    ensures |f.dueDate| == Min(|bill.dueDate|, 10) && f.dueDate == bill.dueDate[..|f.dueDate|]
    ensures f.recurring == bill.recurring && f.lastPaidDate == bill.lastPaidDate && f.createdAt == bill.createdAt
  {
    BillForm(Some(bill.id), bill.name, bill.amount, if bill.dueDate != "" then Take(bill.dueDate, 10) else "",
             bill.recurring, bill.lastPaidDate, bill.createdAt)
  }

  /** What a stored bill looks like when it came from the form. */
  predicate WellFormed(bill: Bill) {
    && bill.id != ""
    && bill.name != "" && Trim(bill.name) == bill.name
    && bill.dueDate != ""
    && bill.amount.IsFinite() && bill.amount.r >= 0.0
  }

  /** Every accepted submission is well formed. */
  lemma AcceptedIsWellFormed(form: BillForm, newId: string, now: string)
    requires form.id.Some? ==> form.id.value != ""
    requires newId != ""
    requires SubmitBill(form, newId, now).Accepted?
    ensures WellFormed(SubmitBill(form, newId, now).payload)
  {
    var p := SubmitBill(form, newId, now).payload;
    assert p.name == Trim(form.name);
    TrimIdempotent(form.name);
    assert Trim(p.name) == p.name;
  }

  /** Editing a well-formed bill and submitting the form unchanged keeps the
      bill, except that the due date is cut to ten characters and the update
      time is renewed. */
  lemma EditThenSubmit(bill: Bill, newId: string, now: string)
    requires WellFormed(bill)
    ensures SubmitBill(EditBillForm(bill), newId, now)
            == Accepted(bill.(dueDate := Take(bill.dueDate, 10), updatedAt := Some(now)))
  {
    var form := EditBillForm(bill);
    assert Truthy(form.id) && form.dueDate != "";
  }
}
