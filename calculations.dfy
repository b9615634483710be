/** Time and quantity helpers (src/utils/calculations.js): how many days a
    supply lasts, and how many whole days remain until a due date. */
module Calculations {
  import opened JsValues

  /** What `calculateDaysLeft` returns: a number of days, or Infinity. */
  datatype DaysLeft = Days(days: real) | Unlimited

  /** `Math.round(x * 10) / 10` */
  function RoundToTenth(x: real): (r: real)
    ensures x - 0.05 < r <= x + 0.05
    ensures (r * 10.0).Floor as real == r * 10.0
    ensures x >= 0.0 ==> r >= 0.0
  {
    Round(x * 10.0) as real / 10.0
  }

  /** `calculateDaysLeft(quantity, dailyUsage)`. The quantity is checked
      first: an unusable quantity gives 0 whatever the usage; an unusable
      usage then gives Infinity; otherwise the ratio to the nearest tenth. */
  function CalculateDaysLeft(quantity: JsNum, dailyUsage: JsNum): (r: DaysLeft)
    ensures (!quantity.IsFinite() || quantity.r < 0.0) ==> r == Days(0.0)
    ensures quantity.IsFinite() && quantity.r >= 0.0 && (!dailyUsage.IsFinite() || dailyUsage.r <= 0.0)
            ==> r == Unlimited
    ensures quantity.IsFinite() && quantity.r >= 0.0 && dailyUsage.IsFinite() && dailyUsage.r > 0.0
            ==> r.Days? && r.days >= 0.0
                && quantity.r / dailyUsage.r - 0.05 < r.days <= quantity.r / dailyUsage.r + 0.05
                && (r.days * 10.0).Floor as real == r.days * 10.0
    ensures r.Days? ==> r.days >= 0.0
  {
    if !quantity.IsFinite() || quantity.r < 0.0 then Days(0.0)
    else if !dailyUsage.IsFinite() || dailyUsage.r <= 0.0 then Unlimited
    else Days(RoundToTenth(quantity.r / dailyUsage.r))
  }

  /** The boundary cases listed for the helper. */
  lemma DaysLeftExamples()
    ensures CalculateDaysLeft(Fin(10.0), Fin(0.0)) == Unlimited
    ensures CalculateDaysLeft(Fin(-5.0), Fin(0.0)) == Days(0.0)
    ensures CalculateDaysLeft(Fin(-5.0), Fin(2.0)) == Days(0.0)
    ensures CalculateDaysLeft(Fin(10.0), Fin(5.0)) == Days(2.0)
  {
    assert Round(2.0 * 10.0) == 20;
  }

  /** "Today" and the platform's date parser. `dayOf(text)` stands for
      `new Date(text)` moved to local midnight, as a day number, or None when
      the text is an Invalid Date. */
  datatype Calendar = Calendar(today: int, dayOf: string -> Option<int>)

  /** What `daysUntil` returns: Infinity, NaN, or a whole number of days. */
  datatype DayCount = Missing | Invalid | Day(n: int) {
    /** `Number.isFinite(days)` */
    predicate IsFinite() { Day? }
    /** `days < 0` */
    predicate IsPast() { Day? && n < 0 }
    /** `days >= 0` (true for Infinity, false for NaN) */
    predicate NotPast() { Missing? || (Day? && n >= 0) }
  }

  /** `daysUntil(dateString)`: an absent or empty date is Infinity, a date
      that does not parse is NaN, otherwise the difference in whole days
      between today's midnight and the target's midnight. */
  function DaysUntil(dateText: string, cal: Calendar): (r: DayCount)
    ensures dateText == "" <==> r == Missing
    ensures r == Invalid <==> dateText != "" && cal.dayOf(dateText) == None
    ensures r.Day? ==> cal.dayOf(dateText) == Some(cal.today + r.n)
    ensures r.Day? ==> (r.n == 0 <==> cal.dayOf(dateText) == Some(cal.today))
  {
    if dateText == "" then Missing
    else match cal.dayOf(dateText)
      case None => Invalid
      case Some(d) => Day(d - cal.today)
  }

  /** A date that does not parse is neither in the past nor not in the past:
      every comparison with NaN is false. */
  lemma InvalidDateComparesFalse(dateText: string, cal: Calendar)
    requires dateText != "" && cal.dayOf(dateText) == None
    ensures !DaysUntil(dateText, cal).IsFinite()
    ensures !DaysUntil(dateText, cal).IsPast() && !DaysUntil(dateText, cal).NotPast()
  {
  }
}
