# Life Infrastructure Tracker: a verified model of the household rules engine

The Life Infrastructure Tracker is a browser application. A household uses it
to track essential supplies (quantity, daily usage, storage location), bills
(amount, due date, payments) and personal goals. A small rules engine turns
that activity into points, levels, badges, a daily "prepared" streak and a
household health score. It also sends at most one reminder notification a
day, about low supplies and bills that are coming up.

This project models the core of the application in Dafny:

* `js.dfy` (module `JsValues`): JavaScript values. Optional fields are
  `Option`. Numbers are exact reals plus `+Infinity`, `-Infinity` and `NaN`.
  `Math.round` is modelled with its halves-up rule.
* `text.dfy` (`Text`): `String.prototype.trim`, `Array.prototype.join`, and
  the decimal rendering of integers in template literals.
* `lists.dfy` (`Lists`): `filter`, a stable sort of a copy by a numeric key
  with `+Infinity` last, and `slice(0, n)`.
* `calculations.dfy` (`Calculations`): `calculateDaysLeft` and `daysUntil`.
  Dates are day numbers, and today is passed in.
* `records.dfy` (`Records`): the stored inventory items and bills, and the
  outcome of a form submission.
* `reminders.dfy` (`Reminders`): the low-supply and upcoming-bill filters and
  the notification text. It also holds the reminder check, as a
  `ReminderDispatcher` class whose `lastReminderDay` field is the persisted
  date of the last reminder.
* `gamification.dfy` (`Gamification`): the gamification record and its pure
  transitions (awards, history, badges, streak, levels), and the household
  health score. It also proves the engine invariants: level matches points,
  `best >= current`, the history cap, and no repeated badges. Points, badges
  and counters never go back.
* `household.dfy` (`Household`): the host application state. A
  `HouseholdApp` class holds the inventory, the bills and the gamification
  record. It has one method per handler, and each handler is followed by the
  badge-and-streak effect that a change of list triggers. The module also
  has the pure list updates by id, loading, and restoring the saved record.
* `inventory_view.dfy`, `bills_view.dfy`, `goals.dfy` (`InventoryView`,
  `BillsView`, `Goals`): the screens' rules. These cover form validation and
  the record a valid form produces, editing, sort orders, the row flags and
  labels, the location and category lookups, and goal progress statistics.

The clock, the id source, the platform's date parser and the browser's
notification facility are parameters:

* a `Stamp` (history entry id and timestamp);
* `now`, `newId` and `paidAt` strings;
* a `Calendar(today, dayOf)`;
* a `NotificationHost`.

## Model

| member | source | states |
|---|---|---|
| JsValues.Round | src/utils/gamification.js:48 | `Math.round` gives an integer within one half of its argument, rounding halves up |
| JsValues.DivPositive | src/utils/gamification.js:162 | division by a positive divisor: an exact quotient for finite operands; 0 for a finite value over +Infinity; NaN for NaN; never negative for a non-negative dividend |
| Text.Trim | src/components/Inventory.jsx:56 | `trim()` returns the slice of its input with only white space around it, neither starting nor ending with white space |
| Text.TrimEmptyIffAllSpace | src/components/Inventory.jsx:56 | a trimmed name is empty exactly when the name is all white space |
| Text.TrimIdempotent | src/components/Inventory.jsx:76 | trimming a trimmed name changes nothing |
| Text.JoinContainsEachPart | src/utils/reminders.js:22-38 | every joined part appears unchanged in the joined text |
| Text.NatToString | src/components/Bills.jsx:221 | a day count renders as a non-empty string of decimal digits without a leading zero |
| Text.ParseNatToString | src/components/Bills.jsx:221 | reading the rendered digits back gives the number |
| Text.NatToStringInjective | src/components/Bills.jsx:221 | different numbers render differently |
| Text.IntToString | src/utils/gamification.js:209 | `${n}` prints the decimal digits of a non-negative integer, and a minus sign before the digits of a negative one |
| Text.IntToStringInjective | src/utils/gamification.js:209 | different integers print differently |
| Lists.Filter | src/utils/reminders.js:12 | `filter` keeps exactly the elements that pass, as an order-preserving subsequence |
| Lists.FilterMultiplicity | src/utils/reminders.js:12 | `filter` keeps every copy of an element that passes and no copy of one that fails |
| Lists.FilterAppend | src/App.jsx:146 | filtering a concatenation is concatenating the filtered parts |
| Lists.Insert | src/components/Inventory.jsx:22-26 | inserting into a sorted list gives a sorted list with one more element, the same elements plus the new one |
| Lists.SortBy | src/components/Inventory.jsx:21-27 | the sorted copy is a permutation of the input, ordered by non-decreasing key with +Infinity last |
| Lists.Take | src/utils/gamification.js:74 | `slice(0, n)` is the prefix of length `min(|s|, n)` |
| Calculations.RoundToTenth | src/utils/calculations.js:6 | the result is a multiple of 0.1 within 0.05 of the input, and is non-negative for non-negative input |
| Calculations.CalculateDaysLeft | src/utils/calculations.js:1-7 | gives 0 for a non-finite or negative quantity, checked before the usage; Infinity for a non-finite or non-positive usage; otherwise the ratio to the nearest tenth, never negative |
| Calculations.DaysLeftExamples | src/utils/calculations.js:4-6 | (10, 0) gives Infinity; (-5, 0) and (-5, 2) give 0; (10, 5) gives 2 |
| Calculations.DaysUntil | src/utils/calculations.js:9-15 | an empty date gives Infinity and an unparsable one NaN; otherwise the whole-day difference from today, 0 exactly for today |
| Calculations.InvalidDateComparesFalse | src/utils/calculations.js:12-14 | the NaN of an unparsable date is not finite, not below 0 and not at least 0 |
| Reminders.GetLowInventoryItems | src/utils/reminders.js:11-13 | exactly the items with fewer than 3 days left, every copy of each, in input order |
| Reminders.LowItemEdges | src/utils/reminders.js:12 | an item with unlimited days is never low; one with a negative or non-numeric quantity is always low |
| Reminders.GetUpcomingBills | src/utils/reminders.js:15-20 | exactly the bills due in 0..7 days, every copy of each, in input order; overdue, undated and unparsable bills are left out |
| Reminders.ItemLabel | src/utils/reminders.js:26-29 | an item's name gets " (location)" only when it has a non-empty location |
| Reminders.CreateReminderMessage | src/utils/reminders.js:22-38 | the text is empty exactly when both lists are; otherwise the supplies part comes first and the bills part second, joined by " \| " |
| Reminders.MessageMentionsEverything | src/utils/reminders.js:22-38 | every low item's label and every upcoming bill's name occurs in the text |
| Reminders.Decide | src/utils/reminders.js:40-78 | it stops when notifications are unsupported or not granted; an unanswered permission is requested and, on a grant, the check reruns with the request skipped; there is no dispatch when a reminder went out today or nothing is due; otherwise the message, which is never empty, is dispatched whenever the host can show it; each outcome holds exactly in its own case, so a failed dispatch happens only when a dispatch was attempted |
| Reminders.ReminderDispatcher.constructor | src/utils/reminders.js:58 | the dispatcher starts from the stored last-reminder day |
| Reminders.ReminderDispatcher.CheckAndNotify | src/utils/reminders.js:40-78 | the outcome is the decision above; the day is stored only after a successful dispatch, so at most one reminder goes out a day |
| Gamification.PointReward | src/utils/gamification.js:4-9 | each listed reward type earns a fixed positive number of points; any other type earns none |
| Gamification.FindReachedTier | src/utils/gamification.js:37 | the reversed search finds the highest tier whose minimum is reached, or none |
| Gamification.LevelForPoints | src/utils/gamification.js:36-39 | for non-negative points, the name of the tier whose range holds them; for negative points, the first tier |
| Gamification.TierUnique | src/utils/gamification.js:11-16 | the thresholds increase, so at most one tier's range holds a point total |
| Gamification.FindProgressTier | src/utils/gamification.js:213-216 | the first tier whose range holds the points, or else the last tier |
| Gamification.GetLevelProgress | src/utils/gamification.js:212-236 | at the top tier: progress 100, "Max level" and no threshold; below it, the points are under the next threshold and the progress is at most 100 |
| Gamification.LevelProgressAgrees | src/utils/gamification.js:212-236 | for non-negative points the panel names the same level as `getLevelForPoints`, and progress lies in 0..100 |
| Gamification.TopLevelIsFull | src/utils/gamification.js:219-226 | from 900 points on: "Platinum Protector", 100, "Max level", no threshold |
| Gamification.NegativePointsDisagree | src/utils/gamification.js:213-216 | for negative points the panel shows the top level while `getLevelForPoints` gives the first |
| Gamification.InitialIsConsistent | src/utils/gamification.js:18-34 | the initial record satisfies the engine invariants |
| Gamification.AppendHistory | src/utils/gamification.js:69-76 | the new entry comes first, followed by a prefix of the old history; the length is `min(old + 1, 25)` and nothing else changes |
| Gamification.ResolveDelta | src/utils/gamification.js:79 | the explicit amount if given, otherwise the reward table's value, otherwise 0 |
| Gamification.AwardPoints | src/utils/gamification.js:78-95 | a zero delta returns the state unchanged; otherwise points grow by exactly the delta, the level follows the points, and one history entry of that type and delta is added |
| Gamification.RegisterInventoryEvent | src/utils/gamification.js:97-121 | a new item earns 10 points and adds one tracked essential; a restock earns 6 and leaves the counters alone; either way one history entry is added |
| Gamification.RegisterBillPaid | src/utils/gamification.js:123-141 | a late payment returns the state as is; an on-time one earns 15 points and adds one to the on-time payments |
| Gamification.RegisterReminderResponse | src/utils/gamification.js:143-152 | earns 8 points and records when the reminder was acknowledged |
| Gamification.Dedup | src/utils/gamification.js:155 | a set built from the badge list holds the same badges without repeats, and leaves a list without repeats as it is |
| Gamification.AddIf | src/utils/gamification.js:157-171 | adding a badge to the set extends the list, and only when the badge was earned |
| Gamification.EvaluateBadges | src/utils/gamification.js:154-174 | the badges only grow, keep their order and have no repeats; exactly the badges whose rules hold are added; nothing else changes |
| Gamification.EvaluateBadgesIdempotent | src/utils/gamification.js:154-174 | evaluating the badges twice is the same as once |
| Gamification.RoundedTwoIsNotEnough | src/utils/gamification.js:161-164 | an item whose rounded days are 2.0 can still miss "Preparedness Pro", which compares the unrounded ratio with 2 |
| Gamification.UpdateStreak | src/utils/gamification.js:176-205 | on an already evaluated day it is the identity; otherwise the streak resets on issues and grows by one without them, `best` is the running maximum, the prepared-days counter follows, and the day is recorded |
| Gamification.StreakOncePerDay | src/utils/gamification.js:181-183 | a second update on the same day changes nothing |
| Gamification.GetStreakMessage | src/utils/gamification.js:207-210 | the start message when there is no streak, otherwise the streak length between the fixed lead and tail |
| Gamification.StreakMessageInjective | src/utils/gamification.js:207-210 | different streak lengths never give the same message |
| Gamification.OverdueBills | src/utils/gamification.js:43 | exactly the bills whose due date is in the past, every copy of each, in input order |
| Gamification.HealthFor | src/utils/gamification.js:45-66 | score = max(0, 100 - 12 * low - 18 * overdue) in 0..100; "danger" below 35, "watch" below 70, "secure" otherwise, and the matching colour |
| Gamification.CalculateHouseholdHealth | src/utils/gamification.js:41-67 | the same score, status and colour class, computed from the low items and overdue bills |
| Gamification.HealthScenario | src/utils/gamification.js:45-55 | two low items and one overdue bill give 58, "watch" |
| Gamification.HealthMonotone | src/utils/gamification.js:45-48 | more low items or overdue bills never raise the score |
| Gamification.ApplyKeepsConsistent | src/utils/gamification.js:97-205 | every engine call keeps the invariants; points, badges and counters never go back |
| Gamification.RunKeepsConsistent | src/utils/gamification.js:97-205 | so does any sequence of engine calls |
| Gamification.LevelAt45 | src/utils/gamification.js:36-39 | 45 points are still "Bronze Caretaker" |
| Gamification.ThreePaymentsEarnUtilityMaster | src/utils/gamification.js:123-159 | three on-time payments from the initial state, then a badge check, give 45 points, the first level, three history entries and "Utility Master" |
| Household.ReplaceById | src/App.jsx:131 | same length; every record with the id is replaced, every other record is kept in place |
| Household.UpsertById | src/App.jsx:129-132 | an existing id is replaced in place; a new id is appended at the end |
| Household.DeleteById | src/App.jsx:146 | every record with the id is removed and every copy of every other record is kept, in order; a missing id changes nothing |
| Household.DeleteUndoesAdd | src/App.jsx:129-146 | deleting a record that was just added restores the list |
| Household.UpsertIdempotent | src/App.jsx:129-132 | upserting the same record twice is the same as once |
| Household.FindById | src/App.jsx:182 | `find` returns the first record with the id, and finds one exactly when one exists |
| Household.NormalizeInventory | src/App.jsx:55-60 | same length; a missing location becomes "pantry" and nothing else changes |
| Household.NormalizeIdempotent | src/App.jsx:55-60 | normalizing twice is normalizing once |
| Household.RestoreGamification | src/App.jsx:75-78 | each stored key replaces the initial value; each missing key keeps it |
| Household.SaveRestoreRoundTrip | src/App.jsx:75-94 | restoring a saved record gives it back |
| Household.StreakEffect | src/App.jsx:121-125 | the badges are exactly those `evaluateBadges` gives for the new lists; on a day already evaluated the streak and counters are unchanged; otherwise the streak resets on an issue (a low item or an overdue bill) and grows by one without one, `best` is the running maximum, and the prepared-days counter follows; points, level, history and acknowledgement are unchanged |
| Household.MarkPaid | src/App.jsx:173-180 | only the bills with the id change, and only their last-paid date |
| Household.FindAfterMarkPaid | src/App.jsx:173-182 | after the payment, the lookup finds the same bill with its new last-paid date |
| Household.OnTimeAfterPayment | src/App.jsx:182-183 | a payment is on time exactly when the bill existed and was on time; a missing bill earns nothing |
| Household.OnTimeMeaning | src/App.jsx:183 | on time means a due date is set and parses to today or later |
| Household.ItemAward | src/App.jsx:134-138 | the upsert earns 6 points for an existing id and 10 for a new one |
| Household.PaymentAward | src/App.jsx:182-189 | the payment earns 15 points and one on-time payment exactly when it is on time |
| Household.StreakEffectAdvances | src/App.jsx:121-125 | the effect keeps the engine invariants and never goes back |
| Household.ItemAwardAdvances | src/App.jsx:134-138 | so does the upsert's award |
| Household.PaymentAwardAdvances | src/App.jsx:185-189 | so does the payment's award |
| Household.ReminderResponseAdvances | src/App.jsx:251-253 | so does acknowledging a reminder |
| Household.CheckThenEffectAdvances | src/App.jsx:144-169 | so does a badge check followed by the effect |
| Household.HouseholdApp.constructor | src/App.jsx:62-78 | loads normalized items, the bills and the restored record, then runs the effect once; a fresh record is consistent |
| Household.HouseholdApp.UpsertItem | src/App.jsx:127-142 | the inventory is upserted, the award and effect applied, points grow by 6 or 10, and the invariants are kept |
| Household.HouseholdApp.DeleteItem | src/App.jsx:144-150 | the item is deleted, badges are rechecked, the effect is applied and points do not change |
| Household.HouseholdApp.UpsertBill | src/App.jsx:152-161 | the bill is upserted, badges are rechecked, the effect is applied and points do not change |
| Household.HouseholdApp.DeleteBill | src/App.jsx:163-169 | the bill is deleted, badges are rechecked, the effect is applied and points do not change |
| Household.HouseholdApp.MarkBillPaid | src/App.jsx:171-193 | the bill is marked paid and points grow by 15 exactly when the payment was on time |
| Household.HouseholdApp.AcknowledgeReminder | src/App.jsx:251-253 | earns 8 points; the lists are unchanged |
| Household.HouseholdApp.RequestPermission | src/App.jsx:199-216 | without notification support it returns before prompting and nothing changes; the prompt resolves with the user's answer while the permission is undecided and with the standing permission otherwise; on a grant the reminder check runs with the request skipped and the response earns its points, so every click while the permission is granted earns another 8 points; a denied permission or any other answer changes nothing |
| InventoryView.FindLocation | src/components/Inventory.jsx:31 | the option with the value, if any |
| InventoryView.GetLocationDisplay | src/components/Inventory.jsx:29-33 | "Unassigned" for an empty location, the icon and label for a known one, the raw value otherwise |
| InventoryView.KnownLocationDisplay | src/components/Inventory.jsx:29-33 | "fridge" shows the fridge icon and "Fridge" |
| InventoryView.UnknownLocationDisplay | src/components/Inventory.jsx:32 | an unknown location is shown raw after the "other" icon |
| InventoryView.EmptyLocationDisplay | src/components/Inventory.jsx:30 | an empty location reads like a missing one |
| InventoryView.DaysKey | src/components/Inventory.jsx:23-25 | the key is infinite exactly when the supply is unlimited |
| InventoryView.SortByDaysLeft | src/components/Inventory.jsx:21-27 | a permutation of the items, ordered by non-decreasing days left |
| InventoryView.LowItemsComeFirst | src/components/Inventory.jsx:21-27 | in the sorted list every low item comes before every item that is not low |
| InventoryView.RowEmoji | src/components/Inventory.jsx:216-218 | a warning icon exactly for a low row, a check mark otherwise |
| InventoryView.RowFlagAgrees | src/components/Inventory.jsx:216-217 | a row is flagged exactly when the item is among the low items |
| InventoryView.SubmitItem | src/components/Inventory.jsx:53-87 | rejects a blank name, then a bad quantity, then a non-positive usage, each with its message; a form passing all three is accepted, and the payload has a trimmed name and unit, the location or "other", and the id and creation time kept when editing |
| InventoryView.EditItemForm | src/components/Inventory.jsx:89-100 | the form is filled from the item; a missing location becomes "other" |
| InventoryView.AcceptedIsWellFormed | src/components/Inventory.jsx:56-83 | every accepted item has an id, a trimmed non-empty name, valid numbers and a location |
| InventoryView.EditThenSubmit | src/components/Inventory.jsx:74-98 | editing a well-formed item and submitting it unchanged renews only its update time |
| InventoryView.LocationDefaultsDiffer | src/components/Inventory.jsx:80 | a form without a location stores "other" (loading uses "pantry") |
| BillsView.DueKey | src/components/Bills.jsx:15-19 | the key is infinite exactly for an empty or unparsable due date |
| BillsView.SortByDueDate | src/components/Bills.jsx:14-21 | a permutation of the bills, ordered by due time |
| BillsView.UndatedBillsComeLast | src/components/Bills.jsx:14-21 | bills without a usable due date come after every dated bill |
| BillsView.DueSoonAgrees | src/components/Bills.jsx:194-195 | a row is due soon exactly when the bill is among the upcoming bills |
| BillsView.UrgencyEmoji | src/components/Bills.jsx:196 | a flame when due soon, a warning when overdue, a check mark otherwise |
| BillsView.UrgencyLabel | src/components/Bills.jsx:219-225 | "Due in N day(s)", "Due today", "N days past due", or "Due date not set" |
| BillsView.UnparsableLooksUnset | src/components/Bills.jsx:194-225 | an unparsable due date looks like an unset one |
| BillsView.LabelShape | src/components/Bills.jsx:219-225 | labels of future dates start "Due in", the label of today is "Due today", and past labels start with a digit |
| BillsView.FutureLabelInjective | src/components/Bills.jsx:221 | different future day counts have different labels |
| BillsView.PastLabelInjective | src/components/Bills.jsx:224 | different past day counts have different labels |
| BillsView.UrgencyLabelInjective | src/components/Bills.jsx:219-225 | different day counts never share a label |
| BillsView.SubmitBill | src/components/Bills.jsx:50-82 | rejects a blank name, then a missing due date, then a bad amount; a form passing all three is accepted, and the payload keeps the amount, due date, recurrence and last-paid date, and the id and creation time when editing |
| BillsView.ZeroAmountAccepted | src/components/Bills.jsx:63-67 | an amount of 0 is accepted |
| BillsView.EditBillForm | src/components/Bills.jsx:84-95 | the form is filled from the bill, its due date cut to ten characters |
| BillsView.AcceptedIsWellFormed | src/components/Bills.jsx:53-78 | every accepted bill has an id, a trimmed non-empty name, a due date and a valid amount |
| BillsView.EditThenSubmit | src/components/Bills.jsx:69-93 | editing and resubmitting a well-formed bill gives it back with its due date cut to ten characters and its update time renewed |
| Goals.FindCategory | src/components/Goals.jsx:27 | the option with the value, if any |
| Goals.GetCategoryMeta | src/components/Goals.jsx:26-28 | the option with the value, or the last option for an unknown one |
| Goals.UnknownCategoryIsCustom | src/components/Goals.jsx:26-28 | an unknown category is "Custom"; "reading" is "Reading" |
| Goals.ClampedRatio | src/components/Goals.jsx:36 | progress over target, clamped to 0..1, NaN only for a NaN progress |
| Goals.GetProgressStats | src/components/Goals.jsx:30-42 | "setup" with 0 and 0 exactly for a bad target; otherwise the ratio is in 0..1, the percent is its rounding into 0..100, and the status is "complete" from 100, "behind" below 50, "on-track" otherwise |
| Goals.RoundingAtTheThresholds | src/components/Goals.jsx:37-40 | 199 of 200 counts as complete and 99 of 200 as on track |
| Goals.RatioKey | src/components/Goals.jsx:55-57 | the sort key is the ratio, in 0..1 |
| Goals.SortedGoals | src/components/Goals.jsx:52-59 | a permutation of the goals, least progress first |
| Goals.SubmitGoal | src/components/Goals.jsx:72-99 | rejects a blank name, then a bad target; a form passing both is accepted; a new goal starts at progress and streak 0, an edited one keeps them |
| Goals.Confirmation | src/components/Goals.jsx:101 | "Goal updated." exactly when editing, "Goal added to your missions." exactly when adding |
| Goals.NewGoalStartsAtZero | src/components/Goals.jsx:91-92 | a new goal has no progress and counts as behind |
| Goals.EditGoalForm | src/components/Goals.jsx:104-117 | the form is filled from the goal, its progress and streak included |
| Goals.AcceptedIsWellFormed | src/components/Goals.jsx:74-97 | every accepted goal has an id, a trimmed non-empty name and a positive target |
| Goals.EditThenSubmit | src/components/Goals.jsx:84-116 | editing and resubmitting a well-formed goal renews only its update time |

Helpers without a row:
- `Text.SameSuffix` and `Text.SamePrefix` (cancelling equal ends of strings) and `Text.TrimOfTrimmed`.
- `Lists.SortedTail` and `Lists.SortedCons` (steps of the insertion sort).
- `Reminders.ItemLabels` and `Reminders.BillNames` (the `map` calls inside the reminder text).
- `Gamification.RawDaysLeft` (the unrounded ratio used by the badge rule, at src/utils/gamification.js:162).
- `Household.ProgressedTransitive` and `Household.TwoStepsAdvance` (chaining two engine calls).
- `Household.ApplyInventoryEvent`, `Household.ApplyBillPaid`, `Household.ApplyBadgeCheck`, `Household.ApplyStreakCheck`, `Household.ItemAwardSteps` and `Household.StreakEffectSteps` (unfolding one engine request, or a handler's award, into its engine calls).
- `Reminders.PromptAnswer` (what the browser's permission prompt resolves with) and `Reminders.PermissionPassed` (the check gets past the permission stage).
- `BillsView.SplitAtSpace` (reading a number back from the front of a label).

## Left out

- Storage (src/utils/storage.js) is not part of this model. Loading and saving are values handed to the `HouseholdApp` constructor and to `Save`. There is no JSON and no error fallback.
- Clocks, ids and randomness are parameters: `new Date()`, `Date.now()` and `crypto.randomUUID` become `Stamp`, `now`, `paidAt`, `newId` and `Calendar.today`.
- Gamification.RegisterReminderResponse: the history entry and `lastReminderAcknowledged` take the same timestamp; the source reads the clock twice.
- Calculations.DaysUntil: local midnights, UTC date keys, daylight saving and date-only strings parsed as UTC all collapse to one day numbering, `Calendar.dayOf`.
- Gamification.UpdateStreak: the UTC date key of the streak is that same day number.
- IEEE-754 rounding error is not modelled. Quantities, usages, amounts and ratios are exact reals.
- `Number(...)` coercion of form text is not modelled. Each numeric form field holds the number it coerces to, so the empty text (0) is one more such number.
- BillsView.DueKey: the platform's timestamp parser is the parameter `timestampOf`.
- Lists.SortBy: its contract states a permutation ordered by key. It does not state stability, and it does not state the engine's treatment of the NaN that `Infinity - Infinity` yields; both equal keys and two infinite keys are treated as equal.
- Goals.RatioKey: a NaN ratio, which only a NaN progress produces, is keyed as 0.
- Records and goals are complete records. `?? 0`, `?? ''` and `?.` on a field that is always present are not modelled, and neither is `Boolean(recurring)` on a value that is already a boolean.
- Spread merges (`{ ...existing, ...item }`) are modelled as replacement, because every payload carries every field of its record.
- React batching and updaters nested in other updaters are not modelled. Each handler is one sequential transition of `HouseholdApp`, with the effect applied after it.
- The notification facility is the `NotificationHost` parameter. The permission promise is a direct re-check on a grant. A failed dispatch is an outcome instead of a logged error.
- `scheduleDailyReminderCheck` (src/utils/reminders.js:80-92) is not modelled. It runs the reminder check at once and then every 24 hours. src/App.jsx:101-104 calls it on mount and after every change of the inventory or bills, so any list change may send a reminder and store the day. In this model the `HouseholdApp` handlers never call `ReminderDispatcher.CheckAndNotify`; that check is a separate operation, with only `RequestPermission` calling it.
- `notificationStatus`, geolocation, dark mode, visibility listeners and members in src/App.jsx are browser state without rules, so they are not modelled.
- Household.HouseholdApp.RequestPermission: the user's answer to an undecided prompt is `host.answer`, the same field the reminder check's own prompt uses; a rejected prompt counts as a non-granted answer, and the displayed permission status is not modelled.
- The goals screen's progress logging and reset handlers, the delete confirmations, `formatCurrency` and the display of amounts and dates are not modelled.
- Dashboard, household members, the assistant and the chat relay are not part of this model.
- Gamification.GetLevelProgress: its contract states only the bounds and the top tier. Agreement with `getLevelForPoints` and the 0..100 range are in Gamification.LevelProgressAgrees; the exact rounded percentage is stated only by the definition.
