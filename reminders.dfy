/** Threshold classifiers and the daily reminder (src/utils/reminders.js):
    which supplies are low, which bills are coming up, the notification
    text, and the once-a-day decision to send it. */
module Reminders {
  import opened JsValues
  import opened Text
  import opened Lists
  import opened Calculations
  import opened Records

  const LowItemThresholdDays: real := 3.0
  const UpcomingBillThresholdDays: int := 7

  /** `calculateDaysLeft(item.quantity, item.dailyUsage) < 3` */
  predicate IsLow(item: InventoryItem) {
    var d := CalculateDaysLeft(item.quantity, item.dailyUsage);
    d.Days? && d.days < LowItemThresholdDays
  }

  /** `getLowInventoryItems(items)`: exactly the low items, in input order. */
  function GetLowInventoryItems(items: seq<InventoryItem>): (r: seq<InventoryItem>)
    ensures forall i :: 0 <= i < |r| ==> r[i] in items && IsLow(r[i])
    ensures forall i :: 0 <= i < |items| && IsLow(items[i]) ==> items[i] in r
    ensures IsSubsequence(r, items)
    ensures forall x :: multiset(r)[x] == if IsLow(x) then multiset(items)[x] else 0
  {
    FilterMultiplicity(items, IsLow);
    Filter(items, IsLow)
  }

  /** An item whose supply is unlimited is never low; an item with a
      negative or non-numeric quantity always is. */
  lemma LowItemEdges(item: InventoryItem)
    ensures CalculateDaysLeft(item.quantity, item.dailyUsage).Unlimited? ==> !IsLow(item)
    ensures !item.quantity.IsFinite() || item.quantity.r < 0.0 ==> IsLow(item)
  {
  }

  /** `daysUntil(bill.dueDate)` is finite and within 0..7 */
  predicate IsUpcoming(bill: Bill, cal: Calendar) {
    var d := DaysUntil(bill.dueDate, cal);
    d.IsFinite() && d.n >= 0 && d.n <= UpcomingBillThresholdDays
  }

  /** `getUpcomingBills(bills)`: exactly the bills due in 0..7 days, in input
      order; overdue, unscheduled and unparseable bills are left out. */
  function GetUpcomingBills(bills: seq<Bill>, cal: Calendar): (r: seq<Bill>)
    ensures forall i :: 0 <= i < |r| ==> r[i] in bills && IsUpcoming(r[i], cal)
    ensures forall i :: 0 <= i < |bills| && IsUpcoming(bills[i], cal) ==> bills[i] in r
    ensures forall i :: 0 <= i < |r| ==> r[i].dueDate != "" && cal.dayOf(r[i].dueDate).Some?
    ensures forall i :: 0 <= i < |r| ==> !DaysUntil(r[i].dueDate, cal).IsPast()
    ensures IsSubsequence(r, bills)
    ensures forall x :: multiset(r)[x] == if IsUpcoming(x, cal) then multiset(bills)[x] else 0
  {
    FilterMultiplicity(bills, b => IsUpcoming(b, cal));
    Filter(bills, b => IsUpcoming(b, cal))
  }

  /** The notification's lead-ins, as the source text spells them. */
  const LowSuppliesLead := "\U{E2}\U{161}\U{A0}\U{EF}\U{B8} Low supplies: "
  const UpcomingBillsLead := "\U{F0}\U{178}\U{2019}\U{B8} Upcoming bills: "

  /** An item's name, followed by " (location)" when it has a location. */
  function ItemLabel(item: InventoryItem): (s: string)
    ensures Truthy(item.location) ==> s == item.name + " (" + item.location.value + ")"
    ensures !Truthy(item.location) ==> s == item.name
  {
    item.name + if Truthy(item.location) then " (" + item.location.value + ")" else ""
  }

  function ItemLabels(items: seq<InventoryItem>): (labels: seq<string>)
    ensures |labels| == |items| && forall i :: 0 <= i < |items| ==> labels[i] == ItemLabel(items[i])
  {
    seq(|items|, i requires 0 <= i < |items| => ItemLabel(items[i]))
  }

  function BillNames(bills: seq<Bill>): (names: seq<string>)
    ensures |names| == |bills| && forall i :: 0 <= i < |bills| ==> names[i] == bills[i].name
  {
    seq(|bills|, i requires 0 <= i < |bills| => bills[i].name)
  }

  function LowSuppliesPart(lowItems: seq<InventoryItem>): string {
    LowSuppliesLead + Join(ItemLabels(lowItems), ", ")
  }

  function UpcomingBillsPart(upcomingBills: seq<Bill>): string {
    UpcomingBillsLead + Join(BillNames(upcomingBills), ", ")
  }

  /** `createReminderMessage(lowItems, upcomingBills)`: empty when there is
      nothing to report; otherwise the low-supplies part comes first, the
      bills part second, joined by " | ". */
  function CreateReminderMessage(lowItems: seq<InventoryItem>, upcomingBills: seq<Bill>): (r: string)
    ensures r == "" <==> lowItems == [] && upcomingBills == []
    ensures lowItems != [] && upcomingBills != [] ==> r == LowSuppliesPart(lowItems) + " | " + UpcomingBillsPart(upcomingBills)
    ensures lowItems != [] && upcomingBills == [] ==> r == LowSuppliesPart(lowItems)
    ensures lowItems == [] && upcomingBills != [] ==> r == UpcomingBillsPart(upcomingBills)
  {
    var parts := (if |lowItems| > 0 then [LowSuppliesPart(lowItems)] else [])
               + (if |upcomingBills| > 0 then [UpcomingBillsPart(upcomingBills)] else []);
    assert |parts| == 2 ==> parts[1..] == [UpcomingBillsPart(upcomingBills)];
    Join(parts, " | ")
  }

  /** Every low item's label and every upcoming bill's name appears in the
      notification text. */
  lemma {:induction false} MessageMentionsEverything(lowItems: seq<InventoryItem>, upcomingBills: seq<Bill>)
    ensures forall k :: 0 <= k < |lowItems| ==> Occurs(ItemLabel(lowItems[k]), CreateReminderMessage(lowItems, upcomingBills))
    ensures forall k :: 0 <= k < |upcomingBills| ==> Occurs(upcomingBills[k].name, CreateReminderMessage(lowItems, upcomingBills))
  {
    var msg := CreateReminderMessage(lowItems, upcomingBills);
    forall k | 0 <= k < |lowItems| ensures Occurs(ItemLabel(lowItems[k]), msg) {
      var labels := ItemLabels(lowItems);
      JoinContainsEachPart(labels, ", ", k);
      OccursInConcat(labels[k], LowSuppliesLead, Join(labels, ", "));
      if upcomingBills != [] {
        OccursInConcat(labels[k], LowSuppliesPart(lowItems), " | " + UpcomingBillsPart(upcomingBills));
        assert msg == LowSuppliesPart(lowItems) + (" | " + UpcomingBillsPart(upcomingBills));
      }
    }
    forall k | 0 <= k < |upcomingBills| ensures Occurs(upcomingBills[k].name, msg) {
      var names := BillNames(upcomingBills);
      JoinContainsEachPart(names, ", ", k);
      OccursInConcat(names[k], UpcomingBillsLead, Join(names, ", "));
      if lowItems != [] {
        OccursInConcat(names[k], LowSuppliesPart(lowItems) + " | ", UpcomingBillsPart(upcomingBills));
      }
    }
  }

  /** `Notification.permission` */
  datatype Permission = Default | Granted | Denied

  /** What the browser contributes to a check: whether notifications exist at
      all, the current permission, the answer the user would give to a
      permission request, and whether constructing the notification succeeds. */
  datatype NotificationHost = NotificationHost(
    supported: bool,
    permission: Permission,
    answer: Permission,
    canDispatch: bool)

  /** How a reminder check ended. */
  datatype ReminderOutcome =
    | Unsupported
    | RequestNotGranted
    | NotGranted
    | AlreadyRemindedToday
    | NothingDue
    | Dispatched(body: string)
    | DispatchFailed(body: string)

  /** What `Notification.requestPermission()` resolves with: the user's
      answer while the permission is undecided, the standing permission once
      it is granted or denied (the browser does not prompt again). */
  function PromptAnswer(host: NotificationHost): Permission
  {
    if host.permission == Default then host.answer else host.permission
  }

  /** The check gets past the permission stage: notifications exist and the
      permission is granted, or is granted when the check asks for it. */
  predicate PermissionPassed(host: NotificationHost, skipPermissionRequest: bool)
  {
    && host.supported
    && (host.permission == Granted
        || (host.permission == Default && !skipPermissionRequest && host.answer == Granted))
  }

  /** The decision `checkAndNotifyReminders` makes. A "default" permission
      without `skipPermissionRequest` asks the user and, on a grant, runs the
      check again with the request skipped. */
  function Decide(host: NotificationHost, skipPermissionRequest: bool, lastReminderDay: Option<int>,
                  items: seq<InventoryItem>, bills: seq<Bill>, cal: Calendar): (o: ReminderOutcome)
    ensures !host.supported <==> o == Unsupported
    ensures o == RequestNotGranted <==>
              host.supported && host.permission == Default && !skipPermissionRequest && host.answer != Granted
    ensures host.supported && host.permission == Denied ==> o == NotGranted
    ensures o == NotGranted <==>
              host.supported && host.permission != Granted && !(host.permission == Default && !skipPermissionRequest)
    ensures o == AlreadyRemindedToday <==>
              PermissionPassed(host, skipPermissionRequest) && lastReminderDay == Some(cal.today)
    ensures o == NothingDue <==>
              && PermissionPassed(host, skipPermissionRequest) && lastReminderDay != Some(cal.today)
              && GetLowInventoryItems(items) == [] && GetUpcomingBills(bills, cal) == []
    ensures o.Dispatched? <==>
              && PermissionPassed(host, skipPermissionRequest) && lastReminderDay != Some(cal.today)
              && (GetLowInventoryItems(items) != [] || GetUpcomingBills(bills, cal) != []) && host.canDispatch
    ensures o.DispatchFailed? <==>
              && PermissionPassed(host, skipPermissionRequest) && lastReminderDay != Some(cal.today)
              && (GetLowInventoryItems(items) != [] || GetUpcomingBills(bills, cal) != []) && !host.canDispatch
    ensures o.Dispatched? || o.DispatchFailed? ==>
              && o.body == CreateReminderMessage(GetLowInventoryItems(items), GetUpcomingBills(bills, cal))
              && o.body != ""
    decreases if skipPermissionRequest then 0 else 1
  {
    if !host.supported then Unsupported
    else if host.permission == Default && !skipPermissionRequest then
      if host.answer == Granted then Decide(host.(permission := Granted), true, lastReminderDay, items, bills, cal)
      else RequestNotGranted
    else if host.permission != Granted then NotGranted
    else if lastReminderDay == Some(cal.today) then AlreadyRemindedToday
    else
      var lowItems := GetLowInventoryItems(items);
      var upcomingBills := GetUpcomingBills(bills, cal);
      if lowItems == [] && upcomingBills == [] then NothingDue
      else
        var body := CreateReminderMessage(lowItems, upcomingBills);
        if host.canDispatch then Dispatched(body) else DispatchFailed(body)
  }

  /** The reminder dispatcher and the "last reminder" date it persists. */
  class ReminderDispatcher {
    /** The day of the last successful reminder, if any. */
    var lastReminderDay: Option<int>

    constructor(stored: Option<int>)
      ensures lastReminderDay == stored
    {
      lastReminderDay := stored;
    }

    /** `checkAndNotifyReminders(items, bills, { skipPermissionRequest })`:
        the date is stored only after a notification was dispatched, so at
        most one goes out per day. */
    method CheckAndNotify(items: seq<InventoryItem>, bills: seq<Bill>, host: NotificationHost,
                          skipPermissionRequest: bool, cal: Calendar) returns (o: ReminderOutcome)
      modifies this
      ensures o == Decide(host, skipPermissionRequest, old(lastReminderDay), items, bills, cal)
      ensures lastReminderDay == if o.Dispatched? then Some(cal.today) else old(lastReminderDay)
      decreases if skipPermissionRequest then 0 else 1
    {
      if !host.supported {
        return Unsupported;
      }
      if host.permission == Default && !skipPermissionRequest {
        if host.answer == Granted {
          o := CheckAndNotify(items, bills, host.(permission := Granted), true, cal);
        } else {
          o := RequestNotGranted;
        }
        return;
      }
      if host.permission != Granted {
        return NotGranted;
      }
      if lastReminderDay == Some(cal.today) {
        return AlreadyRemindedToday;
      }
      var lowItems := GetLowInventoryItems(items);
      var upcomingBills := GetUpcomingBills(bills, cal);
      if lowItems == [] && upcomingBills == [] {
        return NothingDue;
      }
      var body := CreateReminderMessage(lowItems, upcomingBills);
      if host.canDispatch {
        lastReminderDay := Some(cal.today);
        o := Dispatched(body);
      } else {
        o := DispatchFailed(body);
      }
    }
  }
}
