/** The host application's state (src/App.jsx): the inventory and bill
    lists, the gamification record, and the handlers that update them, each
    followed by the badge-and-streak effect the lists' change triggers. */
module Household {
  import opened JsValues
  import opened Lists
  import opened Calculations
  import opened Records
  import opened Reminders
  import opened Gamification

  // ----- Lists keyed by id -----

  /** `s.some((x) => x.id === id)` */
  predicate HasId<T>(s: seq<T>, id: string, idOf: T -> string) {
    exists i :: 0 <= i < |s| && idOf(s[i]) == id
  }

  /** `s.map((x) => x.id === idOf(y) ? y : x)`: every element with the id of
      `y` becomes `y`. */
  function ReplaceById<T>(s: seq<T>, y: T, idOf: T -> string): (r: seq<T>)
    ensures |r| == |s|
    ensures forall i :: 0 <= i < |s| ==> r[i] == if idOf(s[i]) == idOf(y) then y else s[i]
    decreases |s|
  {
    if s == [] then []
    else [if idOf(s[0]) == idOf(y) then y else s[0]] + ReplaceById(s[1..], y, idOf)
  }

  /** The upsert of `handleUpsertItem`/`handleUpsertBill`: replace the records
      with the same id when there are any, append otherwise. The payload
      carries every field, so `{ ...existing, ...payload }` is the payload. */
  function UpsertById<T>(s: seq<T>, y: T, idOf: T -> string): (r: seq<T>)
    ensures HasId(s, idOf(y), idOf) ==> r == ReplaceById(s, y, idOf)
    ensures !HasId(s, idOf(y), idOf) ==> r == s + [y]
    ensures y in r
    ensures forall i :: 0 <= i < |r| ==> r[i] == y || (r[i] in s && idOf(r[i]) != idOf(y))
  {
    if HasId(s, idOf(y), idOf) then
      var k :| 0 <= k < |s| && idOf(s[k]) == idOf(y);
      assert ReplaceById(s, y, idOf)[k] == y;
      ReplaceById(s, y, idOf)
    else s + [y]
  }

  /** `s.filter((x) => x.id !== id)` */
  function DeleteById<T(!new)>(s: seq<T>, id: string, idOf: T -> string): (r: seq<T>)
    ensures !HasId(r, id, idOf)
    ensures forall i :: 0 <= i < |s| && idOf(s[i]) != id ==> s[i] in r
    ensures forall i :: 0 <= i < |r| ==> r[i] in s
    ensures IsSubsequence(r, s)
    ensures !HasId(s, id, idOf) ==> r == s
    ensures forall x :: multiset(r)[x] == if idOf(x) != id then multiset(s)[x] else 0
  {
    FilterMultiplicity(s, (x: T) => idOf(x) != id);
    Filter(s, (x: T) => idOf(x) != id)
  }

  /** Deleting a record that was just added restores the list. */
  lemma {:induction false} DeleteUndoesAdd<T(!new)>(s: seq<T>, y: T, idOf: T -> string)
    requires !HasId(s, idOf(y), idOf)
    ensures DeleteById(UpsertById(s, y, idOf), idOf(y), idOf) == s
  {
    FilterAppend(s, [y], (x: T) => idOf(x) != idOf(y));
  }

  /** Upserting the same record twice is the same as once. */
  lemma UpsertIdempotent<T>(s: seq<T>, y: T, idOf: T -> string)
    ensures UpsertById(UpsertById(s, y, idOf), y, idOf) == UpsertById(s, y, idOf)
  {
    var r := UpsertById(s, y, idOf);
    assert HasId(r, idOf(y), idOf) by {
      var k :| 0 <= k < |r| && r[k] == y;
    }
  }

  function ItemId(item: InventoryItem): string { item.id }
  function BillId(bill: Bill): string { bill.id }

  /** `s.find((x) => x.id === id)` */
  function FindById<T>(s: seq<T>, id: string, idOf: T -> string): (r: Option<T>)
    ensures r.Some? <==> HasId(s, id, idOf)
    ensures r.Some? ==> r.value in s && idOf(r.value) == id
    ensures r.Some? ==> exists i :: 0 <= i < |s| && s[i] == r.value && forall j :: 0 <= j < i ==> idOf(s[j]) != id
    decreases |s|
  {
    if s == [] then None
    else if idOf(s[0]) == id then Some(s[0])
    else
      var r := FindById(s[1..], id, idOf);
      assert HasId(s[1..], id, idOf) <==> HasId(s, id, idOf) by {
        if HasId(s, id, idOf) {
          var k :| 0 <= k < |s| && idOf(s[k]) == id;
          assert idOf(s[1..][k - 1]) == id;
        }
      }
      assert r.Some? ==> exists i :: 0 <= i < |s| && s[i] == r.value && forall j :: 0 <= j < i ==> idOf(s[j]) != id by {
        if r.Some? {
          var i :| 0 <= i < |s[1..]| && s[1..][i] == r.value && forall j :: 0 <= j < i ==> idOf(s[1..][j]) != id;
          assert s[i + 1] == r.value && forall j :: 0 <= j < i + 1 ==> idOf(s[j]) != id;
        }
      }
      r
  }

  // ----- Loading -----

  /** `normalizeInventory(items)`: a missing location becomes "pantry". */
  function NormalizeInventory(items: seq<InventoryItem>): (r: seq<InventoryItem>)
    ensures |r| == |items|
    ensures forall i :: 0 <= i < |items| ==>
              r[i] == items[i].(location := Some(items[i].location.GetOr("pantry")))
    ensures forall i :: 0 <= i < |r| ==> r[i].location.Some?
    decreases |items|
  {
    if items == [] then []
    else [items[0].(location := Some(items[0].location.GetOr("pantry")))] + NormalizeInventory(items[1..])
  }

  /** Normalizing twice is normalizing once. */
  lemma NormalizeIdempotent(items: seq<InventoryItem>)
    ensures NormalizeInventory(NormalizeInventory(items)) == NormalizeInventory(items)
  {
  }

  /** The stored gamification record: each key may be absent. */
  datatype StoredGame = StoredGame(
    points: Option<int>,
    streak: Option<Streak>,
    badges: Option<seq<string>>,
    level: Option<string>,
    history: Option<seq<HistoryEntry>>,
    counters: Option<Counters>,
    lastReminderAcknowledged: Option<Option<string>>)

  /** `{ ...initialGamificationState, ...(stored ?? {}) }`: each stored key
      replaces the initial value, each missing key keeps it. */
  function RestoreGamification(stored: Option<StoredGame>): (g: GameState)
    ensures stored.None? ==> g == InitialGamificationState
    ensures stored.Some? ==>
              && g.points == stored.value.points.GetOr(InitialGamificationState.points)
              && g.streak == stored.value.streak.GetOr(InitialGamificationState.streak)
              && g.badges == stored.value.badges.GetOr(InitialGamificationState.badges)
              && g.level == stored.value.level.GetOr(InitialGamificationState.level)
              && g.history == stored.value.history.GetOr(InitialGamificationState.history)
              && g.counters == stored.value.counters.GetOr(InitialGamificationState.counters)
              && g.lastReminderAcknowledged
                 == stored.value.lastReminderAcknowledged.GetOr(InitialGamificationState.lastReminderAcknowledged)
  {
    var init := InitialGamificationState;
    match stored
    case None => init
    case Some(st) =>
      GameState(st.points.GetOr(init.points), st.streak.GetOr(init.streak), st.badges.GetOr(init.badges),
                st.level.GetOr(init.level), st.history.GetOr(init.history), st.counters.GetOr(init.counters),
                st.lastReminderAcknowledged.GetOr(init.lastReminderAcknowledged))
  }

  /** What saving a record stores: every key. */
  function Save(g: GameState): StoredGame {
    StoredGame(Some(g.points), Some(g.streak), Some(g.badges), Some(g.level), Some(g.history),
               Some(g.counters), Some(g.lastReminderAcknowledged))
  }

  /** Restoring a saved record gives the record back. */
  lemma SaveRestoreRoundTrip(g: GameState)
    ensures RestoreGamification(Some(Save(g))) == g
  {
  }

  // ----- The effect and the handlers' pure core -----

  /** Whether anything is wrong today: a low item or an overdue bill. */
  predicate HasIssues(inventory: seq<InventoryItem>, bills: seq<Bill>, cal: Calendar) {
    |GetLowInventoryItems(inventory)| > 0 || |OverdueBills(bills, cal)| > 0
  }

  /** The effect that runs whenever the lists change:
      `updateStreak(evaluateBadges(prev, inventory, bills), { hasIssues })`. */
  function StreakEffect(g: GameState, inventory: seq<InventoryItem>, bills: seq<Bill>, cal: Calendar): (r: GameState)
    ensures r.points == g.points && r.history == g.history && r.level == g.level
    ensures r.lastReminderAcknowledged == g.lastReminderAcknowledged
    ensures r.badges == EvaluateBadges(g, inventory, bills).badges
    ensures forall b :: b in g.badges ==> b in r.badges
    ensures r.streak.lastEvaluatedDate == Some(cal.today)
    ensures g.streak.lastEvaluatedDate == Some(cal.today) ==> r.streak == g.streak && r.counters == g.counters
    ensures g.streak.lastEvaluatedDate != Some(cal.today) ==>
              && r.streak.current == (if HasIssues(inventory, bills, cal) then 0 else g.streak.current + 1)
              && r.streak.best == Max(g.streak.best, r.streak.current)
              && r.counters == g.counters.(consecutivePreparedDays :=
                                             if HasIssues(inventory, bills, cal) then 0
                                             else g.counters.consecutivePreparedDays + 1)
  {
    UpdateStreak(EvaluateBadges(g, inventory, bills), HasIssues(inventory, bills, cal), cal.today)
  }

  /** `handleMarkBillPaid`'s list update: every bill with the id gets the
      payment time as its last paid date. */
  function MarkPaid(bills: seq<Bill>, id: string, paidAt: string): (r: seq<Bill>)
    ensures |r| == |bills|
    ensures forall i :: 0 <= i < |bills| ==>
              r[i] == if bills[i].id == id then bills[i].(lastPaidDate := Some(paidAt)) else bills[i]
    decreases |bills|
  {
    if bills == [] then []
    else [if bills[0].id == id then bills[0].(lastPaidDate := Some(paidAt)) else bills[0]]
         + MarkPaid(bills[1..], id, paidAt)
  }

  /** `paidBill?.dueDate ? daysUntil(paidBill.dueDate) >= 0 : false` */
  predicate OnTime(paid: Option<Bill>, cal: Calendar) {
    paid.Some? && paid.value.dueDate != "" && DaysUntil(paid.value.dueDate, cal).NotPast()
  }

  /** Marking a bill paid does not change which bill the lookup finds, only
      its last paid date. */
  lemma {:induction false} FindAfterMarkPaid(bills: seq<Bill>, id: string, paidAt: string)
    ensures FindById(MarkPaid(bills, id, paidAt), id, BillId)
            == match FindById(bills, id, BillId)
               case None => None
               case Some(b) => Some(b.(lastPaidDate := Some(paidAt)))
    decreases |bills|
  {
    if bills != [] {
      var marked := MarkPaid(bills, id, paidAt);
      assert marked[1..] == MarkPaid(bills[1..], id, paidAt);
      FindAfterMarkPaid(bills[1..], id, paidAt);
    }
  }

  /** A payment is on time exactly when a bill with the id exists and the
      first such bill is on time; the payment itself does not move the due
      date. */
  lemma OnTimeAfterPayment(bills: seq<Bill>, id: string, paidAt: string, cal: Calendar)
    ensures OnTime(FindById(MarkPaid(bills, id, paidAt), id, BillId), cal) <==> OnTime(FindById(bills, id, BillId), cal)
    ensures !HasId(bills, id, BillId) ==> !OnTime(FindById(MarkPaid(bills, id, paidAt), id, BillId), cal)
  {
    FindAfterMarkPaid(bills, id, paidAt);
    var found := FindById(bills, id, BillId);
    if found.Some? {
      assert FindById(MarkPaid(bills, id, paidAt), id, BillId).value.dueDate == found.value.dueDate;
    }
  }

  /** A bill is paid on time exactly when its due date is set and parses to
      today or a later day. */
  lemma OnTimeMeaning(b: Bill, cal: Calendar)
    ensures OnTime(Some(b), cal) <==> b.dueDate != "" && exists d :: cal.dayOf(b.dueDate) == Some(d) && d >= cal.today
  {
    if b.dueDate != "" && exists d :: cal.dayOf(b.dueDate) == Some(d) && d >= cal.today {
      var d :| cal.dayOf(b.dueDate) == Some(d) && d >= cal.today;
      assert DaysUntil(b.dueDate, cal) == Day(d - cal.today);
    }
  }

  /** The points a new or restocked item is worth, as the upsert handler
      awards them. */
  function ItemAward(g: GameState, inventory: seq<InventoryItem>, item: InventoryItem, bills: seq<Bill>,
                     stamp: Stamp): (r: GameState)
    ensures r.points == g.points + if HasId(inventory, item.id, ItemId) then 6 else 10
  {
    var next := UpsertById(inventory, item, ItemId);
    EvaluateBadges(RegisterInventoryEvent(g, !HasId(inventory, item.id, ItemId), item.name, stamp), next, bills)
  }

  /** `handleMarkBillPaid`'s award: `registerBillPaid` for the first bill with
      the id (named "Bill" when there is none), then the badge rules. */
  function PaymentAward(g: GameState, inventory: seq<InventoryItem>, bills: seq<Bill>, id: string, paidAt: string,
                        stamp: Stamp, cal: Calendar): (r: GameState)
    ensures r.points == g.points + if OnTime(FindById(MarkPaid(bills, id, paidAt), id, BillId), cal) then 15 else 0
    ensures r.counters.billsPaidOnTime
            == g.counters.billsPaidOnTime + if OnTime(FindById(MarkPaid(bills, id, paidAt), id, BillId), cal) then 1 else 0
  {
    var next := MarkPaid(bills, id, paidAt);
    var paid := FindById(next, id, BillId);
    var name := if paid.Some? then paid.value.name else "Bill";
    EvaluateBadges(RegisterBillPaid(g, name, OnTime(paid, cal), stamp), inventory, next)
  }

  /** `r` follows `s` and keeps the engine invariants when `s` had them. */
  ghost predicate Advances(s: GameState, r: GameState) {
    Consistent(s) ==> Consistent(r) && Progressed(s, r)
  }

  lemma ProgressedTransitive(a: GameState, b: GameState, c: GameState)
    requires Progressed(a, b) && Progressed(b, c)
    ensures Progressed(a, c)
  {
  }

  /** Two engine calls in a row keep the engine invariants and only move
      forward. */
  lemma TwoStepsAdvance(g: GameState, e1: EngineEvent, e2: EngineEvent)
    ensures Advances(g, Apply(Apply(g, e1), e2))
  {
    if Consistent(g) {
      ApplyKeepsConsistent(g, e1);
      ApplyKeepsConsistent(Apply(g, e1), e2);
      ProgressedTransitive(g, Apply(g, e1), Apply(Apply(g, e1), e2));
    }
  }

  lemma ApplyInventoryEvent(g: GameState, isNewItem: bool, itemName: string, stamp: Stamp)
    ensures Apply(g, InventoryEvent(isNewItem, itemName, stamp)) == RegisterInventoryEvent(g, isNewItem, itemName, stamp)
  {
  }

  lemma ApplyBillPaid(g: GameState, billName: string, onTime: bool, stamp: Stamp)
    ensures Apply(g, BillPaid(billName, onTime, stamp)) == RegisterBillPaid(g, billName, onTime, stamp)
  {
  }

  lemma ApplyBadgeCheck(g: GameState, inventory: seq<InventoryItem>, bills: seq<Bill>)
    ensures Apply(g, BadgeCheck(inventory, bills)) == EvaluateBadges(g, inventory, bills)
  {
  }

  lemma ApplyStreakCheck(g: GameState, hasIssues: bool, today: int)
    ensures Apply(g, StreakCheck(hasIssues, today)) == UpdateStreak(g, hasIssues, today)
  {
  }

  /** The effect is two engine calls: the badge rules, then the streak. */
  lemma StreakEffectSteps(g: GameState, inventory: seq<InventoryItem>, bills: seq<Bill>, cal: Calendar)
    ensures StreakEffect(g, inventory, bills, cal)
            == Apply(Apply(g, BadgeCheck(inventory, bills)), StreakCheck(HasIssues(inventory, bills, cal), cal.today))
  {
    ApplyBadgeCheck(g, inventory, bills);
    ApplyStreakCheck(EvaluateBadges(g, inventory, bills), HasIssues(inventory, bills, cal), cal.today);
  }

  /** The effect keeps the engine invariants and only moves forward. */
  lemma StreakEffectAdvances(g: GameState, inventory: seq<InventoryItem>, bills: seq<Bill>, cal: Calendar)
    ensures Advances(g, StreakEffect(g, inventory, bills, cal))
  {
    StreakEffectSteps(g, inventory, bills, cal);
    TwoStepsAdvance(g, BadgeCheck(inventory, bills), StreakCheck(HasIssues(inventory, bills, cal), cal.today));
  }

  /** The upsert handler's award is two engine calls: the inventory event,
      then the badge rules on the new list. */
  lemma ItemAwardSteps(g: GameState, inventory: seq<InventoryItem>, item: InventoryItem, bills: seq<Bill>,
                       stamp: Stamp)
    ensures ItemAward(g, inventory, item, bills, stamp)
            == Apply(Apply(g, InventoryEvent(!HasId(inventory, item.id, ItemId), item.name, stamp)),
                     BadgeCheck(UpsertById(inventory, item, ItemId), bills))
  {
    var isNew := !HasId(inventory, item.id, ItemId);
    ApplyInventoryEvent(g, isNew, item.name, stamp);
    ApplyBadgeCheck(RegisterInventoryEvent(g, isNew, item.name, stamp), UpsertById(inventory, item, ItemId), bills);
  }

  /** The upsert handler's award keeps the engine invariants and only moves
      forward. */
  lemma ItemAwardAdvances(g: GameState, inventory: seq<InventoryItem>, item: InventoryItem, bills: seq<Bill>,
                          stamp: Stamp)
    ensures Advances(g, ItemAward(g, inventory, item, bills, stamp))
  {
    ItemAwardSteps(g, inventory, item, bills, stamp);
    TwoStepsAdvance(g, InventoryEvent(!HasId(inventory, item.id, ItemId), item.name, stamp),
                    BadgeCheck(UpsertById(inventory, item, ItemId), bills));
  }

  /** The payment handler's award keeps the engine invariants and only moves
      forward. */
  lemma PaymentAwardAdvances(g: GameState, inventory: seq<InventoryItem>, bills: seq<Bill>, id: string,
                             paidAt: string, stamp: Stamp, cal: Calendar)
    ensures Advances(g, PaymentAward(g, inventory, bills, id, paidAt, stamp, cal))
  {
    var next := MarkPaid(bills, id, paidAt);
    var paid := FindById(next, id, BillId);
    var name := if paid.Some? then paid.value.name else "Bill";
    ApplyBillPaid(g, name, OnTime(paid, cal), stamp);
    ApplyBadgeCheck(RegisterBillPaid(g, name, OnTime(paid, cal), stamp), inventory, next);
    TwoStepsAdvance(g, BillPaid(name, OnTime(paid, cal), stamp), BadgeCheck(inventory, next));
  }

  /** Acknowledging a reminder keeps the engine invariants and only moves
      forward. */
  lemma ReminderResponseAdvances(g: GameState, stamp: Stamp)
    ensures Advances(g, RegisterReminderResponse(g, stamp))
  {
    if Consistent(g) {
      ApplyKeepsConsistent(g, ReminderAnswered(stamp));
    }
  }

  /** A badge check followed by the effect keeps the engine invariants and
      only moves forward. */
  lemma CheckThenEffectAdvances(g: GameState, inventory: seq<InventoryItem>, bills: seq<Bill>, cal: Calendar)
    ensures Advances(g, StreakEffect(EvaluateBadges(g, inventory, bills), inventory, bills, cal))
  {
    var checked := EvaluateBadges(g, inventory, bills);
    if Consistent(g) {
      assert checked == Apply(g, BadgeCheck(inventory, bills));
      ApplyKeepsConsistent(g, BadgeCheck(inventory, bills));
      StreakEffectAdvances(checked, inventory, bills, cal);
      ProgressedTransitive(g, checked, StreakEffect(checked, inventory, bills, cal));
    }
  }

  // ----- The application -----

  /** The application's state and its handlers. Each list handler applies its
      own award and then the effect its new list triggers. */
  class HouseholdApp {
    var inventory: seq<InventoryItem>
    var bills: seq<Bill>
    var gamification: GameState

    /** Loads the stored lists and record, then runs the effect once, as on
        the first render. */
    constructor(storedItems: seq<InventoryItem>, storedBills: seq<Bill>, stored: Option<StoredGame>, cal: Calendar)
      ensures inventory == NormalizeInventory(storedItems)
      ensures bills == storedBills
      ensures gamification == StreakEffect(RestoreGamification(stored), inventory, bills, cal)
      ensures stored.None? ==> Consistent(gamification)
    {
      inventory := NormalizeInventory(storedItems);
      bills := storedBills;
      InitialIsConsistent();
      StreakEffectAdvances(RestoreGamification(stored), NormalizeInventory(storedItems), storedBills, cal);
      gamification := StreakEffect(RestoreGamification(stored), NormalizeInventory(storedItems), storedBills, cal);
    }

    /** `handleUpsertItem(item)` */
    method UpsertItem(item: InventoryItem, stamp: Stamp, cal: Calendar)
      modifies this
      ensures inventory == UpsertById(old(inventory), item, ItemId)
      ensures bills == old(bills)
      ensures gamification
              == StreakEffect(ItemAward(old(gamification), old(inventory), item, bills, stamp), inventory, bills, cal)
      ensures gamification.points == old(gamification.points) + if HasId(old(inventory), item.id, ItemId) then 6 else 10
      ensures Advances(old(gamification), gamification)
    {
      var awarded := ItemAward(gamification, inventory, item, bills, stamp);
      ItemAwardAdvances(gamification, inventory, item, bills, stamp);
      inventory := UpsertById(inventory, item, ItemId);
      StreakEffectAdvances(awarded, inventory, bills, cal);
      ProgressedTransitive(old(gamification), awarded, StreakEffect(awarded, inventory, bills, cal));
      gamification := StreakEffect(awarded, inventory, bills, cal);
    }

    /** `handleDeleteItem(id)` */
    method DeleteItem(id: string, cal: Calendar)
      modifies this
      ensures inventory == DeleteById(old(inventory), id, ItemId)
      ensures bills == old(bills)
      ensures gamification == StreakEffect(EvaluateBadges(old(gamification), inventory, bills), inventory, bills, cal)
      ensures gamification.points == old(gamification.points)
      ensures Advances(old(gamification), gamification)
    {
      inventory := DeleteById(inventory, id, ItemId);
      CheckThenEffectAdvances(gamification, inventory, bills, cal);
      gamification := StreakEffect(EvaluateBadges(gamification, inventory, bills), inventory, bills, cal);
    }

    /** `handleUpsertBill(bill)` */
    method UpsertBill(bill: Bill, cal: Calendar)
      modifies this
      ensures bills == UpsertById(old(bills), bill, BillId)
      ensures inventory == old(inventory)
      ensures gamification == StreakEffect(EvaluateBadges(old(gamification), inventory, bills), inventory, bills, cal)
      ensures gamification.points == old(gamification.points)
      ensures Advances(old(gamification), gamification)
    {
      bills := UpsertById(bills, bill, BillId);
      CheckThenEffectAdvances(gamification, inventory, bills, cal);
      gamification := StreakEffect(EvaluateBadges(gamification, inventory, bills), inventory, bills, cal);
    }

    /** `handleDeleteBill(id)` */
    method DeleteBill(id: string, cal: Calendar)
      modifies this
      ensures bills == DeleteById(old(bills), id, BillId)
      ensures inventory == old(inventory)
      ensures gamification == StreakEffect(EvaluateBadges(old(gamification), inventory, bills), inventory, bills, cal)
      ensures gamification.points == old(gamification.points)
      ensures Advances(old(gamification), gamification)
    {
      bills := DeleteById(bills, id, BillId);
      CheckThenEffectAdvances(gamification, inventory, bills, cal);
      gamification := StreakEffect(EvaluateBadges(gamification, inventory, bills), inventory, bills, cal);
    }

    /** `handleMarkBillPaid(id)`: `paidAt` is the current time as ISO text. */
    method MarkBillPaid(id: string, paidAt: string, stamp: Stamp, cal: Calendar)
      modifies this
      ensures bills == MarkPaid(old(bills), id, paidAt)
      ensures inventory == old(inventory)
      ensures gamification
              == StreakEffect(PaymentAward(old(gamification), inventory, old(bills), id, paidAt, stamp, cal),
                              inventory, bills, cal)
      ensures gamification.points == old(gamification.points)
                                     + if OnTime(FindById(bills, id, BillId), cal) then 15 else 0
      ensures Advances(old(gamification), gamification)
    {
      var awarded := PaymentAward(gamification, inventory, bills, id, paidAt, stamp, cal);
      PaymentAwardAdvances(gamification, inventory, bills, id, paidAt, stamp, cal);
      bills := MarkPaid(bills, id, paidAt);
      StreakEffectAdvances(awarded, inventory, bills, cal);
      ProgressedTransitive(old(gamification), awarded, StreakEffect(awarded, inventory, bills, cal));
      gamification := StreakEffect(awarded, inventory, bills, cal);
    }

    /** `handleReminderAcknowledged()`: the lists do not change, so the
        effect does not run. */
    method AcknowledgeReminder(stamp: Stamp)
      modifies this
      ensures inventory == old(inventory) && bills == old(bills)
      ensures gamification == RegisterReminderResponse(old(gamification), stamp)
      ensures gamification.points == old(gamification.points) + 8
      ensures Advances(old(gamification), gamification)
    {
      ReminderResponseAdvances(gamification, stamp);
      gamification := RegisterReminderResponse(gamification, stamp);
    }

    /** `requestNotificationPermission()`: without notification support it
        returns before prompting; otherwise the prompt resolves with
        `PromptAnswer(host)`, and on a grant the reminder check runs with the
        request skipped and the response earns its points, again on every
        click while the permission stays granted. In every other case nothing
        changes here. */
    method RequestPermission(dispatcher: ReminderDispatcher, host: NotificationHost,
                             stamp: Stamp, cal: Calendar) returns (outcome: Option<ReminderOutcome>)
      modifies this, dispatcher
      ensures inventory == old(inventory) && bills == old(bills)
      ensures !host.supported || PromptAnswer(host) != Granted ==>
                outcome.None? && gamification == old(gamification)
                && dispatcher.lastReminderDay == old(dispatcher.lastReminderDay)
      ensures host.supported && PromptAnswer(host) == Granted ==>
                && outcome == Some(Decide(host.(permission := Granted), true, old(dispatcher.lastReminderDay),
                                          inventory, bills, cal))
                && gamification == RegisterReminderResponse(old(gamification), stamp)
                && dispatcher.lastReminderDay
                   == if outcome.value.Dispatched? then Some(cal.today) else old(dispatcher.lastReminderDay)
      ensures host.supported && host.permission == Granted ==> gamification.points == old(gamification.points) + 8
      ensures host.supported && host.permission == Denied ==> outcome.None? && gamification == old(gamification)
      ensures Advances(old(gamification), gamification)
    {
      if host.supported && PromptAnswer(host) == Granted {
        var o := dispatcher.CheckAndNotify(inventory, bills, host.(permission := Granted), true, cal);
        outcome := Some(o);
        ReminderResponseAdvances(gamification, stamp);
        gamification := RegisterReminderResponse(gamification, stamp);
      } else {
        outcome := None;
      }
    }
  }
}
