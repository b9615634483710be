/** The household rules engine (src/utils/gamification.js): a record of
    points, level, streak, badges, counters and award history, threaded
    through pure transitions, plus the household health score. */
module Gamification {
  import opened JsValues
  import opened Text
  import opened Lists
  import opened Calculations
  import opened Records
  import opened Reminders

  // ----- Rewards and levels -----

  /** The `type` of an award; `OtherKind` is any key missing from the table. */
  datatype RewardKind = InventoryAdd | InventoryRestock | BillPaidOnTime | ReminderResponse | OtherKind(name: string)

  const InventoryAddPoints := 10
  const InventoryRestockPoints := 6
  const BillPaidOnTimePoints := 15
  const ReminderResponsePoints := 8

  /** `POINT_REWARDS[type]`: every listed kind earns a fixed positive reward. */
  function PointReward(kind: RewardKind): (r: Option<int>)
    ensures r.Some? <==> !kind.OtherKind?
    ensures r.Some? ==> r.value > 0
  {
    match kind
    case InventoryAdd => Some(InventoryAddPoints)
    case InventoryRestock => Some(InventoryRestockPoints)
    case BillPaidOnTime => Some(BillPaidOnTimePoints)
    case ReminderResponse => Some(ReminderResponsePoints)
    case OtherKind(_) => None
  }

  /** A level and the least number of points that reaches it. */
  datatype Tier = Tier(name: string, min: int)

  const Levels: seq<Tier> := [
    Tier("Bronze Caretaker", 0),
    Tier("Silver Steward", 200),
    Tier("Gold Guardian", 500),
    Tier("Platinum Protector", 900)
  ]

  /** Tier `i` is the one whose range `[min, next min)` holds `points`. */
  ghost predicate IsTierOf(i: int, points: int) {
    0 <= i < |Levels| && Levels[i].min <= points && (i + 1 == |Levels| || points < Levels[i + 1].min)
  }

  /** Searches the tiers below `k` from the top for one whose minimum is
      reached (`[...LEVELS].reverse().find(...)`). */
  function FindReachedTier(points: int, k: nat): (r: Option<nat>)
    requires k <= |Levels|
    ensures r.Some? ==> r.value < k && Levels[r.value].min <= points
    ensures r.Some? ==> forall j :: r.value < j < k ==> points < Levels[j].min
    ensures r.None? ==> forall j :: 0 <= j < k ==> points < Levels[j].min
  {
    if k == 0 then None
    else if points >= Levels[k - 1].min then Some(k - 1)
    else FindReachedTier(points, k - 1)
  }

  /** `getLevelForPoints(points)`: the name of the highest tier reached; the
      first tier when none is (negative points). */
  function LevelForPoints(points: int): (name: string)
    ensures points >= 0 ==> exists i :: IsTierOf(i, points) && name == Levels[i].name
    ensures points < 0 ==> name == Levels[0].name
  {
    match FindReachedTier(points, |Levels|)
    case Some(i) =>
      assert IsTierOf(i, points);
      Levels[i].name
    case None => Levels[0].name
  }

  /** The tier thresholds strictly increase, so at most one range holds a
      given number of points. */
  lemma TierUnique(i: int, j: int, points: int)
    requires IsTierOf(i, points) && IsTierOf(j, points)
    ensures i == j
  {
    assert forall a, b :: 0 <= a < b < |Levels| ==> Levels[a].min < Levels[b].min;
  }

  /** Scans the tiers from `i` upwards for the first whose range holds
      `points`, taking the last tier when none before it does
      (`LEVELS.find((level, index) => ...)`). */
  function FindProgressTier(points: int, i: nat): (t: nat)
    requires i < |Levels|
    ensures i <= t < |Levels|
    ensures t + 1 == |Levels| || Levels[t].min <= points < Levels[t + 1].min
    ensures forall j :: i <= j < t ==> !(Levels[j].min <= points < Levels[j + 1].min)
    decreases |Levels| - i
  {
    if i + 1 == |Levels| || (points >= Levels[i].min && points < Levels[i + 1].min) then i
    else FindProgressTier(points, i + 1)
  }

  /** The progress panel: current level, percent of the way to the next
      level, and the next level (None at the top). */
  datatype LevelProgress = LevelProgress(currentLabel: string, progress: int, nextLabel: string, nextThreshold: Option<int>)

  /** `getLevelProgress(points)` */
  function GetLevelProgress(points: int): (lp: LevelProgress)
    ensures lp.nextThreshold.None? <==> lp.currentLabel == Levels[|Levels| - 1].name
    ensures lp.nextThreshold.None? ==> lp.progress == 100 && lp.nextLabel == "Max level"
    ensures lp.nextThreshold.Some? ==> points < lp.nextThreshold.value && lp.progress <= 100
  {
    var t := FindProgressTier(points, 0);
    if t + 1 == |Levels| then LevelProgress(Levels[t].name, 100, "Max level", None)
    else
      var range := Levels[t + 1].min - Levels[t].min;
      var progress := Min(100, Round((points - Levels[t].min) as real / range as real * 100.0));
      LevelProgress(Levels[t].name, progress, Levels[t + 1].name, Some(Levels[t + 1].min))
  }

  /** A fraction of a range that has not been completed is below one. */
  lemma FractionBelowOne(a: int, b: int)
    requires 0 <= a < b
    ensures 0.0 <= a as real / b as real * 100.0 < 100.0
  {
    assert a as real / b as real < 1.0 by {
      assert (a as real / b as real) * (b as real) == a as real;
    }
  }

  /** For non-negative points the progress panel names the same level as
      `getLevelForPoints`, and its progress is a percentage. */
  lemma {:induction false} LevelProgressAgrees(points: int)
    requires points >= 0
    ensures GetLevelProgress(points).currentLabel == LevelForPoints(points)
    ensures 0 <= GetLevelProgress(points).progress <= 100
  {
    var t := FindProgressTier(points, 0);
    forall j | 0 <= j < t ensures !(Levels[j].min <= points < Levels[j + 1].min) { }
    assert IsTierOf(t, points);
    var i :| IsTierOf(i, points) && LevelForPoints(points) == Levels[i].name;
    TierUnique(i, t, points);
    if t + 1 < |Levels| {
      FractionBelowOne(points - Levels[t].min, Levels[t + 1].min - Levels[t].min);
    }
  }

  /** At 900 points and above the panel shows the top level, full. */
  lemma TopLevelIsFull(points: int)
    requires points >= 900
    ensures GetLevelProgress(points) == LevelProgress("Platinum Protector", 100, "Max level", None)
    ensures LevelForPoints(points) == "Platinum Protector"
  {
    LevelProgressAgrees(points);
  }

  /** Below zero the two lookups disagree: the panel falls through to the top
      level while `getLevelForPoints` answers with the first. */
  lemma NegativePointsDisagree(points: int)
    requires points < 0
    ensures GetLevelProgress(points).currentLabel == "Platinum Protector"
    ensures LevelForPoints(points) == "Bronze Caretaker"
  {
  }

  // ----- The state -----

  datatype Streak = Streak(current: int, best: int, lastEvaluatedDate: Option<int>)

  datatype Counters = Counters(billsPaidOnTime: int, essentialsTracked: int, consecutivePreparedDays: int)

  /** The `metadata` of a history entry. */
  datatype Metadata = NoMetadata | ItemMeta(itemName: string) | BillMeta(billName: string)

  datatype HistoryEntry = HistoryEntry(
    id: string,
    kind: RewardKind,
    points: int,
    message: string,
    metadata: Metadata,
    timestamp: string)

  /** The gamification record. The streak date is a day number (the UTC
      date key of the source). */
  datatype GameState = GameState(
    points: int,
    streak: Streak,
    badges: seq<string>,
    level: string,
    history: seq<HistoryEntry>,
    counters: Counters,
    lastReminderAcknowledged: Option<string>)

  /** What the clock and the id source supply to one award. */
  datatype Stamp = Stamp(entryId: string, timestamp: string)

  const InitialGamificationState: GameState :=
    GameState(0, Streak(0, 0, None), [], Levels[0].name, [], Counters(0, 0, 0), None)

  const HistoryCap := 25

  ghost predicate NoDuplicates(bs: seq<string>) {
    forall i, j :: 0 <= i < j < |bs| ==> bs[i] != bs[j]
  }

  /** The invariants the engine promises: non-negative points and counters,
      a level that matches the points, `best >= current >= 0`, a capped
      history and a badge list without repeats. */
  ghost predicate Consistent(g: GameState) {
    && g.points >= 0
    && g.level == LevelForPoints(g.points)
    && 0 <= g.streak.current <= g.streak.best
    && |g.history| <= HistoryCap
    && NoDuplicates(g.badges)
    && g.counters.billsPaidOnTime >= 0
    && g.counters.essentialsTracked >= 0
    && g.counters.consecutivePreparedDays >= 0
  }

  lemma InitialIsConsistent()
    ensures Consistent(InitialGamificationState)
  {
  }

  // ----- Awards -----

  /** `appendHistory(state, entry)`: the entry goes first, the older entries
      follow in order, and only the newest 25 are kept. */
  function AppendHistory(s: GameState, entry: HistoryEntry): (r: GameState)
    ensures |r.history| == Min(|s.history| + 1, HistoryCap)
    ensures r.history[0] == entry
    ensures r.history[1..] == s.history[..|r.history| - 1]
    ensures r == s.(history := r.history)
  {
    s.(history := Take([entry] + s.history, HistoryCap))
  }

  /** `amount ?? POINT_REWARDS[type] ?? 0` */
  function ResolveDelta(kind: RewardKind, amount: Option<int>): (delta: int)
    ensures amount.Some? ==> delta == amount.value
    ensures amount.None? ==> delta == PointReward(kind).GetOr(0)
  {
    if amount.Some? then amount.value else PointReward(kind).GetOr(0)
  }

  /** `r` is `s` after an award of `e.points`: the points grow by exactly that
      much, the level follows the points, `e` heads the history, and nothing
      else changes. */
  ghost predicate Awarded(s: GameState, r: GameState, e: HistoryEntry) {
    && r.points == s.points + e.points
    && r.level == LevelForPoints(r.points)
    && |r.history| == Min(|s.history| + 1, HistoryCap)
    && r.history[0] == e
    && r.history[1..] == s.history[..|r.history| - 1]
    && r == s.(points := r.points, level := r.level, history := r.history)
  }

  /** `awardPoints(state, { type, amount, message, metadata })`: a delta of
      zero returns the state as it is. */
  function AwardPoints(s: GameState, kind: RewardKind, amount: Option<int>, message: string,
                       metadata: Metadata, stamp: Stamp): (r: GameState)
    ensures ResolveDelta(kind, amount) == 0 ==> r == s
    ensures ResolveDelta(kind, amount) != 0 ==>
              Awarded(s, r, HistoryEntry(stamp.entryId, kind, ResolveDelta(kind, amount), message, metadata, stamp.timestamp))
  {
    var delta := ResolveDelta(kind, amount);
    if delta == 0 then s
    else
      var entry := HistoryEntry(stamp.entryId, kind, delta, message, metadata, stamp.timestamp);
      var nextPoints := s.points + delta;
      AppendHistory(s, entry).(points := nextPoints, level := LevelForPoints(nextPoints))
  }

  function InventoryMessage(isNewItem: bool, itemName: string): string {
    if isNewItem then "\U{2728} Earned " + IntToString(InventoryAddPoints) + " points for logging " + itemName + "."
    else "\U{1F504} Earned " + IntToString(InventoryRestockPoints) + " points for restocking " + itemName + "."
  }

  /** `registerInventoryEvent(state, { isNewItem, itemName })`: a new item
      earns 10 points and counts as one more tracked essential; a restock
      earns 6 and leaves the counters alone. */
  function RegisterInventoryEvent(s: GameState, isNewItem: bool, itemName: string, stamp: Stamp): (r: GameState)
    ensures var kind := if isNewItem then InventoryAdd else InventoryRestock;
            Awarded(s, r.(counters := s.counters),
                    HistoryEntry(stamp.entryId, kind, PointReward(kind).value, InventoryMessage(isNewItem, itemName),
                                 ItemMeta(itemName), stamp.timestamp))
    ensures r.points == s.points + if isNewItem then 10 else 6
    ensures r.counters == if isNewItem then s.counters.(essentialsTracked := s.counters.essentialsTracked + 1)
                          else s.counters
  {
    var kind := if isNewItem then InventoryAdd else InventoryRestock;
    var updated := AwardPoints(s, kind, None, InventoryMessage(isNewItem, itemName), ItemMeta(itemName), stamp);
    if isNewItem then
      updated.(counters := updated.counters.(essentialsTracked := updated.counters.essentialsTracked + 1))
    else updated
  }

  function BillMessage(billName: string): string {
    "\U{1F4A1} Earned " + IntToString(BillPaidOnTimePoints) + " points for paying " + billName + " on time."
  }

  /** `registerBillPaid(state, { billName, onTime })`: a late payment changes
      nothing; an on-time one earns 15 points and counts. */
  function RegisterBillPaid(s: GameState, billName: string, onTime: bool, stamp: Stamp): (r: GameState)
    ensures !onTime ==> r == s
    ensures onTime ==>
              && Awarded(s, r.(counters := s.counters),
                         HistoryEntry(stamp.entryId, BillPaidOnTime, 15, BillMessage(billName), BillMeta(billName), stamp.timestamp))
              && r.counters == s.counters.(billsPaidOnTime := s.counters.billsPaidOnTime + 1)
  {
    if onTime then
      var updated := AwardPoints(s, BillPaidOnTime, None, BillMessage(billName), BillMeta(billName), stamp);
      updated.(counters := updated.counters.(billsPaidOnTime := updated.counters.billsPaidOnTime + 1))
    else s
  }

  const ReminderMessage := "\U{1F3AF} Earned " + IntToString(ReminderResponsePoints) + " points for acting on a reminder."

  /** `registerReminderResponse(state)`: earns 8 points and records when the
      reminder was acknowledged. */
  function RegisterReminderResponse(s: GameState, stamp: Stamp): (r: GameState)
    ensures Awarded(s, r.(lastReminderAcknowledged := s.lastReminderAcknowledged),
                    HistoryEntry(stamp.entryId, ReminderResponse, 8, ReminderMessage, NoMetadata, stamp.timestamp))
    ensures r.lastReminderAcknowledged == Some(stamp.timestamp)
  {
    var updated := AwardPoints(s, ReminderResponse, None, ReminderMessage, NoMetadata, stamp);
    updated.(lastReminderAcknowledged := Some(stamp.timestamp))
  }

  // ----- Badges -----

  const UtilityMaster := "Utility Master"
  const PreparednessPro := "Preparedness Pro"
  const ResilientHousehold := "Resilient Household"

  /** `[...new Set(bs)]`: first occurrences, in order. */
  function Dedup(bs: seq<string>): (r: seq<string>)
    ensures NoDuplicates(r)
    ensures forall b :: b in r <==> b in bs
    ensures NoDuplicates(bs) ==> r == bs
    decreases |bs|
  {
    if bs == [] then []
    else
      var init := Dedup(bs[..|bs| - 1]);
      assert bs == bs[..|bs| - 1] + [bs[|bs| - 1]];
      if bs[|bs| - 1] in init then init else init + [bs[|bs| - 1]]
  }

  /** `if (earned) set.add(b)` on an insertion-ordered set: `b` is appended
      when it is earned and not there yet. */
  function AddIf(bs: seq<string>, earned: bool, b: string): (r: seq<string>)
    requires NoDuplicates(bs)
    ensures NoDuplicates(r)
    ensures bs <= r
    ensures forall x :: x in r <==> x in bs || (earned && x == b)
  {
    if earned && b !in bs then bs + [b] else bs
  }

  /** The unrounded days an item lasts, as the badge rule computes it:
      `item.dailyUsage > 0 ? item.quantity / item.dailyUsage : Infinity`. */
  function RawDaysLeft(item: InventoryItem): JsNum {
    if item.dailyUsage.Positive() then DivPositive(item.quantity, item.dailyUsage) else PosInf
  }

  /** Every low item still has at least two (unrounded) days left. */
  predicate LowItemsAllHealthy(inventory: seq<InventoryItem>) {
    forall item | item in GetLowInventoryItems(inventory) :: RawDaysLeft(item).AtLeast(2.0)
  }

  predicate EarnsUtilityMaster(s: GameState) { s.counters.billsPaidOnTime >= 3 }
  predicate EarnsPreparednessPro(inventory: seq<InventoryItem>) { LowItemsAllHealthy(inventory) && |inventory| > 0 }
  predicate EarnsResilientHousehold(s: GameState) { s.counters.essentialsTracked >= 10 }

  /** `evaluateBadges(state, inventory, bills)`: the badge list only grows,
      keeps its order, has no repeats, and gains exactly the badges whose
      rules now hold. The bills argument is accepted and not consulted. */
  function EvaluateBadges(s: GameState, inventory: seq<InventoryItem>, bills: seq<Bill>): (r: GameState)
    ensures r == s.(badges := r.badges)
    ensures NoDuplicates(r.badges)
    ensures Dedup(s.badges) <= r.badges
    ensures forall b :: b in r.badges <==>
              || b in s.badges
              || (b == UtilityMaster && EarnsUtilityMaster(s))
              || (b == PreparednessPro && EarnsPreparednessPro(inventory))
              || (b == ResilientHousehold && EarnsResilientHousehold(s))
  {
    var b1 := AddIf(Dedup(s.badges), EarnsUtilityMaster(s), UtilityMaster);
    var b2 := AddIf(b1, EarnsPreparednessPro(inventory), PreparednessPro);
    var b3 := AddIf(b2, EarnsResilientHousehold(s), ResilientHousehold);
    s.(badges := b3)
  }

  /** Running the badge rules twice is the same as running them once. */
  lemma EvaluateBadgesIdempotent(s: GameState, inventory: seq<InventoryItem>, bills: seq<Bill>)
    ensures EvaluateBadges(EvaluateBadges(s, inventory, bills), inventory, bills) == EvaluateBadges(s, inventory, bills)
  {
    var r := EvaluateBadges(s, inventory, bills);
    assert Dedup(r.badges) == r.badges;
  }

  /** "Preparedness Pro" compares the unrounded ratio with 2 although the low
      filter rounds: 0.196 units at 0.1 a day rounds to 2.0 days, yet misses
      the floor. */
  lemma RoundedTwoIsNotEnough()
    ensures var item := InventoryItem("w", "Water", Fin(0.196), "l", Fin(0.1), None, None, None);
            && CalculateDaysLeft(item.quantity, item.dailyUsage) == Days(2.0)
            && !EarnsPreparednessPro([item])
  {
    var item := InventoryItem("w", "Water", Fin(0.196), "l", Fin(0.1), None, None, None);
    assert Round(0.196 / 0.1 * 10.0) == 20;
    assert IsLow(item);
    assert item in GetLowInventoryItems([item]);
  }

  // ----- Streak -----

  /** `updateStreak(state, { hasIssues })` on day `today`: at most once a day;
      otherwise the streak resets on issues and grows by one without them,
      the best streak is the running maximum, and the prepared-days counter
      follows along. */
  function UpdateStreak(s: GameState, hasIssues: bool, today: int): (r: GameState)
    ensures s.streak.lastEvaluatedDate == Some(today) ==> r == s
    ensures s.streak.lastEvaluatedDate != Some(today) ==>
              && r.streak.current == (if hasIssues then 0 else s.streak.current + 1)
              && r.streak.best == Max(s.streak.best, r.streak.current)
              && r.counters == s.counters.(consecutivePreparedDays :=
                                             if hasIssues then 0 else s.counters.consecutivePreparedDays + 1)
              && r == s.(streak := r.streak, counters := r.counters)
    ensures r.streak.lastEvaluatedDate == Some(today)
  {
    if s.streak.lastEvaluatedDate == Some(today) then s
    else
      var current := if hasIssues then 0 else s.streak.current + 1;
      var best := Max(s.streak.best, current);
      var counters := s.counters.(consecutivePreparedDays :=
                                    if hasIssues then 0 else s.counters.consecutivePreparedDays + 1);
      s.(streak := Streak(current, best, Some(today)), counters := counters)
  }

  /** A second evaluation on the same day changes nothing, whatever it is told. */
  lemma StreakOncePerDay(s: GameState, first: bool, second: bool, today: int)
    ensures UpdateStreak(UpdateStreak(s, first, today), second, today) == UpdateStreak(s, first, today)
  {
  }

  const StreakStartMessage := "\U{2705} Let's start a new streak today!"
  const StreakLead := "\U{1F525} "
  const StreakTail := "-day streak: No overdue bills or critical shortages!"

  /** `getStreakMessage(state)` */
  function GetStreakMessage(s: GameState): (m: string)
    ensures s.streak.current == 0 ==> m == StreakStartMessage
    ensures s.streak.current != 0 ==> m == StreakLead + (IntToString(s.streak.current) + StreakTail)
  {
    if s.streak.current == 0 then StreakStartMessage
    else StreakLead + (IntToString(s.streak.current) + StreakTail)
  }

  /** The message tells streaks apart: different streak lengths never give
      the same message. */
  lemma StreakMessageInjective(s1: GameState, s2: GameState)
    requires GetStreakMessage(s1) == GetStreakMessage(s2)
    ensures s1.streak.current == s2.streak.current
  {
    var a, b := s1.streak.current, s2.streak.current;
    if a != 0 && b != 0 {
      SamePrefix(StreakLead, IntToString(a) + StreakTail, IntToString(b) + StreakTail);
      SameSuffix(IntToString(a), IntToString(b), StreakTail);
      IntToStringInjective(a, b);
    }
  }

  // ----- Household health -----

  datatype HealthStatus = Secure | Watch | Danger

  datatype Health = Health(score: int, status: HealthStatus, colorClass: string)

  /** Bills whose due date is in the past (`daysUntil(bill.dueDate) < 0`). */
  function OverdueBills(bills: seq<Bill>, cal: Calendar): (r: seq<Bill>)
    ensures forall i :: 0 <= i < |r| ==> r[i] in bills && DaysUntil(r[i].dueDate, cal).IsPast()
    ensures forall i :: 0 <= i < |bills| && DaysUntil(bills[i].dueDate, cal).IsPast() ==> bills[i] in r
    ensures forall x :: multiset(r)[x] == if DaysUntil(x.dueDate, cal).IsPast() then multiset(bills)[x] else 0
    ensures IsSubsequence(r, bills)
  {
    FilterMultiplicity(bills, (b: Bill) => DaysUntil(b.dueDate, cal).IsPast());
    Filter(bills, (b: Bill) => DaysUntil(b.dueDate, cal).IsPast())
  }

  function ColorClass(status: HealthStatus): string {
    match status
    case Secure => "bg-green-500"
    case Watch => "bg-amber-400"
    case Danger => "bg-red-500"
  }

  /** The score for a number of low items and overdue bills, and its status. */
  function HealthFor(lowCount: nat, overdueCount: nat): (h: Health)
    ensures 0 <= h.score <= 100
    ensures h.score == Max(0, 100 - 12 * lowCount - 18 * overdueCount)
    ensures h.status == Danger <==> h.score < 35
    ensures h.status == Watch <==> 35 <= h.score < 70
    ensures h.status == Secure <==> h.score >= 70
    ensures h.colorClass == ColorClass(h.status)
  {
    var raw := 100 - lowCount * 12 - overdueCount * 18;
    var score := Max(0, Min(100, Round(raw as real)));
    var status := if score < 35 then Danger else if score < 70 then Watch else Secure;
    Health(score, status, ColorClass(status))
  }

  /** `calculateHouseholdHealth(inventory, bills)` */
  function CalculateHouseholdHealth(inventory: seq<InventoryItem>, bills: seq<Bill>, cal: Calendar): (h: Health)
    ensures 0 <= h.score <= 100
    ensures h.score == Max(0, 100 - 12 * |GetLowInventoryItems(inventory)| - 18 * |OverdueBills(bills, cal)|)
    ensures h.status == Danger <==> h.score < 35
    ensures h.status == Watch <==> 35 <= h.score < 70
    ensures h.status == Secure <==> h.score >= 70
    ensures h.colorClass == ColorClass(h.status)
  {
    HealthFor(|GetLowInventoryItems(inventory)|, |OverdueBills(bills, cal)|)
  }

  /** Two low items and one overdue bill: 100 - 24 - 18 = 58, "watch". */
  lemma HealthScenario(inventory: seq<InventoryItem>, bills: seq<Bill>, cal: Calendar)
    requires |GetLowInventoryItems(inventory)| == 2 && |OverdueBills(bills, cal)| == 1
    ensures CalculateHouseholdHealth(inventory, bills, cal) == Health(58, Watch, "bg-amber-400")
  {
  }

  /** More low items or overdue bills never raise the score. */
  lemma HealthMonotone(low1: nat, overdue1: nat, low2: nat, overdue2: nat)
    requires low1 <= low2 && overdue1 <= overdue2
    ensures HealthFor(low2, overdue2).score <= HealthFor(low1, overdue1).score
  {
  }

  // ----- The engine as a whole -----

  /** One call into the engine. */
  datatype EngineEvent =
    | InventoryEvent(isNewItem: bool, itemName: string, stamp: Stamp)
    | BillPaid(billName: string, onTime: bool, stamp: Stamp)
    | ReminderAnswered(stamp: Stamp)
    | BadgeCheck(inventory: seq<InventoryItem>, bills: seq<Bill>)
    | StreakCheck(hasIssues: bool, today: int)

  function Apply(s: GameState, e: EngineEvent): GameState {
    match e
    case InventoryEvent(isNewItem, itemName, stamp) => RegisterInventoryEvent(s, isNewItem, itemName, stamp)
    case BillPaid(billName, onTime, stamp) => RegisterBillPaid(s, billName, onTime, stamp)
    case ReminderAnswered(stamp) => RegisterReminderResponse(s, stamp)
    case BadgeCheck(inventory, bills) => EvaluateBadges(s, inventory, bills)
    case StreakCheck(hasIssues, today) => UpdateStreak(s, hasIssues, today)
  }

  /** The state after a sequence of calls, oldest first. */
  function Run(s: GameState, events: seq<EngineEvent>): GameState
    decreases |events|
  {
    if events == [] then s else Run(Apply(s, events[0]), events[1..])
  }

  /** `r` follows `s`: points never fall, no badge is taken away, and the
      counters of payments and tracked essentials never fall. */
  ghost predicate Progressed(s: GameState, r: GameState) {
    && s.points <= r.points
    && (forall b :: b in s.badges ==> b in r.badges)
    && s.counters.billsPaidOnTime <= r.counters.billsPaidOnTime
    && s.counters.essentialsTracked <= r.counters.essentialsTracked
  }

  /** Every single call keeps the engine's invariants and only moves forward. */
  lemma ApplyKeepsConsistent(s: GameState, e: EngineEvent)
    requires Consistent(s)
    ensures Consistent(Apply(s, e))
    ensures Progressed(s, Apply(s, e))
  {
    match e
    case InventoryEvent(isNewItem, itemName, stamp) => {
      var kind := if isNewItem then InventoryAdd else InventoryRestock;
      assert PointReward(kind).value > 0;
    }
    case BillPaid(billName, onTime, stamp) => { }
    case ReminderAnswered(stamp) => { }
    case BadgeCheck(inventory, bills) => { }
    case StreakCheck(hasIssues, today) => { }
  }

  /** Any sequence of calls from a consistent state keeps the invariants and
      only moves forward. */
  lemma {:induction false} RunKeepsConsistent(s: GameState, events: seq<EngineEvent>)
    requires Consistent(s)
    ensures Consistent(Run(s, events))
    ensures Progressed(s, Run(s, events))
    decreases |events|
  {
    if events != [] {
      ApplyKeepsConsistent(s, events[0]);
      RunKeepsConsistent(Apply(s, events[0]), events[1..]);
    }
  }

  /** 45 points are still the first level. */
  lemma LevelAt45()
    ensures LevelForPoints(45) == "Bronze Caretaker"
  {
    var i :| IsTierOf(i, 45) && LevelForPoints(45) == Levels[i].name;
    TierUnique(i, 0, 45);
  }

  /** From the initial state, three on-time payments and a badge check give
      45 points, the first level and "Utility Master". */
  lemma ThreePaymentsEarnUtilityMaster(name: string, s1: Stamp, s2: Stamp, s3: Stamp,
                                       inventory: seq<InventoryItem>, bills: seq<Bill>)
    ensures var g3 := RegisterBillPaid(RegisterBillPaid(RegisterBillPaid(InitialGamificationState, name, true, s1),
                                                        name, true, s2), name, true, s3);
            var r := EvaluateBadges(g3, inventory, bills);
            && r.points == 45
            && r.level == "Bronze Caretaker"
            && |r.history| == 3
            && UtilityMaster in r.badges
  {
    var g1 := RegisterBillPaid(InitialGamificationState, name, true, s1);
    assert g1.points == 15 && g1.counters.billsPaidOnTime == 1 && |g1.history| == 1;
    var g2 := RegisterBillPaid(g1, name, true, s2);
    assert g2.points == 30 && g2.counters.billsPaidOnTime == 2 && |g2.history| == 2;
    var g3 := RegisterBillPaid(g2, name, true, s3);
    assert g3.points == 45 && g3.counters.billsPaidOnTime == 3 && |g3.history| == 3;
    LevelAt45();
  }
}
