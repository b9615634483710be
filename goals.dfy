/** The goals screen's rules (src/components/Goals.jsx): progress
    statistics, category lookup, the list order and which submissions become
    goals. */
module Goals {
  import opened JsValues
  import opened Text
  import opened Lists
  import opened Records

  // ----- Categories -----

  datatype CategoryOption = CategoryOption(value: string, name: string, icon: string)

  const CategoryOptions: seq<CategoryOption> := [
    CategoryOption("fitness", "Fitness", "\U{1F4AA}"),
    CategoryOption("reading", "Reading", "\U{1F4DA}"),
    CategoryOption("savings", "Savings", "\U{1F4B0}"),
    CategoryOption("mindfulness", "Mindfulness", "\U{1F9D8}\U{200D}\U{2640}\U{FE0F}"),
    CategoryOption("custom", "Custom", "\U{2728}")
  ]

  const CadenceValues: seq<string> := ["daily", "weekly", "monthly"]

  /** `CATEGORY_OPTIONS.find(...)` over the options from `k` on. */
  function FindCategory(value: string, k: nat): (r: Option<CategoryOption>)
    requires k <= |CategoryOptions|
    ensures r.Some? ==> r.value.value == value && r.value in CategoryOptions[k..]
    ensures r.None? ==> forall o :: o in CategoryOptions[k..] ==> o.value != value
    decreases |CategoryOptions| - k
  {
    if k == |CategoryOptions| then None
    else if CategoryOptions[k].value == value then Some(CategoryOptions[k])
    else FindCategory(value, k + 1)
  }

  /** `getCategoryMeta(value)`: the option with that value, or the last
      option ("custom") for an unknown one. */
  function GetCategoryMeta(value: string): (o: CategoryOption)
    ensures o in CategoryOptions
    ensures (exists c :: c in CategoryOptions && c.value == value) ==> o.value == value
    ensures (forall c :: c in CategoryOptions ==> c.value != value) ==> o == CategoryOptions[|CategoryOptions| - 1]
  {
    FindCategory(value, 0).GetOr(CategoryOptions[|CategoryOptions| - 1])
  }

  /** An unknown category is shown as "Custom". */
  lemma UnknownCategoryIsCustom()
    ensures GetCategoryMeta("gardening") == CategoryOption("custom", "Custom", "\U{2728}")
    ensures GetCategoryMeta("reading").name == "Reading"
  {
    assert FindCategory("reading", 0) == Some(CategoryOptions[1]);
  }

  // ----- Progress -----

  /** A goal. `target`, `progress` and `streak` are numbers; the two
      completion fields are kept as stored. */
  datatype Goal = Goal(
    id: string,
    name: string,
    category: string,
    cadence: string,
    target: JsNum,
    unit: string,
    progress: JsNum,
    streak: JsNum,
    lastCompletedDate: Option<string>,
    lastCompletionPeriod: Option<string>,
    createdAt: Option<string>,
    updatedAt: Option<string>)

  datatype GoalStatus = Setup | Behind | OnTrack | Complete

  /** What `getProgressStats` returns; a ratio or percent of None is NaN. */
  datatype ProgressStats = ProgressStats(ratio: Option<real>, percent: Option<int>, status: GoalStatus)

  /** `Math.max(0, Math.min(1, progress / target))` for a target that is a
      positive finite number: None when the quotient is NaN. */
  function ClampedRatio(progress: JsNum, target: real): (r: Option<real>)
    requires target > 0.0
    ensures r.None? <==> progress.NaN?
    ensures r.Some? ==> 0.0 <= r.value <= 1.0
    ensures progress.Fin? && 0.0 <= progress.r <= target ==> r == Some(progress.r / target)
    ensures progress.PosInf? || (progress.Fin? && progress.r >= target) ==> r == Some(1.0)
    ensures progress.NegInf? || (progress.Fin? && progress.r <= 0.0) ==> r == Some(0.0)
  {
    match progress
    case Fin(p) =>
      var q := p / target;
      assert p <= 0.0 ==> q <= 0.0;
      assert p >= target ==> q >= 1.0;
      assert 0.0 <= p <= target ==> 0.0 <= q <= 1.0;
      Some(if q < 0.0 then 0.0 else if q > 1.0 then 1.0 else q)
    case PosInf => Some(1.0)
    case NegInf => Some(0.0)
    case NaN => None
  }

  /** `getProgressStats(goal)` */
  function GetProgressStats(goal: Goal): (st: ProgressStats)
    ensures st.status == Setup <==> !goal.target.IsFinite() || goal.target.r <= 0.0
    ensures st.status == Setup ==> st == ProgressStats(Some(0.0), Some(0), Setup)
    ensures st.ratio.Some? ==> 0.0 <= st.ratio.value <= 1.0
    ensures st.percent.Some? ==> 0 <= st.percent.value <= 100
    ensures st.status != Setup ==> st.ratio == ClampedRatio(goal.progress, goal.target.r)
    ensures st.status != Setup && st.ratio.Some? ==> st.percent == Some(Round(st.ratio.value * 100.0))
    ensures st.ratio.None? <==> st.percent.None?
    ensures st.status == Complete <==> st.percent.Some? && st.percent.value >= 100 && st.status != Setup
    ensures st.status == Behind <==> st.percent.Some? && st.percent.value < 50 && st.status != Setup
    ensures st.ratio.None? ==> st.status == OnTrack
  {
    if !goal.target.IsFinite() || goal.target.r <= 0.0 then ProgressStats(Some(0.0), Some(0), Setup)
    else
      var ratio := ClampedRatio(goal.progress, goal.target.r);
      var percent := if ratio.Some? then Some(Round(ratio.value * 100.0)) else None;
      var status :=
        if percent.Some? && percent.value >= 100 then Complete
        else if percent.Some? && percent.value < 50 then Behind
        else OnTrack;
      ProgressStats(ratio, percent, status)
  }

  /** `Math.round` makes a goal 99.5% done count as complete, and one 49.5%
      done count as on track. */
  lemma RoundingAtTheThresholds(goal: Goal)
    requires goal.target == Fin(200.0)
    ensures goal.progress == Fin(199.0) ==> GetProgressStats(goal).status == Complete
    ensures goal.progress == Fin(99.0) ==> GetProgressStats(goal).status == OnTrack
  {
    if goal.progress == Fin(199.0) {
      assert ClampedRatio(goal.progress, 200.0) == Some(0.995);
      assert Round(0.995 * 100.0) == 100;
    }
    if goal.progress == Fin(99.0) {
      assert ClampedRatio(goal.progress, 200.0) == Some(0.495);
      assert Round(0.495 * 100.0) == 50;
    }
  }

  /** The sort key of `sortedGoals`: the ratio; a NaN ratio is keyed as 0. */
  function RatioKey(goal: Goal): (k: Key)
    ensures k.Finite? && 0.0 <= k.v <= 1.0
    ensures GetProgressStats(goal).ratio.Some? ==> k == Finite(GetProgressStats(goal).ratio.value)
  {
    Finite(GetProgressStats(goal).ratio.GetOr(0.0))
  }

  /** `sortedGoals`: a copy holding the same goals, least progress first. */
  function SortedGoals(goals: seq<Goal>): (r: seq<Goal>)
    ensures multiset(r) == multiset(goals)
    ensures forall i, j :: 0 <= i < j < |r| ==> RatioKey(r[i]).v <= RatioKey(r[j]).v
  {
    var r := SortBy(goals, RatioKey);
    assert forall i, j :: 0 <= i < j < |r| ==> KeyLe(RatioKey(r[i]), RatioKey(r[j]));
    r
  }

  // ----- The form -----

  /** The form's fields; `target` holds what `Number(...)` makes of the text,
      `progress` and `streak` are present only on a form opened for editing. */
  datatype GoalForm = GoalForm(
    id: Option<string>,
    name: string,
    category: string,
    cadence: string,
    target: JsNum,
    unit: string,
    progress: Option<JsNum>,
    streak: Option<JsNum>,
    lastCompletedDate: Option<string>,
    lastCompletionPeriod: Option<string>,
    createdAt: Option<string>)

  const NameRequired := "Goal name is required."
  const TargetInvalid := "Target must be greater than zero."

  /** `handleSubmit`: the guards in order, then the payload. A new goal
      starts with no progress and no streak; an edited one keeps both. */
  function SubmitGoal(form: GoalForm, newId: string, now: string): (s: Submission<Goal>)
    ensures s == Rejected(NameRequired) <==> Trim(form.name) == ""
    ensures s == Rejected(TargetInvalid) <==>
              Trim(form.name) != "" && (!form.target.IsFinite() || form.target.r <= 0.0)
    ensures s.Accepted? <==> Trim(form.name) != "" && form.target.IsFinite() && form.target.r > 0.0
    ensures s.Accepted? ==>
              && s.payload.id == form.id.GetOr(newId)
              && s.payload.name == Trim(form.name) && s.payload.name != ""
              && s.payload.unit == Trim(form.unit)
              && s.payload.category == form.category && s.payload.cadence == form.cadence
              && s.payload.target == form.target && s.payload.target.IsFinite() && s.payload.target.r > 0.0
              && s.payload.progress == (if Truthy(form.id) then form.progress.GetOr(Fin(0.0)) else Fin(0.0))
              && s.payload.streak == (if Truthy(form.id) then form.streak.GetOr(Fin(0.0)) else Fin(0.0))
              && s.payload.lastCompletedDate == form.lastCompletedDate
              && s.payload.lastCompletionPeriod == form.lastCompletionPeriod
              && s.payload.createdAt == (if Truthy(form.id) then form.createdAt else Some(now))
              && s.payload.updatedAt == Some(now)
    ensures s.Accepted? ==> GetProgressStats(s.payload).status != Setup
  {
    if Trim(form.name) == "" then Rejected(NameRequired)
    else if !form.target.IsFinite() || form.target.r <= 0.0 then Rejected(TargetInvalid)
    else
      var editing := Truthy(form.id);
      Accepted(Goal(
        form.id.GetOr(newId),
        Trim(form.name),
        form.category,
        form.cadence,
        form.target,
        Trim(form.unit),
        if editing then form.progress.GetOr(Fin(0.0)) else Fin(0.0),
        if editing then form.streak.GetOr(Fin(0.0)) else Fin(0.0),
        form.lastCompletedDate,
        form.lastCompletionPeriod,
        if editing then form.createdAt else Some(now),
        Some(now)))
  }

  /** The confirmation shown after a successful submission. */
  function Confirmation(form: GoalForm): (m: string)
    ensures Truthy(form.id) <==> m == "Goal updated."
    ensures !Truthy(form.id) <==> m == "Goal added to your missions."
  {
    if Truthy(form.id) then "Goal updated." else "Goal added to your missions."
  }

  /** A new goal starts from zero, whatever the form carried. */
  lemma NewGoalStartsAtZero(form: GoalForm, newId: string, now: string)
    requires form.id.None? && SubmitGoal(form, newId, now).Accepted?
    ensures SubmitGoal(form, newId, now).payload.progress == Fin(0.0)
    ensures SubmitGoal(form, newId, now).payload.streak == Fin(0.0)
    ensures GetProgressStats(SubmitGoal(form, newId, now).payload) == ProgressStats(Some(0.0), Some(0), Behind)
  {
    var g := SubmitGoal(form, newId, now).payload;
    assert ClampedRatio(g.progress, g.target.r) == Some(0.0);
  }

  /** `handleEdit(goal)`: the form filled from a stored goal. */
  function EditGoalForm(goal: Goal): (f: GoalForm)
    ensures f.id == Some(goal.id) && f.name == goal.name && f.unit == goal.unit && f.target == goal.target
    ensures f.progress == Some(goal.progress) && f.streak == Some(goal.streak)
    ensures f.category == goal.category && f.cadence == goal.cadence && f.createdAt == goal.createdAt
  {
    GoalForm(Some(goal.id), goal.name, goal.category, goal.cadence, goal.target, goal.unit,
             Some(goal.progress), Some(goal.streak), goal.lastCompletedDate, goal.lastCompletionPeriod,
             goal.createdAt)
  }

  /** What a stored goal looks like when it came from the form. */
  predicate WellFormed(goal: Goal) {
    && goal.id != ""
    && goal.name != "" && Trim(goal.name) == goal.name
    && Trim(goal.unit) == goal.unit
    && goal.target.IsFinite() && goal.target.r > 0.0
  }

  /** Every accepted submission is well formed. */
  lemma AcceptedIsWellFormed(form: GoalForm, newId: string, now: string)
    requires form.id.Some? ==> form.id.value != ""
    requires newId != ""
    requires SubmitGoal(form, newId, now).Accepted?
    ensures WellFormed(SubmitGoal(form, newId, now).payload)
  {
    var p := SubmitGoal(form, newId, now).payload;
    assert p.name == Trim(form.name) && p.unit == Trim(form.unit);
    TrimIdempotent(form.name);
    TrimIdempotent(form.unit);
    assert Trim(p.name) == p.name && Trim(p.unit) == p.unit;
  }

  /** Editing a well-formed goal and submitting the form unchanged keeps the
      goal, its progress and streak included; only the update time is
      renewed. */
  lemma EditThenSubmit(goal: Goal, newId: string, now: string)
    requires WellFormed(goal)
    ensures SubmitGoal(EditGoalForm(goal), newId, now) == Accepted(goal.(updatedAt := Some(now)))
  {
    var form := EditGoalForm(goal);
    assert Truthy(form.id);
  }
}
