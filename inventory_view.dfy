/** The inventory screen's rules (src/components/Inventory.jsx): which form
    submissions become items, the list order, and how a location is shown. */
module InventoryView {
  import opened JsValues
  import opened Text
  import opened Lists
  import opened Calculations
  import opened Records
  import opened Reminders

  // ----- Locations -----

  datatype LocationOption = LocationOption(value: string, name: string, icon: string)

  /** The "other" icon, which also marks unassigned and unknown locations. */
  const OtherIcon := "\U{F0}\U{178}\U{201C}\U{A6}"

  const LocationOptions: seq<LocationOption> := [
    LocationOption("pantry", "Pantry", "\U{F0}\U{178}\U{A5}\U{AB}"),
    LocationOption("fridge", "Fridge", "\U{F0}\U{178}\U{A7}\U{160}"),
    LocationOption("freezer", "Freezer", "\U{E2}\U{201E}\U{EF}\U{B8}"),
    LocationOption("other", "Other", OtherIcon)
  ]

  /** `LOCATION_OPTIONS.find((option) => option.value === value)` over the
      options from `k` on. */
  function FindLocation(value: string, k: nat): (r: Option<LocationOption>)
    requires k <= |LocationOptions|
    ensures r.Some? ==> r.value.value == value && r.value in LocationOptions[k..]
    ensures r.None? ==> forall o :: o in LocationOptions[k..] ==> o.value != value
    decreases |LocationOptions| - k
  {
    if k == |LocationOptions| then None
    else if LocationOptions[k].value == value then Some(LocationOptions[k])
    else FindLocation(value, k + 1)
  }

  /** `getLocationDisplay(value)`: "Unassigned" for an absent or empty value,
      the option's icon and label for a known one, the raw value otherwise. */
  function GetLocationDisplay(value: Option<string>): (r: string)
    ensures !Truthy(value) ==> r == OtherIcon + " Unassigned"
    ensures Truthy(value) && (exists o :: o in LocationOptions && o.value == value.value) ==>
              exists o :: o in LocationOptions && o.value == value.value && r == o.icon + " " + o.name
    ensures Truthy(value) && (forall o :: o in LocationOptions ==> o.value != value.value) ==>
              r == OtherIcon + " " + value.value
  {
    if !Truthy(value) then OtherIcon + " Unassigned"
    else match FindLocation(value.value, 0)
      case Some(o) => o.icon + " " + o.name
      case None => OtherIcon + " " + value.value
  }

  /** A known location shows its icon and label. */
  lemma KnownLocationDisplay()
    ensures LocationOptions[1].name == "Fridge"
    ensures GetLocationDisplay(Some("fridge")) == LocationOptions[1].icon + " " + LocationOptions[1].name
  {
    assert LocationOptions[0].value[0] == 'p';
    assert FindLocation("fridge", 0) == Some(LocationOptions[1]);
  }

  /** An unknown location shows the "other" icon and the raw value. */
  lemma UnknownLocationDisplay()
    ensures GetLocationDisplay(Some("garage")) == OtherIcon + " garage"
  {
    assert FindLocation("garage", 0) == None;
  }

  /** An empty location reads like a missing one. */
  lemma EmptyLocationDisplay()
    ensures GetLocationDisplay(Some("")) == GetLocationDisplay(None) == OtherIcon + " Unassigned"
  {
  }

  // ----- The list -----

  /** The sort key: `calculateDaysLeft`, with Infinity last. */
  function DaysKey(item: InventoryItem): (k: Key)
    ensures k.Infinite? <==> CalculateDaysLeft(item.quantity, item.dailyUsage).Unlimited?
  {
    match CalculateDaysLeft(item.quantity, item.dailyUsage)
    case Days(d) => Finite(d)
    case Unlimited => Infinite
  }

  /** `sortByDaysLeft(items)`: a copy holding the same items, soonest to run
      out first. */
  function SortByDaysLeft(items: seq<InventoryItem>): (r: seq<InventoryItem>)
    ensures multiset(r) == multiset(items)
    ensures forall i, j :: 0 <= i < j < |r| ==> KeyLe(DaysKey(r[i]), DaysKey(r[j]))
    ensures |r| == |items|
  {
    var r := SortBy(items, DaysKey);
    assert |r| == |multiset(r)| == |multiset(items)| == |items|;
    r
  }

  /** A sorted list shows every low item before every item that is not low
      and will not run out. */
  lemma LowItemsComeFirst(items: seq<InventoryItem>, i: int, j: int)
    requires 0 <= i < |SortByDaysLeft(items)| && 0 <= j < |SortByDaysLeft(items)|
    requires IsLow(SortByDaysLeft(items)[j]) && !IsLow(SortByDaysLeft(items)[i])
    ensures j < i
  {
  }

  /** The row's warning flag: `Number.isFinite(daysLeft) && daysLeft < 3`. */
  predicate RowIsLow(item: InventoryItem) {
    var d := CalculateDaysLeft(item.quantity, item.dailyUsage);
    d.Days? && d.days < 3.0
  }

  /** The row's icons, as the source text spells them. */
  const LowRowIcon := "\U{E2}\U{161}\U{A0}\U{EF}\U{B8}"
  const HealthyRowIcon := "\U{E2}\U{153}\U{2026}"

  /** The row's urgency icon: a warning for a low row, a check mark otherwise. */
  function RowEmoji(item: InventoryItem): (e: string)
    ensures e == LowRowIcon <==> RowIsLow(item)
    ensures e == HealthyRowIcon <==> !RowIsLow(item)
  {
    if RowIsLow(item) then LowRowIcon else HealthyRowIcon
  }

  /** A row is flagged exactly when the item is among the low items. */
  lemma RowFlagAgrees(items: seq<InventoryItem>, i: int)
    requires 0 <= i < |items|
    ensures RowIsLow(items[i]) <==> items[i] in GetLowInventoryItems(items)
  {
    var low := GetLowInventoryItems(items);
    if items[i] in low {
      var k :| 0 <= k < |low| && low[k] == items[i];
    }
  }

  // ----- The form -----

  /** The form's fields. The numeric fields hold what `Number(...)` makes of
      the text typed into them. */
  datatype ItemForm = ItemForm(
    id: Option<string>,
    name: string,
    quantity: JsNum,
    unit: string,
    dailyUsage: JsNum,
    location: string,
    createdAt: Option<string>)

  const NameRequired := "Name is required."
  const QuantityInvalid := "Quantity must be a non-negative number."
  const UsageInvalid := "Daily usage must be greater than zero."

  /** `handleSubmit`: the guards in order, then the payload. `newId` stands
      for a fresh id and `now` for the current time as ISO text. */
  function SubmitItem(form: ItemForm, newId: string, now: string): (s: Submission<InventoryItem>)
    ensures s == Rejected(NameRequired) <==> Trim(form.name) == ""
    ensures s == Rejected(QuantityInvalid) <==>
              Trim(form.name) != "" && (!form.quantity.IsFinite() || form.quantity.r < 0.0)
    ensures s == Rejected(UsageInvalid) <==>
              && Trim(form.name) != "" && form.quantity.IsFinite() && form.quantity.r >= 0.0
              && (!form.dailyUsage.IsFinite() || form.dailyUsage.r <= 0.0)
    ensures s.Accepted? <==>
              && Trim(form.name) != "" && form.quantity.IsFinite() && form.quantity.r >= 0.0
              && form.dailyUsage.IsFinite() && form.dailyUsage.r > 0.0
    ensures s.Accepted? ==>
              && s.payload.id == form.id.GetOr(newId)
              && s.payload.name == Trim(form.name) && s.payload.name != ""
              && s.payload.unit == Trim(form.unit)
              && s.payload.quantity == form.quantity && s.payload.dailyUsage == form.dailyUsage
              && s.payload.location == Some(if form.location == "" then "other" else form.location)
              && s.payload.createdAt == (if Truthy(form.id) then form.createdAt else Some(now))
              && s.payload.updatedAt == Some(now)
    ensures s.Accepted? ==> CalculateDaysLeft(s.payload.quantity, s.payload.dailyUsage).Days?
  {
    if Trim(form.name) == "" then Rejected(NameRequired)
    else if !form.quantity.IsFinite() || form.quantity.r < 0.0 then Rejected(QuantityInvalid)
    else if !form.dailyUsage.IsFinite() || form.dailyUsage.r <= 0.0 then Rejected(UsageInvalid)
    else
      Accepted(InventoryItem(
        form.id.GetOr(newId),
        Trim(form.name),
        form.quantity,
        Trim(form.unit),
        form.dailyUsage,
        Some(if form.location == "" then "other" else form.location),
        if Truthy(form.id) then form.createdAt else Some(now),
        Some(now)))
  }

  /** `handleEdit(item)`: the form filled from a stored item. */
  function EditItemForm(item: InventoryItem): (f: ItemForm)
    ensures f.id == Some(item.id) && f.name == item.name && f.unit == item.unit
    ensures f.quantity == item.quantity && f.dailyUsage == item.dailyUsage
    ensures f.location == item.location.GetOr("other") && f.createdAt == item.createdAt
  {
    ItemForm(Some(item.id), item.name, item.quantity, item.unit, item.dailyUsage,
             item.location.GetOr("other"), item.createdAt)
  }

  /** What a stored item looks like when it came from the form. */
  predicate WellFormed(item: InventoryItem) {
    && item.id != ""
    && item.name != "" && Trim(item.name) == item.name
    && Trim(item.unit) == item.unit
    && item.quantity.IsFinite() && item.quantity.r >= 0.0
    && item.dailyUsage.IsFinite() && item.dailyUsage.r > 0.0
    && item.location.Some? && item.location.value != ""
  }

  /** Every accepted submission is well formed. */
  lemma {:induction false} AcceptedIsWellFormed(form: ItemForm, newId: string, now: string)
    requires form.id.Some? ==> form.id.value != ""
    requires newId != ""
    requires SubmitItem(form, newId, now).Accepted?
    ensures WellFormed(SubmitItem(form, newId, now).payload)
  {
    var p := SubmitItem(form, newId, now).payload;
    assert p.name == Trim(form.name) && p.unit == Trim(form.unit);
    TrimIdempotent(form.name);
    TrimIdempotent(form.unit);
    assert Trim(p.name) == p.name && Trim(p.unit) == p.unit;
  }

  /** Editing a well-formed item and submitting the form unchanged gives the
      same item back, with only its update time renewed. */
  lemma EditThenSubmit(item: InventoryItem, newId: string, now: string)
    requires WellFormed(item)
    ensures SubmitItem(EditItemForm(item), newId, now) == Accepted(item.(updatedAt := Some(now)))
  {
    var form := EditItemForm(item);
    assert Truthy(form.id) && form.location == item.location.value;
  }

  /** A form with no location stores "other", while loading an item with no
      location gives it "pantry": the two defaults differ. */
  lemma LocationDefaultsDiffer(form: ItemForm, newId: string, now: string)
    requires form.location == "" && SubmitItem(form, newId, now).Accepted?
    ensures SubmitItem(form, newId, now).payload.location == Some("other")
  {
  }
}
