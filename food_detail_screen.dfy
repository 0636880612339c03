/** The decision logic of the food detail screen: the edit fields filled in from
    a loaded item, the field-preserving copy made on save, the status label, and
    the gating of editing and actions on the item not being consumed. */
module FoodDetailScreen {
  import opened Numeric
  import opened Wrappers
  import opened Text
  import opened Entities
  import opened Expiry
  import HomeScreen

  /** The five text fields of the edit form. */
  datatype EditFields = EditFields(name: string, category: string, quantity: string,
                                   unit: string, expirationDays: string)

  /** `maxOf(daysUntilExpiration, 1)`: the day count an expired or same-day item
      is offered for editing. */
  function InitialDays(item: FoodItem, now: Int64): (d: Int32)
    ensures d >= 1
    ensures d >= DaysUntilExpiration(item.expirationDate, now)
    ensures d == DaysUntilExpiration(item.expirationDate, now) || d == 1
  {
    var days := DaysUntilExpiration(item.expirationDate, now);
    if days >= 1 then days else 1
  }

  /** The fields as the loading effect sets them from the item. */
  function InitialEditFields(item: FoodItem, now: Int64): (f: EditFields)
    ensures f.name == item.name && f.category == item.category && f.unit == item.unit
    ensures ParseInt(f.quantity) == Some(item.quantity)
    ensures ParseInt(f.expirationDays) == Some(InitialDays(item, now))
  {
    ParseFormatRoundTrip(item.quantity);
    ParseFormatRoundTrip(InitialDays(item, now));
    EditFields(item.name, item.category, FormatInt(item.quantity), item.unit,
               FormatInt(InitialDays(item, now)))
  }

  /** The item written back on save: a `copy` that takes the trimmed name, the
      category, the parsed quantity (1 when it does not parse), the unit and a new
      expiration from the parsed day count (7 when it does not parse), and keeps
      every other field of the loaded item. */
  function SaveEdits(item: FoodItem, f: EditFields, now: Int64): (r: FoodItem)
    ensures r.id == item.id && r.purchaseDate == item.purchaseDate
    ensures r.isConsumed == item.isConsumed && r.dateConsumed == item.dateConsumed
    ensures r.photoPath == item.photoPath
    ensures r.name == Trim(f.name) && r.category == f.category && r.unit == f.unit
    ensures r.quantity == ParseInt(f.quantity).GetOr(1)
    ensures r.expirationDate == ExpirationAfterDays(now, ParseInt(f.expirationDays).GetOr(7))
  {
    item.(name := Trim(f.name), category := f.category, quantity := ParseInt(f.quantity).GetOr(1),
          unit := f.unit, expirationDate := ExpirationAfterDays(now, ParseInt(f.expirationDays).GetOr(7)))
  }

  /** Saving without touching a field keeps the item, except that the expiration is
      recomputed as whole days from the time of saving, and an item that was
      expired or due today comes back due one day later. */
  lemma SaveUneditedKeepsItem(item: FoodItem, loadedAt: Int64, savedAt: Int64)
    requires Trim(item.name) == item.name
    ensures var r := SaveEdits(item, InitialEditFields(item, loadedAt), savedAt);
      && r == item.(expirationDate := r.expirationDate)
      && r.expirationDate == ExpirationAfterDays(savedAt, InitialDays(item, loadedAt))
      && (DaysUntilExpiration(item.expirationDate, loadedAt) <= 0 ==>
            r.expirationDate == ExpirationAfterDays(savedAt, 1))
  {
  }

  /** The edit and save buttons exist only for a loaded item that is not consumed. */
  predicate CanEdit(item: Option<FoodItem>)
  {
    item.Some? && !item.value.isConsumed
  }

  /** The status line under the item's state: for an item not yet consumed, the
      days left; a consumed item has none. */
  function StatusLabel(item: FoodItem, now: Int64): (status: Option<string>)
    ensures status.None? <==> item.isConsumed
  {
    if item.isConsumed then None
    else
      var days := DaysUntilExpiration(item.expirationDate, now);
      Some(if days > 0 then FormatInt(days) + " days left"
           else if days == 0 then "Expires today"
           else "Expired " + FormatInt(Wrap32(-(days as int))) + " days ago")
  }

  /** The status line is in bold error colour when three days or fewer are left. */
  predicate StatusEmphasised(item: FoodItem, now: Int64)
  {
    !item.isConsumed && DaysUntilExpiration(item.expirationDate, now) <= 3
  }

  /** The detail screen agrees with the home card: the same emphasis, and for an
      item due today or expired, the very same words. */
  lemma StatusAgreesWithCard(item: FoodItem, now: Int64)
    requires !item.isConsumed
    ensures var days := DaysUntilExpiration(item.expirationDate, now);
      && (StatusEmphasised(item, now) <==> HomeScreen.IsExpiringSoon(days))
      && (days <= 0 ==> StatusLabel(item, now) == Some(HomeScreen.ExpiryLabel(days)))
  {
  }

  /** Only the "N days left" form ends in 't'. */
  lemma StatusLabelLastChar(item: FoodItem, now: Int64)
    requires !item.isConsumed
    ensures var l := StatusLabel(item, now).value;
      |l| > 10 && (l[|l| - 1] == 't' <==> DaysUntilExpiration(item.expirationDate, now) > 0)
  {
  }

  /** The status line names the day count it was made from: two items whose lines
      read the same have the same number of days left, whether that reads "N days
      left", "Expires today" or "Expired N days ago". */
  lemma StatusLabelDeterminesDays(a: FoodItem, b: FoodItem, now: Int64)
    requires !a.isConsumed && !b.isConsumed
    requires StatusLabel(a, now) == StatusLabel(b, now)
    ensures DaysUntilExpiration(a.expirationDate, now) == DaysUntilExpiration(b.expirationDate, now)
  {
    var da, db := DaysUntilExpiration(a.expirationDate, now), DaysUntilExpiration(b.expirationDate, now);
    var la, lb := StatusLabel(a, now).value, StatusLabel(b, now).value;
    StatusLabelLastChar(a, now);
    StatusLabelLastChar(b, now);
    if da > 0 && db > 0 {
      assert la[..|la| - 10] == FormatInt(da);
      assert lb[..|lb| - 10] == FormatInt(db);
      FormatIntInjective(da, db);
    } else if da <= 0 && db <= 0 {
      StatusAgreesWithCard(a, now);
      StatusAgreesWithCard(b, now);
      HomeScreen.ExpiryLabelInjective(da, db);
    }
  }

  /** "Consumed on …" is shown for a consumed item with a consumption date. */
  function ShownConsumedDate(item: FoodItem): (date: Option<Int64>)
    ensures date.Some? <==> item.isConsumed && item.dateConsumed.Some?
    ensures date.Some? ==> date == item.dateConsumed
  {
    if item.isConsumed && item.dateConsumed.Some? then item.dateConsumed else None
  }

  /** The mark-consumed and delete actions exist only for an item not consumed. */
  predicate ActionsShown(item: FoodItem)
  {
    !item.isConsumed
  }

  /** A consumed item is read-only on this screen, and one marked consumed by the
      table's update shows its consumption date. */
  lemma ConsumedItemIsReadOnly(item: FoodItem, t: Int64, now: Int64)
    ensures var c := item.(isConsumed := true, dateConsumed := Some(t));
      && !CanEdit(Some(c)) && !ActionsShown(c) && StatusLabel(c, now).None?
      && ShownConsumedDate(c) == Some(t)
  {
  }

  /** The screen's remembered edit state. */
  class FoodDetailEditor {
    var isEditing: bool
    var editedName: string
    var editedCategory: string
    var editedQuantity: string
    var editedUnit: string
    var editedExpirationDays: string

    function Fields(): EditFields
      reads this
    {
      EditFields(editedName, editedCategory, editedQuantity, editedUnit, editedExpirationDays)
    }

    constructor ()
      ensures !isEditing && Fields() == EditFields("", "", "", "", "")
    {
      isEditing := false;
      editedName, editedCategory, editedQuantity, editedUnit, editedExpirationDays := "", "", "", "", "";
    }

    /** The loading effect: fills the fields from the item that has loaded. */
    method Load(item: FoodItem, now: Int64)
      modifies this
      ensures Fields() == InitialEditFields(item, now)
      ensures isEditing == old(isEditing)
    {
      editedName := item.name;
      editedCategory := item.category;
      editedQuantity := FormatInt(item.quantity);
      editedUnit := item.unit;
      var days := DaysUntilExpiration(item.expirationDate, now);
      editedExpirationDays := FormatInt(if days >= 1 then days else 1);
    }

    /** The edit button, present only when the item can be edited. */
    method OnEditClick(item: Option<FoodItem>)
      modifies this
      ensures isEditing == (old(isEditing) || CanEdit(item))
      ensures Fields() == old(Fields())
    {
      if CanEdit(item) {
        isEditing := true;
      }
    }

    /** The name field takes any text. */
    method OnNameChange(text: string)
      modifies this
      ensures Fields() == old(Fields()).(name := text) && isEditing == old(isEditing)
    {
      editedName := text;
    }

    /** The quantity field takes an edit only when it is all digits. */
    method OnQuantityChange(text: string)
      modifies this
      ensures Fields() == if AllDigits(text) then old(Fields()).(quantity := text) else old(Fields())
      ensures isEditing == old(isEditing)
    {
      if AllDigits(text) {
        editedQuantity := text;
      }
    }

    /** The expiration field takes an edit only when it is all digits. */
    method OnExpirationDaysChange(text: string)
      modifies this
      ensures Fields() == if AllDigits(text) then old(Fields()).(expirationDays := text) else old(Fields())
      ensures isEditing == old(isEditing)
    {
      if AllDigits(text) {
        editedExpirationDays := text;
      }
    }

    /** A choice from the category menu. */
    method OnCategorySelected(category: string)
      modifies this
      ensures Fields() == old(Fields()).(category := category) && isEditing == old(isEditing)
    {
      editedCategory := category;
    }

    /** A choice from the unit menu. */
    method OnUnitSelected(unit: string)
      modifies this
      ensures Fields() == old(Fields()).(unit := unit) && isEditing == old(isEditing)
    {
      editedUnit := unit;
    }

    /** The save button, present only while editing an editable item: hands the
        copied item to the update and leaves edit mode. */
    method OnSaveClick(item: Option<FoodItem>, now: Int64) returns (updated: Option<FoodItem>)
      modifies this
      ensures updated.Some? <==> old(isEditing) && CanEdit(item)
      ensures updated.Some? ==> updated.value == SaveEdits(item.value, old(Fields()), now)
      ensures isEditing == (old(isEditing) && !CanEdit(item))
      ensures Fields() == old(Fields())
    {
      if isEditing && CanEdit(item) {
        var saved := SaveEdits(item.value, Fields(), now);
        isEditing := false;
        updated := Some(saved);
      } else {
        updated := None;
      }
    }
  }
}
