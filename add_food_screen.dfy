/** The add-food form: its fields and their digit-only filters, the camera photo,
    the submit checks in their fixed order, and the `FoodItem` built from an
    accepted form. The clock and the new item's UUID are parameters; the photo's
    URI is given as its string form. */
module AddFoodScreen {
  import opened Numeric
  import opened Wrappers
  import opened Text
  import opened Entities
  import opened Expiry

  /** What the submit button's `when` does with the form. */
  datatype SubmitCheck = NoAction | ShowQuantityDialog | Proceed

  /** The branches of the `when`, in order: a blank name, then a blank category,
      do nothing; then a quantity that is blank or reads as 0 opens the dialog;
      otherwise the item is saved. */
  function CheckSubmit(foodName: string, category: string, quantity: string): (c: SubmitCheck)
    ensures c == NoAction <==> IsBlank(foodName) || IsBlank(category)
    ensures c == ShowQuantityDialog <==>
      !IsBlank(foodName) && !IsBlank(category) && (ParseInt(quantity) == Some(0) || IsBlank(quantity))
  {
    if IsBlank(foodName) then NoAction
    else if IsBlank(category) then NoAction
    else if ParseInt(quantity) == Some(0) || IsBlank(quantity) then ShowQuantityDialog
    else Proceed
  }

  /** The item an accepted form saves: the trimmed name, the category and unit as
      chosen, the quantity as read (1 when it does not read as an `Int`), an
      expiration `expirationDays` ahead of `now` (7 when that field does not read),
      the photo's URI if one was taken; every other field takes the record's
      default, the purchase date from the clock at construction. */
  function NewFoodItem(id: string, foodName: string, category: string, quantity: string,
                       unit: string, expirationDays: string, photoUri: Option<string>,
                       now: Int64, createdAt: Int64): (item: FoodItem)
    ensures item.id == id && item.name == Trim(foodName)
    ensures item.category == category && item.unit == unit && item.photoPath == photoUri
    ensures item.quantity == ParseInt(quantity).GetOr(1)
    ensures item.expirationDate == ExpirationAfterDays(now, ParseInt(expirationDays).GetOr(7))
    ensures item.purchaseDate == createdAt && !item.isConsumed && item.dateConsumed.None?
  {
    FoodItem(id, Trim(foodName), category, createdAt,
             ExpirationAfterDays(now, ParseInt(expirationDays).GetOr(7)),
             quantity := ParseInt(quantity).GetOr(1), unit := unit, photoPath := photoUri)
  }

  /** `enabled = foodName.isNotBlank() && category.isNotBlank() && !isLoading` */
  predicate SubmitEnabled(foodName: string, category: string, isLoading: bool)
  {
    !IsBlank(foodName) && !IsBlank(category) && !isLoading
  }

  /** While the button is enabled, the two "do nothing" branches cannot be taken:
      a click either opens the quantity dialog or saves. */
  lemma EnabledSubmitActs(foodName: string, category: string, quantity: string, isLoading: bool)
    requires SubmitEnabled(foodName, category, isLoading)
    ensures CheckSubmit(foodName, category, quantity) != NoAction
  {
  }

  /** A form that passes the checks with an all-digit quantity field yields an item
      with a positive quantity and a name that is not empty and neither starts nor
      ends with whitespace. */
  lemma AcceptedItemIsSound(id: string, foodName: string, category: string, quantity: string,
                            unit: string, expirationDays: string, photoUri: Option<string>,
                            now: Int64, createdAt: Int64)
    requires AllDigits(quantity)
    requires CheckSubmit(foodName, category, quantity) == Proceed
    ensures var item := NewFoodItem(id, foodName, category, quantity, unit, expirationDays, photoUri, now, createdAt);
      && item.quantity >= 1
      && item.name != ""
      && !IsWhitespace(item.name[0]) && !IsWhitespace(item.name[|item.name| - 1])
  {
    var p := ParseInt(quantity);
    assert p.Some? ==> p.value >= 1;
    BlankIffTrimEmpty(foodName);
    TrimLeavesNoEdgeWhitespace(foodName);
  }

  /** A quantity too large for an `Int` does not read, so a form that is otherwise
      complete passes the checks and is saved with quantity 1. */
  lemma OverflowingQuantityBecomesOne(foodName: string, category: string, quantity: string)
    requires !IsBlank(foodName) && !IsBlank(category)
    requires quantity != [] && AllDigits(quantity) && DigitsValue(quantity) > MaxInt
    ensures ParseInt(quantity) == None
    ensures CheckSubmit(foodName, category, quantity) == Proceed
  {
    assert IsDigit(quantity[0]) && !IsWhitespace(quantity[0]);
  }

  /** An expiration field of "0" saves an item expiring at the moment of saving;
      an emptied field means a week. */
  lemma ExpirationDaysFallbacks(now: Int64)
    requires 0 <= now <= MaxLong / 2
    ensures ExpirationAfterDays(now, ParseInt("0").GetOr(7)) == now
    ensures ExpirationAfterDays(now, ParseInt("").GetOr(7)) == now + 7 * MillisPerDay
  {
    assert DigitsValue("0") == 0;
  }

  /** What one click on the submit button led to. */
  datatype SubmitOutcome = Ignored | QuantityRejected | Saving(item: FoodItem)

  /** `AddFoodScreen`'s remembered form state. */
  class AddFoodForm {
    var foodName: string
    var category: string
    var quantity: string
    var unit: string
    var expirationDays: string
    var isLoading: bool
    var photoUri: Option<string>
    var showPermissionDialog: bool
    var showQuantityDialog: bool

    /** The two number fields hold digits only: they start so and the filters
        reject every other edit. */
    ghost predicate Valid()
      reads this
    {
      AllDigits(quantity) && AllDigits(expirationDays)
    }

    constructor ()
      ensures Valid()
      ensures foodName == "" && category == "" && quantity == "1" && unit == "pieces"
      ensures expirationDays == "7" && !isLoading && photoUri.None?
      ensures !showPermissionDialog && !showQuantityDialog
    {
      foodName, category, quantity, unit, expirationDays := "", "", "1", "pieces", "7";
      isLoading, photoUri := false, None;
      showPermissionDialog, showQuantityDialog := false, false;
    }

    /** The name field takes any text. */
    method OnNameChange(text: string)
      requires Valid()
      modifies this
      ensures Valid()
      ensures foodName == text
      ensures category == old(category) && quantity == old(quantity) && unit == old(unit)
      ensures expirationDays == old(expirationDays) && isLoading == old(isLoading)
      ensures photoUri == old(photoUri) && showQuantityDialog == old(showQuantityDialog)
      ensures showPermissionDialog == old(showPermissionDialog)
    {
      foodName := text;
    }

    /** A choice from the category menu. */
    method OnCategorySelected(choice: string)
      requires Valid()
      modifies this
      ensures Valid()
      ensures category == choice
      ensures foodName == old(foodName) && quantity == old(quantity) && unit == old(unit)
      ensures expirationDays == old(expirationDays) && isLoading == old(isLoading)
      ensures photoUri == old(photoUri) && showQuantityDialog == old(showQuantityDialog)
      ensures showPermissionDialog == old(showPermissionDialog)
    {
      category := choice;
    }

    /** A choice from the unit menu. */
    method OnUnitSelected(choice: string)
      requires Valid()
      modifies this
      ensures Valid()
      ensures unit == choice
      ensures foodName == old(foodName) && category == old(category) && quantity == old(quantity)
      ensures expirationDays == old(expirationDays) && isLoading == old(isLoading)
      ensures photoUri == old(photoUri) && showQuantityDialog == old(showQuantityDialog)
      ensures showPermissionDialog == old(showPermissionDialog)
    {
      unit := choice;
    }

    /** The quantity field takes an edit only when it is all digits (the empty text
        included). */
    method OnQuantityChange(text: string)
      requires Valid()
      modifies this
      ensures Valid()
      ensures quantity == if AllDigits(text) then text else old(quantity)
      ensures foodName == old(foodName) && category == old(category) && unit == old(unit)
      ensures expirationDays == old(expirationDays) && isLoading == old(isLoading)
      ensures photoUri == old(photoUri) && showQuantityDialog == old(showQuantityDialog)
      ensures showPermissionDialog == old(showPermissionDialog)
    {
      if AllDigits(text) {
        quantity := text;
      }
    }

    /** The expiration field takes an edit only when it is all digits. */
    method OnExpirationDaysChange(text: string)
      requires Valid()
      modifies this
      ensures Valid()
      ensures expirationDays == if AllDigits(text) then text else old(expirationDays)
      ensures foodName == old(foodName) && category == old(category) && quantity == old(quantity)
      ensures unit == old(unit) && isLoading == old(isLoading)
      ensures photoUri == old(photoUri) && showQuantityDialog == old(showQuantityDialog)
      ensures showPermissionDialog == old(showPermissionDialog)
    {
      if AllDigits(text) {
        expirationDays := text;
      }
    }

    /** The photo card, or the permission request's answer: with camera permission
        the new image's URI becomes the photo and the camera opens; without it the
        permission dialog opens. */
    method OnCameraPermission(granted: bool, imageUri: string)
      requires Valid()
      modifies this
      ensures Valid()
      ensures photoUri == if granted then Some(imageUri) else old(photoUri)
      ensures showPermissionDialog == (old(showPermissionDialog) || !granted)
      ensures foodName == old(foodName) && category == old(category) && quantity == old(quantity)
      ensures unit == old(unit) && expirationDays == old(expirationDays) && isLoading == old(isLoading)
      ensures showQuantityDialog == old(showQuantityDialog)
    {
      if granted {
        photoUri := Some(imageUri);
      } else {
        showPermissionDialog := true;
      }
    }

    /** The camera's answer: a failed capture drops the photo. */
    method OnCameraResult(success: bool)
      requires Valid()
      modifies this
      ensures Valid()
      ensures photoUri == if success then old(photoUri) else None
      ensures foodName == old(foodName) && category == old(category) && quantity == old(quantity)
      ensures unit == old(unit) && expirationDays == old(expirationDays) && isLoading == old(isLoading)
      ensures showQuantityDialog == old(showQuantityDialog) && showPermissionDialog == old(showPermissionDialog)
    {
      if !success {
        photoUri := None;
      }
    }

    /** The submit button. Disabled, it does nothing; enabled, it runs the checks
        and, when they pass, starts loading and hands over the item to save. */
    method OnSubmit(id: string, now: Int64, createdAt: Int64) returns (outcome: SubmitOutcome)
      requires Valid()
      modifies this
      ensures Valid()
      ensures !old(SubmitEnabled(foodName, category, isLoading)) ==> outcome == Ignored
      ensures old(SubmitEnabled(foodName, category, isLoading)) ==>
        outcome != Ignored &&
        (outcome == QuantityRejected <==> CheckSubmit(foodName, category, quantity) == ShowQuantityDialog)
      ensures outcome.Saving? ==>
        && outcome.item == NewFoodItem(id, foodName, category, quantity, unit, expirationDays, photoUri, now, createdAt)
        && outcome.item.quantity >= 1
      ensures showQuantityDialog == (old(showQuantityDialog) || outcome == QuantityRejected)
      ensures isLoading == (old(isLoading) || outcome.Saving?)
      ensures foodName == old(foodName) && category == old(category) && quantity == old(quantity)
      ensures unit == old(unit) && expirationDays == old(expirationDays) && photoUri == old(photoUri)
      ensures showPermissionDialog == old(showPermissionDialog)
    {
      if !SubmitEnabled(foodName, category, isLoading) {
        return Ignored;
      }
      EnabledSubmitActs(foodName, category, quantity, isLoading);
      var check := CheckSubmit(foodName, category, quantity);
      if check == ShowQuantityDialog {
        showQuantityDialog := true;
        outcome := QuantityRejected;
      } else {
        isLoading := true;
        AcceptedItemIsSound(id, foodName, category, quantity, unit, expirationDays, photoUri, now, createdAt);
        outcome := Saving(NewFoodItem(id, foodName, category, quantity, unit, expirationDays, photoUri, now, createdAt));
      }
    }

    /** The save threw: the form is usable again. */
    method OnSaveFailed()
      requires Valid()
      modifies this
      ensures Valid()
      ensures !isLoading
      ensures foodName == old(foodName) && category == old(category) && quantity == old(quantity)
      ensures unit == old(unit) && expirationDays == old(expirationDays) && photoUri == old(photoUri)
      ensures showQuantityDialog == old(showQuantityDialog) && showPermissionDialog == old(showPermissionDialog)
    {
      isLoading := false;
    }

    /** The quantity dialog's OK button, or its dismissal. */
    method OnQuantityDialogClosed()
      requires Valid()
      modifies this
      ensures Valid()
      ensures !showQuantityDialog
      ensures foodName == old(foodName) && category == old(category) && quantity == old(quantity)
      ensures unit == old(unit) && expirationDays == old(expirationDays) && photoUri == old(photoUri)
      ensures isLoading == old(isLoading) && showPermissionDialog == old(showPermissionDialog)
    {
      showQuantityDialog := false;
    }
  }
}
