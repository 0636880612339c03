/** The three Room entities, one per table. A Kotlin default argument becomes a
    default value of the constructor parameter; the two defaults that read the
    environment (a random UUID for `id`, the clock for `purchaseDate`) have none and
    are supplied by the caller. */
module Entities {
  import opened Numeric
  import opened Wrappers

  /** Outcome of an `@Insert` with the default ABORT strategy: the row is written, or
      its key collides with an existing row and the statement throws. */
  datatype WriteOutcome = Written | ConstraintViolation

  /** A Kotlin `Double`, carried but never interpreted: its IEEE 754 bit pattern. */
  datatype Double = Double(bits: bv64)

  /** A row of `food_items`; `id` is the primary key. */
  datatype FoodItem = FoodItem(
    id: string,
    name: string,
    category: string,
    purchaseDate: Int64,
    expirationDate: Int64,
    quantity: Int32 := 1,
    unit: string := "pieces",
    isConsumed: bool := false,
    dateConsumed: Option<Int64> := None,
    photoPath: Option<string> := None)

  /** A row of `waste_logs`: a snapshot of a food item taken when it was thrown away;
      `id` is the primary key, `foodItemId` a plain reference (no foreign key). */
  datatype WasteLog = WasteLog(
    id: string,
    foodItemId: string,
    foodName: string,
    category: string,
    quantity: Int32,
    unit: string,
    reason: string,
    dateWasted: Int64,
    estimatedValue: Option<Double> := None)

  /** The key of the one settings row the application reads and writes. */
  const SettingsId: Int32 := 1

  /** A row of `user_settings`; `id` is the primary key. */
  datatype UserSettings = UserSettings(
    id: Int32 := SettingsId,
    notificationsEnabled: bool := true,
    dailyReminderTime: string := "18:00",
    expirationWarningDays: Int32 := 3)

  /** A food item built from its required fields alone is a fresh, unconsumed item of
      one piece, bought at the given time, without photo. */
  lemma NewFoodItemDefaults(id: string, name: string, category: string, now: Int64, expirationDate: Int64)
    ensures var item := FoodItem(id, name, category, now, expirationDate);
      && item.quantity == 1 && item.unit == "pieces"
      && !item.isConsumed && item.dateConsumed == None && item.photoPath == None
      && item.purchaseDate == now && item.expirationDate == expirationDate
  {
  }

  /** A waste log built without an estimated value carries none. */
  lemma NewWasteLogDefaults(id: string, foodItemId: string, foodName: string, category: string,
                            quantity: Int32, unit: string, reason: string, dateWasted: Int64)
    ensures WasteLog(id, foodItemId, foodName, category, quantity, unit, reason, dateWasted).estimatedValue == None
  {
  }

  /** The default settings row is row 1, with notifications on, a reminder at 18:00
      and a three-day warning window. */
  lemma DefaultUserSettings()
    ensures var s := UserSettings();
      && s.id == 1 && s.notificationsEnabled && s.dailyReminderTime == "18:00"
      && s.expirationWarningDays == 3
  {
  }
}
