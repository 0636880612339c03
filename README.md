# FoodWasteTracker core, modelled in Dafny

FoodWasteTracker is an Android app for tracking the food in a household. It
records each item's expiry date, warns about items that will expire soon, logs
food that was thrown away, and suggests recipes that use up expiring
ingredients. This project models the app's core and proves properties of it:

- **Entities** (`entities.dfy`): the three Room rows `FoodItem`, `WasteLog` and
  `UserSettings`, with the Kotlin constructors' default values.
- **DAOs** (`food_item_dao.dfy`, `waste_log_dao.dfy`, `user_settings_dao.dfy`):
  - Each table is a class whose rows are a `seq` (in rowid order) or a `map`
    (keyed by primary key). The class keeps the primary-key invariant.
  - Each `@Insert`/`@Update`/`@Delete`/`@Query UPDATE` is a method that states
    the table's whole new state.
  - Each `SELECT` is a function on the rows, with its filter, its `ORDER BY`,
    and the `SUM`/`COUNT` aggregates (`SUM` of no rows is `NULL`).
- **Repository** (`food_repository.dfy`):
  - `FoodRepository` computes the expiring-items threshold in Kotlin `Int`
    arithmetic.
  - `logWaste` inserts a waste-log snapshot and then deletes the food item.
  - `updateUserSettings` upserts.
- **Day arithmetic** (`expiry.dfy`, `numeric.dfy`):
  - the screens' `daysUntilExpiration` is `Long` division truncated toward zero,
    then narrowed to `Int`;
  - a new expiration date is `now + days * 24 * 60 * 60 * 1000L`.
  - Kotlin's 32-bit `Int` and 64-bit `Long` wrap-around is written out
    explicitly.
- **Screens' decision logic** (`home_screen.dfy`, `food_detail_screen.dfy`,
  `add_food_screen.dfy`, `recipes_screen.dfy`):
  - the home card's expiry flags and label, and its two confirmation dialogs;
  - the detail screen's edit form and its field-preserving save;
  - the add screen's submit validation and the item it builds;
  - the recipes screen's expiring-items alert and carousel arrows.
- **Demo recipes** (`recipe_repository.dfy`): the fixed recipe lists that the
  recipe repository returns for every search.
- **Kotlin library functions** (`text.dfy`, `collections.dfy`): the ones the
  core relies on, namely `trim`, `isBlank`, `toIntOrNull`, `toString`, `take`,
  `filter`, `joinToString` and ordering.

The clock (`System.currentTimeMillis()`), `UUID.randomUUID()`, the camera's
photo URI and `String.lowercase()` are parameters of the operations that use
them.

The day count truncates toward zero, because the code divides with Kotlin
`Long` `/`. It is not a floor: an item that expired less than a day ago still
counts 0 days (`Expiry.DaysTruncateTowardZero`).

## Model

All paths below are under `app/src/main/java/com/example/foodwastetracker/`.

| member | source | states |
|---|---|---|
| Numeric.Wrap32 | app/src/main/java/com/example/foodwastetracker/presentation/screens/HomeScreen.kt:265 | `.toInt()` keeps the value modulo 2^32 and is the identity on values already in `Int` range |
| Numeric.Wrap64 | app/src/main/java/com/example/foodwastetracker/presentation/screens/HomeScreen.kt:265 | a `Long` operation keeps its result modulo 2^64, and is exact when the result is in `Long` range |
| Numeric.LongPlus | app/src/main/java/com/example/foodwastetracker/presentation/screens/AddFoodScreen.kt:380-381 | `Long + Long` is exact whenever the sum is in `Long` range |
| Numeric.LongMinus | app/src/main/java/com/example/foodwastetracker/presentation/screens/HomeScreen.kt:265 | `Long - Long` is exact whenever the difference is in `Long` range |
| Numeric.LongTimes | app/src/main/java/com/example/foodwastetracker/presentation/screens/AddFoodScreen.kt:381 | `Long * Long` is exact whenever the product is in `Long` range |
| Numeric.LongToInt | app/src/main/java/com/example/foodwastetracker/presentation/screens/HomeScreen.kt:265 | `.toInt()` is the identity on values already in `Int` range |
| Numeric.LongDiv | app/src/main/java/com/example/foodwastetracker/presentation/screens/HomeScreen.kt:265 | `Long / Long` by a positive divisor is the truncating quotient |
| Numeric.TruncDiv | app/src/main/java/com/example/foodwastetracker/presentation/screens/HomeScreen.kt:265 | `Long` division rounds toward zero: the remainder has the sign of the dividend and is smaller than the divisor |
| Numeric.TruncDivUnique | app/src/main/java/com/example/foodwastetracker/presentation/screens/HomeScreen.kt:265 | any quotient meeting the truncating-division bounds is the one `/` returns |
| Numeric.IntTimes | app/src/main/java/com/example/foodwastetracker/data/repository/FoodRepository.kt:23 | `Int` multiplication is exact when the product is in range, otherwise wraps modulo 2^32 |
| Text.SkipWhitespace | app/src/main/java/com/example/foodwastetracker/presentation/screens/AddFoodScreen.kt:384 | the forward scan of `trim()` stops at the first non-whitespace character at or after the start, or at the end |
| Text.SkipWhitespaceBack | app/src/main/java/com/example/foodwastetracker/presentation/screens/AddFoodScreen.kt:384 | the backward scan of `trim()` stops just after the last non-whitespace character, never passing the forward scan's stop |
| Text.Trim | app/src/main/java/com/example/foodwastetracker/presentation/screens/AddFoodScreen.kt:384 | `trim()`: the slice between the forward and the backward scan, never longer than the input (its full characterisation is `Text.TrimSpec`) |
| Text.TrimSpec | app/src/main/java/com/example/foodwastetracker/presentation/screens/AddFoodScreen.kt:384 | `trim()` removes exactly the leading and trailing whitespace: the result is a slice `s[a..b]` with only whitespace before `a` and from `b` on, and a non-empty result starts and ends with non-whitespace |
| Text.TrimLeavesNoEdgeWhitespace | app/src/main/java/com/example/foodwastetracker/presentation/screens/AddFoodScreen.kt:384 | a trimmed string is empty or neither starts nor ends with whitespace |
| Text.BlankIffTrimEmpty | app/src/main/java/com/example/foodwastetracker/presentation/screens/AddFoodScreen.kt:366 | `isBlank()` holds exactly when trimming leaves nothing |
| Text.TrimIdempotent | app/src/main/java/com/example/foodwastetracker/presentation/screens/FoodDetailScreen.kt:94 | trimming an already trimmed name changes nothing |
| Text.IsBlank | app/src/main/java/com/example/foodwastetracker/presentation/screens/AddFoodScreen.kt:366 | `isBlank()`: every character is whitespace; `Text.BlankIffTrimEmpty` ties it to `trim()` |
| Text.ParseInt | app/src/main/java/com/example/foodwastetracker/presentation/screens/AddFoodScreen.kt:386 | `toIntOrNull()` on a non-empty digit string succeeds exactly when its value fits an `Int`, and then gives that value; the empty string never parses |
| Text.ParseFormatRoundTrip | app/src/main/java/com/example/foodwastetracker/presentation/screens/FoodDetailScreen.kt:52 | parsing an `Int`'s decimal `toString()` gives the `Int` back |
| Text.FormatInt | app/src/main/java/com/example/foodwastetracker/presentation/screens/FoodDetailScreen.kt:52 | `Int.toString()` is non-empty, all digits exactly for a non-negative number and led by '-' otherwise; `Text.ParseFormatRoundTrip` parses it back |
| Text.FormatIntInjective | app/src/main/java/com/example/foodwastetracker/presentation/screens/HomeScreen.kt:298 | distinct `Int`s print differently |
| Text.JoinToString | app/src/main/java/com/example/foodwastetracker/network/RecipeRepository.kt:66 | `joinToString`: no items give the empty string, one item gives the item itself, two give the items with the separator between them |
| Text.JoinToStringAppend | app/src/main/java/com/example/foodwastetracker/network/RecipeRepository.kt:66 | joining one more item adds the separator and then the item, so a separator stands between every two consecutive items |
| Collections.Filter | app/src/main/java/com/example/foodwastetracker/data/database/dao/FoodItemDao.kt:12 | a `WHERE` keeps exactly the rows satisfying the predicate, each as often as it occurs |
| Collections.SortByKey | app/src/main/java/com/example/foodwastetracker/data/database/dao/FoodItemDao.kt:9 | an `ORDER BY` result is sorted by the key and is a permutation of its input |
| Collections.Take | app/src/main/java/com/example/foodwastetracker/presentation/screens/RecipesScreen.kt:115 | `take(n)` is the prefix of length `min(n, size)` |
| Entities.NewFoodItemDefaults | app/src/main/java/com/example/foodwastetracker/data/database/entities/FoodItem.kt:9-18 | a new food item is 1 piece, not consumed, with no consumption date and no photo |
| Entities.NewWasteLogDefaults | app/src/main/java/com/example/foodwastetracker/data/database/entities/WasteLog.kt:9-17 | a new waste log has no estimated value |
| Entities.DefaultUserSettings | app/src/main/java/com/example/foodwastetracker/data/database/entities/UserSettings.kt:8-11 | the default settings are row 1, notifications on, reminder at 18:00 and a three-day warning |
| FoodItemDao.GetAllActiveFoodItems | app/src/main/java/com/example/foodwastetracker/data/database/dao/FoodItemDao.kt:9-10 | returns exactly the unconsumed rows, each as often as it is stored, by ascending expiration date |
| FoodItemDao.GetExpiringItems | app/src/main/java/com/example/foodwastetracker/data/database/dao/FoodItemDao.kt:12-13 | returns exactly the unconsumed rows expiring at or before the warning date, each as often as it is stored, in stored order (the SQL has no ORDER BY) |
| FoodItemDao.ExpiringWithinActive | app/src/main/java/com/example/foodwastetracker/data/database/dao/FoodItemDao.kt:9-13 | every expiring item is active, and a later warning date returns every item an earlier one does |
| FoodItemDao.Replaced | app/src/main/java/com/example/foodwastetracker/data/database/dao/FoodItemDao.kt:18-19 | `@Update` puts the item in place of the row with its key, position by position, and leaves all other rows |
| FoodItemDao.WithoutId | app/src/main/java/com/example/foodwastetracker/data/database/dao/FoodItemDao.kt:21-22 | `@Delete` keeps exactly the rows with another key, so no row with the key remains; with unique keys the table shrinks by one exactly when the key was present |
| FoodItemDao.MarkedConsumed | app/src/main/java/com/example/foodwastetracker/data/database/dao/FoodItemDao.kt:24-25 | `markAsConsumed` sets `isConsumed` and `dateConsumed` on the row with the id and on no other row |
| FoodItemDao.MarkedConsumedLeavesActive | app/src/main/java/com/example/foodwastetracker/data/database/dao/FoodItemDao.kt:24-25 | after marking an item consumed the keys are unchanged and unique, the item is in neither the active list nor the expiring list, and every other row is still there |
| FoodItemDao.MarkedConsumedTwice | app/src/main/java/com/example/foodwastetracker/data/database/dao/FoodItemDao.kt:24-25 | marking twice is marking once with the later timestamp |
| FoodItemDao.MarkedConsumedAbsent | app/src/main/java/com/example/foodwastetracker/data/database/dao/FoodItemDao.kt:24-25 | marking an id that has no row changes nothing |
| FoodItemDao.FoodItemTable.InsertFoodItem | app/src/main/java/com/example/foodwastetracker/data/database/dao/FoodItemDao.kt:15-16 | `@Insert` (ABORT) appends the row when its key is new and otherwise fails with the table unchanged |
| FoodItemDao.FoodItemTable.UpdateFoodItem | app/src/main/java/com/example/foodwastetracker/data/database/dao/FoodItemDao.kt:18-19 | the table after `@Update` is the replaced rows |
| FoodItemDao.FoodItemTable.DeleteFoodItem | app/src/main/java/com/example/foodwastetracker/data/database/dao/FoodItemDao.kt:21-22 | the table after `@Delete` is the rows without the item's key |
| FoodItemDao.FoodItemTable.MarkAsConsumed | app/src/main/java/com/example/foodwastetracker/data/database/dao/FoodItemDao.kt:24-25 | the table after the `UPDATE` is the marked rows |
| WasteLogDao.GetAllWasteLogs | app/src/main/java/com/example/foodwastetracker/data/database/dao/WasteLogDao.kt:9-10 | all logs, newest waste date first |
| WasteLogDao.GetWasteLogsByDateRange | app/src/main/java/com/example/foodwastetracker/data/database/dao/WasteLogDao.kt:12-13 | exactly the logs wasted within the inclusive range, each as often as it is stored, in stored order (the SQL has no ORDER BY) |
| WasteLogDao.RowsSinceMembers | app/src/main/java/com/example/foodwastetracker/data/database/dao/WasteLogDao.kt:18-22 | the rows the aggregates range over: exactly those wasted on or after the start date |
| WasteLogDao.GetTotalWasteFromDate | app/src/main/java/com/example/foodwastetracker/data/database/dao/WasteLogDao.kt:18-19 | `SUM(quantity)` is `NULL` exactly when no row qualifies, and otherwise the total quantity of those rows |
| WasteLogDao.GetWasteCountFromDate | app/src/main/java/com/example/foodwastetracker/data/database/dao/WasteLogDao.kt:21-22 | `COUNT(*)` is the number of qualifying rows, at most the table size |
| WasteLogDao.NothingSinceIffEmptyAggregates | app/src/main/java/com/example/foodwastetracker/data/database/dao/WasteLogDao.kt:18-22 | the count is 0, and equally the total is `NULL`, exactly when every log is older than the start date |
| WasteLogDao.CountZeroIffTotalNull | app/src/main/java/com/example/foodwastetracker/data/database/dao/WasteLogDao.kt:18-22 | the two aggregates agree on emptiness |
| WasteLogDao.SumQuantityAppend | app/src/main/java/com/example/foodwastetracker/data/database/dao/WasteLogDao.kt:18-19 | the total over one more row adds that row's quantity |
| WasteLogDao.RowsSinceAppend | app/src/main/java/com/example/foodwastetracker/data/database/dao/WasteLogDao.kt:18-22 | a new row joins the qualifying rows exactly when it is on or after the start date |
| WasteLogDao.CountAfterInsert | app/src/main/java/com/example/foodwastetracker/data/database/dao/WasteLogDao.kt:15-22 | inserting a log raises the count by one exactly when it is within range |
| WasteLogDao.TotalAfterInsert | app/src/main/java/com/example/foodwastetracker/data/database/dao/WasteLogDao.kt:15-19 | inserting a log within range makes the total non-`NULL` and adds its quantity; outside the range the total is unchanged |
| WasteLogDao.WasteLogTable.InsertWasteLog | app/src/main/java/com/example/foodwastetracker/data/database/dao/WasteLogDao.kt:15-16 | `@Insert` (ABORT) appends a log with a new key and otherwise fails with the table unchanged |
| UserSettingsDao.GetUserSettings | app/src/main/java/com/example/foodwastetracker/data/database/dao/UserSettingsDao.kt:9-10 | the row with id 1, or `null` exactly when there is none |
| UserSettingsDao.ReadAfterUpsert | app/src/main/java/com/example/foodwastetracker/data/database/dao/UserSettingsDao.kt:9-13 | after a REPLACE of row 1 the read returns what was written; other ids leave the read unchanged |
| UserSettingsDao.UserSettingsTable.InsertUserSettings | app/src/main/java/com/example/foodwastetracker/data/database/dao/UserSettingsDao.kt:12-13 | `OnConflictStrategy.REPLACE` writes the row under its key, whether or not one was there |
| UserSettingsDao.UserSettingsTable.UpdateUserSettings | app/src/main/java/com/example/foodwastetracker/data/database/dao/UserSettingsDao.kt:15-16 | `@Update` replaces an existing row and does nothing when its key is absent |
| UserSettingsDao.UserSettingsTable.UpdateNotificationSettings | app/src/main/java/com/example/foodwastetracker/data/database/dao/UserSettingsDao.kt:18-19 | sets `notificationsEnabled` on row 1 only, and does nothing without row 1 |
| UserSettingsDao.UserSettingsTable.UpdateWarningDays | app/src/main/java/com/example/foodwastetracker/data/database/dao/UserSettingsDao.kt:21-22 | sets `expirationWarningDays` on row 1 only, and does nothing without row 1 |
| Expiry.DaysUntilExpiration | app/src/main/java/com/example/foodwastetracker/presentation/screens/HomeScreen.kt:265 | the day count is the millisecond difference divided by a day's length, truncated toward zero, whenever it fits an `Int` |
| Expiry.DaysSign | app/src/main/java/com/example/foodwastetracker/presentation/screens/HomeScreen.kt:297-301 | the count is positive exactly when a full day or more remains, 0 within a day either side, and negative a full day or more past |
| Expiry.DaysMonotone | app/src/main/java/com/example/foodwastetracker/presentation/screens/RecipesScreen.kt:409-411 | a later expiration never gives fewer days |
| Expiry.DaysTruncateTowardZero | app/src/main/java/com/example/foodwastetracker/presentation/screens/HomeScreen.kt:265 | an item that expired less than a day ago counts 0 days, not -1 |
| Expiry.DaysWrapFarAhead | app/src/main/java/com/example/foodwastetracker/presentation/screens/HomeScreen.kt:265 | 2^31 days ahead, `.toInt()` wraps the count to the most negative `Int` |
| Expiry.ExpirationAfterDays | app/src/main/java/com/example/foodwastetracker/presentation/screens/AddFoodScreen.kt:380-381 | `now + days * 24 * 60 * 60 * 1000L` is exact for 0 to 24855 days |
| Expiry.ExpirationAfterDaysWraps | app/src/main/java/com/example/foodwastetracker/presentation/screens/FoodDetailScreen.kt:98-99 | at 24856 days the `Int` product wraps and the new expiration lies before now |
| Expiry.DaysAfterRoundTrip | app/src/main/java/com/example/foodwastetracker/presentation/screens/AddFoodScreen.kt:380-381 | an item created to expire in d days shows d days left at that moment |
| FoodRepository.ExpiryThreshold | app/src/main/java/com/example/foodwastetracker/data/repository/FoodRepository.kt:22-25 | the warning date is `now + warningDays` days, exactly, for 0 to 24 warning days |
| FoodRepository.ThresholdInexactBeyond24 | app/src/main/java/com/example/foodwastetracker/data/repository/FoodRepository.kt:23 | from 25 warning days on, the all-`Int` product wraps and the threshold is no longer `now + warningDays` days |
| FoodRepository.ThresholdAt25Days | app/src/main/java/com/example/foodwastetracker/data/repository/FoodRepository.kt:23 | with 25 warning days the threshold lies before now |
| FoodRepository.WasteSnapshot | app/src/main/java/com/example/foodwastetracker/data/repository/FoodRepository.kt:45-54 | the waste log copies the item's id, name, category, quantity and unit, and records the reason, value and time |
| FoodRepository.SnapshotCountsInAggregates | app/src/main/java/com/example/foodwastetracker/data/repository/FoodRepository.kt:44-57 | a logged waste raises the count by one and the total by the item's quantity for every start date up to now |
| FoodRepository.FoodRepository.GetAllFoodItems | app/src/main/java/com/example/foodwastetracker/data/repository/FoodRepository.kt:20 | the active items: exactly the unconsumed rows, each as often as it is stored, soonest expiration first |
| FoodRepository.FoodRepository.GetExpiringItems | app/src/main/java/com/example/foodwastetracker/data/repository/FoodRepository.kt:22-25 | the unconsumed items expiring by the threshold, each as often as it is stored |
| FoodRepository.FoodRepository.GetAllWasteLogs | app/src/main/java/com/example/foodwastetracker/data/repository/FoodRepository.kt:59 | every waste log, newest first |
| FoodRepository.FoodRepository.GetWasteLogsByDateRange | app/src/main/java/com/example/foodwastetracker/data/repository/FoodRepository.kt:61-62 | the logs within the inclusive range, each as often as it is stored |
| FoodRepository.FoodRepository.GetUserSettings | app/src/main/java/com/example/foodwastetracker/data/repository/FoodRepository.kt:65 | the settings row, if any |
| FoodRepository.FoodRepository.AddFoodItem | app/src/main/java/com/example/foodwastetracker/data/repository/FoodRepository.kt:27-29 | appends the item when its id is new; otherwise the insert fails and the table is unchanged |
| FoodRepository.FoodRepository.UpdateFoodItem | app/src/main/java/com/example/foodwastetracker/data/repository/FoodRepository.kt:31-33 | the food table after `updateFoodItem` is the replaced rows |
| FoodRepository.FoodRepository.MarkAsConsumed | app/src/main/java/com/example/foodwastetracker/data/repository/FoodRepository.kt:35-37 | marks the item's row consumed at the current time |
| FoodRepository.FoodRepository.DeleteFoodItem | app/src/main/java/com/example/foodwastetracker/data/repository/FoodRepository.kt:39-41 | the food table after `deleteFoodItem` has no row with the item's id |
| FoodRepository.FoodRepository.LogWaste | app/src/main/java/com/example/foodwastetracker/data/repository/FoodRepository.kt:44-57 | on success, the snapshot is appended to the waste logs and the item's row is gone; if the insert fails, neither table changes |
| FoodRepository.FoodRepository.UpdateUserSettings | app/src/main/java/com/example/foodwastetracker/data/repository/FoodRepository.kt:67-69 | upserts the settings, so that settings with id 1 are what is read back |
| HomeScreen.ExpiringSoonIff | app/src/main/java/com/example/foodwastetracker/presentation/screens/HomeScreen.kt:266 | `isExpiringSoon` holds exactly when the item expires less than four full days from now |
| HomeScreen.IsExpiringSoon | app/src/main/java/com/example/foodwastetracker/presentation/screens/HomeScreen.kt:266 | `isExpiringSoon` is `days <= 3`; `HomeScreen.ExpiringSoonIff` states it in timestamps |
| HomeScreen.HighlightedIff | app/src/main/java/com/example/foodwastetracker/presentation/screens/HomeScreen.kt:274-276 | the card is highlighted exactly when the expiration is less than a day past and less than four days ahead |
| HomeScreen.IsHighlighted | app/src/main/java/com/example/foodwastetracker/presentation/screens/HomeScreen.kt:274 | the card is highlighted when expiring soon and not yet expired; `HomeScreen.HighlightedIff` states it in timestamps |
| HomeScreen.ExpiringQueryImpliesSoon | app/src/main/java/com/example/foodwastetracker/presentation/screens/HomeScreen.kt:266 | every item of the three-day expiring query is flagged on its card |
| HomeScreen.SoonFlagWiderThanQuery | app/src/main/java/com/example/foodwastetracker/presentation/screens/HomeScreen.kt:266 | an item three and a half days out is flagged but not returned by the query |
| HomeScreen.NegateNegative | app/src/main/java/com/example/foodwastetracker/presentation/screens/HomeScreen.kt:300 | `-days` is exact except at the most negative `Int` |
| HomeScreen.ExpiryLabel | app/src/main/java/com/example/foodwastetracker/presentation/screens/HomeScreen.kt:297-301 | the card's three label forms; `HomeScreen.LabelForm` and `HomeScreen.ExpiryLabelInjective` state what they distinguish |
| HomeScreen.LabelForm | app/src/main/java/com/example/foodwastetracker/presentation/screens/HomeScreen.kt:297-301 | the three label forms ("Expires in", "Expires today", "Expired … ago") are told apart by fixed characters |
| HomeScreen.ExpiryLabelInjective | app/src/main/java/com/example/foodwastetracker/presentation/screens/HomeScreen.kt:297-301 | the label determines the day count it was made from |
| HomeScreen.CardState.With | app/src/main/java/com/example/foodwastetracker/presentation/screens/HomeScreen.kt:262-263 | setting one dialog flag leaves the other flag alone |
| HomeScreen.Fired | app/src/main/java/com/example/foodwastetracker/presentation/screens/HomeScreen.kt:335-337 | a callback fires only from the confirm button of a shown dialog, and it is that dialog's callback |
| HomeScreen.Step | app/src/main/java/com/example/foodwastetracker/presentation/screens/HomeScreen.kt:328-377 | an icon opens its dialog and dismiss, cancel or confirm close it; `HomeScreen.ShownIffOpenedSinceClosed` states its effect over any history |
| HomeScreen.ShownIffOpenedSinceClosed | app/src/main/java/com/example/foodwastetracker/presentation/screens/HomeScreen.kt:328-377 | a dialog is shown exactly when its icon was tapped and nothing has closed it since |
| HomeScreen.CallbackNeedsConfirmedDialog | app/src/main/java/com/example/foodwastetracker/presentation/screens/HomeScreen.kt:328-377 | delete (or mark consumed) fires exactly on a confirm after the icon was tapped and the dialog was not closed since |
| HomeScreen.FoodItemCard.constructor | app/src/main/java/com/example/foodwastetracker/presentation/screens/HomeScreen.kt:262-263 | both dialogs start hidden |
| HomeScreen.FoodItemCard.OnConsumedIconClick | app/src/main/java/com/example/foodwastetracker/presentation/screens/HomeScreen.kt:309 | the check-mark icon opens the consumed dialog |
| HomeScreen.FoodItemCard.OnDeleteIconClick | app/src/main/java/com/example/foodwastetracker/presentation/screens/HomeScreen.kt:316 | the bin icon opens the delete dialog |
| HomeScreen.FoodItemCard.OnDismissOrCancel | app/src/main/java/com/example/foodwastetracker/presentation/screens/HomeScreen.kt:330 | dismissing or cancelling closes the dialog and fires nothing |
| HomeScreen.FoodItemCard.OnConfirm | app/src/main/java/com/example/foodwastetracker/presentation/screens/HomeScreen.kt:335-337 | confirming a shown dialog closes it and fires its callback |
| FoodDetailScreen.InitialDays | app/src/main/java/com/example/foodwastetracker/presentation/screens/FoodDetailScreen.kt:54-55 | `maxOf(days, 1)`: at least 1, at least the day count, and one of the two |
| FoodDetailScreen.InitialEditFields | app/src/main/java/com/example/foodwastetracker/presentation/screens/FoodDetailScreen.kt:48-56 | the loaded fields hold the item's name, category and unit, and numbers that parse back to its quantity and initial day count |
| FoodDetailScreen.SaveEdits | app/src/main/java/com/example/foodwastetracker/presentation/screens/FoodDetailScreen.kt:93-100 | the saved copy keeps id, purchase date, consumption state and photo, and takes the trimmed name, the fields and the parsed numbers with their fallbacks |
| FoodDetailScreen.SaveUneditedKeepsItem | app/src/main/java/com/example/foodwastetracker/presentation/screens/FoodDetailScreen.kt:48-100 | saving without edits changes only the expiration, which moves to whole days from the time of saving, at least one day ahead |
| FoodDetailScreen.CanEdit | app/src/main/java/com/example/foodwastetracker/presentation/screens/FoodDetailScreen.kt:87 | the edit and save buttons need a loaded item that is not consumed; `FoodDetailScreen.ConsumedItemIsReadOnly` uses it |
| FoodDetailScreen.StatusLabel | app/src/main/java/com/example/foodwastetracker/presentation/screens/FoodDetailScreen.kt:176-190 | a status line is shown exactly for an item not consumed |
| FoodDetailScreen.StatusAgreesWithCard | app/src/main/java/com/example/foodwastetracker/presentation/screens/FoodDetailScreen.kt:176-190 | the status emphasis is the home card's expiring-soon flag, and for due or expired items the words are the card's |
| FoodDetailScreen.StatusLabelLastChar | app/src/main/java/com/example/foodwastetracker/presentation/screens/FoodDetailScreen.kt:178-183 | only the "N days left" form of the status line ends in 't' |
| FoodDetailScreen.StatusLabelDeterminesDays | app/src/main/java/com/example/foodwastetracker/presentation/screens/FoodDetailScreen.kt:176-190 | the status line ("N days left", "Expires today" or "Expired N days ago") determines the day count it was made from |
| FoodDetailScreen.StatusEmphasised | app/src/main/java/com/example/foodwastetracker/presentation/screens/FoodDetailScreen.kt:178-189 | the status line is bold in the error colour at three days or fewer; `FoodDetailScreen.StatusAgreesWithCard` equates it with the card's flag |
| FoodDetailScreen.ShownConsumedDate | app/src/main/java/com/example/foodwastetracker/presentation/screens/FoodDetailScreen.kt:167 | the consumption date is shown exactly for a consumed item that has one |
| FoodDetailScreen.ActionsShown | app/src/main/java/com/example/foodwastetracker/presentation/screens/FoodDetailScreen.kt:312 | the mark-consumed and delete buttons exist only for an item not consumed |
| FoodDetailScreen.ConsumedItemIsReadOnly | app/src/main/java/com/example/foodwastetracker/presentation/screens/FoodDetailScreen.kt:87 | a consumed item cannot be edited, offers no actions, has no status line and shows its consumption date |
| FoodDetailScreen.FoodDetailEditor.constructor | app/src/main/java/com/example/foodwastetracker/presentation/screens/FoodDetailScreen.kt:38-43 | the form starts empty and not editing |
| FoodDetailScreen.FoodDetailEditor.Load | app/src/main/java/com/example/foodwastetracker/presentation/screens/FoodDetailScreen.kt:48-56 | loading fills the fields from the item |
| FoodDetailScreen.FoodDetailEditor.OnEditClick | app/src/main/java/com/example/foodwastetracker/presentation/screens/FoodDetailScreen.kt:114 | the edit button enters edit mode only for an editable item |
| FoodDetailScreen.FoodDetailEditor.OnNameChange | app/src/main/java/com/example/foodwastetracker/presentation/screens/FoodDetailScreen.kt:213 | the name field takes any text and nothing else changes |
| FoodDetailScreen.FoodDetailEditor.OnQuantityChange | app/src/main/java/com/example/foodwastetracker/presentation/screens/FoodDetailScreen.kt:256 | the quantity field takes only all-digit text |
| FoodDetailScreen.FoodDetailEditor.OnExpirationDaysChange | app/src/main/java/com/example/foodwastetracker/presentation/screens/FoodDetailScreen.kt:295 | the days field takes only all-digit text |
| FoodDetailScreen.FoodDetailEditor.OnCategorySelected | app/src/main/java/com/example/foodwastetracker/presentation/screens/FoodDetailScreen.kt:243 | the category is the chosen one |
| FoodDetailScreen.FoodDetailEditor.OnUnitSelected | app/src/main/java/com/example/foodwastetracker/presentation/screens/FoodDetailScreen.kt:284 | the unit is the chosen one |
| FoodDetailScreen.FoodDetailEditor.OnSaveClick | app/src/main/java/com/example/foodwastetracker/presentation/screens/FoodDetailScreen.kt:87-103 | an update is issued exactly while editing an editable item; it is the saved copy, and edit mode ends |
| AddFoodScreen.CheckSubmit | app/src/main/java/com/example/foodwastetracker/presentation/screens/AddFoodScreen.kt:365-377 | nothing happens with a blank name or category; the quantity dialog opens for a blank quantity or one parsing to 0; otherwise saving proceeds |
| AddFoodScreen.SubmitEnabled | app/src/main/java/com/example/foodwastetracker/presentation/screens/AddFoodScreen.kt:409 | the button is enabled with a non-blank name and category while not loading; `AddFoodScreen.EnabledSubmitActs` states what a click then does |
| AddFoodScreen.NewFoodItem | app/src/main/java/com/example/foodwastetracker/presentation/screens/AddFoodScreen.kt:380-390 | the new item has the trimmed name, the parsed quantity (1 if unparseable), the expiration `days` ahead (7 if unparseable), the photo URI and the defaults |
| AddFoodScreen.EnabledSubmitActs | app/src/main/java/com/example/foodwastetracker/presentation/screens/AddFoodScreen.kt:409 | when the button is enabled, a click never does nothing |
| AddFoodScreen.AcceptedItemIsSound | app/src/main/java/com/example/foodwastetracker/presentation/screens/AddFoodScreen.kt:372-390 | an item that passes validation with an all-digit quantity field has quantity at least 1 and a non-empty name without surrounding whitespace |
| AddFoodScreen.OverflowingQuantityBecomesOne | app/src/main/java/com/example/foodwastetracker/presentation/screens/AddFoodScreen.kt:386 | a digit quantity too large for `Int` passes validation and is saved as 1 |
| AddFoodScreen.ExpirationDaysFallbacks | app/src/main/java/com/example/foodwastetracker/presentation/screens/AddFoodScreen.kt:380-381 | "0" days expires now; an empty field falls back to 7 days |
| AddFoodScreen.AddFoodForm.constructor | app/src/main/java/com/example/foodwastetracker/presentation/screens/AddFoodScreen.kt:75-83 | the form starts with empty name and category, quantity "1", unit "pieces", 7 days, no photo and not loading |
| AddFoodScreen.AddFoodForm.OnNameChange | app/src/main/java/com/example/foodwastetracker/presentation/screens/AddFoodScreen.kt:247 | the name field takes any text |
| AddFoodScreen.AddFoodForm.OnCategorySelected | app/src/main/java/com/example/foodwastetracker/presentation/screens/AddFoodScreen.kt:286 | the category is the chosen one |
| AddFoodScreen.AddFoodForm.OnUnitSelected | app/src/main/java/com/example/foodwastetracker/presentation/screens/AddFoodScreen.kt:336 | the unit is the chosen one |
| AddFoodScreen.AddFoodForm.OnQuantityChange | app/src/main/java/com/example/foodwastetracker/presentation/screens/AddFoodScreen.kt:300 | the quantity field takes only all-digit text |
| AddFoodScreen.AddFoodForm.OnExpirationDaysChange | app/src/main/java/com/example/foodwastetracker/presentation/screens/AddFoodScreen.kt:348 | the days field takes only all-digit text |
| AddFoodScreen.AddFoodForm.OnCameraPermission | app/src/main/java/com/example/foodwastetracker/presentation/screens/AddFoodScreen.kt:100-109 | with permission, the new image's URI becomes the photo; without it, the permission dialog opens; the text fields are untouched |
| AddFoodScreen.AddFoodForm.OnCameraResult | app/src/main/java/com/example/foodwastetracker/presentation/screens/AddFoodScreen.kt:91-95 | a failed capture drops the photo URI, and a successful one keeps it |
| AddFoodScreen.AddFoodForm.OnSubmit | app/src/main/java/com/example/foodwastetracker/presentation/screens/AddFoodScreen.kt:365-404 | a disabled button does nothing; otherwise the outcome follows the validation, and a saved item has quantity at least 1 |
| AddFoodScreen.AddFoodForm.OnSaveFailed | app/src/main/java/com/example/foodwastetracker/presentation/screens/AddFoodScreen.kt:399-401 | a failed save clears the loading flag |
| AddFoodScreen.AddFoodForm.OnQuantityDialogClosed | app/src/main/java/com/example/foodwastetracker/presentation/screens/AddFoodScreen.kt:445-458 | closing the quantity dialog hides it and changes nothing else |
| RecipeRepository.GetDemoRecipes | app/src/main/java/com/example/foodwastetracker/network/RecipeRepository.kt:28-63 | four recipes, ids 1 to 4, each with a summary |
| RecipeRepository.DemoRecipesShapeFixed | app/src/main/java/com/example/foodwastetracker/network/RecipeRepository.kt:28-63 | only titles and summaries depend on the query |
| RecipeRepository.DemoTitlesDetermineQuery | app/src/main/java/com/example/foodwastetracker/network/RecipeRepository.kt:32-56 | each title determines the query it was made from |
| RecipeRepository.IngredientText | app/src/main/java/com/example/foodwastetracker/network/RecipeRepository.kt:66 | the first two ingredients joined by " & " |
| RecipeRepository.GetDemoRecipesForIngredients | app/src/main/java/com/example/foodwastetracker/network/RecipeRepository.kt:65-93 | three recipes, ids 10 to 12, each with a summary |
| RecipeRepository.IngredientRecipesUseFirstTwo | app/src/main/java/com/example/foodwastetracker/network/RecipeRepository.kt:66 | lists agreeing on their first two ingredients give the same recipes |
| RecipeRepository.NoIngredientsTitles | app/src/main/java/com/example/foodwastetracker/network/RecipeRepository.kt:66-70 | with no ingredients the first title is " Fresh Salad" |
| RecipesScreen.ExpiringAlert | app/src/main/java/com/example/foodwastetracker/presentation/screens/RecipesScreen.kt:97-117 | the alert is absent exactly when nothing is expiring, and otherwise lists the first three items in order, one line each |
| RecipesScreen.AlertLine | app/src/main/java/com/example/foodwastetracker/presentation/screens/RecipesScreen.kt:117 | one alert line: the item's name and its truncated day count |
| RecipesScreen.AlertIgnoresTail | app/src/main/java/com/example/foodwastetracker/presentation/screens/RecipesScreen.kt:115 | items past the third do not change the alert |
| RecipesScreen.RenderedSections | app/src/main/java/com/example/foodwastetracker/presentation/screens/RecipesScreen.kt:197-198 | a category section is drawn exactly when it has recipes |
| RecipesScreen.PreviousIndex | app/src/main/java/com/example/foodwastetracker/presentation/screens/RecipesScreen.kt:153-156 | the left arrow moves back one unless at the first recipe |
| RecipesScreen.NextIndex | app/src/main/java/com/example/foodwastetracker/presentation/screens/RecipesScreen.kt:175-178 | the right arrow moves on one unless at the last recipe |
| RecipesScreen.ArrowsStayInCarousel | app/src/main/java/com/example/foodwastetracker/presentation/screens/RecipesScreen.kt:153-178 | both arrows keep the index on a recipe |
| RecipesScreen.NextThenPrevious | app/src/main/java/com/example/foodwastetracker/presentation/screens/RecipesScreen.kt:153-178 | right then left returns to the same recipe whenever right moved |
| RecipesScreen.Carousel.OnPrevious | app/src/main/java/com/example/foodwastetracker/presentation/screens/RecipesScreen.kt:233-236 | the left arrow's new index, kept on a recipe |
| RecipesScreen.Carousel.OnNext | app/src/main/java/com/example/foodwastetracker/presentation/screens/RecipesScreen.kt:255-258 | the right arrow's new index, kept on a recipe |

## Left out

- Kotlin `Flow` push semantics: each query is modelled as one read of the table, not as a stream that re-emits on change. The `delay` and `withContext` wrappers are left out as well.
- The clock, `UUID.randomUUID()`, the camera's `FileProvider` URI and `String.lowercase()` are parameters rather than computed.
- `Char.isDigit` and `String.toIntOrNull` accept only ASCII digits here; Kotlin also accepts other Unicode decimal digits. The edit fields filter typed input to digits, but the detail screen fills its quantity field from `item.quantity.toString()` (FoodDetailScreen.kt:52), which reads `-5` for a negative stored quantity; `Text.ParseInt` handles the sign as `toIntOrNull` does, and `Text.ParseFormatRoundTrip` covers negatives.
- Strings are sequences of characters; UTF-16 surrogate pairs and locale-dependent case mapping are not modelled.
- WasteLogDao.GetTotalWasteFromDate: the total is an exact integer; the conversion of SQLite's `SUM` to a Kotlin `Double`, and SQLite's integer overflow error for totals beyond 64 bits, are not modelled.
- FoodRepository.FoodRepository.LogWaste: the insert and the delete are not in one transaction, so a crash between them can leave both the log and the item. The model states only the state after the whole call.
- FoodRepository.FoodRepository.LogWaste: a failed insert is modelled as an outcome with both tables unchanged, rather than as an exception.
- Collections.SortByKey: states sorted and a permutation, not the order of ties, which SQLite leaves unspecified.
- The `Double` estimated value is carried as its 64-bit pattern; floating-point arithmetic is not needed by the core.
- The HTML-stripping regular expression of the recipe detail screen is not modelled.
- RecipesScreen.Carousel: swipes scroll the carousel too; only the arrow buttons are modelled.
- RecipesScreen.Carousel: the index is taken to be the target of the arrow's `animateScrollToItem` (RecipesScreen.kt:150-178, 230-258). Near the end of a row whose last cards all fit on screen, the list cannot scroll that far, and the real `firstVisibleItemIndex` stays lower than the model's index.
- AddFoodScreen.AddFoodForm.OnCameraPermission: the photo card's click (AddFoodScreen.kt:184-197) and the permission result are one handler taking `granted`; the permission request itself, the image file creation and the camera launch are left out.
- The statistics screen, the view models, the notification worker, the `Application` class, dependency injection, the `AppDatabase` builder and migrations, `CameraUtils` and the Retrofit `RecipeApiService` are not part of this model.
- The network fields of `Recipe` beyond id, title, image, times, servings, summary, instructions and ingredients are not part of this model.
