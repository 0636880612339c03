/** The repository the screens talk to. It owns the three tables and forwards to
    their data-access objects; two operations carry content of their own: the
    warning-date arithmetic of `getExpiringItems`, and `logWaste`, which writes a
    snapshot of an item to the waste log and then deletes the item. The clock and
    the fresh UUID of a new waste log are parameters. */
module FoodRepository {
  import opened Numeric
  import opened Wrappers
  import opened Entities
  import opened Expiry
  import FoodItemDao
  import WasteLogDao
  import UserSettingsDao

  /** `now + (warningDays * 24 * 60 * 60 * 1000)`: the whole product is taken in
      `Int` and wraps before it is widened and added to the `Long` clock. */
  function ExpiryThreshold(now: Int64, warningDays: Int32): (r: Int64)
    ensures 0 <= warningDays <= 24 && now + warningDays * MillisPerDay <= MaxLong ==>
      r == now + warningDays * MillisPerDay
  {
    LongPlus(now, IntTimes(IntTimes(IntTimes(IntTimes(warningDays, 24), 60), 60), 1000))
  }

  /** From 25 days on (and from -25 down) the product no longer fits an `Int`, so the
      threshold is never `now` plus that many days. */
  lemma ThresholdInexactBeyond24(now: Int64, warningDays: Int32)
    requires 0 <= now <= MaxLong / 2
    requires warningDays >= 25 || warningDays <= -25
    ensures ExpiryThreshold(now, warningDays) != now + warningDays * MillisPerDay
  {
    var product := IntTimes(IntTimes(IntTimes(IntTimes(warningDays, 24), 60), 60), 1000);
    assert ExpiryThreshold(now, warningDays) == now + product;
    if warningDays >= 25 {
      MulAtLeast(warningDays - 24, MillisPerDay);
      assert warningDays * MillisPerDay > MaxInt;
    } else {
      MulAtLeast(-24 - warningDays, MillisPerDay);
      assert warningDays * MillisPerDay < MinInt;
    }
  }

  /** A 25-day warning window wraps to a threshold about 24.7 days in the past. */
  lemma ThresholdAt25Days(now: Int64)
    requires 0 <= now <= MaxLong / 2
    ensures ExpiryThreshold(now, 25) == now + 25 * MillisPerDay - IntModulus
    ensures ExpiryThreshold(now, 25) < now
  {
    assert IntTimes(25, 24) == 600;
    assert IntTimes(600, 60) == 36000;
    assert IntTimes(36000, 60) == 2160000;
    var w := IntTimes(2160000, 1000);
    assert w == Wrap32(2160000000);
    assert (2160000000 - w) % IntModulus == 0;
  }

  /** The waste-log row `logWaste` writes for `item`: a snapshot of the item's key,
      name, category, quantity and unit, with the reason, value and time given. */
  function WasteSnapshot(item: FoodItem, reason: string, estimatedValue: Option<Double>,
                         now: Int64, logId: string): (log: WasteLog)
    ensures log.id == logId && log.dateWasted == now
    ensures log.foodItemId == item.id && log.foodName == item.name && log.category == item.category
    ensures log.quantity == item.quantity && log.unit == item.unit
    ensures log.reason == reason && log.estimatedValue == estimatedValue
  {
    WasteLog(logId, item.id, item.name, item.category, item.quantity, item.unit, reason, now, estimatedValue)
  }

  /** Logging an item as waste counts it in the aggregates from any date up to
      now: one more row, and its quantity added to the total. */
  lemma SnapshotCountsInAggregates(rows: seq<WasteLog>, item: FoodItem, reason: string,
                                   estimatedValue: Option<Double>, now: Int64, logId: string,
                                   startDate: Int64)
    requires startDate <= now
    ensures var after := rows + [WasteSnapshot(item, reason, estimatedValue, now, logId)];
      && WasteLogDao.GetWasteCountFromDate(after, startDate) == WasteLogDao.GetWasteCountFromDate(rows, startDate) + 1
      && WasteLogDao.GetTotalWasteFromDate(after, startDate)
         == Some(WasteLogDao.GetTotalWasteFromDate(rows, startDate).GetOr(0) + item.quantity)
  {
    var log := WasteSnapshot(item, reason, estimatedValue, now, logId);
    WasteLogDao.CountAfterInsert(rows, log, startDate);
    WasteLogDao.TotalAfterInsert(rows, log, startDate);
  }

  class FoodRepository {
    const foodItemDao: FoodItemDao.FoodItemTable
    const wasteLogDao: WasteLogDao.WasteLogTable
    const userSettingsDao: UserSettingsDao.UserSettingsTable

    ghost predicate Valid()
      reads foodItemDao, wasteLogDao, userSettingsDao
    {
      foodItemDao.Valid() && wasteLogDao.Valid() && userSettingsDao.Valid()
    }

    constructor (foodItemDao: FoodItemDao.FoodItemTable, wasteLogDao: WasteLogDao.WasteLogTable,
                 userSettingsDao: UserSettingsDao.UserSettingsTable)
      ensures this.foodItemDao == foodItemDao && this.wasteLogDao == wasteLogDao
      ensures this.userSettingsDao == userSettingsDao
    {
      this.foodItemDao := foodItemDao;
      this.wasteLogDao := wasteLogDao;
      this.userSettingsDao := userSettingsDao;
    }

    /** `getAllFoodItems`: the active items, soonest expiration first. */
    function GetAllFoodItems(): (r: seq<FoodItem>)
      reads foodItemDao
      ensures forall x :: x in r <==> x in foodItemDao.rows && !x.isConsumed
      ensures forall x :: multiset(r)[x] == if x.isConsumed then 0 else multiset(foodItemDao.rows)[x]
      ensures forall i, j :: 0 <= i < j < |r| ==> r[i].expirationDate <= r[j].expirationDate
    {
      FoodItemDao.GetAllActiveFoodItems(foodItemDao.rows)
    }

    /** `getExpiringItems(warningDays)`: the active items expiring by the threshold
        `warningDays` ahead of `now`. */
    function GetExpiringItems(warningDays: Int32, now: Int64): (r: seq<FoodItem>)
      reads foodItemDao
      ensures forall x :: x in r <==>
        x in foodItemDao.rows && !x.isConsumed && x.expirationDate <= ExpiryThreshold(now, warningDays)
      ensures forall x :: multiset(r)[x] ==
                (if !x.isConsumed && x.expirationDate <= ExpiryThreshold(now, warningDays)
                 then multiset(foodItemDao.rows)[x] else 0)
    {
      FoodItemDao.GetExpiringItems(foodItemDao.rows, ExpiryThreshold(now, warningDays))
    }

    /** `getAllWasteLogs`: every log, newest first. */
    function GetAllWasteLogs(): (r: seq<WasteLog>)
      reads wasteLogDao
      ensures multiset(r) == multiset(wasteLogDao.rows)
      ensures forall i, j :: 0 <= i < j < |r| ==> r[i].dateWasted >= r[j].dateWasted
    {
      WasteLogDao.GetAllWasteLogs(wasteLogDao.rows)
    }

    /** `getWasteLogsByDateRange(startDate, endDate)`, both ends inclusive. */
    function GetWasteLogsByDateRange(startDate: Int64, endDate: Int64): (r: seq<WasteLog>)
      reads wasteLogDao
      ensures forall x :: x in r <==> x in wasteLogDao.rows && startDate <= x.dateWasted <= endDate
      ensures forall x :: multiset(r)[x] ==
                (if startDate <= x.dateWasted <= endDate then multiset(wasteLogDao.rows)[x] else 0)
    {
      WasteLogDao.GetWasteLogsByDateRange(wasteLogDao.rows, startDate, endDate)
    }

    /** `getUserSettings`: the settings row 1, if there is one. */
    function GetUserSettings(): (r: Option<UserSettings>)
      reads userSettingsDao
      ensures r.None? <==> SettingsId !in userSettingsDao.rows
      ensures r.Some? ==> r.value == userSettingsDao.rows[SettingsId]
    {
      UserSettingsDao.GetUserSettings(userSettingsDao.rows)
    }

    /** `addFoodItem`: an aborting insert into `food_items`. */
    method AddFoodItem(foodItem: FoodItem) returns (outcome: WriteOutcome)
      requires Valid()
      modifies foodItemDao
      ensures Valid()
      ensures outcome == if foodItem.id in FoodItemDao.Ids(old(foodItemDao.rows)) then ConstraintViolation else Written
      ensures foodItemDao.rows == if outcome == Written then old(foodItemDao.rows) + [foodItem] else old(foodItemDao.rows)
    {
      outcome := foodItemDao.InsertFoodItem(foodItem);
    }

    /** `updateFoodItem`: replaces the row with the item's key, if any. */
    method UpdateFoodItem(foodItem: FoodItem)
      requires Valid()
      modifies foodItemDao
      ensures Valid()
      ensures foodItemDao.rows == FoodItemDao.Replaced(old(foodItemDao.rows), foodItem)
    {
      foodItemDao.UpdateFoodItem(foodItem);
    }

    /** `markAsConsumed(foodItem)`: marks the row with the item's key consumed at
        `now`; the item's other fields play no part. */
    method MarkAsConsumed(foodItem: FoodItem, now: Int64)
      requires Valid()
      modifies foodItemDao
      ensures Valid()
      ensures foodItemDao.rows == FoodItemDao.MarkedConsumed(old(foodItemDao.rows), foodItem.id, now)
    {
      foodItemDao.MarkAsConsumed(foodItem.id, now);
    }

    /** `deleteFoodItem`: removes the row with the item's key. */
    method DeleteFoodItem(foodItem: FoodItem)
      requires Valid()
      modifies foodItemDao
      ensures Valid()
      ensures foodItemDao.rows == FoodItemDao.WithoutId(old(foodItemDao.rows), foodItem.id)
    {
      foodItemDao.DeleteFoodItem(foodItem);
    }

    /** `logWaste`: first inserts the snapshot into `waste_logs`, then deletes the
        item from `food_items`, as two separate statements. When the insert aborts
        (the new log's key is taken) the exception skips the delete and neither
        table changes. */
    method LogWaste(foodItem: FoodItem, reason: string, estimatedValue: Option<Double>,
                    now: Int64, logId: string) returns (outcome: WriteOutcome)
      requires Valid()
      modifies foodItemDao, wasteLogDao
      ensures Valid()
      ensures outcome == if logId in WasteLogDao.Ids(old(wasteLogDao.rows)) then ConstraintViolation else Written
      ensures outcome == Written ==>
        && wasteLogDao.rows == old(wasteLogDao.rows) + [WasteSnapshot(foodItem, reason, estimatedValue, now, logId)]
        && foodItemDao.rows == FoodItemDao.WithoutId(old(foodItemDao.rows), foodItem.id)
        && foodItem.id !in FoodItemDao.Ids(foodItemDao.rows)
        && |wasteLogDao.rows| == |old(wasteLogDao.rows)| + 1
      ensures outcome == ConstraintViolation ==>
        wasteLogDao.rows == old(wasteLogDao.rows) && foodItemDao.rows == old(foodItemDao.rows)
    {
      var wasteLog := WasteSnapshot(foodItem, reason, estimatedValue, now, logId);
      outcome := wasteLogDao.InsertWasteLog(wasteLog);
      if outcome == Written {
        foodItemDao.DeleteFoodItem(foodItem);
      }
    }

    /** `updateUserSettings`: an upsert through the REPLACE insert. */
    method UpdateUserSettings(userSettings: UserSettings)
      requires Valid()
      modifies userSettingsDao
      ensures Valid()
      ensures userSettingsDao.rows == old(userSettingsDao.rows)[userSettings.id := userSettings]
      ensures userSettings.id == SettingsId ==> GetUserSettings() == Some(userSettings)
    {
      userSettingsDao.InsertUserSettings(userSettings);
    }
  }
}
