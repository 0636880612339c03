/** The `user_settings` table and its data-access object. The table is a map from
    primary key to row; the application only ever reads row 1. */
module UserSettingsDao {
  import opened Numeric
  import opened Wrappers
  import opened Entities

  /** Every row is stored under its own primary key. */
  predicate KeyedById(rows: map<Int32, UserSettings>)
  {
    forall k :: k in rows ==> rows[k].id == k
  }

  /** SELECT * FROM user_settings WHERE id = 1 */
  function GetUserSettings(rows: map<Int32, UserSettings>): (r: Option<UserSettings>)
    ensures r.None? <==> SettingsId !in rows
    ensures r.Some? ==> r.value == rows[SettingsId]
  {
    if SettingsId in rows then Some(rows[SettingsId]) else None
  }

  /** After an upsert of `s`, the settings read back are `s` when `s` is row 1, and
      are unchanged otherwise. */
  lemma ReadAfterUpsert(rows: map<Int32, UserSettings>, s: UserSettings)
    ensures GetUserSettings(rows[s.id := s]) == if s.id == SettingsId then Some(s) else GetUserSettings(rows)
  {
  }

  class UserSettingsTable {
    var rows: map<Int32, UserSettings>

    ghost predicate Valid()
      reads this
    {
      KeyedById(rows)
    }

    constructor ()
      ensures Valid() && rows == map[]
    {
      rows := map[];
    }

    /** `@Insert(onConflict = REPLACE)`: afterwards the row under the argument's key
        is the argument, whether or not one was there before. */
    method InsertUserSettings(settings: UserSettings)
      requires Valid()
      modifies this
      ensures Valid()
      ensures rows == old(rows)[settings.id := settings]
    {
      rows := rows[settings.id := settings];
    }

    /** `@Update`: replaces the row with the argument's key; no such row, no change. */
    method UpdateUserSettings(settings: UserSettings)
      requires Valid()
      modifies this
      ensures Valid()
      ensures rows == if settings.id in old(rows) then old(rows)[settings.id := settings] else old(rows)
    {
      if settings.id in rows {
        rows := rows[settings.id := settings];
      }
    }

    /** UPDATE user_settings SET notificationsEnabled = :enabled WHERE id = 1 */
    method UpdateNotificationSettings(enabled: bool)
      requires Valid()
      modifies this
      ensures Valid()
      ensures rows == if SettingsId in old(rows)
        then old(rows)[SettingsId := old(rows)[SettingsId].(notificationsEnabled := enabled)]
        else old(rows)
    {
      if SettingsId in rows {
        rows := rows[SettingsId := rows[SettingsId].(notificationsEnabled := enabled)];
      }
    }

    /** UPDATE user_settings SET expirationWarningDays = :days WHERE id = 1 */
    method UpdateWarningDays(days: Int32)
      requires Valid()
      modifies this
      ensures Valid()
      ensures rows == if SettingsId in old(rows)
        then old(rows)[SettingsId := old(rows)[SettingsId].(expirationWarningDays := days)]
        else old(rows)
    {
      if SettingsId in rows {
        rows := rows[SettingsId := rows[SettingsId].(expirationWarningDays := days)];
      }
    }
  }
}
