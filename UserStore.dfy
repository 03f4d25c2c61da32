/** The user table behind `UserManager` (src/db/userManager.js): the two tier
    functions and the CRUD operations over a store that may be unavailable. */
module UserStore {
  import opened Common

  const FreeDailyLimit: nat := 25
  const PremiumDailyLimit: nat := 1000

  /** `getSubscriptionType`: a positive VIP level is PREMIUM, anything else FREE. */
  function GetSubscriptionType(vipLevel: int): (t: Tier)
    ensures t == Premium <==> vipLevel > 0
    ensures t == Free <==> vipLevel <= 0
  {
    if vipLevel > 0 then Premium else Free
  }

  /** `getDailyLimit`: 1000 requests a day for PREMIUM, 25 otherwise. */
  function GetDailyLimit(t: Tier): (n: nat)
    ensures n == PremiumDailyLimit <==> t == Premium
    ensures n == FreeDailyLimit <==> t == Free
    ensures n >= FreeDailyLimit
  {
    match t
    case Premium => 1000
    case Free => 25
  }

  /** The daily limit never decreases as the VIP level rises. */
  lemma DailyLimitMonotone(v1: int, v2: int)
    requires v1 <= v2
    ensures GetDailyLimit(GetSubscriptionType(v1)) <= GetDailyLimit(GetSubscriptionType(v2))
    ensures v1 <= 0 < v2 ==> GetDailyLimit(GetSubscriptionType(v1)) < GetDailyLimit(GetSubscriptionType(v2))
  {
  }

  /** The platform's description of a user, as passed to `createUser`. */
  datatype TelegramUser = TelegramUser(
    id: int,
    username: Option<string>,
    firstName: Option<string>,
    lastName: Option<string>,
    languageCode: Option<string>)

  /** One row of the `users` table (the `created_at` timestamp is not modelled).
      `vipLevel` is the `"VIP_level"` column. */
  datatype UserRow = UserRow(
    id: int,
    telegramId: int,
    telegramUserName: Option<string>,
    username: Option<string>,
    firstName: Option<string>,
    lastName: Option<string>,
    languageCode: Option<string>,
    balance: real,
    vipLevel: int,
    isActive: bool,
    isNewcomer: bool)

  /** The row that `createUser` inserts for `user`, given the serial id the table assigns. */
  function NewUserRow(id: int, user: TelegramUser): (row: UserRow)
    ensures row.id == id && row.telegramId == user.id
    ensures row.balance == 0.0 && row.vipLevel == 0
    ensures row.isActive && row.isNewcomer
    ensures row.languageCode == Some(OrElse(user.languageCode, "ru"))
    ensures row.username == row.telegramUserName == OrNull(user.username)
    ensures row.firstName == OrNull(user.firstName) && row.lastName == OrNull(user.lastName)
    ensures GetSubscriptionType(row.vipLevel) == Free
  {
    UserRow(id, user.id, OrNull(user.username), OrNull(user.username), OrNull(user.firstName),
            OrNull(user.lastName), Some(OrElse(user.languageCode, "ru")), 0.0, 0, true, true)
  }

  /** The table, keyed by `telegram_id` (the source treats it as unique: it reads `rows[0]`).
      `available` is the connection's `isAvailable()`; `failing` stands for a pool whose
      queries raise, which the source catches and turns into null/false. */
  class UserManager {
    var available: bool
    var failing: bool
    var rows: map<int, UserRow>
    var nextId: int

    constructor (available: bool, failing: bool, rows: map<int, UserRow>, nextId: int)
      ensures this.available == available && this.failing == failing
      ensures this.rows == rows && this.nextId == nextId
    {
      this.available := available;
      this.failing := failing;
      this.rows := rows;
      this.nextId := nextId;
    }

    /** A query reaches the database and completes. */
    predicate Reachable()
      reads this
    {
      available && !failing
    }

    /** `getUserByTelegramId`: the matching row, or null when there is none or the store is down. */
    method GetUserByTelegramId(telegramId: int) returns (r: Option<UserRow>)
      ensures r.Some? <==> Reachable() && telegramId in rows
      ensures r.Some? ==> r.value == rows[telegramId]
    {
      if !available {
        return None;
      }
      if failing {
        return None;
      }
      if telegramId in rows {
        r := Some(rows[telegramId]);
      } else {
        r := None;
      }
    }

    /** `isUserActive`: the row's `is_active`, false for an unknown user or a store that is down. */
    method IsUserActive(telegramId: int) returns (active: bool)
      ensures active <==> Reachable() && telegramId in rows && rows[telegramId].isActive
    {
      var user := GetUserByTelegramId(telegramId);
      active := if user.Some? then user.value.isActive else false;
    }

    /** `createUser`: INSERT ... RETURNING *. An insert for a `telegram_id` that already has
        a row is taken to violate its uniqueness and fail like any other query. */
    method CreateUser(user: TelegramUser) returns (r: Option<UserRow>)
      modifies this
      ensures available == old(available) && failing == old(failing)
      ensures r.Some? <==> old(Reachable()) && user.id !in old(rows)
      ensures r.Some? ==> r.value == NewUserRow(old(nextId), user)
      ensures r.Some? ==> rows == old(rows)[user.id := r.value] && nextId == old(nextId) + 1
      ensures r.None? ==> rows == old(rows) && nextId == old(nextId)
    {
      if !available || failing || user.id in rows {
        return None;
      }
      var row := NewUserRow(nextId, user);
      rows := rows[user.id := row];
      nextId := nextId + 1;
      r := Some(row);
    }

    /** `updateBalance`: `balance = balance + amount` on the matching row; false when no row matched. */
    method UpdateBalance(telegramId: int, amount: real) returns (ok: bool)
      modifies this`rows
      ensures ok <==> old(Reachable()) && telegramId in old(rows)
      ensures ok ==> rows == old(rows)[telegramId := old(rows)[telegramId].(balance := old(rows)[telegramId].balance + amount)]
      ensures !ok ==> rows == old(rows)
    {
      if !available || failing {
        return false;
      }
      if telegramId in rows {
        var row := rows[telegramId];
        rows := rows[telegramId := row.(balance := row.balance + amount)];
        ok := true;
      } else {
        ok := false;
      }
    }

    /** `updateLanguage`: overwrites `language_code` of the matching row. True whenever the
        query completes, even if no row matched. */
    method UpdateLanguage(telegramId: int, languageCode: string) returns (ok: bool)
      modifies this`rows
      ensures ok <==> old(Reachable())
      ensures ok && telegramId in old(rows) ==> rows == old(rows)[telegramId := old(rows)[telegramId].(languageCode := Some(languageCode))]
      ensures !ok || telegramId !in old(rows) ==> rows == old(rows)
    {
      if !available || failing {
        return false;
      }
      if telegramId in rows {
        rows := rows[telegramId := rows[telegramId].(languageCode := Some(languageCode))];
      }
      ok := true;
    }

    /** `updateVipLevel`: overwrites `"VIP_level"` of the matching row. True whenever the
        query completes, even if no row matched. */
    method UpdateVipLevel(telegramId: int, vipLevel: int) returns (ok: bool)
      modifies this`rows
      ensures ok <==> old(Reachable())
      ensures ok && telegramId in old(rows) ==> rows == old(rows)[telegramId := old(rows)[telegramId].(vipLevel := vipLevel)]
      ensures !ok || telegramId !in old(rows) ==> rows == old(rows)
    {
      if !available || failing {
        return false;
      }
      if telegramId in rows {
        rows := rows[telegramId := rows[telegramId].(vipLevel := vipLevel)];
      }
      ok := true;
    }
  }
}
