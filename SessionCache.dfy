/** `SessionManager` (src/session/sessionManager.js): an in-memory map from telegram id to
    session, filled lazily from the user table, with a fallback session when the table
    can neither find nor create the user. */
module SessionCache {
  import opened Common
  import opened UserStore

  /** Most recent entries a session keeps in its conversation history. */
  const MaxHistory: nat := 50

  /** The session object (the registration timestamp is not modelled). A session built from
      a row has no `isFallback` property, which reads as false. */
  datatype Session = Session(
    id: int,
    dbId: Option<int>,
    username: Option<string>,
    firstName: Option<string>,
    lastName: Option<string>,
    mode: Option<string>,
    language: string,
    dailyRequests: nat,
    lastRequestDate: Day,
    subscription: Tier,
    balance: real,
    vipLevel: int,
    isNewcomer: bool,
    history: seq<Message>,
    isFallback: bool)

  /** `createSessionFromDB`, reading the VIP level from the row's `"VIP_level"` column. */
  function SessionFromRow(row: UserRow, today: Day): (s: Session)
    ensures s.id == row.telegramId && s.dbId == Some(row.id)
    ensures s.username == row.username && s.firstName == row.firstName && s.lastName == row.lastName
    ensures s.mode.None? && s.dailyRequests == 0 && s.history == [] && !s.isFallback
    ensures s.lastRequestDate == today
    ensures s.language == OrElse(row.languageCode, "ru")
    ensures s.subscription == GetSubscriptionType(row.vipLevel) && s.vipLevel == row.vipLevel
    ensures s.balance == row.balance && s.isNewcomer == row.isNewcomer
  {
    Session(row.telegramId, Some(row.id), row.username, row.firstName, row.lastName,
            None, OrElse(row.languageCode, "ru"), 0, today,
            GetSubscriptionType(row.vipLevel), row.balance, row.vipLevel, row.isNewcomer, [], false)
  }

  /** The tier `createSessionFromDB` and `refreshBalance` compute as written: they read
      `dbUser.vip_level`, a property the row does not have (the query returns the column as
      `"VIP_level"`), so the level is `undefined` and `undefined > 0` is false. */
  function SubscriptionAsWritten(row: UserRow): (t: Tier)
    ensures t == Free
  {
    SubscriptionOfProperty(VipLevelPropertyAsWritten(row))
  }

  /** `dbUser.vip_level` of a row: absent, whatever the `"VIP_level"` column holds. */
  function VipLevelPropertyAsWritten(row: UserRow): Option<int>
  {
    None
  }

  /** `getSubscriptionType` applied to a property that may be `undefined`. */
  function SubscriptionOfProperty(v: Option<int>): (t: Tier)
    ensures v.None? ==> t == Free
    ensures v.Some? ==> t == GetSubscriptionType(v.value)
  {
    match v
    case None => Free
    case Some(level) => GetSubscriptionType(level)
  }

  /** A row with VIP level 1 yields a FREE session as written, a PREMIUM one as intended. */
  lemma VipLevelLostAsWritten()
    ensures var row := UserRow(7, 42, None, None, None, None, Some("en"), 10.0, 1, true, false);
            SubscriptionAsWritten(row) == Free && SessionFromRow(row, "Mon Jan 01 2024").subscription == Premium
  {
  }

  /** `createFallbackSession`: a FREE newcomer with no database id and nothing in the table. */
  function FallbackSession(user: TelegramUser, today: Day): (s: Session)
    ensures s.id == user.id && s.dbId.None? && s.isFallback && s.isNewcomer
    ensures s.username == user.username && s.firstName == user.firstName && s.lastName == user.lastName
    ensures s.subscription == Free && s.balance == 0.0 && s.vipLevel == 0
    ensures s.mode.None? && s.dailyRequests == 0 && s.history == [] && s.lastRequestDate == today
    ensures s.language == OrElse(user.languageCode, "ru")
  {
    Session(user.id, None, user.username, user.firstName, user.lastName,
            None, OrElse(user.languageCode, "ru"), 0, today, Free, 0.0, 0, true, [], true)
  }

  /** The daily rollover `getSession` applies before returning a session. */
  function Rollover(s: Session, today: Day): (r: Session)
    ensures r.lastRequestDate == today
    ensures r.dailyRequests == if s.lastRequestDate == today then s.dailyRequests else 0
    ensures r.(dailyRequests := s.dailyRequests, lastRequestDate := s.lastRequestDate) == s
  {
    if s.lastRequestDate != today then s.(dailyRequests := 0, lastRequestDate := today) else s
  }

  /** `addToConversationHistory`: push, then keep only the newest 50 entries. */
  function AppendCapped(h: seq<Message>, m: Message): (r: seq<Message>)
    ensures |r| == if |h| < MaxHistory then |h| + 1 else MaxHistory
    ensures r[|r| - 1] == m
    ensures r == (h + [m])[|h| + 1 - |r|..]
    ensures |h| < MaxHistory ==> r == h + [m]
    ensures |h| == MaxHistory ==> r == h[1..] + [m]
  {
    var pushed := h + [m];
    if |pushed| > MaxHistory then pushed[|pushed| - MaxHistory..] else pushed
  }

  /** What `refreshBalance` writes: balance, VIP level and tier from the row, nothing else. */
  function Refreshed(s: Session, row: UserRow): (r: Session)
    ensures r.balance == row.balance && r.vipLevel == row.vipLevel
    ensures r.subscription == GetSubscriptionType(row.vipLevel)
    ensures r.(balance := s.balance, vipLevel := s.vipLevel, subscription := s.subscription) == s
  {
    s.(balance := row.balance, vipLevel := row.vipLevel, subscription := GetSubscriptionType(row.vipLevel))
  }

  class SessionManager {
    var sessions: map<int, Session>
    const store: UserManager

    /** Every cached session keeps at most 50 history entries and none is a fallback. */
    ghost predicate Valid()
      reads this
    {
      forall id :: id in sessions ==> |sessions[id].history| <= MaxHistory && !sessions[id].isFallback
    }

    constructor (store: UserManager)
      ensures this.store == store && sessions == map[] && Valid()
    {
      this.store := store;
      sessions := map[];
    }

    /** `getSession`: the cached session, else one built from the stored or newly created
        row and cached, else an uncached fallback; then the daily rollover. */
    method GetSession(user: TelegramUser, today: Day) returns (s: Session)
      requires Valid()
      modifies this, store
      ensures Valid()
      ensures store.available == old(store.available) && store.failing == old(store.failing)
      ensures user.id in old(sessions) ==>
        s == Rollover(old(sessions)[user.id], today) && sessions == old(sessions)[user.id := s]
      ensures user.id !in old(sessions) && old(store.Reachable()) && user.id in old(store.rows) ==>
        s == SessionFromRow(old(store.rows)[user.id], today) && sessions == old(sessions)[user.id := s]
      ensures user.id !in old(sessions) && old(store.Reachable()) && user.id !in old(store.rows) ==>
        s == SessionFromRow(NewUserRow(old(store.nextId), user), today) && sessions == old(sessions)[user.id := s]
        && store.rows == old(store.rows)[user.id := NewUserRow(old(store.nextId), user)]
        && store.nextId == old(store.nextId) + 1
      ensures user.id !in old(sessions) && !old(store.Reachable()) ==>
        s == FallbackSession(user, today) && sessions == old(sessions)
      ensures !(user.id !in old(sessions) && old(store.Reachable()) && user.id !in old(store.rows)) ==>
        store.rows == old(store.rows) && store.nextId == old(store.nextId)
      ensures s.isFallback <==> user.id !in sessions
      ensures |sessions| == |old(sessions)| + (if user.id in old(sessions) || s.isFallback then 0 else 1)
    {
      if user.id !in sessions {
        var dbUser := store.GetUserByTelegramId(user.id);
        if dbUser.None? {
          var newUser := store.CreateUser(user);
          if newUser.None? {
            s := FallbackSession(user, today);
            return;
          }
          sessions := sessions[user.id := SessionFromRow(newUser.value, today)];
        } else {
          sessions := sessions[user.id := SessionFromRow(dbUser.value, today)];
        }
      }
      s := Rollover(sessions[user.id], today);
      sessions := sessions[user.id := s];
    }

    /** `updateMode`: sets the mode of a cached session; no effect otherwise. */
    method UpdateMode(telegramId: int, mode: Option<string>)
      requires Valid()
      modifies this
      ensures Valid()
      ensures telegramId in old(sessions) ==> sessions == old(sessions)[telegramId := old(sessions)[telegramId].(mode := mode)]
      ensures telegramId !in old(sessions) ==> sessions == old(sessions)
    {
      if telegramId in sessions {
        sessions := sessions[telegramId := sessions[telegramId].(mode := mode)];
      }
    }

    /** `updateLanguage`: sets the language of a cached session and, unless it is a fallback,
        writes it to the table as well. */
    method UpdateLanguage(telegramId: int, language: string)
      requires Valid()
      modifies this, store
      ensures Valid()
      ensures store.available == old(store.available) && store.failing == old(store.failing)
      ensures store.nextId == old(store.nextId)
      ensures telegramId in old(sessions) ==> sessions == old(sessions)[telegramId := old(sessions)[telegramId].(language := language)]
      ensures telegramId !in old(sessions) ==> sessions == old(sessions)
      ensures if telegramId in old(sessions) && !old(sessions)[telegramId].isFallback
                 && old(store.Reachable()) && telegramId in old(store.rows)
              then store.rows == old(store.rows)[telegramId := old(store.rows)[telegramId].(languageCode := Some(language))]
              else store.rows == old(store.rows)
    {
      if telegramId in sessions {
        var session := sessions[telegramId];
        sessions := sessions[telegramId := session.(language := language)];
        if !session.isFallback {
          var _ := store.UpdateLanguage(telegramId, language);
        }
      }
    }

    /** `incrementDailyRequests`: one more request today for a cached session. */
    method IncrementDailyRequests(telegramId: int)
      requires Valid()
      modifies this
      ensures Valid()
      ensures telegramId in old(sessions) ==>
        sessions == old(sessions)[telegramId := old(sessions)[telegramId].(dailyRequests := old(sessions)[telegramId].dailyRequests + 1)]
      ensures telegramId !in old(sessions) ==> sessions == old(sessions)
    {
      if telegramId in sessions {
        var session := sessions[telegramId];
        sessions := sessions[telegramId := session.(dailyRequests := session.dailyRequests + 1)];
      }
    }

    /** `refreshBalance`: re-reads the row of a cached, non-fallback session and overwrites
        its balance, VIP level and tier. */
    method RefreshBalance(telegramId: int)
      requires Valid()
      modifies this
      ensures Valid()
      ensures if telegramId in old(sessions) && !old(sessions)[telegramId].isFallback
                 && store.Reachable() && telegramId in store.rows
              then sessions == old(sessions)[telegramId := Refreshed(old(sessions)[telegramId], store.rows[telegramId])]
              else sessions == old(sessions)
    {
      if telegramId in sessions && !sessions[telegramId].isFallback {
        var dbUser := store.GetUserByTelegramId(telegramId);
        if dbUser.Some? {
          sessions := sessions[telegramId := Refreshed(sessions[telegramId], dbUser.value)];
        }
      }
    }

    /** `clearConversationHistory`: empties the history of a cached session. */
    method ClearConversationHistory(telegramId: int)
      requires Valid()
      modifies this
      ensures Valid()
      ensures telegramId in old(sessions) ==> sessions == old(sessions)[telegramId := old(sessions)[telegramId].(history := [])]
      ensures telegramId !in old(sessions) ==> sessions == old(sessions)
    {
      if telegramId in sessions {
        sessions := sessions[telegramId := sessions[telegramId].(history := [])];
      }
    }

    /** `addToConversationHistory`: appends to a cached session's history, keeping the newest 50. */
    method AddToConversationHistory(telegramId: int, message: Message)
      requires Valid()
      modifies this
      ensures Valid()
      ensures telegramId in old(sessions) ==>
        sessions == old(sessions)[telegramId := old(sessions)[telegramId].(history := AppendCapped(old(sessions)[telegramId].history, message))]
      ensures telegramId !in old(sessions) ==> sessions == old(sessions)
    {
      if telegramId in sessions {
        var session := sessions[telegramId];
        sessions := sessions[telegramId := session.(history := AppendCapped(session.history, message))];
      }
    }

    /** `getSessionCount`. */
    method GetSessionCount() returns (n: nat)
      ensures n == |sessions|
    {
      n := |sessions|;
    }

    /** `hasSession`. */
    method HasSession(telegramId: int) returns (b: bool)
      ensures b <==> telegramId in sessions
    {
      b := telegramId in sessions;
    }

    /** `removeSession`: forgets the session; the next `getSession` rebuilds it from the table. */
    method RemoveSession(telegramId: int)
      requires Valid()
      modifies this
      ensures Valid()
      ensures sessions == old(sessions) - {telegramId}
    {
      sessions := sessions - {telegramId};
    }
  }
}
