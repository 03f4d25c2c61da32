# viAIzer bot core in Dafny

A model of the sequential core of the viAIzer Telegram bot. It covers three pieces.

- **The bot object of `bot.js`.**
  - It keeps its own map of user sessions, with a daily reset on every lookup.
  - It has a whitelist of four modes, reached through the `mode_` callback.
  - `handleAIConversation` checks the daily quota, then bumps the counter and appends history.
  - The kie.ai image-edit job runs in three steps: create a task, poll it in a bounded
    `while` loop, then deliver the photos.
  - `generateOpenRouterImageResponse` extracts the answer by a fixed priority order.
  - `getLocalizedText` falls back from the user's language to Russian, then to the key.
- **`SessionManager`** (`src/session/sessionManager.js`).
  - A lazily filled cache of sessions in front of the user table.
  - A 50-entry history cap.
  - A fallback session that is returned but never cached.
- **`UserManager`** (`src/db/userManager.js`).
  - The VIP-level → tier and tier → daily-limit functions.
  - The CRUD operations over a table that may be unavailable.

The modules follow the source files:

| module | file |
|---|---|
| `Common` | shared types |
| `UserStore` | userManager.js |
| `SessionCache` | sessionManager.js |
| `KieJobs` | the kie.ai calls of bot.js |
| `ImageReply` | the OpenRouter image extraction of bot.js |
| `Bot` | sessions, modes, quota, kie.ai delivery and localisation of bot.js |

How each side is represented:

- The state the source updates in place is held in classes with `modifies` frames:
  - `UserStore.UserManager`, whose `rows` field is a map keyed by `telegram_id`;
  - `SessionCache.SessionManager`, whose `sessions` field is a map;
  - `Bot.GeminiBot`, which holds the session map and an outbox of sent events.
- Pure logic is written as functions. Lemmas relate those functions.
- Telegram calls become `Bot.Event` values appended to `GeminiBot.outbox`.
- Replies from the HTTP services arrive as inputs:
  - the `createTask` reply;
  - a function from poll number to `recordInfo` reply;
  - the parsed chat-completion message and the URL found by the regex scrape;
  - the text the chat generators produce.
- The day is an opaque `Day` token.
- The poll clock advances by Node's effective `setTimeout` delay per pending poll.

## Model

| member | source | states |
|---|---|---|
| UserStore.GetSubscriptionType | src/db/userManager.js:156-158 | PREMIUM exactly when the VIP level is positive, FREE exactly when it is not |
| UserStore.GetDailyLimit | src/db/userManager.js:161-163 | 1000 exactly for PREMIUM, 25 exactly for FREE, never below 25 |
| UserStore.DailyLimitMonotone | src/db/userManager.js:156-163 | the daily limit never decreases as the VIP level rises, and strictly increases across level 0 |
| UserStore.NewUserRow | src/db/userManager.js:58-69 | the inserted row has balance 0, VIP level 0 (so FREE), is_active and is_newcomer set, language defaulting to 'ru', empty names stored as null |
| UserStore.UserManager.GetUserByTelegramId | src/db/userManager.js:9-32 | the matching row exactly when the store is reachable and has it, otherwise null |
| UserStore.UserManager.IsUserActive | src/db/userManager.js:166-169 | true exactly when the store is reachable, holds the user, and the row is active |
| UserStore.UserManager.CreateUser | src/db/userManager.js:35-78 | inserts and returns the new row with the next serial id when reachable and the id is new; otherwise returns null and changes nothing |
| UserStore.UserManager.UpdateBalance | src/db/userManager.js:81-107 | adds the amount to the existing balance; false with nothing changed when unreachable or no row matches |
| UserStore.UserManager.UpdateLanguage | src/db/userManager.js:110-130 | overwrites only language_code of the matching row; true whenever the store is reachable, even with no match |
| UserStore.UserManager.UpdateVipLevel | src/db/userManager.js:133-153 | overwrites only the VIP level of the matching row; true whenever the store is reachable, even with no match |
| UserStore.UserManager.constructor | src/db/userManager.js:4-6 | a store with the given availability, rows and next serial id |
| SessionCache.SessionFromRow | src/session/sessionManager.js:48-67 | a session from a row carries the row's id, user names, balance and newcomer flag, has mode null, 0 requests, empty history, language of the row or 'ru', and the tier of the row's VIP level; it is not a fallback |
| SessionCache.SubscriptionAsWritten | src/session/sessionManager.js:49 | reading `vip_level` from a row always yields FREE |
| SessionCache.SubscriptionOfProperty | src/session/sessionManager.js:49 | an undefined VIP level gives FREE; a defined one gives the tier of that level |
| SessionCache.VipLevelLostAsWritten | src/session/sessionManager.js:49-64 | a VIP-level-1 row gives a FREE session as written and a PREMIUM one as intended |
| SessionCache.FallbackSession | src/session/sessionManager.js:71-90 | the fallback keeps the Telegram user's id and names, is flagged, has no database id, and is FREE with balance 0 and VIP level 0; it is a newcomer with mode null and empty history |
| SessionCache.Rollover | src/session/sessionManager.js:35-44 | the date becomes today; the count is reset to 0 only when the date differed; nothing else changes |
| SessionCache.AppendCapped | src/session/sessionManager.js:141-152 | the message is appended last, and the result is the newest min(n+1, 50) entries of the extended history, in order |
| SessionCache.Refreshed | src/session/sessionManager.js:126-128 | overwrites balance, VIP level and tier from the row and nothing else |
| SessionCache.SessionManager.constructor | src/session/sessionManager.js:4-6 | an empty cache over the given store |
| SessionCache.SessionManager.GetSession | src/session/sessionManager.js:9-45 | see the list after the table |
| SessionCache.SessionManager.UpdateMode | src/session/sessionManager.js:93-97 | sets only the mode of a cached session; no effect for an uncached id |
| SessionCache.SessionManager.UpdateLanguage | src/session/sessionManager.js:100-110 | sets the session language; writes the table only for a cached non-fallback session; no effect for an uncached id |
| SessionCache.SessionManager.IncrementDailyRequests | src/session/sessionManager.js:113-117 | adds exactly 1 to a cached session's count and changes nothing else; no effect for an uncached id |
| SessionCache.SessionManager.RefreshBalance | src/session/sessionManager.js:120-131 | see the list after the table |
| SessionCache.SessionManager.ClearConversationHistory | src/session/sessionManager.js:134-138 | leaves a cached session with empty history; no effect for an uncached id |
| SessionCache.SessionManager.AddToConversationHistory | src/session/sessionManager.js:141-152 | appends with the 50-entry cap, keeping every history at most 50; no effect for an uncached id |
| SessionCache.SessionManager.GetSessionCount | src/session/sessionManager.js:160-162 | the number of cached sessions |
| SessionCache.SessionManager.HasSession | src/session/sessionManager.js:165-167 | true exactly when the id is cached |
| SessionCache.SessionManager.RemoveSession | src/session/sessionManager.js:170-172 | the cache without that id |
| KieJobs.ParsedOr | bot.js:30-31 | `parseInt(x) \|\| d`: the parsed number unless absent (NaN) or 0, else the default |
| KieJobs.ConfigFromEnv | bot.js:26-36 | enabled exactly for the string 'true'; a non-zero parsed interval or budget is used as is, and an unset or 0 one gives the default 2000 or 120000 (`parseInt(...) \|\| d`); interval and budget never 0 |
| KieJobs.CreateKieAITask | bot.js:586-639 | see the list after the table |
| KieJobs.Settle | bot.js:657-691 | see the list after the table |
| KieJobs.Delay | bot.js:695 | the effective wait equals the interval when Node accepts it (1 to 2147483647 ms) and is 1 ms otherwise |
| KieJobs.PollFromStopsAtFirstTerminal | bot.js:646-698 | the loop entered at any poll stops at the first non-pending reply; it times out exactly when all remaining budgeted polls were pending |
| KieJobs.PollStopsAtFirstTerminal | bot.js:642-700 | see the list after the table |
| KieJobs.PollsWithinBound | bot.js:646 | with n polls, the last one starts before the budget is spent, and the budget is spent within one interval of it |
| KieJobs.SinglePollWhenIntervalCoversBudget | bot.js:646-695 | a budget no larger than the interval allows exactly one poll |
| KieJobs.ThreePollsScenario | bot.js:642-700 | with a 10 ms interval and a 35 ms budget, pending, pending, success takes three polls and returns the URLs |
| KieJobs.NeverSettlingScenario | bot.js:642-700 | with the same budget, a job that never settles is polled four times, then times out |
| KieJobs.PollKieAITask | bot.js:642-700 | the `while` loop computes exactly `PollResult`: same outcome, same number of polls, within the budget, stopping at the first terminal reply |
| ImageReply.FirstOfKinds | bot.js:895-896 | the index of the first part whose type is in the set, and none of the earlier parts has such a type; none when no part does |
| ImageReply.FromParts | bot.js:894-913 | the first image part's locators in the order `image_url.url`, `url`, `b64_json`, `data`, each with the first text part's text; with no locator or no image part, that text alone if truthy, else none |
| ImageReply.IndexOf | bot.js:921 | the first position of the character, or none when it does not occur |
| ImageReply.SecondCommaField | bot.js:921 | `split(',')[1]` is undefined exactly when the URL has no comma; otherwise it is the text after the first comma up to the next comma or the end, and holds no comma |
| ImageReply.DataUrlPayload | bot.js:918-921 | for a header and payload free of commas, the field is the payload |
| ImageReply.FromImages | bot.js:915-925 | yields exactly when `images[0]` has type image_url and a URL: a `data:image/` URL gives `split(',')[1]` as image data, any other URL the image URL; never text |
| ImageReply.Extract | bot.js:888-933 | never both an image URL and image data; usable content first (non-blank string content as is); then the `images` stage; with neither, the scraped URL, else the default text |
| ImageReply.ContentBeatsImages | bot.js:890-913 | usable content decides the answer; `images` and the scrape are not consulted |
| ImageReply.ImagePartFirst | bot.js:894-900 | the first image part's `image_url.url` wins over its other locators and over text, and the text rides along |
| ImageReply.ImageEntryBeatsScrape | bot.js:915-931 | with unusable content, a plain URL in `images[0]` is the answer whatever the scrape found |
| ImageReply.DataUrlImage | bot.js:915-922 | with unusable content, a `data:image/` URL in `images[0]` yields its base64 payload as image data |
| Bot.PrototypeNameAccepted | bot.js:341 | the lookup as written accepts 'toString', which is not a mode |
| Bot.IsModeExactly | bot.js:48-53 | the whitelist is exactly the four keys of `config.modes`, each of which the written lookup also accepts |
| Bot.MaxDailyRequests | bot.js:44-47 | 25 for FREE, 1000 for PREMIUM |
| Bot.MaxDailyRequestsAgrees | bot.js:44-47 | the bot's quota table agrees with `getDailyLimit` of src/db/userManager.js |
| Bot.Rollover | bot.js:113-120 | the date becomes today; the count is reset to 0 only when the date differed; nothing else changes |
| Bot.Converse | bot.js:422-490 | see the list after the table |
| Bot.WhitelistedModeIsSupported | bot.js:461-476 | a session whose mode is unset or one of the four names is never answered by the 'mode_not_supported' fallback |
| Bot.QuotaPreserved | bot.js:443-452 | one step never takes the count past the limit, and never changes the tier |
| Bot.QuotaOverADay | bot.js:443-479 | over a run of messages in a chat mode, the count ends at min(count + n, limit), each answered message adds two history entries, and history is not capped |
| Bot.FreeQuotaScenario | bot.js:443-479 | a FREE user gets 25 answers, the 26th message is refused citing 25 with the session unchanged, and after the daily reset of bot.js:117-120 the next day's message is answered |
| Bot.ConverseAllKeepsDate | bot.js:422-490 | conversation steps never change the session's date |
| Bot.ModeFromCallback | bot.js:236-237 | a result exactly for data starting with 'mode_', and the data is 'mode_' followed by that result |
| Bot.CallbackPassesModeName | bot.js:236-238 | the callback `mode_X` passes exactly X |
| Bot.LocalizedText | bot.js:1018 | the language's non-empty text, else the Russian one, else the key; a lookup in a missing table throws |
| Bot.LocalizedTextTotal | bot.js:1018 | with a Russian table, a known language always yields a text, empty only for an empty key |
| Bot.PhotoEvents | bot.js:752-757 | one photo per result URL |
| Bot.PhotoEventsCarryUrls | bot.js:752-757 | the photos sent are the result URLs, in order, none dropped |
| Bot.PhotoEventsSnoc | bot.js:752-757 | one more loop iteration sends one more photo, last |
| Bot.PhotoUrlsAppend | bot.js:752-757 | the photos of two event runs are the photos of each, in order |
| Bot.KieFlowPhotos | bot.js:702-788 | see the list after the table |
| Bot.GeminiBot.constructor | bot.js:40 | no sessions, nothing sent |
| Bot.GeminiBot.GetUserSession | bot.js:98-123 | see the list after the table |
| Bot.GeminiBot.SetUserMode | bot.js:338-362 | sets the mode only for one of the four names and confirms it; otherwise the mode is unchanged and 'mode_not_found' is sent |
| Bot.GeminiBot.HandleModeCallback | bot.js:205-238 | fetches the session with its daily reset, answers the callback, then applies `setUserMode` to the text after 'mode_' |
| Bot.GeminiBot.HandleAIConversation | bot.js:422-490 | updates the session and the outbox exactly as `Converse` says, and never reaches the 'mode_not_supported' fallback because stored modes are whitelisted |
| Bot.GeminiBot.GenerateKieAIResponse | bot.js:702-788 | see the list after the table |

Fuller statements for the rows marked "see the list":

- **SessionCache.SessionManager.GetSession**
  - A cached id returns its own session, rolled over to today.
  - On a miss it uses the stored row, else the newly created row, and caches the session. The count then grows by one.
  - If the store can do neither, it returns an uncached fallback.
  - The result is a fallback exactly when it is not cached.
- **SessionCache.SessionManager.RefreshBalance**
  - It applies `Refreshed` only when the session is cached and not a fallback, and the store returns its row.
  - Otherwise nothing changes.
- **KieJobs.CreateKieAITask**
  - It sends no request when kie.ai is disabled, the key is missing or the image URL is empty. Each of these has its own error.
  - The request it sends carries exactly the one image URL.
  - A non-ok response or an application code other than 200 throws.
  - Otherwise it returns the task id.
- **KieJobs.Settle**
  - A non-ok response throws `PollHttp` with its status and body text.
  - An application code other than 200 throws `PollApi` with its `msg`.
  - The state 'success' returns the result URLs, `[]` when absent, with the task's `costTime`.
  - The state 'fail' returns the task's `failCode` and `failMsg`.
- **KieJobs.PollStopsAtFirstTerminal**
  - `pollKieAITask` returns or throws on the first reply that is not pending.
  - Every earlier reply was pending.
  - It throws `Timeout` exactly when all of its budgeted polls were pending.
- **Bot.Converse**
  - With no mode it shows the mode menu. In the kie.ai mode it asks for an image. At the limit it cites the limit. In these three cases the session is unchanged.
  - Otherwise the count grows by exactly 1, and the history gains a user entry and then an assistant entry.
  - The session changes exactly when the message is admitted.
- **Bot.KieFlowPhotos**
  - A job that succeeds with n > 0 URLs sends exactly those n photos, in order, and records one history entry.
  - Any other outcome sends no photo and records nothing.
- **Bot.GeminiBot.GetUserSession**
  - A new user gets mode null, 'ru', 0 requests, FREE, balance 0 and empty history.
  - A known user gets the daily reset.
  - Other sessions are untouched.
- **Bot.GeminiBot.GenerateKieAIResponse**
  - It sends exactly the events of the kie.ai flow, given what `createTask` and `pollKieAITask` answer.
  - It only ever appends the one history entry.
  - The daily count never changes.

## Left out

**External I/O**
- Telegram calls (`sendMessage`, `sendPhoto`, `editMessageText`, `deleteMessage`, `getFileLink`, `answerCallbackQuery`) are events in an outbox. A failing Telegram call is not modelled.
- HTTP calls and the OpenAI client are not modelled. Their replies are inputs, and so are `JSON.parse` of `resultJson` and the regex URL scrape over the serialised reply.
- Fetch latency is not modelled. The poll clock advances only by the `setTimeout` delay.
- The pg pool is not modelled. `src/db/connection.js` is not part of this model, apart from its `isAvailable()` flag.
- Real time (`Date.now`, `toDateString`, registration dates, `created_at`) is not modelled, and neither is the random delay of `sendWithTyping`.

**Text and formatting**
- The text of the localized tables and the `{mode}`/`{limit}` substitutions are not modelled. Events carry the key or the value.
- Float formatting in the profile text is not modelled.

**Bot handlers**
- Command handlers, keyboards, `handleMessage` routing, `handleImageInput`, and callbacks other than `mode_` are not modelled.
  - `setUserLanguage` is called at bot.js:241 but never defined.
- `generateOpenRouterResponse` uses `chatId` out of scope, so its image branches throw. It is not modelled beyond its returned text being an input.
- `getActiveSessions` of src/session/sessionManager.js:155-157 is not modelled: it exposes Map insertion order, which a Dafny map does not have.

**Semantics the model abstracts**
- Sessions are values in maps. JavaScript aliasing of session objects between callers is not modelled.
- Concurrent async handlers are not modelled. Each handler is one atomic step.
- Bot.LocalizedText: the key is not looked up through `Object.prototype`.
- UserStore.UserManager.CreateUser: an insert for a `telegram_id` that already has a row is taken to fail as a query error. The schema's uniqueness constraint is not part of this model, and neither is the serial value such a failed insert consumes: `nextId` stays unchanged, which only shifts the opaque ids of later rows.

## Findings

| source | as written | input that shows it | evidently intended | confidence | as-written member | corrected member |
|---|---|---|---|---|---|---|
| src/session/sessionManager.js:49 | the tier and the session's VIP level are read from `dbUser.vip_level`, but the SELECT at src/db/userManager.js:19 returns the column as `"VIP_level"`, so the property is undefined and every cached session is FREE (also at lines 64 and 127-128) | a row whose `VIP_level` is 1 | the tier of the row's VIP level (PREMIUM for 1) | not executed | SessionCache.VipLevelLostAsWritten | SessionCache.SessionFromRow |
| bot.js:341 | `this.config.modes[mode]` is truthy for names inherited from `Object.prototype`, so `setUserMode` stores them as the session's mode | callback data `mode_toString` | accept only the four own keys of `config.modes` | not executed | Bot.PrototypeNameAccepted | Bot.GeminiBot.SetUserMode |
