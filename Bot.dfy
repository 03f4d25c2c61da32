/** The bot of bot.js: its own in-memory sessions, the mode whitelist and the `mode_`
    callback, the daily quota of `handleAIConversation`, the kie.ai edit flow of
    `generateKieAIResponse` and the fallback rule of `getLocalizedText`. Telegram calls
    become events appended to an outbox; what the HTTP services answer arrives as inputs. */
module Bot {
  import opened Common
  import opened UserStore
  import opened KieJobs

  const ChatGPT := "ChatGPT"
  const NanoBanana := "Nano Banana"
  const KieEdit := "Nano Banana Edit (kie.ai)"
  const Sora := "Sora 2"

  /** The own keys of `config.modes`. */
  const ModeNames: set<string> := {ChatGPT, NanoBanana, KieEdit, Sora}

  /** The properties every plain object inherits from `Object.prototype`; each is truthy. */
  const ObjectPrototypeNames: set<string> := {
    "constructor", "__defineGetter__", "__defineSetter__", "hasOwnProperty",
    "__lookupGetter__", "__lookupSetter__", "isPrototypeOf", "propertyIsEnumerable",
    "toString", "valueOf", "__proto__", "toLocaleString"}

  /** `this.config.modes[mode]` is truthy, as the lookup is written: an own key or an
      inherited property. */
  predicate ModeLookupAsWritten(name: string)
  {
    name in ModeNames || name in ObjectPrototypeNames
  }

  /** The check the lookup is meant to perform: one of the four own keys. */
  predicate IsMode(name: string)
  {
    name in ModeNames
  }

  /** As written, `mode_toString` passes the check and makes 'toString' the session's mode,
      a name that is not a mode. */
  lemma PrototypeNameAccepted()
    ensures ModeLookupAsWritten("toString") && !IsMode("toString")
  {
  }

  /** The whitelist accepts exactly the four modes offered by the selection keyboard. */
  lemma IsModeExactly(name: string)
    ensures IsMode(name) <==> name == ChatGPT || name == NanoBanana || name == KieEdit || name == Sora
    ensures IsMode(name) ==> ModeLookupAsWritten(name)
  {
  }

  /** `config.maxDailyRequests[subscription]`. */
  function MaxDailyRequests(t: Tier): (n: nat)
    ensures t == Free ==> n == 25
    ensures t == Premium ==> n == 1000
  {
    match t
    case Free => 25
    case Premium => 1000
  }

  /** The bot's own quota table agrees with the user table's `getDailyLimit`. */
  lemma MaxDailyRequestsAgrees(t: Tier)
    ensures MaxDailyRequests(t) == GetDailyLimit(t)
  {
  }

  /** A session of the bot's `userSessions` map (the registration date is not modelled). */
  datatype BotSession = BotSession(
    id: int,
    mode: Option<string>,
    language: string,
    dailyRequests: nat,
    lastRequestDate: Day,
    subscription: Tier,
    balance: real,
    history: seq<Message>)

  /** The session `getUserSession` creates for an unknown user. */
  function NewBotSession(userId: int, today: Day): BotSession
  {
    BotSession(userId, None, "ru", 0, today, Free, 0.0, [])
  }

  /** The daily reset `getUserSession` applies to the stored session. */
  function Rollover(s: BotSession, today: Day): (r: BotSession)
    ensures r.lastRequestDate == today
    ensures r.dailyRequests == if s.lastRequestDate == today then s.dailyRequests else 0
    ensures r.(dailyRequests := s.dailyRequests, lastRequestDate := s.lastRequestDate) == s
  {
    if s.lastRequestDate != today then s.(dailyRequests := 0, lastRequestDate := today) else s
  }

  /** What the bot sends. A `Notice` is the localized text for its key. */
  datatype Event =
    | Notice(key: string)
    | ModeMenu
    | ModeSelected(mode: string)
    | LimitReached(limit: nat)
    | Answer(text: string)
    | CallbackAnswered
    | Processing
    | TaskCreated(taskId: string)
    | PlaceholderDeleted
    | Photo(url: string, prompt: string, costTime: int)
    | EditFailed(failCode: string, failMsg: string)
    | NothingEdited
    | KieFailure(error: KieError)

  /** The response generator `handleAIConversation` dispatches to. */
  datatype Generator = ChatGPTGenerator | NanoBananaGenerator | Sora2Generator | Unsupported

  function GeneratorFor(mode: string): Generator
  {
    if mode == ChatGPT then ChatGPTGenerator
    else if mode == NanoBanana then NanoBananaGenerator
    else if mode == Sora then Sora2Generator
    else Unsupported
  }

  /** The session after a text message, the events sent, and the generator consulted. */
  datatype ChatOutcome = ChatOutcome(session: BotSession, events: seq<Event>, consulted: Option<Generator>)

  /** A message is answered: a mode is set, it is not the image-only kie.ai mode, and the
      day's quota is not used up. */
  predicate Admits(s: BotSession)
  {
    Truthy(s.mode) && s.mode.value != KieEdit && s.dailyRequests < MaxDailyRequests(s.subscription)
  }

  /** `handleAIConversation(chatId, session, text)`. `reply` is the text the consulted
      generator returns (for a mode outside the three it is the localized
      'mode_not_supported' text). */
  function Converse(s: BotSession, text: string, reply: string): (o: ChatOutcome)
    ensures Admits(s) <==> o.session != s
    ensures Admits(s) ==> o.session == s.(dailyRequests := s.dailyRequests + 1,
                                          history := s.history + [Message(User, text), Message(Assistant, reply)])
    ensures Admits(s) <==> o.consulted.Some?
    ensures Admits(s) ==> o.consulted == Some(GeneratorFor(s.mode.value)) && o.events == [Answer(reply)]
    ensures !Truthy(s.mode) ==> o.events == [Notice("no_mode_selected"), ModeMenu]
    ensures Truthy(s.mode) && s.mode.value == KieEdit ==> o.events == [Notice("kieai_needs_image")]
    ensures Truthy(s.mode) && s.mode.value != KieEdit && !Admits(s) ==>
      o.events == [LimitReached(MaxDailyRequests(s.subscription))]
  {
    if !Truthy(s.mode) then ChatOutcome(s, [Notice("no_mode_selected"), ModeMenu], None)
    else if s.mode.value == KieEdit then ChatOutcome(s, [Notice("kieai_needs_image")], None)
    else
      var limit := MaxDailyRequests(s.subscription);
      if s.dailyRequests >= limit then ChatOutcome(s, [LimitReached(limit)], None)
      else
        var history := s.history + [Message(User, text), Message(Assistant, reply)];
        ChatOutcome(s.(dailyRequests := s.dailyRequests + 1, history := history),
                    [Answer(reply)], Some(GeneratorFor(s.mode.value)))
  }

  /** Under the mode whitelist the 'mode_not_supported' fallback is never consulted: every
      answering mode has its own generator. */
  lemma WhitelistedModeIsSupported(s: BotSession, text: string, reply: string)
    requires s.mode.None? || IsMode(s.mode.value)
    ensures Converse(s, text, reply).consulted != Some(Unsupported)
  {
  }

  /** One conversation step never takes the day's count past the limit. */
  lemma QuotaPreserved(s: BotSession, text: string, reply: string)
    requires s.dailyRequests <= MaxDailyRequests(s.subscription)
    ensures Converse(s, text, reply).session.dailyRequests <= MaxDailyRequests(s.subscription)
    ensures Converse(s, text, reply).session.subscription == s.subscription
  {
  }

  /** A day's messages, one after another, all answered with `reply`. */
  function ConverseAll(s: BotSession, texts: seq<string>, reply: string): BotSession
    decreases |texts|
  {
    if texts == [] then s else ConverseAll(Converse(s, texts[0], reply).session, texts[1..], reply)
  }

  /** In a chat mode, a run of messages on one day is answered until the limit is reached and
      refused afterwards: the count ends at the smaller of the two, and each answered message
      adds two history entries (the bot's history is not capped). */
  lemma {:induction false} QuotaOverADay(s: BotSession, texts: seq<string>, reply: string)
    requires Truthy(s.mode) && s.mode.value != KieEdit
    requires s.dailyRequests <= MaxDailyRequests(s.subscription)
    ensures var r := ConverseAll(s, texts, reply);
            var n := if s.dailyRequests + |texts| <= MaxDailyRequests(s.subscription)
                     then |texts| else MaxDailyRequests(s.subscription) - s.dailyRequests;
            r.dailyRequests == s.dailyRequests + n && |r.history| == |s.history| + 2 * n
            && r.mode == s.mode && r.subscription == s.subscription
    decreases |texts|
  {
    if texts != [] {
      var next := Converse(s, texts[0], reply).session;
      QuotaOverADay(next, texts[1..], reply);
    }
  }

  /** A FREE user in a chat mode gets 25 answers a day; the 26th message is refused with the
      limit 25, and after the date changes the next message is answered again. */
  lemma {:induction false} FreeQuotaScenario(texts: seq<string>, reply: string, today: Day, tomorrow: Day)
    requires |texts| == 25 && today != tomorrow
    ensures var start := NewBotSession(7, today).(mode := Some(ChatGPT));
            var used := ConverseAll(start, texts, reply);
            used.dailyRequests == 25
            && Converse(used, "one more", reply).events == [LimitReached(25)]
            && Converse(used, "one more", reply).session == used
            && Converse(Rollover(used, tomorrow), "one more", reply).events == [Answer(reply)]
  {
    var start := NewBotSession(7, today).(mode := Some(ChatGPT));
    QuotaOverADay(start, texts, reply);
    var used := ConverseAll(start, texts, reply);
    assert used.mode == Some(ChatGPT) && used.subscription == Free;
    assert used.lastRequestDate == today by {
      ConverseAllKeepsDate(start, texts, reply);
    }
  }

  /** Conversation steps never touch the session's date. */
  lemma {:induction false} ConverseAllKeepsDate(s: BotSession, texts: seq<string>, reply: string)
    ensures ConverseAll(s, texts, reply).lastRequestDate == s.lastRequestDate
    decreases |texts|
  {
    if texts != [] {
      ConverseAllKeepsDate(Converse(s, texts[0], reply).session, texts[1..], reply);
    }
  }

  const ModePrefix := "mode_"

  /** `data.replace('mode_', '')` for callback data starting with 'mode_': the first
      occurrence is the prefix itself, so the rest is passed on unchanged. */
  function ModeFromCallback(data: string): (r: Option<string>)
    ensures r.Some? <==> StartsWith(data, ModePrefix)
    ensures r.Some? ==> data == ModePrefix + r.value
  {
    if StartsWith(data, ModePrefix) then Some(data[|ModePrefix|..]) else None
  }

  /** A `mode_X` button passes exactly `X` on. */
  lemma CallbackPassesModeName(x: string)
    ensures ModeFromCallback(ModePrefix + x) == Some(x)
  {
    assert (ModePrefix + x)[..|ModePrefix|] == ModePrefix;
    assert (ModePrefix + x)[|ModePrefix|..] == x;
  }

  /** The string table of `getLocalizedText`: language, then key. */
  type Texts = map<string, map<string, string>>

  /** `table[key]`, as a nullable string. */
  function Entry(table: map<string, string>, key: string): Option<string>
  {
    if key in table then Some(table[key]) else None
  }

  /** `texts[language][key] || texts['ru'][key] || key`. A language without a table makes
      the first lookup throw, which is `None` here. */
  function LocalizedText(texts: Texts, key: string, language: string): (r: Option<string>)
    ensures r.None? <==> language !in texts || (!Truthy(Entry(texts[language], key)) && "ru" !in texts)
    ensures language in texts && Truthy(Entry(texts[language], key)) ==> r == Some(texts[language][key])
    ensures language in texts && !Truthy(Entry(texts[language], key)) && "ru" in texts ==>
      r == Some(if Truthy(Entry(texts["ru"], key)) then texts["ru"][key] else key)
  {
    if language !in texts then None
    else if Truthy(Entry(texts[language], key)) then Some(texts[language][key])
    else if "ru" !in texts then None
    else if Truthy(Entry(texts["ru"], key)) then Some(texts["ru"][key])
    else Some(key)
  }

  /** With a Russian table present, a known language always yields a text, and that text is
      empty only if the key is. */
  lemma LocalizedTextTotal(texts: Texts, key: string, language: string)
    requires "ru" in texts && language in texts
    ensures LocalizedText(texts, key, language).Some?
    ensures LocalizedText(texts, key, language).value == "" ==> key == ""
  {
  }

  /** The history entry a successful edit appends. */
  function EditedEntry(prompt: string): Message
  {
    Message(Assistant, "Изображение отредактировано: \"" + prompt + "\"")
  }

  /** One `sendPhoto` per result URL, in order, each captioned with the prompt and the time. */
  function PhotoEvents(urls: seq<string>, prompt: string, costTime: int): (e: seq<Event>)
    ensures |e| == |urls|
    decreases |urls|
  {
    if urls == [] then [] else [Photo(urls[0], prompt, costTime)] + PhotoEvents(urls[1..], prompt, costTime)
  }

  /** The URLs of the photos among `events`, in order. */
  function PhotoUrls(events: seq<Event>): seq<string>
    decreases |events|
  {
    if events == [] then []
    else (if events[0].Photo? then [events[0].url] else []) + PhotoUrls(events[1..])
  }

  lemma {:induction false} PhotoUrlsAppend(a: seq<Event>, b: seq<Event>)
    ensures PhotoUrls(a + b) == PhotoUrls(a) + PhotoUrls(b)
    decreases |a|
  {
    if a == [] {
      assert a + b == b;
    } else {
      assert (a + b)[0] == a[0];
      assert (a + b)[1..] == a[1..] + b;
      PhotoUrlsAppend(a[1..], b);
    }
  }

  /** The photos sent are the result URLs themselves, none dropped, none reordered. */
  lemma {:induction false} PhotoEventsCarryUrls(urls: seq<string>, prompt: string, costTime: int)
    ensures PhotoUrls(PhotoEvents(urls, prompt, costTime)) == urls
    decreases |urls|
  {
    if urls != [] {
      PhotoUrlsAppend([Photo(urls[0], prompt, costTime)], PhotoEvents(urls[1..], prompt, costTime));
      PhotoEventsCarryUrls(urls[1..], prompt, costTime);
    }
  }

  /** What `generateKieAIResponse` sends and the history entry it appends, if any. */
  datatype KieFlow = KieFlow(events: seq<Event>, entry: Option<Message>)

  /** `generateKieAIResponse(chatId, session, prompt, imageUrl)`: `createReply` is what
      `createTask` answers and `polled` what `pollKieAITask` returns or throws. */
  function KieFlowOf(cfg: KieConfig, prompt: string, imageUrl: string, createReply: Reply<string>,
                     polled: Result<JobOutcome, KieError>): KieFlow
  {
    if !Usable(cfg) then KieFlow([Notice("kieai_disabled")], None)
    else if imageUrl == "" then KieFlow([Notice("kieai_needs_image")], None)
    else
      var creation := CreateKieAITask(cfg, prompt, imageUrl, createReply);
      match creation.taskId
      case Failure(e) => KieFlow([Processing, KieFailure(e)], None)
      case Success(taskId) =>
        var started := [Processing, TaskCreated(taskId)];
        match polled
        case Failure(e) => KieFlow(started + [KieFailure(e)], None)
        case Success(Failed(code, msg)) => KieFlow(started + [EditFailed(code, msg)], None)
        case Success(Succeeded(urls, costTime)) =>
          if |urls| > 0 then
            KieFlow(started + [PlaceholderDeleted] + PhotoEvents(urls, prompt, costTime), Some(EditedEntry(prompt)))
          else KieFlow(started + [NothingEdited], None)
  }

  /** A successful job with n > 0 URLs sends exactly those n photos in order and records one
      history entry; any other outcome sends no photo and records nothing. */
  lemma KieFlowPhotos(cfg: KieConfig, prompt: string, imageUrl: string, createReply: Reply<string>,
                      polled: Result<JobOutcome, KieError>)
    ensures var flow := KieFlowOf(cfg, prompt, imageUrl, createReply, polled);
            var delivered := Usable(cfg) && imageUrl != "" && createReply.Body? && createReply.code == 200
                             && polled.Success? && polled.value.Succeeded? && |polled.value.resultUrls| > 0;
            (delivered ==> PhotoUrls(flow.events) == polled.value.resultUrls && flow.entry == Some(EditedEntry(prompt)))
            && (!delivered ==> PhotoUrls(flow.events) == [] && flow.entry.None?)
  {
    var flow := KieFlowOf(cfg, prompt, imageUrl, createReply, polled);
    if Usable(cfg) && imageUrl != "" && createReply.Body? && createReply.code == 200 {
      var started := [Processing, TaskCreated(createReply.data)];
      assert PhotoUrls(started) == [] by {
        var tail: seq<Event> := [TaskCreated(createReply.data)];
        assert tail[1..] == [];
        assert PhotoUrls(tail) == [];
        assert started[1..] == tail;
      }
      match polled
      case Failure(e) =>
        PhotoUrlsAppend(started, [KieFailure(e)]);
      case Success(Failed(code, msg)) =>
        PhotoUrlsAppend(started, [EditFailed(code, msg)]);
      case Success(Succeeded(urls, costTime)) =>
        if |urls| > 0 {
          PhotoUrlsAppend(started, [PlaceholderDeleted]);
          PhotoUrlsAppend(started + [PlaceholderDeleted], PhotoEvents(urls, prompt, costTime));
          PhotoEventsCarryUrls(urls, prompt, costTime);
        } else {
          PhotoUrlsAppend(started, [NothingEdited]);
        }
    }
  }

  /** The bot object: its session map, what it has sent so far, and its kie.ai settings. */
  class GeminiBot {
    var sessions: map<int, BotSession>
    var outbox: seq<Event>
    const kie: KieConfig

    /** Every session is stored under its own id, and its mode, when set, is a mode. */
    ghost predicate Valid()
      reads this
    {
      forall id :: id in sessions ==>
        sessions[id].id == id && (sessions[id].mode.None? || IsMode(sessions[id].mode.value))
    }

    constructor (kie: KieConfig)
      ensures Valid()
      ensures sessions == map[] && outbox == [] && this.kie == kie
    {
      this.kie := kie;
      sessions := map[];
      outbox := [];
    }

    /** `getUserSession(userId)`: create the session on first use, then apply the daily reset. */
    method GetUserSession(userId: int, today: Day) returns (s: BotSession)
      requires Valid()
      modifies this`sessions
      ensures Valid()
      ensures sessions.Keys == old(sessions).Keys + {userId}
      ensures s == sessions[userId] && s.id == userId && s.lastRequestDate == today
      ensures forall id :: id in old(sessions) && id != userId ==> sessions[id] == old(sessions)[id]
      ensures userId in old(sessions) ==> s == Rollover(old(sessions)[userId], today)
      ensures userId !in old(sessions) ==>
        s.mode.None? && s.language == "ru" && s.dailyRequests == 0 && s.subscription == Free
        && s.balance == 0.0 && s.history == []
    {
      if userId !in sessions {
        sessions := sessions[userId := NewBotSession(userId, today)];
      }
      s := Rollover(sessions[userId], today);
      sessions := sessions[userId := s];
    }

    /** `setUserMode(chatId, session, mode)`: set the mode only when it is one of the four. */
    method SetUserMode(userId: int, name: string)
      requires Valid() && userId in sessions
      modifies this
      ensures Valid()
      ensures IsMode(name) ==> sessions == old(sessions)[userId := old(sessions)[userId].(mode := Some(name))]
      ensures !IsMode(name) ==> sessions == old(sessions)
      ensures outbox == old(outbox) + [if IsMode(name) then ModeSelected(name) else Notice("mode_not_found")]
    {
      if IsMode(name) {
        sessions := sessions[userId := sessions[userId].(mode := Some(name))];
        outbox := outbox + [ModeSelected(name)];
      } else {
        outbox := outbox + [Notice("mode_not_found")];
      }
    }

    /** The `mode_` branch of `handleCallbackQuery`: fetch the session, answer the query, and
        pass the rest of the data to `setUserMode`. Other callback data is not modelled. */
    method HandleModeCallback(userId: int, data: string, today: Day)
      requires Valid() && StartsWith(data, ModePrefix)
      modifies this
      ensures Valid()
      ensures var s := Rollover(if userId in old(sessions) then old(sessions)[userId] else NewBotSession(userId, today), today);
              var x := data[|ModePrefix|..];
              sessions == old(sessions)[userId := if IsMode(x) then s.(mode := Some(x)) else s]
              && outbox == old(outbox) + [CallbackAnswered, if IsMode(x) then ModeSelected(x) else Notice("mode_not_found")]
    {
      ghost var s0 := Rollover(if userId in sessions then sessions[userId] else NewBotSession(userId, today), today);
      ghost var x := data[|ModePrefix|..];
      var s := GetUserSession(userId, today);
      assert s == s0;
      assert sessions == old(sessions)[userId := s0];
      outbox := outbox + [CallbackAnswered];
      var mode := ModeFromCallback(data);
      assert mode.value == x;
      SetUserMode(userId, mode.value);
      assert sessions == old(sessions)[userId := if IsMode(x) then s0.(mode := Some(x)) else s0];
    }

    /** `handleAIConversation(chatId, session, text)` for the stored session of `userId`. */
    method HandleAIConversation(userId: int, text: string, reply: string)
      requires Valid() && userId in sessions
      modifies this
      ensures Valid()
      ensures var o := Converse(old(sessions)[userId], text, reply);
              sessions == old(sessions)[userId := o.session] && outbox == old(outbox) + o.events
    ensures Converse(old(sessions)[userId], text, reply).consulted != Some(Unsupported)
    {
      WhitelistedModeIsSupported(sessions[userId], text, reply);
      var o := Converse(sessions[userId], text, reply);
      sessions := sessions[userId := o.session];
      outbox := outbox + o.events;
    }

    /** `generateKieAIResponse(chatId, session, prompt, imageUrl)`: `createReply` is what
        `createTask` answers and `statusReplies(k)` what the k-th `recordInfo` poll answers.
        Only the history of the session may change; its daily count never does. */
    method GenerateKieAIResponse(userId: int, prompt: string, imageUrl: string, createReply: Reply<string>,
                                 statusReplies: nat -> Reply<TaskData>)
      requires Valid() && userId in sessions
      modifies this
      ensures Valid()
      ensures var flow := KieFlowOf(kie, prompt, imageUrl, createReply, PollResult(kie, statusReplies).result);
              var s := old(sessions)[userId];
              outbox == old(outbox) + flow.events
              && sessions == old(sessions)[userId := s.(history := s.history + (if flow.entry.Some? then [flow.entry.value] else []))]
    {
      ghost var s0 := sessions[userId];
      assert s0.(history := s0.history + []) == s0;
      assert sessions[userId := s0] == sessions;
      if !Usable(kie) {
        outbox := outbox + [Notice("kieai_disabled")];
        return;
      }
      if imageUrl == "" {
        outbox := outbox + [Notice("kieai_needs_image")];
        return;
      }
      outbox := outbox + [Processing];
      var creation := CreateKieAITask(kie, prompt, imageUrl, createReply);
      if creation.taskId.Failure? {
        outbox := outbox + [KieFailure(creation.taskId.error)];
        return;
      }
      outbox := outbox + [TaskCreated(creation.taskId.value)];
      var result, polls := PollKieAITask(kie, statusReplies);
      match result {
        case Failure(e) =>
          outbox := outbox + [KieFailure(e)];
        case Success(Failed(code, msg)) =>
          outbox := outbox + [EditFailed(code, msg)];
        case Success(Succeeded(urls, costTime)) =>
          if |urls| > 0 {
            outbox := outbox + [PlaceholderDeleted];
            var before := outbox;
            var i := 0;
            while i < |urls|
              invariant 0 <= i <= |urls|
              invariant sessions == old(sessions)
              invariant outbox == before + PhotoEvents(urls[..i], prompt, costTime)
            {
              PhotoEventsSnoc(urls[..i], urls[i], prompt, costTime);
              assert urls[..i + 1] == urls[..i] + [urls[i]];
              outbox := outbox + [Photo(urls[i], prompt, costTime)];
              i := i + 1;
            }
            assert urls[..i] == urls;
            var s := sessions[userId];
            sessions := sessions[userId := s.(history := s.history + [EditedEntry(prompt)])];
          } else {
            outbox := outbox + [NothingEdited];
          }
      }
    }
  }

  /** Sending one more photo extends the photo events by one. */
  lemma {:induction false} PhotoEventsSnoc(urls: seq<string>, url: string, prompt: string, costTime: int)
    ensures PhotoEvents(urls + [url], prompt, costTime) == PhotoEvents(urls, prompt, costTime) + [Photo(url, prompt, costTime)]
    decreases |urls|
  {
    if urls != [] {
      assert (urls + [url])[1..] == urls[1..] + [url];
      PhotoEventsSnoc(urls[1..], url, prompt, costTime);
    }
  }
}
