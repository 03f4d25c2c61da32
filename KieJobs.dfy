/** The kie.ai image-edit job of bot.js: `createKieAITask` builds and submits the request,
    `pollKieAITask` polls the job's status until a terminal state or the time budget runs out.
    HTTP exchanges are given as the replies the service would send; the clock is abstract. */
module KieJobs {
  import opened Common

  const Model := "google/nano-banana-edit"
  const OutputFormat := "png"
  const ImageSize := "1:1"
  const DefaultPollInterval := 2000
  const DefaultMaxWaitTime := 120000

  /** The `kieAI` configuration object. */
  datatype KieConfig = KieConfig(enabled: bool, apiKey: Option<string>, pollInterval: int, maxWaitTime: int)

  /** `parseInt(raw) || d`, with `None` for a value that parses to NaN. */
  function ParsedOr(raw: Option<int>, d: int): (r: int)
    ensures raw.Some? && raw.value != 0 ==> r == raw.value
    ensures raw.None? || raw.value == 0 ==> r == d
  {
    if raw.Some? && raw.value != 0 then raw.value else d
  }

  /** The configuration the bot's constructor reads from the environment. */
  function ConfigFromEnv(enabledFlag: Option<string>, apiKey: Option<string>,
                         rawInterval: Option<int>, rawWait: Option<int>): (c: KieConfig)
    ensures c.enabled <==> enabledFlag == Some("true")
    ensures c.apiKey == apiKey
    ensures c.pollInterval != 0 && c.maxWaitTime != 0
    ensures rawInterval.Some? && rawInterval.value != 0 ==> c.pollInterval == rawInterval.value
    ensures rawWait.Some? && rawWait.value != 0 ==> c.maxWaitTime == rawWait.value
    ensures rawInterval.None? || rawInterval == Some(0) ==> c.pollInterval == DefaultPollInterval
    ensures rawWait.None? || rawWait == Some(0) ==> c.maxWaitTime == DefaultMaxWaitTime
  {
    KieConfig(enabledFlag == Some("true"), apiKey, ParsedOr(rawInterval, DefaultPollInterval),
              ParsedOr(rawWait, DefaultMaxWaitTime))
  }

  /** `enabled && apiKey`: the integration may be called. */
  predicate Usable(cfg: KieConfig)
  {
    cfg.enabled && Truthy(cfg.apiKey)
  }

  /** The body POSTed to `createTask`. */
  datatype CreateRequest = CreateRequest(model: string, prompt: string, imageUrls: seq<string>,
                                         outputFormat: string, imageSize: string)

  /** An HTTP exchange: a non-ok status with its body text, or an ok response whose JSON
      carries an application `code`, a `msg` and a `data` payload. */
  datatype Reply<T> = HttpError(status: int, body: string) | Body(code: int, msg: string, data: T)

  /** The `data` of a `recordInfo` reply, with `resultJson` already parsed to its
      `resultUrls` (`None` when the parsed object has none). */
  datatype TaskData = TaskData(state: string, resultUrls: Option<seq<string>>, costTime: int,
                               failCode: string, failMsg: string)

  /** The errors the two calls throw. */
  datatype KieError =
    | Disabled
    | MissingImage
    | CreateHttp(status: int, body: string)
    | CreateApi(msg: string)
    | PollHttp(status: int, body: string)
    | PollApi(msg: string)
    | Timeout

  /** A terminal state of a job: `{ success: true, resultUrls, costTime }` or
      `{ success: false, failCode, failMsg }`. */
  datatype JobOutcome = Succeeded(resultUrls: seq<string>, costTime: int) | Failed(failCode: string, failMsg: string)

  /** The request `createKieAITask` sends, if it gets that far, and what it returns or throws. */
  datatype Creation = Creation(sent: Option<CreateRequest>, taskId: Result<string, KieError>)

  /** `createKieAITask(prompt, imageUrl)`, where `reply` is what `createTask` answers if called. */
  function CreateKieAITask(cfg: KieConfig, prompt: string, imageUrl: string, reply: Reply<string>): (c: Creation)
    ensures c.sent.Some? <==> Usable(cfg) && imageUrl != ""
    ensures !Usable(cfg) ==> c.taskId == Failure(Disabled)
    ensures Usable(cfg) && imageUrl == "" ==> c.taskId == Failure(MissingImage)
    ensures c.sent.Some? ==> c.sent.value == CreateRequest(Model, prompt, [imageUrl], OutputFormat, ImageSize)
    ensures c.sent.Some? && reply.HttpError? ==> c.taskId == Failure(CreateHttp(reply.status, reply.body))
    ensures c.sent.Some? && reply.Body? && reply.code != 200 ==> c.taskId == Failure(CreateApi(reply.msg))
    ensures c.taskId.Success? <==> c.sent.Some? && reply.Body? && reply.code == 200
    ensures c.taskId.Success? ==> c.taskId.value == reply.data
  {
    if !Usable(cfg) then Creation(None, Failure(Disabled))
    else if imageUrl == "" then Creation(None, Failure(MissingImage))
    else
      var request := CreateRequest(Model, prompt, [imageUrl], OutputFormat, ImageSize);
      match reply
      case HttpError(status, body) => Creation(Some(request), Failure(CreateHttp(status, body)))
      case Body(code, msg, taskId) =>
        if code != 200 then Creation(Some(request), Failure(CreateApi(msg)))
        else Creation(Some(request), Success(taskId))
  }

  /** A status reply that lets the loop go on: ok, code 200, state neither 'success' nor 'fail'. */
  predicate Pending(reply: Reply<TaskData>)
  {
    reply.Body? && reply.code == 200 && reply.data.state != "success" && reply.data.state != "fail"
  }

  /** What one non-pending status reply makes `pollKieAITask` return or throw. */
  function Settle(reply: Reply<TaskData>): (r: Result<JobOutcome, KieError>)
    requires !Pending(reply)
    ensures r != Failure(Timeout)
    ensures r.Success? <==> reply.Body? && reply.code == 200
    ensures r.Success? && r.value.Succeeded? ==> reply.data.state == "success"
    ensures r.Success? && r.value.Failed? ==> reply.data.state == "fail"
    ensures reply.HttpError? ==> r == Failure(PollHttp(reply.status, reply.body))
    ensures reply.Body? && reply.code != 200 ==> r == Failure(PollApi(reply.msg))
    ensures reply.Body? && reply.code == 200 && reply.data.state == "success" ==>
      r == Success(Succeeded(if reply.data.resultUrls.Some? then reply.data.resultUrls.value else [], reply.data.costTime))
    ensures reply.Body? && reply.code == 200 && reply.data.state == "fail" ==>
      r == Success(Failed(reply.data.failCode, reply.data.failMsg))
  {
    match reply
    case HttpError(status, body) => Failure(PollHttp(status, body))
    case Body(code, msg, task) =>
      if code != 200 then Failure(PollApi(msg))
      else if task.state == "success" then
        Success(Succeeded(if task.resultUrls.Some? then task.resultUrls.value else [], task.costTime))
      else Success(Failed(task.failCode, task.failMsg))
  }

  /** The time one `setTimeout(resolve, pollInterval)` waits: Node.js replaces a delay below 1
      or above 2147483647 by 1. Fetch latency is not modelled, so this is all the clock advances
      between two polls. */
  function Delay(cfg: KieConfig): (d: nat)
    ensures d >= 1
    ensures 1 <= cfg.pollInterval <= 0x7FFF_FFFF ==> d == cfg.pollInterval
    ensures !(1 <= cfg.pollInterval <= 0x7FFF_FFFF) ==> d == 1
  {
    if 1 <= cfg.pollInterval <= 0x7FFF_FFFF then cfg.pollInterval else 1
  }

  /** The number of loop heads at which `elapsed < budget` holds, starting from `elapsed`
      and advancing by `step`: the most polls the loop can make. */
  function PollsWithin(elapsed: int, step: nat, budget: int): nat
    requires step >= 1
    decreases budget - elapsed
  {
    if elapsed >= budget then 0 else 1 + PollsWithin(elapsed + step, step, budget)
  }

  /** The most status requests one `pollKieAITask` call makes. */
  function PollBudget(cfg: KieConfig): nat
  {
    PollsWithin(0, Delay(cfg), cfg.maxWaitTime)
  }

  /** What the loop returns or throws, and how many status requests it made, when entered
      at poll `k` with `elapsed` time spent. */
  datatype PollRun = PollRun(result: Result<JobOutcome, KieError>, polls: nat)

  function PollFrom(replies: nat -> Reply<TaskData>, step: nat, budget: int, k: nat, elapsed: int): PollRun
    requires step >= 1
    decreases budget - elapsed
  {
    if elapsed >= budget then PollRun(Failure(Timeout), k)
    else if !Pending(replies(k)) then PollRun(Settle(replies(k)), k + 1)
    else PollFrom(replies, step, budget, k + 1, elapsed + step)
  }

  /** `pollKieAITask`, where `replies(k)` is the reply to the k-th status request. */
  function PollResult(cfg: KieConfig, replies: nat -> Reply<TaskData>): PollRun
  {
    PollFrom(replies, Delay(cfg), cfg.maxWaitTime, 0, 0)
  }

  /** The loop stops at the first non-pending reply and returns what that reply says; it
      times out only after the full budget of polls, all of them pending. */
  lemma {:induction false} PollFromStopsAtFirstTerminal(replies: nat -> Reply<TaskData>, step: nat, budget: int, k: nat, elapsed: int)
    requires step >= 1
    requires forall j :: 0 <= j < k ==> Pending(replies(j))
    ensures var run := PollFrom(replies, step, budget, k, elapsed);
      && k <= run.polls <= k + PollsWithin(elapsed, step, budget)
      && (forall j :: 0 <= j < run.polls - 1 ==> Pending(replies(j)))
      && (run.result == Failure(Timeout) <==>
            run.polls == k + PollsWithin(elapsed, step, budget) && forall j :: 0 <= j < run.polls ==> Pending(replies(j)))
      && (run.result != Failure(Timeout) ==>
            run.polls >= 1 && !Pending(replies(run.polls - 1)) && run.result == Settle(replies(run.polls - 1)))
    decreases budget - elapsed
  {
    if elapsed >= budget {
    } else if !Pending(replies(k)) {
    } else {
      PollFromStopsAtFirstTerminal(replies, step, budget, k + 1, elapsed + step);
    }
  }

  /** `pollKieAITask` returns at the first 'success' or 'fail' state, throws at the first
      transport or application error, and throws `Timeout` only when every one of its
      `PollBudget` polls was pending. */
  lemma PollStopsAtFirstTerminal(cfg: KieConfig, replies: nat -> Reply<TaskData>)
    ensures var run := PollResult(cfg, replies);
      && run.polls <= PollBudget(cfg)
      && (forall j :: 0 <= j < run.polls - 1 ==> Pending(replies(j)))
      && (run.result == Failure(Timeout) <==>
            run.polls == PollBudget(cfg) && forall j :: 0 <= j < run.polls ==> Pending(replies(j)))
      && (run.result != Failure(Timeout) ==>
            run.polls >= 1 && !Pending(replies(run.polls - 1)) && run.result == Settle(replies(run.polls - 1)))
  {
    PollFromStopsAtFirstTerminal(replies, Delay(cfg), cfg.maxWaitTime, 0, 0);
  }

  /** The last poll starts before the budget is spent, and the loop gives up no later than one
      interval after it: with n polls, (n - 1) * step < budget - elapsed <= n * step. */
  lemma {:induction false} PollsWithinBound(elapsed: int, step: nat, budget: int)
    requires step >= 1 && elapsed < budget
    ensures var n := PollsWithin(elapsed, step, budget);
      n >= 1 && elapsed + (n - 1) * step < budget <= elapsed + n * step
    decreases budget - elapsed
  {
    var n := PollsWithin(elapsed, step, budget);
    if elapsed + step < budget {
      PollsWithinBound(elapsed + step, step, budget);
      var m := PollsWithin(elapsed + step, step, budget);
      assert n == m + 1;
      assert elapsed + (n - 1) * step == elapsed + step + (m - 1) * step;
      assert elapsed + n * step == elapsed + step + m * step;
    } else {
      assert n == 1;
    }
  }

  /** A pathological interval: a budget no larger than the interval allows exactly one poll. */
  lemma SinglePollWhenIntervalCoversBudget(cfg: KieConfig)
    requires 0 < cfg.maxWaitTime <= Delay(cfg)
    ensures PollBudget(cfg) == 1
  {
    assert PollsWithin(Delay(cfg), Delay(cfg), cfg.maxWaitTime) == 0;
  }

  /** A status reply with the given state and nothing else of note. */
  function StatusReply(state: string, urls: seq<string>): Reply<TaskData>
  {
    Body(200, "ok", TaskData(state, Some(urls), 1200, "", ""))
  }

  /** A 10 ms interval and a 35 ms budget against a job that is pending twice and then
      succeeds: three status requests, the third returning the result. */
  lemma ThreePollsScenario()
    ensures var cfg := KieConfig(true, Some("key"), 10, 35);
            var replies := (k: nat) => if k < 2 then StatusReply("generating", []) else StatusReply("success", ["https://x/1.png"]);
            PollResult(cfg, replies) == PollRun(Success(Succeeded(["https://x/1.png"], 1200)), 3)
  {
    var replies := (k: nat) => if k < 2 then StatusReply("generating", []) else StatusReply("success", ["https://x/1.png"]);
    assert replies(0) == StatusReply("generating", []) && replies(1) == replies(0);
    assert replies(2) == StatusReply("success", ["https://x/1.png"]);
    assert |"generating"| != |"success"| && |"generating"| != |"fail"|;
    assert Pending(replies(0)) && Pending(replies(1)) && !Pending(replies(2));
    assert PollFrom(replies, 10, 35, 2, 20) == PollRun(Success(Succeeded(["https://x/1.png"], 1200)), 3);
  }

  /** The same budget against a job that never settles: polls at 0, 10, 20 and 30 ms, then `Timeout`. */
  lemma NeverSettlingScenario()
    ensures var cfg := KieConfig(true, Some("key"), 10, 35);
            PollResult(cfg, (k: nat) => StatusReply("queuing", [])) == PollRun(Failure(Timeout), 4)
  {
    var replies := (k: nat) => StatusReply("queuing", []);
    assert "queuing"[0] != "success"[0] && |"queuing"| != |"fail"|;
    assert PollFrom(replies, 10, 35, 4, 40) == PollRun(Failure(Timeout), 4);
    assert PollFrom(replies, 10, 35, 3, 30) == PollRun(Failure(Timeout), 4);
    assert PollFrom(replies, 10, 35, 2, 20) == PollRun(Failure(Timeout), 4);
  }

  /** `pollKieAITask`: a `while` loop guarded by the time spent since the first poll. */
  method PollKieAITask(cfg: KieConfig, replies: nat -> Reply<TaskData>) returns (result: Result<JobOutcome, KieError>, polls: nat)
    ensures PollRun(result, polls) == PollResult(cfg, replies)
    ensures polls <= PollBudget(cfg)
    ensures forall j :: 0 <= j < polls - 1 ==> Pending(replies(j))
    ensures result != Failure(Timeout) ==>
      polls >= 1 && !Pending(replies(polls - 1)) && result == Settle(replies(polls - 1))
    ensures result == Failure(Timeout) ==> polls == PollBudget(cfg) && forall j :: 0 <= j < polls ==> Pending(replies(j))
  {
    var step := Delay(cfg);
    var elapsed := 0;
    polls := 0;
    while elapsed < cfg.maxWaitTime
      invariant PollFrom(replies, step, cfg.maxWaitTime, polls, elapsed) == PollResult(cfg, replies)
      invariant polls + PollsWithin(elapsed, step, cfg.maxWaitTime) == PollBudget(cfg)
      invariant forall j :: 0 <= j < polls ==> Pending(replies(j))
      decreases cfg.maxWaitTime - elapsed
    {
      var reply := replies(polls);
      if !Pending(reply) {
        result := Settle(reply);
        polls := polls + 1;
        return;
      }
      polls := polls + 1;
      elapsed := elapsed + step;
    }
    result := Failure(Timeout);
  }
}
