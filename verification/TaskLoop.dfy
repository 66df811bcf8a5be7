/**
 * One task of the bulk executor: the failover loop `_run_one`
 * (claude_ai/orchestrator/executor.py).
 */
module TaskLoop {
  import opened Wrappers

  type Account = string
  type Item = string
  type Value = string

  datatype Config = Config(perAccount: nat, maxAttempts: int, maxParkWaits: int, notifies: bool)

  datatype Task = Task(index: nat, item: Item)

  datatype BulkResult = BulkResult(
    index: nat,
    item: Item,
    ok: bool,
    value: Option<Value>,
    error: Option<string>,
    account: Option<Account>,
    attempts: nat)

  /** What `pick` answers: an account, `NoAvailableAccounts`, or another RuntimeError. */
  datatype PickReply = Picked(account: Account) | NoneAvailable | NoClients(message: string)

  /** How a task call ends. */
  datatype Outcome =
    | Returned(value: Value)
    | RateLimited(message: string)
    | AuthFailed(message: string)
    | Refused(message: string)      // ForbiddenError
    | Transient(message: string)    // APIError, NetworkError, StreamError
    | Unknown(message: string)      // any other Exception
  {
    /** The account is set aside for the rest of this task. */
    predicate Excludes() { RateLimited? || AuthFailed? || Refused? }
    predicate Ends() { Returned? || Unknown? }
  }

  datatype Call = Call(account: Account, outcome: Outcome)

  datatype Local = Local(tried: set<Account>, attempts: nat, waits: nat, lastErr: string)

  const START := Local({}, 0, 0, "no attempt made")

  function Fail(task: Task, l: Local): BulkResult {
    BulkResult(task.index, task.item, false, None, Some(l.lastErr), None, l.attempts)
  }

  function Succeed(task: Task, l: Local, a: Account, value: Value): BulkResult {
    BulkResult(task.index, task.item, true, Some(value), None, Some(a), l.attempts)
  }

  /** After a reply of `pick`: call the account, sleep and try again, or give up. */
  datatype Turn = MakeCall(l: Local, account: Account) | SleepOn(l: Local) | GiveUp(result: BulkResult)

  function AfterPick(cfg: Config, task: Task, l: Local, reply: PickReply): Turn {
    match reply
    case Picked(a) => MakeCall(l.(attempts := l.attempts + 1), a)
    case NoneAvailable =>
      var waited := l.(waits := l.waits + 1);
      if waited.waits > cfg.maxParkWaits then GiveUp(Fail(task, waited.(lastErr := "all accounts parked/quarantined")))
      else SleepOn(waited)
    case NoClients(message) => GiveUp(Fail(task, l.(lastErr := message)))
  }

  /** After a call that does not end the task. */
  function AfterError(l: Local, a: Account, outcome: Outcome): Local
    requires !outcome.Ends()
  {
    Local(if outcome.Excludes() then l.tried + {a} else l.tried, l.attempts, l.waits, outcome.message)
  }

  function EndResult(task: Task, l: Local, a: Account, outcome: Outcome): BulkResult
    requires outcome.Ends()
  {
    if outcome.Returned? then Succeed(task, l, a, outcome.value) else Fail(task, l.(lastErr := outcome.message))
  }

  // ---- What a task did ----

  /** One call of `pick`: the accounts it was told to exclude, and its answer. */
  datatype Ask = Ask(tried: set<Account>, reply: PickReply)

  function Picks(asks: seq<Ask>): nat {
    if asks == [] then 0 else Picks(asks[..|asks| - 1]) + if asks[|asks| - 1].reply.Picked? then 1 else 0
  }

  function Waits(asks: seq<Ask>): nat {
    if asks == [] then 0 else Waits(asks[..|asks| - 1]) + if asks[|asks| - 1].reply.NoneAvailable? then 1 else 0
  }

  /** The accounts that rate-limited the task, were logged out, or refused it. */
  function SetAside(calls: seq<Call>): set<Account> {
    if calls == [] then {}
    else
      var last := calls[|calls| - 1];
      SetAside(calls[..|calls| - 1]) +
      if last.outcome.RateLimited? || last.outcome.AuthFailed? || last.outcome.Refused? then {last.account} else {}
  }

  /** No call follows a success or an unknown error, and no excluded account is called again. */
  ghost predicate CallsOk(calls: seq<Call>) {
    && (forall j :: 0 <= j < |calls| - 1 ==> !calls[j].outcome.Ends())
    && (forall j, k :: 0 <= j < k < |calls| && calls[j].outcome.Excludes() ==> calls[k].account != calls[j].account)
  }

  /** `pick` excluded exactly the accounts set aside by the calls before it, and the account it gave was called next. */
  ghost predicate AskOk(asks: seq<Ask>, calls: seq<Call>, k: nat)
    requires k < |asks|
  {
    var p := Picks(asks[..k]);
    && p <= |calls| && asks[k].tried == SetAside(calls[..p])
    && (asks[k].reply.Picked? && p < |calls| ==> calls[p].account == asks[k].reply.account)
  }

  ghost predicate AsksOk(asks: seq<Ask>, calls: seq<Call>) {
    forall k: nat :: k < |asks| ==> AskOk(asks, calls, k)
  }

  /** Each ask came with an attempt left, and none before the last gave a reason to stop. */
  ghost predicate KeptOn(cfg: Config, asks: seq<Ask>) {
    && (forall k :: 0 <= k < |asks| ==> Picks(asks[..k]) < cfg.maxAttempts)
    && (forall k :: 0 <= k < |asks| - 1 ==> !asks[k].reply.NoClients?)
    && (asks != [] ==> Waits(asks[..|asks| - 1]) <= Max(0, cfg.maxParkWaits))
  }

  /**
   * Why a task failed, and with which message: no attempt was allowed; there were no clients; the waits
   * were used up; the last call ended in an unknown error; or it was the last attempt.
   */
  ghost predicate Because(cfg: Config, error: string, asks: seq<Ask>, calls: seq<Call>) {
    if asks == [] then cfg.maxAttempts <= 0 && error == "no attempt made"
    else
      match asks[|asks| - 1].reply
      case NoClients(message) => error == message
      case NoneAvailable =>
        Waits(asks) == Max(0, cfg.maxParkWaits) + 1 && error == "all accounts parked/quarantined"
      case Picked(_) =>
        calls != [] &&
        match calls[|calls| - 1].outcome
        case Returned(_) => false
        case Unknown(message) => error == message
        case RateLimited(message) => |calls| == cfg.maxAttempts && error == message
        case AuthFailed(message) => |calls| == cfg.maxAttempts && error == message
        case Refused(message) => |calls| == cfg.maxAttempts && error == message
        case Transient(message) => |calls| == cfg.maxAttempts && error == message
  }

  /** The loop's locals account for the asks and calls made so far, none of which ended the task. */
  ghost predicate LocalOk(cfg: Config, l: Local, asks: seq<Ask>, calls: seq<Call>) {
    && CallsOk(calls) && AsksOk(asks, calls) && KeptOn(cfg, asks)
    && (forall j :: 0 <= j < |calls| ==> !calls[j].outcome.Ends())
    && (forall k :: 0 <= k < |asks| ==> !asks[k].reply.NoClients?)
    && l.tried == SetAside(calls)
    && Picks(asks) == |calls| == l.attempts <= Max(0, cfg.maxAttempts)
    && Waits(asks) == l.waits <= Max(0, cfg.maxParkWaits)
    && |asks| == l.attempts + l.waits
    && l.lastErr == LastError(calls)
  }

  function LastError(calls: seq<Call>): string {
    if calls == [] || calls[|calls| - 1].outcome.Returned? then "no attempt made" else calls[|calls| - 1].outcome.message
  }

  /** An attempt is counted, and the account given, before the call is made. */
  ghost predicate CallOk(cfg: Config, l: Local, a: Account, asks: seq<Ask>, calls: seq<Call>) {
    && 1 <= l.attempts <= cfg.maxAttempts && a !in l.tried
    && asks != [] && asks[|asks| - 1] == Ask(l.tried, Picked(a))
    && AsksOk(asks, calls) && KeptOn(cfg, asks) && |asks| <= RoundBound(cfg)
    && LocalOk(cfg, l.(attempts := l.attempts - 1), asks[..|asks| - 1], calls)
  }

  /**
   * A finished task: `attempts` counts its calls, it is ok exactly when the last one returned, and if
   * it is not, there was no way to go on.
   */
  ghost predicate ResultOk(cfg: Config, task: Task, r: BulkResult, asks: seq<Ask>, calls: seq<Call>) {
    && CallsOk(calls) && AsksOk(asks, calls) && KeptOn(cfg, asks)
    && |asks| <= RoundBound(cfg) && Picks(asks) == |calls|
    && r.index == task.index && r.item == task.item
    && r.attempts == |calls| <= Max(0, cfg.maxAttempts)
    && (r.ok <==> calls != [] && calls[|calls| - 1].outcome.Returned?)
    && (r.ok ==> asks != [] && asks[|asks| - 1].reply.Picked?)
    && (r.ok ==> r.value == Some(calls[|calls| - 1].outcome.value))
    && (r.ok ==> r.account == Some(calls[|calls| - 1].account) && r.error == None)
    && (!r.ok ==> r.value == None && r.account == None && r.error.Some? && Because(cfg, r.error.value, asks, calls))
  }

  function RoundBound(cfg: Config): nat {
    Max(0, cfg.maxAttempts) + Max(0, cfg.maxParkWaits) + 1
  }

  // ---- One more ask, one more call ----

  lemma SetAsideNext(calls: seq<Call>, c: Call)
    ensures SetAside(calls + [c]) == SetAside(calls) + if c.outcome.Excludes() then {c.account} else {}
  {
    assert (calls + [c])[..|calls|] == calls;
  }

  lemma {:induction false} SetAsideHas(calls: seq<Call>, j: nat)
    requires j < |calls| && calls[j].outcome.Excludes()
    ensures calls[j].account in SetAside(calls)
  {
    if j < |calls| - 1 {
      SetAsideHas(calls[..|calls| - 1], j);
    }
  }

  lemma AskedNext(asks: seq<Ask>, ask: Ask)
    ensures Picks(asks + [ask]) == Picks(asks) + if ask.reply.Picked? then 1 else 0
    ensures Waits(asks + [ask]) == Waits(asks) + if ask.reply.NoneAvailable? then 1 else 0
  {
    assert (asks + [ask])[..|asks|] == asks;
  }

  lemma AskAdded(asks: seq<Ask>, calls: seq<Call>, ask: Ask)
    requires AsksOk(asks, calls) && Picks(asks) == |calls| && ask.tried == SetAside(calls)
    ensures AsksOk(asks + [ask], calls)
  {
    var after := asks + [ask];
    assert calls[..|calls|] == calls;
    forall k: nat | k < |after| ensures AskOk(after, calls, k) {
      assert after[..k] == asks[..k];
      if k < |asks| {
        assert AskOk(asks, calls, k);
      } else {
        assert asks[..k] == asks;
      }
    }
  }

  lemma KeptOnNext(cfg: Config, asks: seq<Ask>, ask: Ask)
    requires KeptOn(cfg, asks) && Picks(asks) < cfg.maxAttempts && Waits(asks) <= Max(0, cfg.maxParkWaits)
    requires forall k :: 0 <= k < |asks| ==> !asks[k].reply.NoClients?
    ensures KeptOn(cfg, asks + [ask])
  {
    var after := asks + [ask];
    assert after[..|asks|] == asks && asks[..|asks|] == asks;
    forall k | 0 <= k < |after| ensures Picks(after[..k]) < cfg.maxAttempts {
      assert after[..k] == asks[..k];
    }
  }

  lemma {:induction false} PicksGrow(asks: seq<Ask>, m: nat, n: nat)
    requires m <= n <= |asks|
    ensures Picks(asks[..m]) <= Picks(asks[..n])
    decreases n
  {
    if m < n {
      PicksGrow(asks, m, n - 1);
      assert asks[..n][..n - 1] == asks[..n - 1];
    }
  }

  lemma CallAdded(asks: seq<Ask>, calls: seq<Call>, c: Call)
    requires AsksOk(asks, calls) && asks != [] && asks[|asks| - 1].reply == Picked(c.account)
    requires Picks(asks[..|asks| - 1]) == |calls|
    ensures AsksOk(asks, calls + [c])
  {
    forall k: nat | k < |asks| ensures AskOk(asks, calls + [c], k) {
      assert AskOk(asks, calls, k);
      var p := Picks(asks[..k]);
      assert (calls + [c])[..p] == calls[..p];
      if k < |asks| - 1 && asks[k].reply.Picked? && p == |calls| {
        assert asks[..k + 1][..k] == asks[..k];
        PicksGrow(asks, k + 1, |asks| - 1);
      }
    }
  }

  // ---- What each turn of the loop leaves ----

  lemma SleptOk(cfg: Config, l: Local, asks: seq<Ask>, calls: seq<Call>)
    requires LocalOk(cfg, l, asks, calls) && l.attempts < cfg.maxAttempts && l.waits < cfg.maxParkWaits
    ensures LocalOk(cfg, l.(waits := l.waits + 1), asks + [Ask(l.tried, NoneAvailable)], calls)
  {
    AskedNext(asks, Ask(l.tried, NoneAvailable));
    AskAdded(asks, calls, Ask(l.tried, NoneAvailable));
    KeptOnNext(cfg, asks, Ask(l.tried, NoneAvailable));
  }

  lemma GaveUpOk(cfg: Config, task: Task, l: Local, asks: seq<Ask>, calls: seq<Call>, reply: PickReply, r: BulkResult)
    requires LocalOk(cfg, l, asks, calls) && l.attempts < cfg.maxAttempts
    requires AfterPick(cfg, task, l, reply) == GiveUp(r)
    ensures ResultOk(cfg, task, r, asks + [Ask(l.tried, reply)], calls)
  {
    AskedNext(asks, Ask(l.tried, reply));
    AskAdded(asks, calls, Ask(l.tried, reply));
    KeptOnNext(cfg, asks, Ask(l.tried, reply));
  }

  lemma PickedOk(cfg: Config, l: Local, asks: seq<Ask>, calls: seq<Call>, a: Account)
    requires LocalOk(cfg, l, asks, calls) && l.attempts < cfg.maxAttempts && a !in l.tried
    ensures CallOk(cfg, l.(attempts := l.attempts + 1), a, asks + [Ask(l.tried, Picked(a))], calls)
  {
    var started := l.(attempts := l.attempts + 1);
    assert started.(attempts := started.attempts - 1) == l;
    assert (asks + [Ask(l.tried, Picked(a))])[..|asks|] == asks;
    AskAdded(asks, calls, Ask(l.tried, Picked(a)));
    KeptOnNext(cfg, asks, Ask(l.tried, Picked(a)));
  }

  lemma OutOfAttempts(cfg: Config, task: Task, l: Local, asks: seq<Ask>, calls: seq<Call>)
    requires LocalOk(cfg, l, asks, calls) && l.attempts >= cfg.maxAttempts
    ensures ResultOk(cfg, task, Fail(task, l), asks, calls)
  {
  }

  lemma CallsGrow(l: Local, calls: seq<Call>, c: Call)
    requires CallsOk(calls) && (forall j :: 0 <= j < |calls| ==> !calls[j].outcome.Ends())
    requires l.tried == SetAside(calls) && c.account !in l.tried
    ensures CallsOk(calls + [c])
  {
    var after := calls + [c];
    forall j, k | 0 <= j < k < |after| && after[j].outcome.Excludes() ensures after[k].account != after[j].account {
      if k == |calls| {
        SetAsideHas(calls, j);
      } else {
        assert after[j] == calls[j] && after[k] == calls[k];
      }
    }
    assert forall j :: 0 <= j < |calls| ==> after[j] == calls[j];
  }

  lemma CallAppended(cfg: Config, l: Local, a: Account, outcome: Outcome, asks: seq<Ask>, calls: seq<Call>)
    requires CallOk(cfg, l, a, asks, calls)
    ensures !outcome.Ends() ==> LocalOk(cfg, AfterError(l, a, outcome), asks, calls + [Call(a, outcome)])
    ensures outcome.Ends() ==>
      forall task :: ResultOk(cfg, task, EndResult(task, l, a, outcome), asks, calls + [Call(a, outcome)])
  {
    var before, c := asks[..|asks| - 1], Call(a, outcome);
    assert asks == before + [asks[|asks| - 1]];
    AskedNext(before, asks[|asks| - 1]);
    CallsGrow(l, calls, c);
    CallAdded(asks, calls, c);
    SetAsideNext(calls, c);
    assert forall j :: 0 <= j < |calls| ==> (calls + [c])[j] == calls[j];
    assert forall k :: 0 <= k < |before| ==> asks[k] == before[k];
  }

  // ---- One task against one environment ----

  /** Answers of the pool and of the task function, by round. */
  datatype Environment = Environment(pick: (nat, set<Account>) -> PickReply, call: (nat, Account) -> Outcome)

  /** The asks and calls are those of the environment, in order. */
  ghost predicate Answers(env: Environment, asks: seq<Ask>, calls: seq<Call>) {
    && (forall k :: 0 <= k < |asks| ==> asks[k].reply == env.pick(k, asks[k].tried))
    && (forall k :: 0 <= k < |asks| && asks[k].reply.Picked? && Picks(asks[..k]) < |calls| ==>
          calls[Picks(asks[..k])].outcome == env.call(k, asks[k].reply.account))
  }

  lemma AnswersNext(env: Environment, asks: seq<Ask>, calls: seq<Call>, tried: set<Account>)
    requires Answers(env, asks, calls) && Picks(asks) == |calls|
    ensures Answers(env, asks + [Ask(tried, env.pick(|asks|, tried))], calls)
  {
    var after := asks + [Ask(tried, env.pick(|asks|, tried))];
    assert after[..|asks|] == asks;
    forall k | 0 <= k < |after| && after[k].reply.Picked? && Picks(after[..k]) < |calls|
      ensures calls[Picks(after[..k])].outcome == env.call(k, after[k].reply.account)
    {
      assert after[..k] == asks[..k];
    }
  }

  lemma AnswersCall(env: Environment, asks: seq<Ask>, calls: seq<Call>, a: Account)
    requires Answers(env, asks, calls) && asks != [] && asks[|asks| - 1].reply == Picked(a)
    requires Picks(asks[..|asks| - 1]) == |calls|
    ensures Answers(env, asks, calls + [Call(a, env.call(|asks| - 1, a))])
  {
    var after := calls + [Call(a, env.call(|asks| - 1, a))];
    forall k | 0 <= k < |asks| && asks[k].reply.Picked? && Picks(asks[..k]) < |after|
      ensures after[Picks(asks[..k])].outcome == env.call(k, asks[k].reply.account)
    {
      if k < |asks| - 1 {
        assert asks[..k + 1][..k] == asks[..k];
        PicksGrow(asks, k + 1, |asks| - 1);
      }
    }
  }

  /** Where the loop stands before a turn, and what it leaves when it ends. */
  ghost predicate Going(cfg: Config, env: Environment, l: Local, asks: seq<Ask>, calls: seq<Call>) {
    LocalOk(cfg, l, asks, calls) && Answers(env, asks, calls)
  }

  ghost predicate WellEnded(cfg: Config, task: Task, env: Environment, r: BulkResult, asks: seq<Ask>, calls: seq<Call>) {
    ResultOk(cfg, task, r, asks, calls) && Answers(env, asks, calls)
  }

  lemma GoingAtFirst(cfg: Config, env: Environment)
    ensures Going(cfg, env, START, [], [])
  {
  }

  lemma EndedAtLast(cfg: Config, task: Task, env: Environment, l: Local, asks: seq<Ask>, calls: seq<Call>)
    requires Going(cfg, env, l, asks, calls) && l.attempts >= cfg.maxAttempts
    ensures WellEnded(cfg, task, env, Fail(task, l), asks, calls)
  {
    OutOfAttempts(cfg, task, l, asks, calls);
  }

  /** One turn of the loop. */
  lemma TurnOk(cfg: Config, task: Task, env: Environment, l: Local, asks: seq<Ask>, calls: seq<Call>)
    requires Going(cfg, env, l, asks, calls) && l.attempts < cfg.maxAttempts
    requires env.pick(|asks|, l.tried).Picked? ==> env.pick(|asks|, l.tried).account !in l.tried
    ensures var asks' := asks + [Ask(l.tried, env.pick(|asks|, l.tried))];
      match AfterPick(cfg, task, l, env.pick(|asks|, l.tried))
      case GiveUp(r) => WellEnded(cfg, task, env, r, asks', calls)
      case SleepOn(slept) => Going(cfg, env, slept, asks', calls)
      case MakeCall(started, a) =>
        var outcome := env.call(|asks|, a);
        var calls' := calls + [Call(a, outcome)];
        if outcome.Ends() then WellEnded(cfg, task, env, EndResult(task, started, a, outcome), asks', calls')
        else Going(cfg, env, AfterError(started, a, outcome), asks', calls')
  {
    var reply := env.pick(|asks|, l.tried);
    AnswersNext(env, asks, calls, l.tried);
    match AfterPick(cfg, task, l, reply)
    case GiveUp(r) => GaveUpOk(cfg, task, l, asks, calls, reply, r);
    case SleepOn(_) => SleptOk(cfg, l, asks, calls);
    case MakeCall(_, a) => CallMade(cfg, task, env, l, asks, calls, a);
  }

  /** An account was picked and called. */
  lemma CallMade(cfg: Config, task: Task, env: Environment, l: Local, asks: seq<Ask>, calls: seq<Call>, a: Account)
    requires LocalOk(cfg, l, asks, calls) && l.attempts < cfg.maxAttempts && a !in l.tried
    requires Answers(env, asks + [Ask(l.tried, Picked(a))], calls)
    ensures var asks', outcome := asks + [Ask(l.tried, Picked(a))], env.call(|asks|, a);
      var calls', started := calls + [Call(a, outcome)], l.(attempts := l.attempts + 1);
      && (outcome.Ends() ==> WellEnded(cfg, task, env, EndResult(task, started, a, outcome), asks', calls'))
      && (!outcome.Ends() ==> Going(cfg, env, AfterError(started, a, outcome), asks', calls'))
  {
    var asks' := asks + [Ask(l.tried, Picked(a))];
    assert asks'[..|asks|] == asks;
    PickedOk(cfg, l, asks, calls, a);
    CallAppended(cfg, l.(attempts := l.attempts + 1), a, env.call(|asks|, a), asks', calls);
    AnswersCall(env, asks', calls, a);
  }

  /** The loop from locals `l` on, as repeated turns. */
  function Settle(cfg: Config, task: Task, l: Local, env: Environment, asks: seq<Ask>, calls: seq<Call>)
    : (BulkResult, seq<Ask>, seq<Call>)
    decreases cfg.maxAttempts - l.attempts, cfg.maxParkWaits - l.waits
  {
    if l.attempts >= cfg.maxAttempts then (Fail(task, l), asks, calls)
    else
      var reply := env.pick(|asks|, l.tried);
      var asks' := asks + [Ask(l.tried, reply)];
      match AfterPick(cfg, task, l, reply)
      case GiveUp(r) => (r, asks', calls)
      case SleepOn(slept) => Settle(cfg, task, slept, env, asks', calls)
      case MakeCall(started, a) =>
        var outcome := env.call(|asks|, a);
        var calls' := calls + [Call(a, outcome)];
        if outcome.Ends() then (EndResult(task, started, a, outcome), asks', calls')
        else Settle(cfg, task, AfterError(started, a, outcome), env, asks', calls')
  }

  lemma {:induction false} SettleEnds(cfg: Config, task: Task, l: Local, env: Environment, asks: seq<Ask>, calls: seq<Call>)
    requires forall n, tried :: env.pick(n, tried).Picked? ==> env.pick(n, tried).account !in tried
    requires Going(cfg, env, l, asks, calls)
    ensures var (r, allAsks, allCalls) := Settle(cfg, task, l, env, asks, calls);
      WellEnded(cfg, task, env, r, allAsks, allCalls)
    decreases cfg.maxAttempts - l.attempts, cfg.maxParkWaits - l.waits
  {
    if l.attempts >= cfg.maxAttempts {
      EndedAtLast(cfg, task, env, l, asks, calls);
    } else {
      TurnOk(cfg, task, env, l, asks, calls);
      var asks' := asks + [Ask(l.tried, env.pick(|asks|, l.tried))];
      match AfterPick(cfg, task, l, env.pick(|asks|, l.tried))
      case GiveUp(_) =>
      case SleepOn(slept) => SettleEnds(cfg, task, slept, env, asks', calls);
      case MakeCall(started, a) =>
        var outcome := env.call(|asks|, a);
        if !outcome.Ends() {
          SettleEnds(cfg, task, AfterError(started, a, outcome), env, asks', calls + [Call(a, outcome)]);
        }
    }
  }

  /** The code of `_run_one`. */
  method RunLoop(cfg: Config, task: Task, env: Environment)
    returns (result: BulkResult, asks: seq<Ask>, calls: seq<Call>)
    ensures (result, asks, calls) == Settle(cfg, task, START, env, [], [])
  {
    var tried, attempts, waits, lastErr := {}, 0, 0, "no attempt made";
    asks, calls := [], [];
    while attempts < cfg.maxAttempts
      invariant Settle(cfg, task, START, env, [], []) ==
        Settle(cfg, task, Local(tried, attempts, waits, lastErr), env, asks, calls)
      decreases cfg.maxAttempts - attempts, cfg.maxParkWaits - waits
    {
      var reply := env.pick(|asks|, tried);
      asks := asks + [Ask(tried, reply)];
      if reply.NoneAvailable? {
        waits := waits + 1;
        if waits > cfg.maxParkWaits {
          lastErr := "all accounts parked/quarantined";
          break;
        }
        continue;
      } else if reply.NoClients? {
        lastErr := reply.message;
        break;
      }
      attempts := attempts + 1;
      var a := reply.account;
      var outcome := env.call(|asks| - 1, a);
      calls := calls + [Call(a, outcome)];
      if outcome.Returned? {
        return BulkResult(task.index, task.item, true, Some(outcome.value), None, Some(a), attempts), asks, calls;
      }
      if outcome.Unknown? {
        return BulkResult(task.index, task.item, false, None, Some(outcome.message), None, attempts), asks, calls;
      }
      if outcome.Excludes() {
        tried := tried + {a};
      }
      lastErr := outcome.message;
    }
    result := BulkResult(task.index, task.item, false, None, Some(lastErr), None, attempts);
  }

  /** `_run_one`, against any environment whose `pick` respects the exclusions. */
  method RunOne(cfg: Config, task: Task, env: Environment)
    returns (result: BulkResult, asks: seq<Ask>, calls: seq<Call>)
    requires forall n, tried :: env.pick(n, tried).Picked? ==> env.pick(n, tried).account !in tried
    ensures ResultOk(cfg, task, result, asks, calls)
    ensures Answers(env, asks, calls)
  {
    GoingAtFirst(cfg, env);
    SettleEnds(cfg, task, START, env, [], []);
    result, asks, calls := RunLoop(cfg, task, env);
  }
}
