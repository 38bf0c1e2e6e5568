/**
 * The pre-execution health gate of src/core/api-health-guard.ts: a cached status that is served while
 * fresh, served and refreshed in the background while stale, and otherwise replaced by a blocking check.
 */
module HealthGuard {
  import opened Wrappers

  const MAX_HEALTH_LATENCY_MS := 5000
  const HEALTH_CACHE_TTL_MS := 10000
  const HEALTH_STALE_TTL_MS := 30000
  const HEALTH_CHECK_TIMEOUT_MS := 5000

  datatype HealthStatus = HealthStatus(
    healthy: bool, latencyMs: int, checkedAt: int, pools: int, markets: int, positions: int)

  /** Counts as the API reports them; None stands for a value that is not a number. */
  datatype Accounts = Accounts(pools: Option<int>, markets: Option<int>, positions: int)

  datatype Response = Threw | NoData | Report(status: string, accounts: Option<Accounts>)

  /** The verdict of one check that started at `start` and was answered at `now`. */
  function Judge(start: int, now: int, response: Response): Option<HealthStatus> {
    if !response.Report? || response.status != "ok" || now - start > MAX_HEALTH_LATENCY_MS then None
    else
      match response.accounts
      case None => None
      case Some(Accounts(Some(pools), Some(markets), positions)) =>
        if pools == 0 || markets == 0 then None
        else Some(HealthStatus(true, now - start, now, pools, markets, positions))
      case _ => None
  }

  /** The API said "ok" within five seconds, with some pools and some markets. */
  predicate Passes(start: int, now: int, response: Response) {
    && response.Report? && response.status == "ok" && now - start <= 5000
    && response.accounts.Some?
    && var a := response.accounts.value; a.pools.Some? && a.pools.value != 0 && a.markets.Some? && a.markets.value != 0
  }

  /** A status tells what the report said, how long it took and when it came. */
  predicate Tells(s: HealthStatus, start: int, now: int, response: Response)
    requires Passes(start, now, response)
  {
    && s.healthy && s.latencyMs == now - start && s.checkedAt == now
    && Some(s.pools) == response.accounts.value.pools && Some(s.markets) == response.accounts.value.markets
    && s.positions == response.accounts.value.positions
  }

  lemma JudgedExactly(start: int, now: int, response: Response)
    ensures var v := Judge(start, now, response);
            if Passes(start, now, response) then v.Some? && Tells(v.value, start, now, response) else v.None?
  {
  }

  datatype Path = Fresh(status: HealthStatus) | Stale(status: HealthStatus) | Cold

  function PathAt(cached: Option<HealthStatus>, now: int): Path {
    if cached.Some? && cached.value.healthy then
      var age := now - cached.value.checkedAt;
      if age < HEALTH_CACHE_TTL_MS then Fresh(cached.value)
      else if age < HEALTH_STALE_TTL_MS then Stale(cached.value)
      else Cold
    else Cold
  }

  /** The module's two variables, changed by each synchronous stretch of its functions. */
  class Guard {
    var cachedHealth: Option<HealthStatus>
    var backgroundRefreshInFlight: bool

    constructor ()
      ensures cachedHealth.None? && !backgroundRefreshInFlight
    {
      cachedHealth, backgroundRefreshInFlight := None, false;
    }

    /** Up to the first await: which path is taken, and whether a background check must be started. */
    method CheckApiHealth(now: int) returns (path: Path, startRefresh: bool)
      modifies this`backgroundRefreshInFlight
      ensures path == PathAt(cachedHealth, now)
      ensures var known := cachedHealth.Some? && cachedHealth.value.healthy;
              && (path.Fresh? <==> known && now - cachedHealth.value.checkedAt < 10000)
              && (path.Stale? <==> known && 10000 <= now - cachedHealth.value.checkedAt < 30000)
              && (!path.Cold? ==> path.status == cachedHealth.value)
      ensures startRefresh <==> path.Stale? && !old(backgroundRefreshInFlight)
      ensures backgroundRefreshInFlight <==> old(backgroundRefreshInFlight) || path.Stale?
    {
      startRefresh := false;
      if cachedHealth.Some? && cachedHealth.value.healthy {
        var age := now - cachedHealth.value.checkedAt;
        if age < HEALTH_CACHE_TTL_MS { return Fresh(cachedHealth.value), false; }
        if age < HEALTH_STALE_TTL_MS {
          if !backgroundRefreshInFlight {
            backgroundRefreshInFlight := true;
            startRefresh := true;
          }
          return Stale(cachedHealth.value), startRefresh;
        }
      }
      return Cold, false;
    }

    /** The end of a check: store the status, or clear the cache and fail. */
    method PerformHealthCheck(start: int, now: int, response: Response) returns (status: Option<HealthStatus>)
      modifies this`cachedHealth
      ensures status == Judge(start, now, response) && cachedHealth == status
      ensures status.Some? <==> Passes(start, now, response)
      ensures status.Some? ==> Tells(status.value, start, now, response)
    {
      var latency := now - start;
      if response.Threw? || response.NoData? || response.status != "ok" || latency > MAX_HEALTH_LATENCY_MS {
        cachedHealth := None;
        return None;
      }
      if response.accounts.None? || response.accounts.value.pools.None? || response.accounts.value.pools.value == 0
         || response.accounts.value.markets.None? || response.accounts.value.markets.value == 0 {
        cachedHealth := None;
        return None;
      }
      var accounts := response.accounts.value;
      cachedHealth :=
        Some(HealthStatus(true, latency, now, accounts.pools.value, accounts.markets.value, accounts.positions));
      return cachedHealth;
    }
  }
}

/**
 * All interleavings of calls, checks, timeouts and refreshes. A check keeps running after its caller
 * timed out and still writes the cache when it ends; the in-flight flag is reset in a later step than the
 * one that ends the background check.
 */
module HealthRuns {
  import opened Wrappers
  import opened HealthGuard

  datatype Kind = Background | Waiting | Abandoned

  datatype Phase = Running | Ended | Done

  datatype Check = Check(start: int, kind: Kind, phase: Phase)

  /** What callers got: a cached status and its age, a status checked for them, or a failure. */
  datatype Answer = Served(status: HealthStatus, age: int) | Checked(status: HealthStatus) | Rejected

  /** A check that ended, when it began and ended, and what the API answered. */
  datatype Outcome = Outcome(start: int, at: int, response: Response)

  /**
   * verdicts records every write to the cache: the outcome of a check, or None for a clearing; ends[i] is the
   * end of the check behind verdicts[i].
   */
  datatype State = State(
    now: int, cached: Option<HealthStatus>, refreshInFlight: bool, checks: seq<Check>,
    answers: seq<Answer>, verdicts: seq<Option<HealthStatus>>, ends: seq<Option<Outcome>>)

  datatype Event =
    | Wait(until: int)
    | Call
    | End(k: nat, response: Response)
    | ResetFlag(k: nat)
    | TimeOut(k: nat)
    | Clear

  predicate CanHappen(s: State, e: Event) {
    match e
    case Wait(until) => until >= s.now
    case Call => true
    case End(k, _) => k < |s.checks| && s.checks[k].phase.Running?
    case ResetFlag(k) => k < |s.checks| && s.checks[k].kind.Background? && s.checks[k].phase.Ended?
    case TimeOut(k) =>
      k < |s.checks| && s.checks[k].kind.Waiting? && s.checks[k].phase.Running?
      && s.now - s.checks[k].start >= HEALTH_CHECK_TIMEOUT_MS
    case Clear => true
  }

  function CallNow(s: State): State {
    match PathAt(s.cached, s.now)
    case Fresh(status) => s.(answers := s.answers + [Served(status, s.now - status.checkedAt)])
    case Stale(status) =>
      var t := s.(answers := s.answers + [Served(status, s.now - status.checkedAt)]);
      if s.refreshInFlight then t
      else t.(refreshInFlight := true, checks := s.checks + [Check(s.now, Background, Running)])
    case Cold => s.(checks := s.checks + [Check(s.now, Waiting, Running)])
  }

  function EndCheck(s: State, k: nat, response: Response): State
    requires k < |s.checks|
  {
    var c := s.checks[k];
    var verdict := Judge(c.start, s.now, response);
    s.(cached := verdict, verdicts := s.verdicts + [verdict],
       ends := s.ends + [Some(Outcome(c.start, s.now, response))],
       checks := s.checks[k := c.(phase := if c.kind.Background? then Ended else Done)],
       answers := if !c.kind.Waiting? then s.answers
                  else s.answers + [if verdict.Some? then Checked(verdict.value) else Rejected])
  }

  function Next(s: State, e: Event): State
    requires CanHappen(s, e)
  {
    match e
    case Wait(until) => s.(now := until)
    case Call => CallNow(s)
    case End(k, response) => EndCheck(s, k, response)
    case ResetFlag(k) => s.(refreshInFlight := false, checks := s.checks[k := s.checks[k].(phase := Done)])
    case TimeOut(k) => s.(checks := s.checks[k := s.checks[k].(kind := Abandoned)], answers := s.answers + [Rejected])
    case Clear => s.(cached := None, verdicts := s.verdicts + [None], ends := s.ends + [None])
  }

  predicate Reaches(s: State, es: seq<Event>, t: State)
    decreases |es|
  {
    if es == [] then s == t else CanHappen(s, es[0]) && Reaches(Next(s, es[0]), es[1..], t)
  }

  function Initial(now: int): State { State(now, None, false, [], [], [], []) }

  // ---- Invariant ----

  predicate Outstanding(c: Check) { c.kind.Background? && !c.phase.Done? }

  /** The flag is set exactly while one background check is outstanding; never more than one is. */
  predicate FlagIsExact(refreshInFlight: bool, checks: seq<Check>) {
    && (refreshInFlight <==> exists k :: 0 <= k < |checks| && Outstanding(checks[k]))
    && (forall j, k :: 0 <= j < k < |checks| ==> !(Outstanding(checks[j]) && Outstanding(checks[k])))
  }

  /** The cache is the verdict of the last write, and that is never an unhealthy status. */
  predicate CacheIsLastVerdict(s: State) {
    s.cached == if s.verdicts == [] then None else s.verdicts[|s.verdicts| - 1]
  }

  /** A write put a status in the cache exactly when it was the end of a check that passed. */
  predicate VerdictTrue(s: State, i: int)
    requires 0 <= i < |s.verdicts| == |s.ends|
  {
    if s.ends[i].Some? && Passes(s.ends[i].value.start, s.ends[i].value.at, s.ends[i].value.response) then
      && s.ends[i].value.at <= s.now && s.verdicts[i].Some?
      && Tells(s.verdicts[i].value, s.ends[i].value.start, s.ends[i].value.at, s.ends[i].value.response)
    else s.verdicts[i].None?
  }

  predicate VerdictsTrue(s: State) {
    |s.verdicts| == |s.ends| && forall i :: 0 <= i < |s.verdicts| ==> VerdictTrue(s, i)
  }

  predicate Given(verdicts: seq<Option<HealthStatus>>, status: HealthStatus) {
    exists i :: 0 <= i < |verdicts| && verdicts[i] == Some(status)
  }

  /** What callers get was put in the cache by a check, and from there it is served for under 30 seconds. */
  predicate AnswerOk(verdicts: seq<Option<HealthStatus>>, a: Answer) {
    match a
    case Served(status, age) => Given(verdicts, status) && 0 <= age < 30000
    case Checked(status) => Given(verdicts, status)
    case Rejected => true
  }

  predicate AnswersOk(s: State) {
    forall i :: 0 <= i < |s.answers| ==> AnswerOk(s.verdicts, s.answers[i])
  }

  predicate Inv(s: State) {
    FlagIsExact(s.refreshInFlight, s.checks) && CacheIsLastVerdict(s) && VerdictsTrue(s) && AnswersOk(s)
  }

  lemma CacheIsHealthy(s: State)
    requires CacheIsLastVerdict(s) && VerdictsTrue(s) && s.cached.Some?
    ensures s.cached.value.healthy && s.cached.value.checkedAt <= s.now && Given(s.verdicts, s.cached.value)
  {
    var last := |s.verdicts| - 1;
    assert VerdictTrue(s, last) && s.verdicts[last] == Some(s.cached.value);
  }

  lemma StillGiven(verdicts: seq<Option<HealthStatus>>, v: Option<HealthStatus>, a: Answer)
    ensures AnswerOk(verdicts, a) ==> AnswerOk(verdicts + [v], a)
  {
    if !a.Rejected? && Given(verdicts, a.status) {
      var i :| 0 <= i < |verdicts| && verdicts[i] == Some(a.status);
      assert (verdicts + [v])[i] == Some(a.status);
    }
  }

  lemma WriteKeepsVerdicts(s: State, e: Event)
    requires VerdictsTrue(s) && CanHappen(s, e)
    ensures VerdictsTrue(Next(s, e))
  {
    var t := Next(s, e);
    if e.End? { JudgedExactly(s.checks[e.k].start, s.now, e.response); }
    hide Judge, Passes, Tells, PathAt;
    forall i | 0 <= i < |t.verdicts| ensures VerdictTrue(t, i) {
      if i < |s.verdicts| { assert VerdictTrue(s, i); }
    }
  }

  lemma EventKeepsAnswers(s: State, e: Event)
    requires Inv(s) && CanHappen(s, e)
    ensures AnswersOk(Next(s, e)) && CacheIsLastVerdict(Next(s, e))
  {
    var t := Next(s, e);
    if s.cached.Some? { CacheIsHealthy(s); }
    forall i | 0 <= i < |s.answers| ensures AnswerOk(t.verdicts, s.answers[i]) {
      if |t.verdicts| > |s.verdicts| { StillGiven(s.verdicts, t.verdicts[|s.verdicts|], s.answers[i]); }
    }
    if e.End? { assert t.verdicts[|s.verdicts|] == t.cached; }
    hide Judge, VerdictsTrue, FlagIsExact;
  }

  lemma FlagAfterUpdate(flag: bool, checks: seq<Check>, k: nat, c: Check)
    requires FlagIsExact(flag, checks) && k < |checks| && Outstanding(c) == Outstanding(checks[k])
    ensures FlagIsExact(flag, checks[k := c])
  {
    var after := checks[k := c];
    assert forall j :: 0 <= j < |checks| ==> Outstanding(after[j]) == Outstanding(checks[j]);
  }

  lemma FlagAfterReset(flag: bool, checks: seq<Check>, k: nat, c: Check)
    requires FlagIsExact(flag, checks) && k < |checks| && Outstanding(checks[k]) && !Outstanding(c)
    ensures FlagIsExact(false, checks[k := c])
  {
    var after := checks[k := c];
    forall j | 0 <= j < |after| ensures !Outstanding(after[j]) {
      if j != k { assert after[j] == checks[j]; }
    }
  }

  lemma FlagAfterNew(flag: bool, checks: seq<Check>, c: Check)
    requires FlagIsExact(flag, checks) && (Outstanding(c) ==> !flag)
    ensures FlagIsExact(flag || Outstanding(c), checks + [c])
  {
    var after := checks + [c];
    assert forall j :: 0 <= j < |checks| ==> after[j] == checks[j];
    if exists k :: 0 <= k < |checks| && Outstanding(checks[k]) {
      var k :| 0 <= k < |checks| && Outstanding(checks[k]);
      assert Outstanding(after[k]);
    }
    if Outstanding(c) { assert Outstanding(after[|checks|]); }
  }

  lemma EventKeepsFlag(s: State, e: Event)
    requires FlagIsExact(s.refreshInFlight, s.checks) && CanHappen(s, e)
    ensures FlagIsExact(Next(s, e).refreshInFlight, Next(s, e).checks)
  {
    hide FlagIsExact, Judge;
    match e
    case Wait(until) =>
    case Call =>
      FlagAfterNew(s.refreshInFlight, s.checks, Check(s.now, Waiting, Running));
      if !s.refreshInFlight { FlagAfterNew(s.refreshInFlight, s.checks, Check(s.now, Background, Running)); }
    case End(k, response) =>
      FlagAfterUpdate(s.refreshInFlight, s.checks, k, EndCheck(s, k, response).checks[k]);
    case ResetFlag(k) => FlagAfterReset(s.refreshInFlight, s.checks, k, s.checks[k].(phase := Done));
    case TimeOut(k) => FlagAfterUpdate(s.refreshInFlight, s.checks, k, s.checks[k].(kind := Abandoned));
    case Clear =>
  }

  lemma EventKeepsInv(s: State, e: Event)
    requires Inv(s) && CanHappen(s, e)
    ensures Inv(Next(s, e))
  {
    EventKeepsFlag(s, e);
    WriteKeepsVerdicts(s, e);
    EventKeepsAnswers(s, e);
    hide Next, CanHappen, FlagIsExact, VerdictsTrue, AnswersOk, CacheIsLastVerdict;
  }

  lemma {:induction false} RunKeepsInv(s: State, es: seq<Event>, t: State)
    requires Inv(s) && Reaches(s, es, t)
    ensures Inv(t)
    decreases |es|
  {
    if es != [] {
      EventKeepsInv(s, es[0]);
      RunKeepsInv(Next(s, es[0]), es[1..], t);
    }
  }

  // ---- Main results ----

  /**
   * In every run each status handed out is that of a check that passed, and was under 30 seconds old if it
   * came from the cache; the cache holds what was written last, and the in-flight flag is exact.
   */
  lemma GuardHolds(now: int, es: seq<Event>, s: State)
    requires Reaches(Initial(now), es, s)
    ensures VerdictsTrue(s) && AnswersOk(s) && CacheIsLastVerdict(s) && FlagIsExact(s.refreshInFlight, s.checks)
  {
    RunKeepsInv(Initial(now), es, s);
  }

  /**
   * What an event answers a caller, in terms of times and reports alone: a call is served at once if and only
   * if the last check to end passed less than 30 seconds ago, and starts a refresh then if and only if that is ten
   * seconds ago and none is under way; a waiting one is answered when its check ends,
   * and refused after five seconds.
   */
  lemma AnsweredExactly(now: int, es: seq<Event>, s: State, e: Event)
    requires Reaches(Initial(now), es, s) && CanHappen(s, e)
    ensures |s.verdicts| == |s.ends|
    ensures var t := Next(s, e);
            var last := if s.ends == [] then None else s.ends[|s.ends| - 1];
            match e
            case Call =>
              if && last.Some? && Passes(last.value.start, last.value.at, last.value.response)
                 && s.now - last.value.at < 30000
              then |t.answers| == |s.answers| + 1 && t.answers[..|s.answers|] == s.answers
                   && t.answers[|s.answers|].Served? && t.answers[|s.answers|].age == s.now - last.value.at
                   && Tells(t.answers[|s.answers|].status, last.value.start, last.value.at, last.value.response)
                   && t.checks == (if s.now - last.value.at < 10000 || s.refreshInFlight then s.checks
                                   else s.checks + [Check(s.now, Background, Running)])
              else t.answers == s.answers && t.checks == s.checks + [Check(s.now, Waiting, Running)]
            case End(k, response) =>
              if !s.checks[k].kind.Waiting? then t.answers == s.answers
              else |t.answers| == |s.answers| + 1 && t.answers[..|s.answers|] == s.answers
                   && if Passes(s.checks[k].start, s.now, response)
                      then t.answers[|s.answers|].Checked?
                           && Tells(t.answers[|s.answers|].status, s.checks[k].start, s.now, response)
                      else t.answers[|s.answers|].Rejected?
            case TimeOut(k) => s.now - s.checks[k].start >= 5000 && t.answers == s.answers + [Rejected]
            case _ => t.answers == s.answers
  {
    RunKeepsInv(Initial(now), es, s);
    if s.verdicts != [] { assert VerdictTrue(s, |s.verdicts| - 1); }
    if e.End? { JudgedExactly(s.checks[e.k].start, s.now, e.response); }
    hide Judge, Passes, FlagIsExact, AnswersOk;
  }

  /** The event ends a check that succeeds. */
  predicate Succeeds(s: State, e: Event) {
    CanHappen(s, e) && e.End? && Judge(s.checks[e.k].start, s.now, e.response).Some?
  }

  predicate NoSuccess(s: State, es: seq<Event>)
    decreases |es|
  {
    es == [] || (CanHappen(s, es[0]) && !Succeeds(s, es[0]) && NoSuccess(Next(s, es[0]), es[1..]))
  }

  function ServedCount(answers: seq<Answer>): nat {
    if answers == [] then 0
    else ServedCount(answers[..|answers| - 1]) + if answers[|answers| - 1].Served? then 1 else 0
  }

  lemma ServedCountAppend(answers: seq<Answer>, a: Answer)
    ensures ServedCount(answers + [a]) == ServedCount(answers) + if a.Served? then 1 else 0
  {
    assert (answers + [a])[..|answers|] == answers;
  }

  /** Once the cache is empty, nothing is served from it until some check succeeds: every call is cold. */
  lemma {:induction false} ColdUntilSuccess(s: State, es: seq<Event>, t: State)
    requires s.cached.None? && Reaches(s, es, t) && NoSuccess(s, es)
    ensures t.cached.None? && PathAt(t.cached, t.now).Cold? && ServedCount(t.answers) == ServedCount(s.answers)
    decreases |es|
  {
    if es != [] {
      var next := Next(s, es[0]);
      if |next.answers| > |s.answers| {
        ServedCountAppend(s.answers, next.answers[|s.answers|]);
      }
      ColdUntilSuccess(next, es[1..], t);
    }
  }

  /** In particular after a failed check or a clearing, in any reachable state. */
  lemma ColdAfterFailure(now: int, es: seq<Event>, s: State, more: seq<Event>, t: State)
    requires Reaches(Initial(now), es, s) && (s.verdicts == [] || s.verdicts[|s.verdicts| - 1].None?)
    requires Reaches(s, more, t) && NoSuccess(s, more)
    ensures PathAt(t.cached, t.now).Cold? && ServedCount(t.answers) == ServedCount(s.answers)
  {
    RunKeepsInv(Initial(now), es, s);
    ColdUntilSuccess(s, more, t);
  }
}
