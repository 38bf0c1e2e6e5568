/**
 * The trade guard of the magic client (src/client/magic-client.ts): one lock key per (market, side), at
 * most 32 of them held, and a cache of signatures sent in the last 60 seconds. The class does what the
 * four private methods do; module MagicTrades runs calls through it.
 */
module MagicGuard {
  import opened Wrappers

  datatype TradeSide = Long | Short

  datatype LockKey = LockKey(market: string, side: TradeSide)

  /** Cached operations; the value is the cache key. Amounts are compared as given. */
  datatype CacheKey =
    | OpenKey(key: LockKey, collateral: real, leverage: real)
    | CloseKey(key: LockKey)
    | AddKey(key: LockKey, amount: real)
    | RemoveKey(key: LockKey, amount: real)

  datatype Recent = Recent(sig: string, ts: int)

  datatype Refusal = InProgress | TooMany

  const MAX_ACTIVE_TRADES := 32
  const RECENT_TRADE_TTL_MS := 60000

  function Refuses(active: set<LockKey>, key: LockKey): Option<Refusal> {
    if key in active then Some(InProgress) else if |active| >= MAX_ACTIVE_TRADES then Some(TooMany) else None
  }

  /** The cache without the entries that are more than a minute old. */
  function Purged(recent: map<CacheKey, Recent>, now: int): map<CacheKey, Recent> {
    map k | k in recent && now - recent[k].ts <= RECENT_TRADE_TTL_MS :: recent[k]
  }

  function Lookup(recent: map<CacheKey, Recent>, key: CacheKey, now: int): Option<string> {
    if key in recent && now - recent[key].ts < RECENT_TRADE_TTL_MS then Some(recent[key].sig) else None
  }

  function Released(active: set<LockKey>, key: LockKey): set<LockKey> { active - {key} }

  function Recorded(recent: map<CacheKey, Recent>, key: CacheKey, sig: string, now: int): map<CacheKey, Recent> {
    recent[key := Recent(sig, now)]
  }

  /**
   * Letting go undoes taking: no other key is affected, and within the limit the key can be taken again.
   */
  lemma ReleaseUndoesAcquire(active: set<LockKey>, key: LockKey)
    ensures Refuses(active, key).None? ==> Released(active + {key}, key) == active
    ensures forall other :: other != key ==> (other in Released(active, key) <==> other in active)
    ensures key in active && |active| <= 32 ==> Refuses(Released(active, key), key).None?
  {
    if Refuses(active, key).None? { assert Released(active + {key}, key) == active; }
    if key in active { assert active == Released(active, key) + {key}; }
  }

  /**
   * A recorded signature answers for its own operation during one minute and for no other operation, and
   * no purge in between, its own or another's, changes any answer.
   */
  lemma RecordedIsAnswered(recent: map<CacheKey, Recent>, key: CacheKey, sig: string, at: int, purge: int,
                          asked: CacheKey, now: int)
    requires purge <= now
    ensures Lookup(Purged(Recorded(recent, key, sig, at), purge), asked, now) ==
            if asked != key then Lookup(recent, asked, now)
            else if now - at < 60000 then Some(sig) else None
  {
    var after := Recorded(recent, key, sig, at);
    assert asked in Purged(after, purge) ==> Purged(after, purge)[asked] == after[asked];
    assert asked in after && asked !in Purged(after, purge) ==> now - after[asked].ts > 60000;
  }

  class MagicTradeGuard {
    var activeTrades: set<LockKey>
    var recentTrades: map<CacheKey, Recent>

    constructor ()
      ensures activeTrades == {} && recentTrades == map[]
    {
      activeTrades, recentTrades := {}, map[];
    }

    method AcquireTradeLock(key: LockKey) returns (refusal: Option<Refusal>)
      modifies this`activeTrades
      ensures refusal == Refuses(old(activeTrades), key)
      ensures refusal.None? <==> key !in old(activeTrades) && |old(activeTrades)| < 32
      ensures activeTrades == if refusal.Some? then old(activeTrades) else old(activeTrades) + {key}
    {
      if key in activeTrades { return Some(InProgress); }
      if |activeTrades| >= MAX_ACTIVE_TRADES { return Some(TooMany); }
      activeTrades := activeTrades + {key};
      return None;
    }

    method ReleaseTradeLock(key: LockKey)
      modifies this`activeTrades
      ensures activeTrades == Released(old(activeTrades), key)
    {
      activeTrades := activeTrades - {key};
    }

    /** Drops expired entries while walking the map, then looks the key up. */
    method CheckRecentTrade(key: CacheKey, now: int) returns (hit: Option<string>)
      modifies this`recentTrades
      ensures recentTrades == Purged(old(recentTrades), now)
      ensures hit == Lookup(old(recentTrades), key, now)
      ensures forall k :: k in recentTrades <==> k in old(recentTrades) && now - old(recentTrades)[k].ts <= 60000
      ensures hit.Some? <==> key in old(recentTrades) && now - old(recentTrades)[key].ts < 60000
      ensures hit.Some? ==> hit.value == old(recentTrades)[key].sig
    {
      var pending := recentTrades.Keys;
      while pending != {}
        invariant pending <= old(recentTrades).Keys
        invariant recentTrades.Keys <= old(recentTrades).Keys
        invariant forall k :: k in recentTrades ==> recentTrades[k] == old(recentTrades)[k]
        invariant forall k :: k in old(recentTrades) && k in pending ==> k in recentTrades
        invariant forall k :: k in old(recentTrades) && k !in pending ==>
          (k in recentTrades <==> now - old(recentTrades)[k].ts <= RECENT_TRADE_TTL_MS)
        decreases pending
      {
        var k :| k in pending;
        pending := pending - {k};
        if now - recentTrades[k].ts > RECENT_TRADE_TTL_MS { recentTrades := recentTrades - {k}; }
      }
      assert recentTrades == Purged(old(recentTrades), now);
      return if key in recentTrades && now - recentTrades[key].ts < RECENT_TRADE_TTL_MS
             then Some(recentTrades[key].sig) else None;
    }

    method RecordRecentTrade(key: CacheKey, sig: string, now: int)
      modifies this`recentTrades
      ensures recentTrades == Recorded(old(recentTrades), key, sig, now)
    {
      recentTrades := recentTrades[key := Recent(sig, now)];
    }
  }
}

/**
 * Any number of magic-mode calls in flight. A call takes its lock and consults the cache in one block;
 * then it is either answered (refused, or from the cache) or suspended while it builds and sends. When
 * that ends, it records and releases in one block. Time never runs backwards.
 */
module MagicTrades {
  import opened Wrappers
  import opened MagicGuard

  /** A cached operation, or one of those that only take the lock (increase, decrease). */
  datatype Trade = Cached(cacheKey: CacheKey) | LockOnly(key: LockKey) {
    function Lock(): LockKey { if Cached? then cacheKey.key else key }
  }

  datatype Phase =
    | Refused(why: Refusal) | FromCache(sig: string) | Sending | Sent(sig: string, at: int) | Failed(at: int)

  datatype Attempt = Attempt(trade: Trade, begun: int, phase: Phase) {
    /** The call went past the guard. */
    predicate Sends() { phase.Sending? || phase.Sent? || phase.Failed? }
  }

  datatype State = State(now: int, active: set<LockKey>, recent: map<CacheKey, Recent>, calls: seq<Attempt>)

  datatype Event = Wait(until: int) | Begin(trade: Trade) | Succeed(k: nat, sig: string) | Fail(k: nat)

  predicate CanHappen(s: State, e: Event) {
    match e
    case Wait(until) => until >= s.now
    case Begin(_) => true
    case Succeed(k, _) => k < |s.calls| && s.calls[k].phase.Sending?
    case Fail(k) => k < |s.calls| && s.calls[k].phase.Sending?
  }

  function Start(s: State, trade: Trade): State {
    var refusal := Refuses(s.active, trade.Lock());
    if refusal.Some? then s.(calls := s.calls + [Attempt(trade, s.now, Refused(refusal.value))])
    else if trade.LockOnly? then
      s.(active := s.active + {trade.Lock()}, calls := s.calls + [Attempt(trade, s.now, Sending)])
    else
      var hit := Lookup(s.recent, trade.cacheKey, s.now);
      var recent := Purged(s.recent, s.now);
      if hit.Some? then s.(recent := recent, calls := s.calls + [Attempt(trade, s.now, FromCache(hit.value))])
      else
        s.(active := s.active + {trade.Lock()}, recent := recent,
           calls := s.calls + [Attempt(trade, s.now, Sending)])
  }

  function Finish(s: State, k: nat, phase: Phase): State
    requires k < |s.calls|
  {
    var call := s.calls[k];
    s.(active := Released(s.active, call.trade.Lock()), calls := s.calls[k := call.(phase := phase)],
       recent := if phase.Sent? && call.trade.Cached?
                 then Recorded(s.recent, call.trade.cacheKey, phase.sig, s.now) else s.recent)
  }

  function Next(s: State, e: Event): State
    requires CanHappen(s, e)
  {
    match e
    case Wait(until) => s.(now := until)
    case Begin(trade) => Start(s, trade)
    case Succeed(k, sig) => Finish(s, k, Sent(sig, s.now))
    case Fail(k) => Finish(s, k, Failed(s.now))
  }

  predicate Reaches(s: State, es: seq<Event>, t: State)
    decreases |es|
  {
    if es == [] then s == t else CanHappen(s, es[0]) && Reaches(Next(s, es[0]), es[1..], t)
  }

  function Initial(now: int): State { State(now, {}, map[], []) }

  // ---- Invariants ----

  predicate InFlight(calls: seq<Attempt>, k: int, key: LockKey) {
    0 <= k < |calls| && calls[k].phase.Sending? && calls[k].trade.Lock() == key
  }

  /** The keys held are exactly those of the calls in flight, one call each, and never more than 32. */
  ghost predicate LocksAreInFlight(active: set<LockKey>, calls: seq<Attempt>) {
    && |active| <= 32
    && (forall k, key :: InFlight(calls, k, key) ==> key in active)
    && (forall key :: key in active ==> exists k :: InFlight(calls, k, key))
    && (forall j, k, key :: InFlight(calls, j, key) && InFlight(calls, k, key) ==> j == k)
  }

  predicate TimesAreOrdered(s: State) {
    forall k :: 0 <= k < |s.calls| ==>
      && s.calls[k].begun <= s.now
      && (s.calls[k].phase.Sent? ==> s.calls[k].begun <= s.calls[k].phase.at <= s.now)
      && (s.calls[k].phase.Failed? ==> s.calls[k].begun <= s.calls[k].phase.at <= s.now)
  }

  /** A successful send is in the cache, possibly under a later time stamp, until it is over a minute old. */
  predicate CacheRemembers(s: State) {
    forall k :: 0 <= k < |s.calls| && s.calls[k].phase.Sent? && s.calls[k].trade.Cached? ==>
      || (s.calls[k].trade.cacheKey in s.recent && s.recent[s.calls[k].trade.cacheKey].ts >= s.calls[k].phase.at)
      || s.now - s.calls[k].phase.at > 60000
  }

  /** Call k sent this operation and got this signature at this time. */
  predicate SentBy(calls: seq<Attempt>, k: int, key: CacheKey, r: Recent) {
    0 <= k < |calls| && calls[k].trade == Cached(key) && calls[k].phase == Sent(r.sig, r.ts)
  }

  /** Everything in the cache was sent by some call. */
  ghost predicate CacheIsTrue(recent: map<CacheKey, Recent>, calls: seq<Attempt>) {
    forall key :: key in recent ==> exists k :: SentBy(calls, k, key, recent[key])
  }

  /** i ended before j began and, if i succeeded, j began at least a minute after i was recorded. */
  predicate WellSpaced(i: Attempt, j: Attempt) {
    match i.phase
    case Sent(_, at) => j.begun >= at + 60000
    case Failed(at) => j.begun >= at
    case _ => false
  }

  /** Two sends of the same cached operation are well spaced. */
  predicate AtMostOncePerWindow(s: State) {
    forall i, j :: 0 <= i < j < |s.calls| && s.calls[i].Sends() && s.calls[j].Sends()
                   && s.calls[i].trade.Cached? && s.calls[i].trade == s.calls[j].trade ==>
      WellSpaced(s.calls[i], s.calls[j])
  }

  ghost predicate Inv(s: State) {
    && LocksAreInFlight(s.active, s.calls) && TimesAreOrdered(s)
    && CacheRemembers(s) && CacheIsTrue(s.recent, s.calls) && AtMostOncePerWindow(s)
  }

  lemma QuietCallKeepsLocks(active: set<LockKey>, calls: seq<Attempt>, call: Attempt)
    requires LocksAreInFlight(active, calls) && !call.phase.Sending?
    ensures LocksAreInFlight(active, calls + [call])
  {
    forall k, key ensures InFlight(calls + [call], k, key) <==> InFlight(calls, k, key) {
    }
    forall key | key in active ensures exists k :: InFlight(calls + [call], k, key) {
      var k :| InFlight(calls, k, key);
      assert InFlight(calls + [call], k, key);
    }
  }

  lemma NewCallKeepsLocks(active: set<LockKey>, calls: seq<Attempt>, call: Attempt)
    requires LocksAreInFlight(active, calls) && call.phase.Sending? && Refuses(active, call.trade.Lock()).None?
    ensures LocksAreInFlight(active + {call.trade.Lock()}, calls + [call])
  {
    forall k, key
      ensures InFlight(calls + [call], k, key) <==>
              InFlight(calls, k, key) || (k == |calls| && key == call.trade.Lock())
    {
    }
    assert InFlight(calls + [call], |calls|, call.trade.Lock());
    forall key | key in active ensures exists k :: InFlight(calls + [call], k, key) {
      var k :| InFlight(calls, k, key);
      assert InFlight(calls + [call], k, key);
    }
  }

  lemma BeginKeepsLocks(s: State, trade: Trade)
    requires LocksAreInFlight(s.active, s.calls)
    ensures LocksAreInFlight(Start(s, trade).active, Start(s, trade).calls)
  {
    hide LocksAreInFlight, Purged, Lookup;
    var call := Start(s, trade).calls[|s.calls|];
    if call.phase.Sending? {
      NewCallKeepsLocks(s.active, s.calls, call);
    } else {
      QuietCallKeepsLocks(s.active, s.calls, call);
    }
  }

  lemma FinishKeepsLocks(s: State, k: nat, phase: Phase)
    requires LocksAreInFlight(s.active, s.calls) && k < |s.calls| && s.calls[k].phase.Sending? && !phase.Sending?
    ensures LocksAreInFlight(Finish(s, k, phase).active, Finish(s, k, phase).calls)
  {
    var t := Finish(s, k, phase);
    assert InFlight(s.calls, k, s.calls[k].trade.Lock());
    forall j, key ensures InFlight(t.calls, j, key) <==> InFlight(s.calls, j, key) && j != k {
    }
    forall key | key in t.active ensures exists j :: InFlight(t.calls, j, key) {
      var j :| InFlight(s.calls, j, key);
      assert InFlight(t.calls, j, key);
    }
    CardinalityMonotone(t.active, s.active);
  }

  lemma CardinalityMonotone(a: set<LockKey>, b: set<LockKey>)
    requires a <= b
    ensures |a| <= |b|
  {
    assert b == a + (b - a);
  }

  lemma StillTrue(recent: map<CacheKey, Recent>, calls: seq<Attempt>, less: map<CacheKey, Recent>, more: seq<Attempt>)
    requires CacheIsTrue(recent, calls)
    requires forall key :: key in less ==> key in recent && less[key] == recent[key]
    requires forall k, key, r :: SentBy(calls, k, key, r) ==> SentBy(more, k, key, r)
    ensures CacheIsTrue(less, more)
  {
    forall key | key in less ensures exists k :: SentBy(more, k, key, less[key]) {
      var k :| SentBy(calls, k, key, recent[key]);
      assert SentBy(more, k, key, less[key]);
    }
  }

  lemma BeginAppends(s: State, trade: Trade)
    ensures var t := Start(s, trade);
            && t.now == s.now && |t.calls| == |s.calls| + 1 && t.calls[..|s.calls|] == s.calls
            && !t.calls[|s.calls|].phase.Sent? && (t.recent == s.recent || t.recent == Purged(s.recent, s.now))
  {
    hide Refuses, Purged, Lookup;
  }

  lemma BeginKeepsCache(s: State, trade: Trade)
    requires CacheRemembers(s) && CacheIsTrue(s.recent, s.calls)
    ensures CacheRemembers(Start(s, trade)) && CacheIsTrue(Start(s, trade).recent, Start(s, trade).calls)
  {
    BeginAppends(s, trade);
    var t := Start(s, trade);
    hide Start;
    assert forall k :: 0 <= k < |s.calls| ==> t.calls[k] == t.calls[..|s.calls|][k];
    StillTrue(s.recent, s.calls, t.recent, t.calls);
    hide CacheIsTrue;
  }

  lemma FinishKeepsCache(s: State, k: nat, phase: Phase)
    requires CacheRemembers(s) && CacheIsTrue(s.recent, s.calls) && TimesAreOrdered(s)
    requires k < |s.calls| && s.calls[k].phase.Sending?
    requires match phase case Sent(_, at) => at == s.now case Failed(_) => true case _ => false
    ensures CacheRemembers(Finish(s, k, phase)) && CacheIsTrue(Finish(s, k, phase).recent, Finish(s, k, phase).calls)
  {
    var t := Finish(s, k, phase);
    FinishIsRemembered(s, k, phase);
    hide CacheRemembers, TimesAreOrdered;
    StillTrue(s.recent, s.calls, s.recent, t.calls);
    if phase.Sent? && s.calls[k].trade.Cached? {
      var key := s.calls[k].trade.cacheKey;
      assert SentBy(t.calls, k, key, t.recent[key]);
    }
  }

  lemma FinishIsRemembered(s: State, k: nat, phase: Phase)
    requires CacheRemembers(s) && TimesAreOrdered(s) && k < |s.calls| && s.calls[k].phase.Sending?
    requires match phase case Sent(_, at) => at == s.now case Failed(_) => true case _ => false
    ensures CacheRemembers(Finish(s, k, phase))
  {
  }

  /** A call that gets past the guard is well spaced from every earlier send of its operation. */
  lemma NewSendIsSpaced(s: State, trade: Trade, i: nat)
    requires Inv(s) && trade.Cached? && i < |s.calls| && s.calls[i].trade == trade && s.calls[i].Sends()
    requires Start(s, trade).calls[|s.calls|].Sends()
    ensures WellSpaced(s.calls[i], Start(s, trade).calls[|s.calls|])
  {
    if s.calls[i].phase.Sending? { assert InFlight(s.calls, i, trade.Lock()); }
  }

  lemma BeginKeepsSpacing(s: State, trade: Trade)
    requires Inv(s)
    ensures AtMostOncePerWindow(Start(s, trade))
  {
    var t := Start(s, trade);
    var n := |s.calls|;
    assert |t.calls| == n + 1 && t.calls[n].trade == trade && forall i :: 0 <= i < n ==> t.calls[i] == s.calls[i];
    hide Start;
    forall i, j | 0 <= i < j < |t.calls| && t.calls[i].Sends() && t.calls[j].Sends()
                  && t.calls[i].trade.Cached? && t.calls[i].trade == t.calls[j].trade
      ensures WellSpaced(t.calls[i], t.calls[j])
    {
      if j == n { NewSendIsSpaced(s, trade, i); } else { assert WellSpaced(s.calls[i], s.calls[j]); }
    }
  }

  lemma WaitKeepsInv(s: State, until: int)
    requires Inv(s) && until >= s.now
    ensures Inv(s.(now := until))
  {
  }

  lemma BeginKeepsTimes(s: State, trade: Trade)
    requires TimesAreOrdered(s)
    ensures TimesAreOrdered(Start(s, trade))
  {
    hide Purged, Lookup, Refuses;
  }

  lemma FinishKeepsTimes(s: State, k: nat, phase: Phase)
    requires TimesAreOrdered(s) && k < |s.calls|
    requires phase == Failed(s.now) || (phase.Sent? && phase.at == s.now)
    ensures TimesAreOrdered(Finish(s, k, phase))
  {
  }

  lemma EventKeepsInv(s: State, e: Event)
    requires Inv(s) && CanHappen(s, e)
    ensures Inv(Next(s, e))
  {
    hide LocksAreInFlight, TimesAreOrdered, CacheRemembers, CacheIsTrue, AtMostOncePerWindow, Start, Finish;
    match e
    case Wait(until) => WaitKeepsInv(s, until);
    case Begin(trade) =>
      BeginKeepsLocks(s, trade);
      BeginKeepsTimes(s, trade);
      BeginKeepsCache(s, trade);
      BeginKeepsSpacing(s, trade);
    case Succeed(k, sig) =>
      FinishKeepsLocks(s, k, Sent(sig, s.now));
      FinishKeepsTimes(s, k, Sent(sig, s.now));
      FinishKeepsCache(s, k, Sent(sig, s.now));
      FinishKeepsSpacing(s, k, Sent(sig, s.now));
    case Fail(k) =>
      FinishKeepsLocks(s, k, Failed(s.now));
      FinishKeepsTimes(s, k, Failed(s.now));
      FinishKeepsCache(s, k, Failed(s.now));
      FinishKeepsSpacing(s, k, Failed(s.now));
  }

  /** A call in flight has no later send of its operation to be spaced from. */
  lemma FinishKeepsSpacing(s: State, k: nat, phase: Phase)
    requires Inv(s) && k < |s.calls| && s.calls[k].phase.Sending?
    ensures AtMostOncePerWindow(Finish(s, k, phase))
  {
    var t := Finish(s, k, phase);
    forall i, j | 0 <= i < j < |t.calls| && t.calls[i].Sends() && t.calls[j].Sends()
                  && t.calls[i].trade.Cached? && t.calls[i].trade == t.calls[j].trade
      ensures WellSpaced(t.calls[i], t.calls[j])
    {
      assert WellSpaced(s.calls[i], s.calls[j]);
    }
  }

  lemma {:induction false} RunKeepsInv(s: State, es: seq<Event>, t: State)
    requires Inv(s) && Reaches(s, es, t)
    ensures Inv(t)
    decreases |es|
  {
    if es != [] {
      EventKeepsInv(s, es[0]);
      RunKeepsInv(Next(s, es[0]), es[1..], t);
    }
  }

  // ---- Main results ----

  /** In every run: the lock set is the set of in-flight keys, at most 32, and sends are well spaced. */
  lemma GuardHolds(now: int, es: seq<Event>, s: State)
    requires Reaches(Initial(now), es, s)
    ensures LocksAreInFlight(s.active, s.calls) && AtMostOncePerWindow(s)
  {
    RunKeepsInv(Initial(now), es, s);
  }

  /**
   * What the cache holds after a call began: a call that gets the lock for a cached operation drops exactly
   * the entries over a minute old, found or not; any other call leaves the cache alone.
   */
  lemma BeginDropsTheExpired(s: State, trade: Trade, key: CacheKey)
    ensures var t := Start(s, trade);
            var drops := trade.Cached? && trade.Lock() !in s.active && |s.active| < 32;
            && (key in t.recent <==> key in s.recent && (drops ==> s.now - s.recent[key].ts <= 60000))
            && (key in t.recent ==> t.recent[key] == s.recent[key])
  {
  }

  /** Some successful send of this operation was recorded less than a minute before `now`. */
  ghost predicate RecordedInWindow(s: State, key: CacheKey) {
    exists k :: 0 <= k < |s.calls| && s.calls[k].trade == Cached(key) && s.calls[k].phase.Sent?
                && s.now - s.calls[k].phase.at < 60000
  }

  /**
   * A call that gets the lock is answered from the cache exactly when the same operation was sent and
   * recorded less than a minute ago. That is by operation, not by position: a close that follows a
   * reopening inside the minute is answered with the signature of the earlier close, and sends nothing.
   */
  lemma CachedExactlyInsideTheWindow(now: int, es: seq<Event>, s: State, key: CacheKey)
    requires Reaches(Initial(now), es, s) && Refuses(s.active, key.key).None?
    ensures var phase := Start(s, Cached(key)).calls[|s.calls|].phase;
            if RecordedInWindow(s, key) then phase.FromCache? else phase.Sending?
  {
    RunKeepsInv(Initial(now), es, s);
    CacheKnowsTheWindow(s, key);
    hide Inv, RecordedInWindow, Purged;
  }

  lemma CacheKnowsTheWindow(s: State, key: CacheKey)
    requires CacheRemembers(s) && CacheIsTrue(s.recent, s.calls)
    ensures Lookup(s.recent, key, s.now).Some? <==> RecordedInWindow(s, key)
  {
    if key in s.recent {
      var k :| SentBy(s.calls, k, key, s.recent[key]);
    }
  }

  /**
   * A key is freed exactly when the call that holds it ends; in particular a refused call, or one
   * answered from the cache, frees nobody's key.
   */
  lemma OnlyItsHolderFreesAKey(now: int, es: seq<Event>, s: State, e: Event, key: LockKey)
    requires Reaches(Initial(now), es, s) && CanHappen(s, e) && key in s.active
    ensures key !in Next(s, e).active <==> (e.Succeed? || e.Fail?) && InFlight(s.calls, e.k, key)
    ensures e.Begin? && Refuses(s.active, e.trade.Lock()).Some? ==> Next(s, e).recent == s.recent
  {
    RunKeepsInv(Initial(now), es, s);
    hide Purged, Lookup;
  }
}
