/**
 * The circuit breaker of the Pyth price service (src/client/flash-client.ts): after three consecutive
 * failures calls stop reaching the oracle until a cooldown, counted from the start of the failed call,
 * has passed; cooldowns grow from 30 to 60 to 120 seconds. Calls may overlap: each reads the breaker when
 * it starts and updates it when its fetch ends.
 */
module PriceBreaker {

  const CB_THRESHOLD := 3
  const CB_COOLDOWN_MS := 30000
  const CB_MAX_COOLDOWN_MS := 120000

  function Pow2(n: nat): nat { if n == 0 then 1 else 2 * Pow2(n - 1) }

  function Least(x: nat, y: nat): nat { if x <= y then x else y }

  /** Cooldown after the n-th consecutive failure. */
  function Cooldown(n: nat): nat
    requires n >= CB_THRESHOLD
  {
    Least(CB_COOLDOWN_MS * Least(Pow2(n - CB_THRESHOLD), 4), CB_MAX_COOLDOWN_MS)
  }

  datatype Breaker = Breaker(failures: nat, openUntil: int)

  const CLOSED := Breaker(0, 0)

  /** Does a call that starts now, and finds something missing in the price cache, reach the oracle? */
  predicate Fetches(b: Breaker, now: int, needsFetch: bool) { needsFetch && now >= b.openUntil }

  /** The breaker after a fetch begun at `start` has ended. */
  function Record(b: Breaker, start: int, succeeded: bool): Breaker {
    if succeeded then CLOSED
    else
      var failures := b.failures + 1;
      Breaker(failures, if failures >= CB_THRESHOLD then start + Cooldown(failures) else b.openUntil)
  }

  class PythPriceService {
    var consecutiveFailures: nat
    var circuitOpenUntil: int

    function View(): Breaker
      reads this
    {
      Breaker(consecutiveFailures, circuitOpenUntil)
    }

    constructor ()
      ensures View() == CLOSED
    {
      consecutiveFailures, circuitOpenUntil := 0, 0;
    }

    /** getPrices up to its await: answer from the cache, or fetch. */
    method BeginGetPrices(now: int, needsFetch: bool) returns (fetches: bool)
      ensures fetches <==> Fetches(View(), now, needsFetch)
    {
      if !needsFetch { return false; }
      if now < circuitOpenUntil { return false; }
      return true;
    }

    /** getPrices after its await; other calls may have come and gone since `start`. */
    method EndGetPrices(start: int, succeeded: bool)
      modifies this
      ensures View() == Record(old(View()), start, succeeded)
    {
      if succeeded {
        consecutiveFailures := 0;
        circuitOpenUntil := 0;
      } else {
        consecutiveFailures := consecutiveFailures + 1;
        if consecutiveFailures >= CB_THRESHOLD {
          var power := Power(consecutiveFailures - CB_THRESHOLD);
          circuitOpenUntil := start + Least(CB_COOLDOWN_MS * Least(power, 4), CB_MAX_COOLDOWN_MS);
        }
      }
    }

    /** 2 to the power n. */
    static method Power(n: nat) returns (p: nat)
      ensures p == Pow2(n)
    {
      p := 1;
      for i := 0 to n
        invariant p == Pow2(i)
      {
        p := 2 * p;
      }
    }
  }

  // ---- Runs of calls that may overlap ----

  /** A fetch; `seen` is how many fetches had ended when it began. */
  datatype Fetch = Fetch(start: int, seen: nat, done: bool)

  datatype Attempt = Attempt(start: int, succeeded: bool)

  /** ended lists the fetches in the order in which they ended. */
  datatype State = State(breaker: Breaker, fetches: seq<Fetch>, ended: seq<Attempt>)

  datatype Event = Call(now: int, needsFetch: bool) | End(k: nat, succeeded: bool)

  const START := State(CLOSED, [], [])

  predicate CanHappen(s: State, e: Event) {
    e.End? ==> e.k < |s.fetches| && !s.fetches[e.k].done
  }

  function Next(s: State, e: Event): State
    requires CanHappen(s, e)
  {
    match e
    case Call(now, needsFetch) =>
      if Fetches(s.breaker, now, needsFetch) then s.(fetches := s.fetches + [Fetch(now, |s.ended|, false)]) else s
    case End(k, succeeded) =>
      State(Record(s.breaker, s.fetches[k].start, succeeded), s.fetches[k := s.fetches[k].(done := true)],
            s.ended + [Attempt(s.fetches[k].start, succeeded)])
  }

  predicate Reaches(s: State, es: seq<Event>, t: State)
    decreases |es|
  {
    if es == [] then s == t else CanHappen(s, es[0]) && Reaches(Next(s, es[0]), es[1..], t)
  }

  /** How many attempts at the end of the list failed in a row. */
  function Streak(log: seq<Attempt>): nat {
    if log == [] || log[|log| - 1].succeeded then 0 else 1 + Streak(log[..|log| - 1])
  }

  lemma {:induction false} StreakAppend(log: seq<Attempt>, a: Attempt)
    ensures Streak(log + [a]) == if a.succeeded then 0 else Streak(log) + 1
  {
    assert (log + [a])[..|log|] == log;
  }

  /** The time before which no call may fetch, after the attempts in the log. */
  function OpenUntil(log: seq<Attempt>): int {
    if Streak(log) >= 3 then log[|log| - 1].start + Cooldown(Streak(log)) else 0
  }

  lemma OpenUntilAppend(log: seq<Attempt>, a: Attempt)
    ensures OpenUntil(log + [a]) ==
            if a.succeeded || Streak(log) + 1 < 3 then 0 else a.start + Cooldown(Streak(log) + 1)
  {
    StreakAppend(log, a);
    hide Streak, Cooldown;
  }

  /** The breaker remembers exactly the streak, and every fetch began no earlier than it was allowed to. */
  predicate Inv(s: State) {
    && s.breaker == Breaker(Streak(s.ended), OpenUntil(s.ended))
    && forall k :: 0 <= k < |s.fetches| ==>
         s.fetches[k].seen <= |s.ended| && s.fetches[k].start >= OpenUntil(s.ended[..s.fetches[k].seen])
  }

  lemma EventKeepsInv(s: State, e: Event)
    requires Inv(s) && CanHappen(s, e)
    ensures Inv(Next(s, e))
  {
    var t := Next(s, e);
    if e.End? {
      var a := Attempt(s.fetches[e.k].start, e.succeeded);
      StreakAppend(s.ended, a);
      OpenUntilAppend(s.ended, a);
      hide Streak, OpenUntil, Cooldown;
      forall k | 0 <= k < |t.fetches| ensures t.fetches[k].start >= OpenUntil(t.ended[..t.fetches[k].seen]) {
        assert t.ended[..t.fetches[k].seen] == s.ended[..s.fetches[k].seen];
      }
    } else {
      hide Streak, OpenUntil, Cooldown;
      assert s.ended[..|s.ended|] == s.ended;
    }
  }

  lemma {:induction false} RunKeepsInv(s: State, es: seq<Event>, t: State)
    requires Inv(s) && Reaches(s, es, t)
    ensures Inv(t)
    decreases |es|
  {
    hide Inv, Next, CanHappen;
    if es != [] {
      EventKeepsInv(s, es[0]);
      RunKeepsInv(Next(s, es[0]), es[1..], t);
    }
  }

  // ---- What holds however calls overlap ----

  /**
   * The count is the length of the current streak of failures, in the order they ended, and the circuit
   * is open until the last of them started plus the cooldown of that length.
   */
  lemma BreakerRemembers(es: seq<Event>, s: State)
    requires Reaches(START, es, s)
    ensures s.breaker == Breaker(Streak(s.ended), OpenUntil(s.ended))
  {
    RunKeepsInv(START, es, s);
  }

  /** A fetch that begins after a streak of three or more waits out the cooldown of its last failure. */
  lemma NoFetchWhileOpen(es: seq<Event>, s: State, k: nat)
    requires Reaches(START, es, s) && k < |s.fetches|
    ensures var f := s.fetches[k];
            f.seen <= |s.ended| &&
            var before := s.ended[..f.seen];
            Streak(before) >= 3 ==>
              before != [] && f.start >= before[|before| - 1].start + Cooldown(Streak(before))
  {
    RunKeepsInv(START, es, s);
  }

  /**
   * When a call reaches the oracle: something is missing in the cache and, if the last three or more attempts
   * failed, 30, 60 or 120 seconds have passed since the last of them began. So calls do reach it again.
   */
  lemma FetchesExactly(es: seq<Event>, s: State, now: int, needsFetch: bool)
    requires Reaches(START, es, s)
    ensures Next(s, Call(now, needsFetch)).fetches != s.fetches <==>
              && needsFetch
              && var n := Streak(s.ended);
                 if n < 3 then now >= 0
                 else s.ended != []
                      && now >= s.ended[|s.ended| - 1].start +
                                if n == 3 then 30000 else if n == 4 then 60000 else 120000
  {
    RunKeepsInv(START, es, s);
    if Streak(s.ended) >= 3 { CooldownsAre(Streak(s.ended)); }
    hide Cooldown;
    assert |s.fetches + [Fetch(now, |s.ended|, false)]| > |s.fetches|;
  }

  /** What an earlier success leaves behind is nothing: only the attempts that ended after it count. */
  lemma SuccessForgets(es: seq<Event>, s: State, i: nat)
    requires Reaches(START, es, s) && i < |s.ended| && s.ended[i].succeeded
    ensures s.breaker == Breaker(Streak(s.ended[i + 1..]), OpenUntil(s.ended[i + 1..]))
  {
    RunKeepsInv(START, es, s);
    StreakForgets(s.ended, i);
    hide Streak, Cooldown;
  }

  lemma {:induction false} StreakForgets(log: seq<Attempt>, i: nat)
    requires i < |log| && log[i].succeeded
    ensures Streak(log) == Streak(log[i + 1..]) <= |log| - i - 1
    decreases |log|
  {
    var n := |log| - 1;
    if i < n && !log[n].succeeded {
      StreakForgets(log[..n], i);
      assert log[i + 1..][..n - i - 1] == log[..n][i + 1..];
    }
  }

  // ---- Back-off ----

  /** Least time from the third failure of a streak to the n-th. */
  function Delay(n: nat): nat
    requires n >= 3
  {
    if n == 3 then 0 else if n == 4 then 30000 else 90000 + 120000 * (n - 5)
  }

  lemma {:induction false} DelayGrows(n: nat)
    requires n >= 3
    ensures Delay(n + 1) == Delay(n) + Cooldown(n)
  {
    CooldownsAre(n);
    hide Cooldown;
  }

  lemma PowAtLeastFour(n: nat)
    requires n >= 2
    ensures Pow2(n) >= 4
  {
    if n == 2 { assert Pow2(2) == 2 * Pow2(1) == 2 * (2 * Pow2(0)); } else { PowAtLeastFour(n - 1); }
  }

  /** Attempt i, if it is a failure after three or more, starts at least the cooldown after the one before. */
  predicate SpacedAt(log: seq<Attempt>, i: nat)
    requires i < |log|
  {
    Streak(log[..i]) >= 3 && !log[i].succeeded ==> log[i].start >= OpenUntil(log[..i])
  }

  predicate Spaced(log: seq<Attempt>) { forall i :: 0 <= i < |log| ==> SpacedAt(log, i) }

  /** Attempts first .. first + n - 1 all failed, and the one before them, if any, succeeded. */
  predicate StreakAt(log: seq<Attempt>, first: nat, n: nat) {
    && first + n <= |log| && (forall k :: first <= k < first + n ==> !log[k].succeeded)
    && (first == 0 || log[first - 1].succeeded)
  }

  lemma {:induction false} StreakLength(log: seq<Attempt>, first: nat, n: nat)
    requires StreakAt(log, first, n)
    ensures Streak(log[..first + n]) == n
    decreases n
  {
    if n > 0 {
      StreakLength(log, first, n - 1);
      assert log[..first + n][..first + n - 1] == log[..first + n - 1];
    }
  }

  lemma {:induction false} SpacedStreakBacksOff(log: seq<Attempt>, first: nat, n: nat)
    requires n >= 3 && Spaced(log) && StreakAt(log, first, n)
    ensures log[first + n - 1].start >= log[first + 2].start + Delay(n)
    decreases n
  {
    if n > 3 {
      SpacedStreakBacksOff(log, first, n - 1);
      StreakLength(log, first, n - 1);
      DelayGrows(n - 1);
      assert SpacedAt(log, first + n - 1);
      assert log[..first + n - 1][first + n - 2] == log[first + n - 2];
      hide Delay, Cooldown, Streak;
    }
  }

  /** A fetch ends in failure that began earlier than the circuit, by now open, would let a call begin. */
  predicate StaleFailure(s: State, e: Event)
    requires CanHappen(s, e)
  {
    e.End? && !e.succeeded && s.breaker.failures >= 3 && s.fetches[e.k].start < s.breaker.openUntil
  }

  predicate NeverStale(s: State, es: seq<Event>)
    decreases |es|
  {
    es == [] || (CanHappen(s, es[0]) && !StaleFailure(s, es[0]) && NeverStale(Next(s, es[0]), es[1..]))
  }

  lemma SpacedAppend(log: seq<Attempt>, a: Attempt)
    ensures Spaced(log + [a]) <==> Spaced(log) && SpacedAt(log + [a], |log|)
  {
    var after := log + [a];
    forall i | 0 <= i < |log| ensures SpacedAt(after, i) <==> SpacedAt(log, i) {
      assert after[..i] == log[..i] && after[i] == log[i];
      hide Streak, OpenUntil;
    }
    hide SpacedAt;
    if Spaced(after) {
      forall i | 0 <= i < |log| ensures SpacedAt(log, i) { assert SpacedAt(after, i); }
    }
  }

  lemma EventSpacing(s: State, e: Event)
    requires Inv(s) && CanHappen(s, e)
    ensures Spaced(Next(s, e).ended) <==> Spaced(s.ended) && !StaleFailure(s, e)
  {
    if e.End? {
      var a := Attempt(s.fetches[e.k].start, e.succeeded);
      SpacedAppend(s.ended, a);
      assert (s.ended + [a])[..|s.ended|] == s.ended;
    }
    hide Spaced, Streak, OpenUntil;
  }

  /** From a spaced log on, the log stays spaced exactly in the runs without a stale failure. */
  lemma {:induction false} SpacingOfRun(s: State, es: seq<Event>, t: State)
    requires Inv(s) && Reaches(s, es, t)
    ensures Spaced(t.ended) <==> Spaced(s.ended) && NeverStale(s, es)
    decreases |es|
  {
    hide Inv, Next, CanHappen, Spaced, StaleFailure;
    if es != [] {
      EventKeepsInv(s, es[0]);
      EventSpacing(s, es[0]);
      SpacingOfRun(Next(s, es[0]), es[1..], t);
    }
  }

  /** The failures of a streak are spaced in just the runs without a stale failure. */
  lemma SpacedExactlyWhenNeverStale(es: seq<Event>, s: State)
    requires Reaches(START, es, s)
    ensures Spaced(s.ended) <==> NeverStale(START, es)
  {
    SpacingOfRun(START, es, s);
  }

  /** In such runs the n-th failed attempt of a streak starts that late after the third. */
  lemma BackOffBound(es: seq<Event>, s: State, first: nat, n: nat)
    requires Reaches(START, es, s) && NeverStale(START, es)
    requires n >= 3 && StreakAt(s.ended, first, n)
    ensures s.ended[first + n - 1].start >= s.ended[first + 2].start + Delay(n)
  {
    SpacedExactlyWhenNeverStale(es, s);
    SpacedStreakBacksOff(s.ended, first, n);
  }

  // ---- Calls that do not crowd ----

  function InFlight(fs: seq<Fetch>): nat {
    if fs == [] then 0 else InFlight(fs[..|fs| - 1]) + if fs[|fs| - 1].done then 0 else 1
  }

  lemma InFlightAppend(fs: seq<Fetch>, f: Fetch)
    ensures InFlight(fs + [f]) == InFlight(fs) + if f.done then 0 else 1
  {
    assert (fs + [f])[..|fs|] == fs;
  }

  lemma {:induction false} InFlightEnds(fs: seq<Fetch>, k: nat)
    requires k < |fs| && !fs[k].done
    ensures InFlight(fs[k := fs[k].(done := true)]) == InFlight(fs) - 1
    decreases |fs|
  {
    var n := |fs| - 1;
    var after := fs[k := fs[k].(done := true)];
    if k == n {
      assert after[..n] == fs[..n];
    } else {
      InFlightEnds(fs[..n], k);
      assert after[..n] == fs[..n][k := fs[k].(done := true)];
    }
  }

  lemma {:induction false} NoneInFlight(fs: seq<Fetch>)
    ensures InFlight(fs) == 0 <==> forall k :: 0 <= k < |fs| ==> fs[k].done
  {
    if fs != [] {
      var n := |fs| - 1;
      NoneInFlight(fs[..n]);
      assert forall k :: 0 <= k < n ==> fs[..n][k] == fs[k];
    }
  }

  /** If nothing but i and j is in flight, two fetches are. */
  lemma JustTwoInFlight(fs: seq<Fetch>, i: nat, j: nat)
    requires i < j < |fs| && !fs[i].done && !fs[j].done
    requires forall k :: 0 <= k < |fs| && k != i && k != j ==> fs[k].done
    ensures InFlight(fs) == 2
  {
    var gs := fs[i := fs[i].(done := true)];
    InFlightEnds(fs, i);
    InFlightEnds(gs, j);
    NoneInFlight(gs[j := gs[j].(done := true)]);
  }

  /**
   * What a caller can check before it calls: the call would fetch beside others, and if all of them and it
   * failed, the circuit would open while one of them is still under way.
   */
  predicate Crowds(s: State, e: Event) {
    && e.Call? && Fetches(s.breaker, e.now, e.needsFetch)
    && InFlight(s.fetches) > 0 && s.breaker.failures + InFlight(s.fetches) >= 3
  }

  predicate NeverCrowds(s: State, es: seq<Event>)
    decreases |es|
  {
    es == [] || (CanHappen(s, es[0]) && !Crowds(s, es[0]) && NeverCrowds(Next(s, es[0]), es[1..]))
  }

  /** Too few fetches to open the circuit beside another one, or a single one that the circuit let begin. */
  predicate Roomy(s: State) {
    || s.breaker.failures + InFlight(s.fetches) <= 3
    || (InFlight(s.fetches) <= 1
        && forall k :: 0 <= k < |s.fetches| && !s.fetches[k].done ==> s.fetches[k].start >= s.breaker.openUntil)
  }

  lemma CallKeepsRoom(s: State, e: Event)
    requires Roomy(s) && e.Call? && !Crowds(s, e)
    ensures Roomy(Next(s, e))
  {
    if Fetches(s.breaker, e.now, e.needsFetch) {
      InFlightAppend(s.fetches, Fetch(e.now, |s.ended|, false));
      NoneInFlight(s.fetches);
      hide InFlight;
    }
  }

  lemma EndKeepsRoom(s: State, e: Event)
    requires Roomy(s) && CanHappen(s, e) && e.End?
    ensures Roomy(Next(s, e)) && !StaleFailure(s, e)
  {
    InFlightEnds(s.fetches, e.k);
    NoneInFlight(s.fetches);
    NoneInFlight(Next(s, e).fetches);
    hide InFlight, Cooldown;
  }

  /** Calls that do not crowd never end in a stale failure, whatever the fetches answer and in whatever order. */
  lemma {:induction false} RoomyRunsAreNeverStale(s: State, es: seq<Event>)
    requires Roomy(s) && NeverCrowds(s, es)
    ensures NeverStale(s, es)
    decreases |es|
  {
    hide Roomy, Crowds, StaleFailure, Next;
    if es != [] {
      if es[0].Call? {
        CallKeepsRoom(s, es[0]);
        assert !StaleFailure(s, es[0]) by { CallsAreNotStale(s, es[0]); }
      } else {
        EndKeepsRoom(s, es[0]);
      }
      RoomyRunsAreNeverStale(Next(s, es[0]), es[1..]);
    }
  }

  lemma CallsAreNotStale(s: State, e: Event)
    requires e.Call?
    ensures !StaleFailure(s, e)
  {
  }

  lemma {:induction false} RunKeepsRoom(s: State, es: seq<Event>, t: State)
    requires Roomy(s) && NeverCrowds(s, es) && Reaches(s, es, t)
    ensures Roomy(t)
    decreases |es|
  {
    hide Roomy, Crowds, Next;
    if es != [] {
      if es[0].Call? { CallKeepsRoom(s, es[0]); } else { EndKeepsRoom(s, es[0]); }
      RunKeepsRoom(Next(s, es[0]), es[1..], t);
    }
  }

  /** In runs whose calls do not crowd, the failures of every streak are spaced by their cooldowns. */
  lemma UncrowdedRunsAreSpaced(es: seq<Event>, s: State)
    requires Reaches(START, es, s) && NeverCrowds(START, es)
    ensures Spaced(s.ended)
  {
    RoomyRunsAreNeverStale(START, es);
    SpacedExactlyWhenNeverStale(es, s);
  }

  /** So there the n-th failed attempt of a streak starts that late after the third. */
  lemma UncrowdedCallsBackOff(es: seq<Event>, s: State, first: nat, n: nat)
    requires Reaches(START, es, s) && NeverCrowds(START, es)
    requires n >= 3 && StreakAt(s.ended, first, n)
    ensures s.ended[first + n - 1].start >= s.ended[first + 2].start + Delay(n)
  {
    UncrowdedRunsAreSpaced(es, s);
    SpacedStreakBacksOff(s.ended, first, n);
  }

  // ---- What a crowding call can lead to ----

  predicate OnlyEnds(es: seq<Event>) { forall i :: 0 <= i < |es| ==> es[i].End? }

  lemma {:induction false} EndsNeverCrowd(s: State, es: seq<Event>, t: State)
    requires OnlyEnds(es) && Reaches(s, es, t)
    ensures NeverCrowds(s, es)
    decreases |es|
  {
    hide Next;
    if es != [] { EndsNeverCrowd(Next(s, es[0]), es[1..], t); }
  }

  lemma {:induction false} ReachesOn(s: State, es: seq<Event>, t: State, e: Event)
    requires Reaches(s, es, t) && CanHappen(t, e)
    ensures Reaches(s, es + [e], Next(t, e))
    decreases |es|
  {
    hide Next;
    if es == [] {
      assert ([] + [e])[1..] == [];
    } else {
      assert (es + [e])[1..] == es[1..] + [e];
      ReachesOn(Next(s, es[0]), es[1..], t, e);
    }
  }

  /** t is s after all fetches in flight but i and j have failed. */
  predicate AllButTwoFailed(s: State, t: State, i: nat, j: nat)
    requires i < j < |s.fetches|
  {
    && |t.fetches| == |s.fetches| && t.fetches[i] == s.fetches[i] && t.fetches[j] == s.fetches[j]
    && t.breaker.failures + 2 == s.breaker.failures + InFlight(s.fetches)
  }

  lemma {:induction false} FailAllButTwo(s: State, i: nat, j: nat) returns (es: seq<Event>, t: State)
    requires i < j < |s.fetches| && !s.fetches[i].done && !s.fetches[j].done
    ensures OnlyEnds(es) && Reaches(s, es, t) && AllButTwoFailed(s, t, i, j)
    decreases InFlight(s.fetches)
  {
    if k :| 0 <= k < |s.fetches| && k != i && k != j && !s.fetches[k].done {
      var e := End(k, false);
      InFlightEnds(s.fetches, k);
      var rest;
      rest, t := FailAllButTwo(Next(s, e), i, j);
      es := [e] + rest;
      assert es[1..] == rest;
      hide InFlight;
    } else {
      JustTwoInFlight(s.fetches, i, j);
      es, t := [], s;
    }
  }

  /** After a crowding call an earlier fetch is still in flight beside the new one, and enough others are too. */
  lemma CrowdedStart(s: State, e: Event) returns (i: nat)
    requires Crowds(s, e)
    ensures var n, t := |s.fetches|, Next(s, e);
            && i < n && |t.fetches| == n + 1 && t.fetches[i] == s.fetches[i] && t.fetches[n].start == e.now
            && !t.fetches[i].done && !t.fetches[n].done
            && t.breaker.failures + InFlight(t.fetches) >= 4
  {
    var n := |s.fetches|;
    NoneInFlight(s.fetches);
    InFlightAppend(s.fetches, Fetch(e.now, |s.ended|, false));
    i :| 0 <= i < n && !s.fetches[i].done;
    hide InFlight;
  }

  /** Two failures, of fetch j and then of a fetch i that began no later, the second of them too soon. */
  lemma LastTwoFail(s: State, i: nat, j: nat) returns (t: State)
    requires Inv(s) && i < j < |s.fetches| && !s.fetches[i].done && !s.fetches[j].done
    requires s.breaker.failures + 1 >= 3 && s.fetches[i].start <= s.fetches[j].start
    ensures CanHappen(s, End(j, false)) && CanHappen(Next(s, End(j, false)), End(i, false))
    ensures t == Next(Next(s, End(j, false)), End(i, false)) && !Spaced(t.ended)
  {
    var u := Next(s, End(j, false));
    EventKeepsInv(s, End(j, false));
    CooldownsGrow(u.breaker.failures, u.breaker.failures);
    hide Inv, Cooldown, Spaced;
    assert StaleFailure(u, End(i, false));
    EventSpacing(u, End(i, false));
    t := Next(u, End(i, false));
  }

  /** The others fail, then the call that crowded, and then the fetch left over fails too soon. */
  lemma CrowdingEndsBadly(s: State, e: Event) returns (es: seq<Event>, t: State)
    requires Inv(s) && Crowds(s, e)
    requires forall k :: 0 <= k < |s.fetches| && !s.fetches[k].done ==> s.fetches[k].start <= e.now
    ensures OnlyEnds(es) && Reaches(Next(s, e), es, t) && !Spaced(t.ended)
  {
    var n, s1 := |s.fetches|, Next(s, e);
    var i := CrowdedStart(s, e);
    EventKeepsInv(s, e);
    hide Next, Inv, InFlight, Crowds, Spaced;
    var first, t1 := FailAllButTwo(s1, i, n);
    RunKeepsInv(s1, first, t1);
    t := LastTwoFail(t1, i, n);
    ReachesOn(s1, first, t1, End(n, false));
    ReachesOn(s1, first + [End(n, false)], Next(t1, End(n, false)), End(i, false));
    es := first + [End(n, false)] + [End(i, false)];
  }

  /**
   * Exactly which calls keep the promise, told before the call: after a run whose calls did not crowd, a
   * call made no earlier than the fetches in flight leaves every streak spaced, however all of them end and
   * in whatever order, if and only if it does not crowd either.
   */
  lemma SpacedExactlyWithoutCrowding(es: seq<Event>, s: State, e: Event)
    requires Reaches(START, es, s) && NeverCrowds(START, es) && e.Call?
    requires forall k :: 0 <= k < |s.fetches| && !s.fetches[k].done ==> s.fetches[k].start <= e.now
    ensures (forall more, t :: OnlyEnds(more) && Reaches(Next(s, e), more, t) ==> Spaced(t.ended)) <==> !Crowds(s, e)
  {
    RunKeepsInv(START, es, s);
    RunKeepsRoom(START, es, s);
    UncrowdedRunsAreSpaced(es, s);
    EventKeepsInv(s, e);
    EventSpacing(s, e);
    CallsAreNotStale(s, e);
    if Crowds(s, e) {
      var more, t := CrowdingEndsBadly(s, e);
    } else {
      CallKeepsRoom(s, e);
      hide Inv, Roomy, Crowds, Next, Spaced;
      forall more, t | OnlyEnds(more) && Reaches(Next(s, e), more, t) ensures Spaced(t.ended) {
        EndsNeverCrowd(Next(s, e), more, t);
        RoomyRunsAreNeverStale(Next(s, e), more);
        SpacingOfRun(Next(s, e), more, t);
      }
    }
  }

  // ---- Calls made one after the other ----

  /** No call starts while a fetch is in flight. */
  predicate OneAtATime(s: State, es: seq<Event>)
    decreases |es|
  {
    es == [] ||
    (CanHappen(s, es[0]) && (es[0].Call? ==> InFlight(s.fetches) == 0) && OneAtATime(Next(s, es[0]), es[1..]))
  }

  lemma {:induction false} OneAtATimeNeverCrowds(s: State, es: seq<Event>)
    requires OneAtATime(s, es)
    ensures NeverCrowds(s, es)
    decreases |es|
  {
    hide Next, InFlight;
    if es != [] { OneAtATimeNeverCrowds(Next(s, es[0]), es[1..]); }
  }

  lemma SequentialCallsBackOff(es: seq<Event>, s: State, first: nat, n: nat)
    requires Reaches(START, es, s) && OneAtATime(START, es)
    requires n >= 3 && StreakAt(s.ended, first, n)
    ensures s.ended[first + n - 1].start >= s.ended[first + 2].start + Delay(n)
  {
    OneAtATimeNeverCrowds(START, es);
    UncrowdedCallsBackOff(es, s, first, n);
  }

  /** n calls at once, all in flight. */
  lemma {:induction false} Burst(n: nat) returns (es: seq<Event>, s: State)
    ensures Reaches(START, es, s) && s.breaker == CLOSED && s.ended == [] && |s.fetches| == n
    ensures forall k :: 0 <= k < n ==> s.fetches[k] == Fetch(1, 0, false)
  {
    if n == 0 {
      es, s := [], START;
    } else {
      var before, t := Burst(n - 1);
      ReachesOn(START, before, t, Call(1, true));
      es, s := before + [Call(1, true)], Next(t, Call(1, true));
    }
  }

  /** The first m of them have failed, in order. */
  lemma {:induction false} BurstFails(n: nat, m: nat) returns (es: seq<Event>, s: State)
    requires m <= n
    ensures Reaches(START, es, s) && |s.fetches| == n && |s.ended| == m
    ensures forall k :: 0 <= k < m ==> s.ended[k] == Attempt(1, false)
    ensures forall k :: m <= k < n ==> s.fetches[k] == Fetch(1, 0, false)
    decreases m
  {
    if m == 0 {
      es, s := Burst(n);
    } else {
      var before, t := BurstFails(n, m - 1);
      ReachesOn(START, before, t, End(m - 1, false));
      es, s := before + [End(m - 1, false)], Next(t, End(m - 1, false));
      hide Cooldown;
    }
  }

  /** For every n from 4 on, n calls at once that all fail break the bound: the n-th is as early as the third. */
  lemma OverlapBreaksTheBound(n: nat)
    requires n > 3
    ensures exists es, s :: Reaches(START, es, s) && StreakAt(s.ended, 0, n)
                            && s.ended[n - 1].start < s.ended[2].start + Delay(n)
  {
    var es, s := BurstFails(n, n);
    assert StreakAt(s.ended, 0, n);
    assert s.ended[n - 1].start < s.ended[2].start + Delay(n);
  }

  /** 30 seconds after the third failure, 60 after the fourth, and 120 after each later one. */
  lemma CooldownsAre(n: nat)
    requires n >= 3
    ensures Cooldown(n) == if n == 3 then 30000 else if n == 4 then 60000 else 120000
  {
    if n == 3 {
      assert Pow2(0) == 1;
    } else if n == 4 {
      assert Pow2(1) == 2 * Pow2(0);
    } else {
      PowAtLeastFour(n - 3);
    }
  }

  /** Cooldowns never shrink along a streak and stay within 30 to 120 seconds. */
  lemma CooldownsGrow(m: nat, n: nat)
    requires 3 <= m <= n
    ensures 30000 <= Cooldown(m) <= Cooldown(n) <= 120000
    decreases n - m
  {
    PowGrows(m - 3, n - 3);
  }

  lemma PowGrows(m: nat, n: nat)
    requires m <= n
    ensures 1 <= Pow2(m) <= Pow2(n)
  {
    if m < n { PowGrows(m, n - 1); } else if n > 0 { PowGrows(m - 1, n - 1); }
  }
}
