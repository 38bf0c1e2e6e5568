/**
 * What the sweep of the interleaved client does: every position it finds hit it also closes, whatever
 * moves meanwhile; and while prices and marks stand still, exactly the unhit positions are left.
 */
module InterleavedSweeps {
  import opened Wrappers
  import opened Ledger
  import opened Invariant
  import Runs
  import Sweeps
  import opened Interleaved
  import opened InterleavedQuotes
  import L = TradeLock

  // ---- Nothing hit is passed over ----

  /** Sweep k is closing the position with this name. */
  predicate Closing(c: Client, k: nat, m: Market, s: Side)
    requires k < |c.pcs|
  {
    match c.pcs[k]
    case ClosePending(n, t, r, resume) => n == m && t == s && r == CLOSE_ALL
    case CloseQuoted(n, t, r, _, resume) => n == m && t == s && r == CLOSE_ALL
    case _ => false
  }

  /** Since the log had n entries, caller k has logged a full close of the position with this name. */
  predicate ClosedSince(c: Client, n: nat, k: nat, m: Market, s: Side) {
    exists e :: n <= e < |c.log| && c.log[e].owner == Some(k) && c.log[e].call.op == Close(m, s, CLOSE_ALL)
  }

  lemma HitIsTakenUp(c: Client, k: nat, env: Feed, m: Market, s: Side)
    requires CanHappen(c, Resume(k, env)) && Looks(c, k, m, s)
    ensures var d := Next(c, Resume(k, env)); |d.pcs| == |c.pcs| && d.log == c.log && Closing(d, k, m, s)
  {
    hide Runs.Hit;
  }

  lemma CloseFirstGoesOn(c: Client, k: nat, env: Feed)
    requires k < |c.pcs| && c.pcs[k].ClosePending? && forall o :: o in c.objs ==> o.position.size > 0.0
    ensures var pc := c.pcs[k];
            var d := CloseFirst(c, k, pc, env);
            && |d.pcs| == |c.pcs|
            && ((d.log == c.log && d.pcs[k].CloseQuoted?
                 && d.pcs[k].m == pc.m && d.pcs[k].s == pc.s && d.pcs[k].r == pc.r)
                || exists feed :: d.log == c.log + [Entry(Some(k), Runs.Call(Close(pc.m, pc.s, pc.r), feed))])
  {
    hide Figures, AmountTooBig, Find;
    var pc, feed := c.pcs[k], env.(prices := c.prices);
    var d := CloseFirst(c, k, pc, env);
    assert d.log == c.log || d.log == c.log + [Entry(Some(k), Runs.Call(Close(pc.m, pc.s, pc.r), feed))];
  }

  lemma CloseSecondLogs(c: Client, k: nat, env: Feed)
    requires k < |c.pcs| && c.pcs[k].CloseQuoted?
    ensures var pc := c.pcs[k];
            exists feed ::
              CloseSecond(c, k, pc, env).log == c.log + [Entry(Some(k), Runs.Call(Close(pc.m, pc.s, pc.r), feed))]
  {
    hide FeeUsd, Reduced, Trim, FindRef, FloorZero;
    var pc := c.pcs[k];
    var feed := QuotedFeed(pc.m, pc.quote.price, env);
    assert CloseSecond(c, k, pc, env).log == c.log + [Entry(Some(k), Runs.Call(Close(pc.m, pc.s, pc.r), feed))];
  }

  lemma ClosingGoesOn(c: Client, k: nat, env: Feed, m: Market, s: Side)
    requires CanHappen(c, Resume(k, env)) && Closing(c, k, m, s)
    ensures var d := Next(c, Resume(k, env));
            |d.pcs| == |c.pcs| && ((d.log == c.log && Closing(d, k, m, s)) || ClosedSince(d, |c.log|, k, m, s))
  {
    ResumeTakesATurn(c, k, env);
    hide CloseFirst, CloseSecond, OpenFirst, OpenSecond, CollateralBlock, SweepBlock, Turns;
    var d := Next(c, Resume(k, env));
    if c.pcs[k].ClosePending? { CloseFirstGoesOn(c, k, env); } else { CloseSecondLogs(c, k, env); }
    if d.log != c.log {
      var feed :| d.log == c.log + [Entry(Some(k), Runs.Call(Close(m, s, CLOSE_ALL), feed))];
      assert d.log[|c.log|].owner == Some(k) && d.log[|c.log|].call.op == Close(m, s, CLOSE_ALL);
    }
  }

  lemma OneMoreIsPrefix(before: seq<Entry>, after: seq<Entry>)
    requires after == before || (|after| == |before| + 1 && after[..|before|] == before)
    ensures before <= after
  {
  }

  lemma LogOnlyGrows(c: Client, e: Event)
    requires DataInv(c) && CanHappen(c, e)
    ensures c.log <= Next(c, e).log
  {
    var d := Next(c, e);
    if e.Resume? {
      ResumedRuns(c, e.k, e.env);
      ResumeQuotes(c, e.k, e.env);
      hide Next, CanHappen, DataInv, TableOf, OwnStep, OwnEntry;
      OwnFrame(c, d, e.k, TableOf(c, e.k));
      OneMoreIsPrefix(c.log, d.log);
    } else {
      assert |c.pcs| == |c.bodies|;
      hide DataInv;
      OthersTouchNothing(c, e);
      hide Next, CanHappen;
      OneMoreIsPrefix(c.log, d.log);
    }
  }

  lemma ClosedStays(c: Client, d: Client, n: nat, k: nat, m: Market, s: Side)
    requires ClosedSince(c, n, k, m, s) && c.log <= d.log
    ensures ClosedSince(d, n, k, m, s)
  {
    var e :| n <= e < |c.log| && c.log[e].owner == Some(k) && c.log[e].call.op == Close(m, s, CLOSE_ALL);
    assert d.log[e] == c.log[e];
  }

  /** Caller k is in the middle of a body. */
  predicate Busy(c: Client, k: nat) {
    k < |c.pcs| && k < |c.lock.callers| && c.lock.callers[k] != L.Waiting
  }

  lemma ClosingStep(c: Client, e: Event, n: nat, k: nat, m: Market, s: Side)
    requires DataInv(c) && CanHappen(c, e) && Busy(c, k) && n <= |c.log|
    requires Closing(c, k, m, s) || ClosedSince(c, n, k, m, s)
    ensures var d := Next(c, e); Busy(d, k) && n <= |d.log| && (Closing(d, k, m, s) || ClosedSince(d, n, k, m, s))
  {
    LogOnlyGrows(c, e);
    var d := Next(c, e);
    if ClosedSince(c, n, k, m, s) { ClosedStays(c, d, n, k, m, s); }
    if e.Resume? && e.k == k {
      ResumeTakesATurn(c, k, e.env);
      if !ClosedSince(c, n, k, m, s) { ClosingGoesOn(c, k, e.env, m, s); }
      hide Next, CanHappen, DataInv, Closing, Turns;
      if ClosedSince(d, |c.log|, k, m, s) {
        var i :| |c.log| <= i < |d.log| && d.log[i].owner == Some(k) && d.log[i].call.op == Close(m, s, CLOSE_ALL);
        assert ClosedSince(d, n, k, m, s);
      }
    } else {
      OthersLeaveItsPc(c, e, k);
      hide Next, CanHappen, DataInv, ClosedSince;
    }
  }

  lemma {:induction false} ClosingRun(a: Account, c: Client, es: seq<Event>, d: Client, n: nat,
                                      k: nat, m: Market, s: Side)
    requires Inv(a) && FullInv(a, c) && Reaches(c, es, d) && Busy(c, k) && n <= |c.log|
    requires Closing(c, k, m, s) || ClosedSince(c, n, k, m, s)
    ensures Busy(d, k) && (Closing(d, k, m, s) || ClosedSince(d, n, k, m, s))
    decreases |es|
  {
    hide Inv, Next, CanHappen, DataInv, Closing, ClosedSince, Busy, FullInv;
    if es != [] {
      FullInvData(a, c);
      ClosingStep(c, es[0], n, k, m, s);
      EventKeepsInv(a, c, es[0]);
      ClosingRun(a, Next(c, es[0]), es[1..], d, n, k, m, s);
    }
  }

  lemma FullInvData(a: Account, c: Client)
    requires Inv(a) && FullInv(a, c)
    ensures DataInv(c) && L.Inv(c.lock)
  {
  }

  /**
   * A sweep that looks at a position and finds it hit goes on to close that position and no other: however
   * callers, prices and marks move, it leaves that turn only with a full close of it in the log.
   */
  lemma EveryHitIsClosed(initialBalance: real, es: seq<Event>, c: Client, k: nat, env: Feed, m: Market, s: Side,
                         more: seq<Event>, d: Client)
    requires initialBalance >= 0.0 && Reaches(Initial(initialBalance), es, c)
    requires CanHappen(c, Resume(k, env)) && Looks(c, k, m, s) && Reaches(Next(c, Resume(k, env)), more, d)
    ensures k < |d.pcs| && (Closing(d, k, m, s) || ClosedSince(d, |c.log|, k, m, s))
  {
    var a := Account(initialBalance, [], [], 0.0, 0.0);
    var n := Next(c, Resume(k, env));
    InitialInv(initialBalance);
    RunKeepsInv(a, Initial(initialBalance), es, c);
    EventKeepsInv(a, c, Resume(k, env));
    FullInvData(a, c);
    ResumedRuns(c, k, env);
    HitIsTakenUp(c, k, env, m, s);
    ResumeTakesATurn(c, k, env);
    hide Inv, Next, CanHappen, DataInv, Closing, ClosedSince, FullInv, Initial, Looks;
    ClosingRun(a, n, more, d, |c.log|, k, m, s);
  }

  // ---- While prices and marks stand still ----

  /** No price and no mark changes, and caller k does not let go of the lock. */
  predicate Still(es: seq<Event>, k: nat) {
    forall i :: 0 <= i < |es| ==> !es[i].MovePrices? && !es[i].Mark? && es[i] != Release(k)
  }

  lemma {:induction false} SurvivorsSplit(ps: seq<Position>, qs: seq<Position>, prices: Prices)
    ensures Sweeps.Survivors(ps + qs, prices) == Sweeps.Survivors(ps, prices) + Sweeps.Survivors(qs, prices)
    decreases |qs|
  {
    hide Runs.Hit;
    if qs == [] {
      assert ps + qs == ps;
    } else {
      var n := |qs| - 1;
      assert (ps + qs)[..|ps| + n] == ps + qs[..n];
      SurvivorsSplit(ps, qs[..n], prices);
    }
  }

  /** One position further from the end. */
  lemma SurvivorsBefore(ps: seq<Position>, i: nat, prices: Prices)
    requires i < |ps|
    ensures Sweeps.Survivors(ps[i..], prices)
         == (if Runs.Hit(ps[i], prices) then [] else [ps[i]]) + Sweeps.Survivors(ps[i + 1..], prices)
  {
    assert ps[i..] == [ps[i]] + ps[i + 1..];
    SurvivorsSplit([ps[i]], ps[i + 1..], prices);
    hide Runs.Hit;
    assert [ps[i]][..0] == [] && Sweeps.Survivors([], prices) == [];
  }

  /** The first i positions as they were, and of the others those that are not hit. */
  function Swept(ps: seq<Position>, i: nat, prices: Prices): seq<Position>
    requires i <= |ps|
  {
    ps[..i] + Sweeps.Survivors(ps[i..], prices)
  }

  /** How far sweep k has come over the positions ps it started with. */
  predicate Left(c: Client, k: nat, ps: seq<Position>, prices: Prices)
    requires k < |c.pcs|
  {
    && c.prices == prices
    && match c.pcs[k]
       case SweepAt(i) => i <= |ps| && Values(c.objs) == Swept(ps, i, prices)
       case ClosePending(m, s, r, resume) =>
         && r == CLOSE_ALL && resume.Some? && resume.value < |ps| && Runs.Hit(ps[resume.value], prices)
         && ps[resume.value].Names(m, s) && Values(c.objs) == Swept(ps, resume.value + 1, prices)
       case CloseQuoted(m, s, r, q, resume) =>
         && r == CLOSE_ALL && resume.Some? && resume.value < |ps| && Runs.Hit(ps[resume.value], prices)
         && q.idx == resume.value && q.figures.full && Values(c.objs) == Swept(ps, resume.value + 1, prices)
       case Returned(result) => Values(c.objs) == Swept(ps, 0, prices) && result == Completed(TriggersReceipt)
       case _ => false
  }

  lemma SweptUnhit(ps: seq<Position>, i: nat, prices: Prices)
    requires i < |ps|
    ensures !Runs.Hit(ps[i], prices) ==> Swept(ps, i, prices) == Swept(ps, i + 1, prices)
    ensures Runs.Hit(ps[i], prices) ==>
              var all := Swept(ps, i + 1, prices); i < |all| && all[..i] + all[i + 1..] == Swept(ps, i, prices)
    ensures i < |Swept(ps, i + 1, prices)| && Swept(ps, i + 1, prices)[i] == ps[i]
  {
    SurvivorsBefore(ps, i, prices);
    hide Runs.Hit, Sweeps.Survivors;
    assert ps[..i + 1] == ps[..i] + [ps[i]];
  }

  lemma LookStaysLeft(c: Client, k: nat, i: nat, ps: seq<Position>, prices: Prices)
    requires k < |c.pcs| && c.pcs[k] == SweepAt(i) && Left(c, k, ps, prices)
    ensures var d := SweepBlock(c, k, i); |d.pcs| == |c.pcs| && Left(d, k, ps, prices)
  {
    if i > 0 {
      SweptUnhit(ps, i - 1, prices);
      assert c.objs[i - 1].position == Values(c.objs)[i - 1] == ps[i - 1];
    }
    hide Swept, Runs.Hit, Values;
  }

  lemma CloseFirstStaysLeft(c: Client, k: nat, env: Feed, ps: seq<Position>, prices: Prices)
    requires DataInv(c) && k < |c.pcs| && c.pcs[k].ClosePending? && Left(c, k, ps, prices) && Sweeps.Positive(prices)
    requires forall o :: o in c.objs ==> o.position.size > 0.0
    ensures var d := CloseFirst(c, k, c.pcs[k], env); |d.pcs| == |c.pcs| && Left(d, k, ps, prices)
  {
    var pc := c.pcs[k];
    var i := pc.resume.value;
    SweptUnhit(ps, i, prices);
    InvDistinct(AccountOf(c));
    Runs.FindNamed(Values(c.objs), i);
    var p := c.objs[i].position;
    assert p == Values(c.objs)[i] == ps[i];
    FullQuote(p, prices[pc.m]);
    assert Priced(prices, pc.m) by { assert Runs.Hit(p, prices); }
    hide Swept, Runs.Hit, DataInv, Figures, Find, Distinct, AllHealthy;
  }

  lemma FullQuote(p: Position, price: real)
    requires p.size > 0.0
    ensures Figures(p, CLOSE_ALL, price, 0.0).full && !AmountTooBig(CLOSE_ALL, p.size)
  {
  }

  lemma SplicedValues(objs: seq<Obj>, i: nat)
    requires i < |objs|
    ensures Values(objs[..i] + objs[i + 1..]) == Values(objs)[..i] + Values(objs)[i + 1..]
  {
  }

  lemma CloseSecondStaysLeft(c: Client, k: nat, env: Feed, ps: seq<Position>, prices: Prices)
    requires k < |c.pcs| && c.pcs[k].CloseQuoted? && Left(c, k, ps, prices)
    ensures var d := CloseSecond(c, k, c.pcs[k], env); |d.pcs| == |c.pcs| && Left(d, k, ps, prices)
  {
    var i := c.pcs[k].resume.value;
    SweptUnhit(ps, i, prices);
    SplicedValues(c.objs, i);
    CloseSecondSplices(c, k, env, i);
    hide Swept, Runs.Hit, CloseSecond;
  }

  lemma CloseSecondSplices(c: Client, k: nat, env: Feed, i: nat)
    requires k < |c.pcs| && c.pcs[k].CloseQuoted? && c.pcs[k].resume == Some(i) && c.pcs[k].quote.idx == i < |c.objs|
    requires c.pcs[k].quote.figures.full
    ensures var d := CloseSecond(c, k, c.pcs[k], env);
            && d.objs == c.objs[..i] + c.objs[i + 1..] && d.prices == c.prices
            && |d.pcs| == |c.pcs| && d.pcs[k] == SweepAt(i)
  {
    hide Reduced, Trim, FindRef, FeeUsd, FloorZero, CloseFigures.Credited;
  }

  lemma ResumeStaysLeft(c: Client, k: nat, env: Feed, ps: seq<Position>, prices: Prices)
    requires DataInv(c) && CanHappen(c, Resume(k, env)) && Left(c, k, ps, prices) && Sweeps.Positive(prices)
    ensures var d := Next(c, Resume(k, env)); |d.pcs| == |c.pcs| && Left(d, k, ps, prices)
  {
    match c.pcs[k] {
      case SweepAt(i) => LookStaysLeft(c, k, i, ps, prices);
      case ClosePending(_, _, _, _) => CloseFirstStaysLeft(c, k, env, ps, prices);
      case CloseQuoted(_, _, _, _, _) => CloseSecondStaysLeft(c, k, env, ps, prices);
      case _ =>
    }
    hide DataInv, SweepBlock, CloseFirst, CloseSecond, OpenFirst, OpenSecond, CollateralBlock, Runs.Hit, Swept;
  }

  /** Another caller's event, while k runs, leaves positions, prices and k's place alone. */
  lemma OthersStayOut(c: Client, e: Event, k: nat)
    requires L.Inv(c.lock) && DataInv(c) && CanHappen(c, e) && k < |c.pcs| && c.lock.callers[k] == L.Running
    requires !(e.Resume? && e.k == k) && !e.MovePrices? && !e.Mark? && e != Release(k)
    ensures var d := Next(c, e);
            && k < |d.pcs| && k < |d.lock.callers| && d.lock.callers[k] == L.Running
            && d.objs == c.objs && d.prices == c.prices && d.pcs[k] == c.pcs[k]
  {
    RunningHolds(c, k);
    if e.Resume? { ResumedRuns(c, e.k, e.env); }
    hide DataInv, L.Inv, OpenFirst, OpenSecond, CloseFirst, CloseSecond, CollateralBlock, SweepBlock;
  }

  lemma {:induction false} RunStaysLeft(a: Account, c: Client, es: seq<Event>, d: Client, k: nat,
                                        ps: seq<Position>, prices: Prices)
    requires Inv(a) && FullInv(a, c) && Reaches(c, es, d) && Still(es, k) && Sweeps.Positive(prices)
    requires k < |c.pcs| && k < |c.lock.callers| && c.lock.callers[k] == L.Running && Left(c, k, ps, prices)
    ensures k < |d.pcs| && Left(d, k, ps, prices)
    decreases |es|
  {
    hide Inv, Next, CanHappen, DataInv, FullInv, Swept, Runs.Hit;
    if es != [] {
      var e, n := es[0], Next(c, es[0]);
      FullInvData(a, c);
      if e.Resume? && e.k == k {
        ResumeTakesATurn(c, k, e.env);
        ResumeStaysLeft(c, k, e.env, ps, prices);
      } else {
        OthersStayOut(c, e, k);
      }
      EventKeepsInv(a, c, e);
      hide Left;
      RunStaysLeft(a, n, es[1..], d, k, ps, prices);
    }
  }

  /**
   * A sweep that starts and returns while prices and marks stand still leaves exactly the unhit positions,
   * unchanged and in order, however many callers arrive meanwhile and whatever its awaits answer.
   */
  lemma SweepLeavesTheUnhit(initialBalance: real, es: seq<Event>, c: Client, k: nat, more: seq<Event>, d: Client)
    requires initialBalance >= 0.0 && Reaches(Initial(initialBalance), es, c) && Sweeps.Positive(c.prices)
    requires CanHappen(c, Start(k)) && c.bodies[k].Sweeping?
    requires Reaches(Next(c, Start(k)), more, d) && Still(more, k)
    ensures k < |d.pcs|
    ensures d.pcs[k].Returned? ==>
              d.pcs[k].result == Completed(TriggersReceipt)
              && Values(d.objs) == Sweeps.Survivors(Values(c.objs), c.prices)
  {
    var a := Account(initialBalance, [], [], 0.0, 0.0);
    InitialInv(initialBalance);
    RunKeepsInv(a, Initial(initialBalance), es, c);
    EventKeepsInv(a, c, Start(k));
    var ps := Values(c.objs);
    StartsLeft(c, k);
    hide Inv, DataInv, FullInv, Initial, Runs.Hit, Reaches, Next, CanHappen, Left;
    RunStaysLeft(a, Next(c, Start(k)), more, d, k, ps, c.prices);
    LeftAtTheEnd(d, k, ps, c.prices);
  }

  lemma StartsLeft(c: Client, k: nat)
    requires CanHappen(c, Start(k)) && c.bodies[k].Sweeping?
    ensures var n := Next(c, Start(k));
            && k < |n.pcs| && k < |n.lock.callers| && n.lock.callers[k] == L.Running
            && Left(n, k, Values(c.objs), c.prices)
  {
    var ps := Values(c.objs);
    assert ps[..|ps|] == ps && ps[|ps|..] == [] && Swept(ps, |ps|, c.prices) == ps;
  }

  lemma LeftAtTheEnd(d: Client, k: nat, ps: seq<Position>, prices: Prices)
    requires k < |d.pcs| && Left(d, k, ps, prices)
    ensures d.pcs[k].Returned? ==>
              d.pcs[k].result == Completed(TriggersReceipt) && Values(d.objs) == Sweeps.Survivors(ps, prices)
  {
    assert ps[0..] == ps;
    hide Sweeps.Survivors, Runs.Hit;
  }
}
