/**
 * Where the logged calls of the interleaved client come from. Operations are quoted prices at one moment
 * and use them at another, and a sweep decides on a position before its close runs. Every price in the log
 * stood in the client's table at some moment at which the caller held the lock, and every close a sweep
 * logs is of a position it looked at and found hit.
 */
module InterleavedQuotes {
  import opened Wrappers
  import opened Ledger
  import opened Invariant
  import Runs
  import opened Interleaved
  import L = TradeLock

  /** Every price of the first table is in the second. */
  predicate Within(table: Prices, prices: Prices) {
    forall m :: m in table ==> m in prices && table[m] == prices[m]
  }

  // ---- One block ----

  /** What a suspended body was quoted is in the table. */
  predicate QuotedIn(pc: Pc, body: Body, table: Prices) {
    match pc
    case OpenQuoted(price, _, _) => body.Trading? && body.op.Open? && Within(map[body.op.market := price], table)
    case CloseQuoted(m, _, _, q, _) => Within(map[m := q.price], table)
    case _ => true
  }

  /** Sweep k is about to look at a position with this name, and the prices have hit its trigger. */
  predicate Looks(c: Client, k: nat, m: Market, s: Side) {
    && k < |c.pcs| && c.pcs[k].SweepAt? && 0 < c.pcs[k].i <= |c.objs|
    && var p := c.objs[c.pcs[k].i - 1].position;
       p.Names(m, s) && Runs.Hit(p, c.prices)
  }

  /** Sweep k is closing the position with this name, or about to. */
  predicate Decides(c: Client, k: nat, m: Market, s: Side) {
    Looks(c, k, m, s) ||
    (k < |c.pcs| && match c.pcs[k]
                    case ClosePending(n, t, _, resume) => resume.Some? && n == m && t == s
                    case CloseQuoted(n, t, _, _, resume) => resume.Some? && n == m && t == s
                    case _ => false)
  }

  /** The block of caller k takes its prices from the table, and a sweep closes what it had decided on. */
  predicate OwnStep(c: Client, d: Client, k: nat, table: Prices)
    requires k < |c.pcs| && k < |c.bodies|
  {
    && d.lock == c.lock && d.bodies == c.bodies && |d.pcs| == |c.pcs| && d.pcs == c.pcs[k := d.pcs[k]]
    && QuotedIn(d.pcs[k], c.bodies[k], table)
    && (match d.pcs[k]
        case ClosePending(m, s, _, resume) => resume.Some? ==> Decides(c, k, m, s)
        case CloseQuoted(m, s, _, _, resume) => resume.Some? ==> Decides(c, k, m, s)
        case _ => true)
    && (d.log == c.log
        || (|d.log| == |c.log| + 1 && d.log[..|c.log|] == c.log && OwnEntry(c, k, d.log[|c.log|], table)))
  }

  predicate OwnEntry(c: Client, k: nat, e: Entry, table: Prices)
    requires k < |c.bodies|
  {
    && e.owner == Some(k) && Within(e.call.feed.prices, table)
    && (c.bodies[k].Sweeping? ==> e.call.op.Close? && Decides(c, k, e.call.op.market, e.call.op.side))
  }

  lemma OpenFirstQuotes(c: Client, k: nat, op: Op, env: Feed)
    requires k < |c.pcs| && k < |c.bodies| && op.Open? && c.bodies[k] == Trading(op)
    ensures OwnStep(c, OpenFirst(c, k, op, env), k, c.prices)
  {
    hide Decides;
  }

  lemma OpenSecondQuotes(c: Client, k: nat, op: Op, pc: Pc, env: Feed)
    requires k < |c.pcs| && k < |c.bodies| && op.Open? && pc.OpenQuoted? && c.bodies[k] == Trading(op)
    ensures OwnStep(c, OpenSecond(c, k, op, pc, env), k, map[op.market := pc.price])
  {
    hide FillPrice, LeverageLiquidationPrice, FeeUsd, SizeUsd, Placed, OpenTrade, Trim, Find, AccountOf, Decides;
  }

  lemma CloseFirstQuotes(c: Client, k: nat, env: Feed)
    requires k < |c.pcs| && k < |c.bodies| && c.pcs[k].ClosePending?
    requires forall o :: o in c.objs ==> o.position.size > 0.0
    requires c.bodies[k].Sweeping? ==> c.pcs[k].resume.Some?
    ensures OwnStep(c, CloseFirst(c, k, c.pcs[k], env), k, c.prices)
  {
    hide Figures, AmountTooBig, Looks, Find, Runs.Hit;
  }

  lemma CloseSecondQuotes(c: Client, k: nat, env: Feed)
    requires k < |c.pcs| && k < |c.bodies| && c.pcs[k].CloseQuoted?
    requires c.bodies[k].Sweeping? ==> c.pcs[k].resume.Some?
    ensures var pc := c.pcs[k]; OwnStep(c, CloseSecond(c, k, pc, env), k, map[pc.m := pc.quote.price])
  {
    hide FeeUsd, Reduced, Trim, FindRef, FloorZero, Looks;
  }

  lemma CollateralQuotes(c: Client, k: nat, op: Op, env: Feed)
    requires k < |c.pcs| && k < |c.bodies| && (op.AddCollateral? || op.RemoveCollateral?) && c.bodies[k] == Trading(op)
    ensures OwnStep(c, CollateralBlock(c, k, op, env), k, c.prices)
  {
    hide DoAddCollateral, DoRemoveCollateral, AccountOf, Find, Decides;
  }

  lemma SweepQuotes(c: Client, k: nat, i: nat)
    requires k < |c.pcs| && k < |c.bodies| && c.pcs[k] == SweepAt(i)
    ensures OwnStep(c, SweepBlock(c, k, i), k, c.prices)
  {
    hide Runs.Hit;
  }

  /** The prices the next block of caller k works with: the table, or the one price it was quoted. */
  function TableOf(c: Client, k: nat): Prices
    requires k < |c.pcs| && k < |c.bodies|
  {
    match c.pcs[k]
    case OpenQuoted(price, _, _) =>
      if c.bodies[k].Trading? && c.bodies[k].op.Open? then map[c.bodies[k].op.market := price] else c.prices
    case CloseQuoted(m, _, _, q, _) => map[m := q.price]
    case _ => c.prices
  }

  lemma ResumeQuotes(c: Client, k: nat, env: Feed)
    requires DataInv(c) && CanHappen(c, Resume(k, env))
    ensures OwnStep(c, Next(c, Resume(k, env)), k, TableOf(c, k))
  {
    ResumedRuns(c, k, env);
    hide Inv, UniqueRefs, AccountOf;
    assert PcOk(c, k);
    hide OwnStep, OpenFirst, OpenSecond, CloseFirst, CloseSecond, CollateralBlock, SweepBlock, DataInv;
    match c.pcs[k] {
      case Refreshing =>
        if c.bodies[k].op.Open? { OpenFirstQuotes(c, k, c.bodies[k].op, env); }
        else { CollateralQuotes(c, k, c.bodies[k].op, env); }
      case OpenQuoted(_, _, _) => OpenSecondQuotes(c, k, c.bodies[k].op, c.pcs[k], env);
      case ClosePending(_, _, _, _) => CloseFirstQuotes(c, k, env);
      case CloseQuoted(_, _, _, _, _) => CloseSecondQuotes(c, k, env);
      case SweepAt(i) => SweepQuotes(c, k, i);
    }
  }

  // ---- Moments of a run ----

  /** The client the first i events lead to. */
  ghost predicate Moment(init: Client, es: seq<Event>, i: nat, mid: Client) {
    i <= |es| && Reaches(init, es[..i], mid)
  }

  predicate Holding(c: Client, k: nat) { k < |c.lock.callers| && c.lock.callers[k] == L.Running }

  /** At some moment at which caller k held the lock, all these prices stood in the client's table. */
  ghost predicate Stood(init: Client, es: seq<Event>, k: nat, table: Prices) {
    exists i: nat, mid :: Moment(init, es, i, mid) && Holding(mid, k) && Within(table, mid.prices)
  }

  /** At some moment all these prices stood in the client's table. */
  ghost predicate StoodOnce(init: Client, es: seq<Event>, table: Prices) {
    exists i: nat, mid :: Moment(init, es, i, mid) && Within(table, mid.prices)
  }

  /** At some moment sweep k looked at a position with this name and found it hit. */
  ghost predicate FoundHit(init: Client, es: seq<Event>, k: nat, m: Market, s: Side) {
    exists i: nat, mid :: Moment(init, es, i, mid) && Looks(mid, k, m, s)
  }

  lemma MomentStays(init: Client, es: seq<Event>, e: Event, i: nat, mid: Client)
    requires Moment(init, es, i, mid)
    ensures Moment(init, es + [e], i, mid)
  {
    assert (es + [e])[..i] == es[..i];
  }

  lemma NowIsAMoment(init: Client, es: seq<Event>, e: Event, c: Client)
    requires Reaches(init, es, c)
    ensures Moment(init, es + [e], |es|, c)
  {
    assert (es + [e])[..|es|] == es;
  }

  lemma StoodStays(init: Client, es: seq<Event>, e: Event, k: nat, table: Prices, less: Prices)
    requires Stood(init, es, k, table) && Within(less, table)
    ensures Stood(init, es + [e], k, less)
  {
    hide Moment, Holding;
    var i: nat, mid :| Moment(init, es, i, mid) && Holding(mid, k) && Within(table, mid.prices);
    MomentStays(init, es, e, i, mid);
    assert Within(less, mid.prices);
  }

  lemma StoodOnceStays(init: Client, es: seq<Event>, e: Event, table: Prices)
    requires StoodOnce(init, es, table)
    ensures StoodOnce(init, es + [e], table)
  {
    hide Moment, Within;
    var i: nat, mid :| Moment(init, es, i, mid) && Within(table, mid.prices);
    MomentStays(init, es, e, i, mid);
  }

  lemma FoundStays(init: Client, es: seq<Event>, e: Event, k: nat, m: Market, s: Side)
    requires FoundHit(init, es, k, m, s)
    ensures FoundHit(init, es + [e], k, m, s)
  {
    hide Moment, Looks;
    var i: nat, mid :| Moment(init, es, i, mid) && Looks(mid, k, m, s);
    MomentStays(init, es, e, i, mid);
  }

  lemma StandsNow(init: Client, es: seq<Event>, e: Event, c: Client, k: nat, table: Prices)
    requires Reaches(init, es, c) && Holding(c, k) && Within(table, c.prices)
    ensures Stood(init, es + [e], k, table)
  {
    NowIsAMoment(init, es, e, c);
    hide Moment, Holding, Within;
  }

  // ---- Origins ----

  ghost predicate PcOrigin(init: Client, es: seq<Event>, c: Client, k: nat)
    requires k < |c.pcs| && k < |c.bodies|
  {
    match c.pcs[k]
    case OpenQuoted(_, _, _) => Stood(init, es, k, TableOf(c, k))
    case ClosePending(m, s, _, resume) => resume.Some? ==> FoundHit(init, es, k, m, s)
    case CloseQuoted(m, s, _, q, resume) =>
      Stood(init, es, k, TableOf(c, k)) && (resume.Some? ==> FoundHit(init, es, k, m, s))
    case _ => true
  }

  ghost predicate EntryOrigin(init: Client, es: seq<Event>, bodies: seq<Body>, e: Entry) {
    match e.owner
    case None => StoodOnce(init, es, e.call.feed.prices)
    case Some(k) =>
      && k < |bodies| && Stood(init, es, k, e.call.feed.prices)
      && (bodies[k].Sweeping? ==> e.call.op.Close? && FoundHit(init, es, k, e.call.op.market, e.call.op.side))
  }

  ghost predicate Origins(init: Client, es: seq<Event>, c: Client) {
    PcOrigins(init, es, c) && LogOrigins(init, es, c.bodies, c.log)
  }

  lemma PcOriginStays(init: Client, es: seq<Event>, e: Event, c: Client, d: Client, k: nat)
    requires k < |c.pcs| && k < |c.bodies| && k < |d.pcs| && k < |d.bodies|
    requires d.pcs[k] == c.pcs[k] && d.bodies[k] == c.bodies[k] && PcOrigin(init, es, c, k)
    requires (d.pcs[k].OpenQuoted? ==> d.bodies[k].Trading? && d.bodies[k].op.Open?)
    ensures PcOrigin(init, es + [e], d, k)
  {
    hide Stood, FoundHit, Within;
    match c.pcs[k]
    case OpenQuoted(_, _, _) => StoodSame(init, es, e, k, TableOf(c, k));
    case ClosePending(m, s, _, resume) => if resume.Some? { FoundStays(init, es, e, k, m, s); }
    case CloseQuoted(m, s, _, _, resume) =>
      StoodSame(init, es, e, k, TableOf(c, k));
      if resume.Some? { FoundStays(init, es, e, k, m, s); }
    case _ =>
  }

  lemma StoodSame(init: Client, es: seq<Event>, e: Event, k: nat, table: Prices)
    requires Stood(init, es, k, table)
    ensures Stood(init, es + [e], k, table)
  {
    hide Stood;
    StoodStays(init, es, e, k, table, table);
  }

  lemma EntryOriginStays(init: Client, es: seq<Event>, e: Event, bodies: seq<Body>, more: seq<Body>, entry: Entry)
    requires EntryOrigin(init, es, bodies, entry) && bodies <= more
    ensures EntryOrigin(init, es + [e], more, entry)
  {
    hide Stood, StoodOnce, FoundHit;
    match entry.owner
    case None => StoodOnceStays(init, es, e, entry.call.feed.prices);
    case Some(k) =>
      StoodSame(init, es, e, k, entry.call.feed.prices);
      if bodies[k].Sweeping? { FoundStays(init, es, e, k, entry.call.op.market, entry.call.op.side); }
  }

  /** What a sweep decided on it found hit, now or before. */
  lemma DecidedWasHit(init: Client, es: seq<Event>, e: Event, c: Client, k: nat, m: Market, s: Side)
    requires Reaches(init, es, c) && k < |c.pcs| && k < |c.bodies| && PcOrigin(init, es, c, k) && Decides(c, k, m, s)
    ensures FoundHit(init, es + [e], k, m, s)
  {
    if Looks(c, k, m, s) {
      NowIsAMoment(init, es, e, c);
      hide Moment, Looks;
    } else {
      hide Looks, Stood, FoundHit;
      FoundStays(init, es, e, k, m, s);
    }
  }

  /** The prices a block of caller k works with stood while it held the lock. */
  lemma TableStood(init: Client, es: seq<Event>, e: Event, c: Client, k: nat, table: Prices)
    requires Reaches(init, es, c) && k < |c.pcs| && k < |c.bodies| && PcOrigin(init, es, c, k) && Holding(c, k)
    requires Within(table, TableOf(c, k))
    ensures Stood(init, es + [e], k, table)
  {
    hide Stood, FoundHit;
    if c.pcs[k].OpenQuoted? || c.pcs[k].CloseQuoted? {
      StoodStays(init, es, e, k, TableOf(c, k), table);
    } else {
      StandsNow(init, es, e, c, k, table);
    }
  }

  lemma OwnPcOrigin(init: Client, es: seq<Event>, e: Event, c: Client, d: Client, k: nat)
    requires Reaches(init, es, c) && k < |c.pcs| && k < |c.bodies| && PcOrigin(init, es, c, k) && Holding(c, k)
    requires OwnStep(c, d, k, TableOf(c, k))
    ensures PcOrigin(init, es + [e], d, k)
  {
    hide Stood, FoundHit, Decides, OwnEntry, PcOrigin;
    var table := TableOf(d, k);
    match d.pcs[k] {
      case OpenQuoted(_, _, _) => TableStood(init, es, e, c, k, table);
      case ClosePending(m, s, _, resume) => if resume.Some? { DecidedWasHit(init, es, e, c, k, m, s); }
      case CloseQuoted(m, s, _, _, resume) =>
        TableStood(init, es, e, c, k, table);
        if resume.Some? { DecidedWasHit(init, es, e, c, k, m, s); }
      case _ =>
    }
    PcOriginUnfolds(init, es + [e], d, k);
  }

  lemma PcOriginUnfolds(init: Client, es: seq<Event>, c: Client, k: nat)
    requires k < |c.pcs| && k < |c.bodies|
    requires c.pcs[k].OpenQuoted? || c.pcs[k].CloseQuoted? ==> Stood(init, es, k, TableOf(c, k))
    requires c.pcs[k].ClosePending? && c.pcs[k].resume.Some? ==> FoundHit(init, es, k, c.pcs[k].m, c.pcs[k].s)
    requires c.pcs[k].CloseQuoted? && c.pcs[k].resume.Some? ==> FoundHit(init, es, k, c.pcs[k].m, c.pcs[k].s)
    ensures PcOrigin(init, es, c, k)
  {
  }

  lemma OwnEntryOrigin(init: Client, es: seq<Event>, e: Event, c: Client, k: nat, entry: Entry)
    requires Reaches(init, es, c) && k < |c.pcs| && k < |c.bodies| && PcOrigin(init, es, c, k) && Holding(c, k)
    requires OwnEntry(c, k, entry, TableOf(c, k))
    ensures EntryOrigin(init, es + [e], c.bodies, entry)
  {
    hide Stood, FoundHit, Decides, PcOrigin, Within;
    TableStood(init, es, e, c, k, entry.call.feed.prices);
    if c.bodies[k].Sweeping? { DecidedWasHit(init, es, e, c, k, entry.call.op.market, entry.call.op.side); }
  }

  /** An open is quoted only to a body that opens. */
  lemma QuotedOpens(c: Client)
    requires DataInv(c)
    ensures forall k :: 0 <= k < |c.pcs| && c.pcs[k].OpenQuoted? ==> c.bodies[k].Trading? && c.bodies[k].op.Open?
  {
    hide Inv;
    forall k | 0 <= k < |c.pcs| && c.pcs[k].OpenQuoted? ensures c.bodies[k].Trading? && c.bodies[k].op.Open? {
      assert PcOk(c, k);
    }
  }

  ghost predicate PcOrigins(init: Client, es: seq<Event>, c: Client) {
    |c.pcs| == |c.bodies| && forall k :: 0 <= k < |c.pcs| ==> PcOrigin(init, es, c, k)
  }

  ghost predicate LogOrigins(init: Client, es: seq<Event>, bodies: seq<Body>, log: seq<Entry>) {
    forall i :: 0 <= i < |log| ==> EntryOrigin(init, es, bodies, log[i])
  }

  lemma LogOriginsStay(init: Client, es: seq<Event>, e: Event, bodies: seq<Body>, more: seq<Body>, log: seq<Entry>)
    requires LogOrigins(init, es, bodies, log) && bodies <= more
    ensures LogOrigins(init, es + [e], more, log)
  {
    hide EntryOrigin;
    forall i | 0 <= i < |log| ensures EntryOrigin(init, es + [e], more, log[i]) {
      EntryOriginStays(init, es, e, bodies, more, log[i]);
    }
  }

  lemma LogOriginsGrow(init: Client, es: seq<Event>, bodies: seq<Body>, log: seq<Entry>, longer: seq<Entry>)
    requires LogOrigins(init, es, bodies, log) && |longer| == |log| + 1 && longer[..|log|] == log
    requires EntryOrigin(init, es, bodies, longer[|log|])
    ensures LogOrigins(init, es, bodies, longer)
  {
    hide EntryOrigin;
    forall i | 0 <= i < |longer| ensures EntryOrigin(init, es, bodies, longer[i]) {
      if i < |log| { assert longer[i] == longer[..|log|][i] == log[i]; }
    }
  }

  lemma ResumeKeepsPcs(init: Client, es: seq<Event>, e: Event, c: Client, d: Client, k: nat)
    requires Reaches(init, es, c) && DataInv(c) && PcOrigins(init, es, c) && k < |c.pcs| && Holding(c, k)
    requires OwnStep(c, d, k, TableOf(c, k))
    ensures PcOrigins(init, es + [e], d)
  {
    QuotedOpens(c);
    OwnFrame(c, d, k, TableOf(c, k));
    hide DataInv, TableOf, PcOrigin, OwnStep, Reaches;
    forall j | 0 <= j < |d.pcs| ensures PcOrigin(init, es + [e], d, j) {
      if j == k {
        OwnPcOrigin(init, es, e, c, d, k);
      } else {
        PcOriginStays(init, es, e, c, d, j);
      }
    }
  }

  lemma OwnFrame(c: Client, d: Client, k: nat, table: Prices)
    requires k < |c.pcs| && |c.pcs| == |c.bodies| && OwnStep(c, d, k, table)
    ensures d.bodies == c.bodies && |d.pcs| == |c.pcs| && d.pcs == c.pcs[k := d.pcs[k]]
    ensures d.log == c.log ||
            (|d.log| == |c.log| + 1 && d.log[..|c.log|] == c.log && OwnEntry(c, k, d.log[|c.log|], table))
  {
    hide OwnEntry, Decides, QuotedIn;
  }

  lemma ResumeKeepsLog(init: Client, es: seq<Event>, e: Event, c: Client, d: Client, k: nat)
    requires Reaches(init, es, c) && PcOrigins(init, es, c) && LogOrigins(init, es, c.bodies, c.log)
    requires k < |c.pcs| && Holding(c, k) && OwnStep(c, d, k, TableOf(c, k))
    ensures LogOrigins(init, es + [e], d.bodies, d.log)
  {
    OwnFrame(c, d, k, TableOf(c, k));
    assert PcOrigin(init, es, c, k);
    hide TableOf, PcOrigin, OwnStep, OwnEntry, PcOrigins, EntryOrigin, LogOrigins, Reaches;
    LogOriginsStay(init, es, e, c.bodies, c.bodies, c.log);
    if d.log != c.log {
      OwnEntryOrigin(init, es, e, c, k, d.log[|c.log|]);
      LogOriginsGrow(init, es + [e], c.bodies, c.log, d.log);
    }
  }

  lemma ResumeKeepsOrigins(init: Client, es: seq<Event>, c: Client, k: nat, env: Feed)
    requires Reaches(init, es, c) && DataInv(c) && Origins(init, es, c) && CanHappen(c, Resume(k, env))
    ensures Origins(init, es + [Resume(k, env)], Next(c, Resume(k, env)))
  {
    ResumedRuns(c, k, env);
    ResumeQuotes(c, k, env);
    hide Next, CanHappen, DataInv, TableOf, OwnStep, PcOrigins, LogOrigins, Reaches;
    ResumeKeepsPcs(init, es, Resume(k, env), c, Next(c, Resume(k, env)), k);
    ResumeKeepsLog(init, es, Resume(k, env), c, Next(c, Resume(k, env)), k);
  }

  /** Events other than resumptions quote nothing; a mark logs the prices of the moment. */
  predicate Untouched(c: Client, d: Client) {
    && |d.pcs| == |d.bodies| && c.bodies <= d.bodies
    && (forall k :: 0 <= k < |d.pcs| ==>
          (k < |c.pcs| && d.pcs[k] == c.pcs[k])
          || !(d.pcs[k].OpenQuoted? || d.pcs[k].CloseQuoted? || (d.pcs[k].ClosePending? && d.pcs[k].resume.Some?)))
    && (d.log == c.log
        || (|d.log| == |c.log| + 1 && d.log[..|c.log|] == c.log
            && d.log[|c.log|].owner.None? && d.log[|c.log|].call.feed.prices == c.prices))
  }

  lemma OthersTouchNothing(c: Client, e: Event)
    requires |c.pcs| == |c.bodies| && CanHappen(c, e) && !e.Resume?
    ensures Untouched(c, Next(c, e))
  {
    hide AccountOf, Find, DoSetTpSl, DoRemoveTpSl;
    if e.Mark? { MarkFrame(c, e.op); }
  }

  lemma UntouchedKeepsPcs(init: Client, es: seq<Event>, e: Event, c: Client, d: Client)
    requires DataInv(c) && PcOrigins(init, es, c) && Untouched(c, d)
    ensures PcOrigins(init, es + [e], d)
  {
    QuotedOpens(c);
    hide DataInv, Stood, FoundHit, PcOrigin;
    forall k | 0 <= k < |d.pcs| ensures PcOrigin(init, es + [e], d, k) {
      if k < |c.pcs| && d.pcs[k] == c.pcs[k] {
        PcOriginStays(init, es, e, c, d, k);
      } else {
        PcOriginUnfolds(init, es + [e], d, k);
      }
    }
  }

  lemma UntouchedKeepsOrigins(init: Client, es: seq<Event>, e: Event, c: Client, d: Client)
    requires Reaches(init, es, c) && DataInv(c) && Origins(init, es, c) && Untouched(c, d)
    ensures Origins(init, es + [e], d)
  {
    UntouchedKeepsPcs(init, es, e, c, d);
    NowIsAMoment(init, es, e, c);
    hide DataInv, Moment, PcOrigins, LogOrigins, EntryOrigin, Reaches;
    LogOriginsStay(init, es, e, c.bodies, d.bodies, c.log);
    if d.log != c.log {
      MarkOrigin(init, es, e, c, d.bodies, d.log[|c.log|]);
      LogOriginsGrow(init, es + [e], d.bodies, c.log, d.log);
    }
  }

  lemma MarkOrigin(init: Client, es: seq<Event>, e: Event, c: Client, bodies: seq<Body>, entry: Entry)
    requires Moment(init, es + [e], |es|, c) && entry.owner.None? && entry.call.feed.prices == c.prices
    ensures EntryOrigin(init, es + [e], bodies, entry)
  {
    hide Moment;
    assert Within(entry.call.feed.prices, c.prices);
  }

  /** A run is a shorter run and one event more. */
  lemma {:induction false} LastEvent(init: Client, es: seq<Event>, c: Client) returns (b: Client)
    requires es != [] && Reaches(init, es, c)
    ensures var n := |es| - 1; Reaches(init, es[..n], b) && CanHappen(b, es[n]) && c == Next(b, es[n])
    decreases |es|
  {
    hide Next, CanHappen;
    if |es| == 1 {
      b := init;
    } else {
      b := LastEvent(Next(init, es[0]), es[1..], c);
      var n := |es| - 1;
      assert es[1..][..n - 1] == es[..n][1..] && es[1..][n - 1] == es[n];
    }
  }

  lemma {:induction false} RunHasOrigins(initialBalance: real, es: seq<Event>, c: Client)
    requires initialBalance >= 0.0 && Reaches(Initial(initialBalance), es, c)
    ensures Origins(Initial(initialBalance), es, c)
    decreases |es|
  {
    var init := Initial(initialBalance);
    if es != [] {
      var n := |es| - 1;
      var b := LastEvent(init, es, c);
      RunHasOrigins(initialBalance, es[..n], b);
      RunKeepsData(initialBalance, es[..n], b);
      assert es == es[..n] + [es[n]];
      hide Reaches, Origins, DataInv, Next, CanHappen, Untouched, Initial;
      if es[n].Resume? {
        ResumeKeepsOrigins(init, es[..n], b, es[n].k, es[n].env);
      } else {
        OriginsCount(init, es[..n], b);
        OthersTouchNothing(b, es[n]);
        UntouchedKeepsOrigins(init, es[..n], es[n], b, c);
      }
    }
  }

  lemma OriginsCount(init: Client, es: seq<Event>, c: Client)
    requires Origins(init, es, c)
    ensures |c.pcs| == |c.bodies|
  {
  }

  lemma RunKeepsData(initialBalance: real, es: seq<Event>, c: Client)
    requires initialBalance >= 0.0 && Reaches(Initial(initialBalance), es, c)
    ensures DataInv(c)
  {
    hide Inv, Initial, DataInv;
    InitialInv(initialBalance);
    RunKeepsInv(Account(initialBalance, [], [], 0.0, 0.0), Initial(initialBalance), es, c);
  }

  // ---- Main results ----

  /**
   * Every price a logged call used stood in the client's table at some moment of the run at which its
   * caller held the lock; the unlocked mark changes are logged with the prices of some moment.
   */
  lemma LoggedPricesStood(initialBalance: real, es: seq<Event>, c: Client, e: nat)
    requires initialBalance >= 0.0 && Reaches(Initial(initialBalance), es, c) && e < |c.log|
    ensures var init, entry := Initial(initialBalance), c.log[e];
            match entry.owner
            case None => StoodOnce(init, es, entry.call.feed.prices)
            case Some(k) => Stood(init, es, k, entry.call.feed.prices)
  {
    RunHasOrigins(initialBalance, es, c);
    hide Reaches, Initial, Stood, StoodOnce, FoundHit;
    assert EntryOrigin(Initial(initialBalance), es, c.bodies, c.log[e]);
  }

  /** Every close a sweep logs is of a position it looked at during its run and found hit. */
  lemma SweepsCloseOnlyWhatTheyFoundHit(initialBalance: real, es: seq<Event>, c: Client, e: nat, k: nat)
    requires initialBalance >= 0.0 && Reaches(Initial(initialBalance), es, c)
    requires e < |c.log| && c.log[e].owner == Some(k) && k < |c.bodies| && c.bodies[k].Sweeping?
    ensures c.log[e].call.op.Close?
    ensures FoundHit(Initial(initialBalance), es, k, c.log[e].call.op.market, c.log[e].call.op.side)
  {
    RunHasOrigins(initialBalance, es, c);
    hide Reaches, Initial, Stood, StoodOnce, FoundHit;
    assert EntryOrigin(Initial(initialBalance), es, c.bodies, c.log[e]);
  }
}
