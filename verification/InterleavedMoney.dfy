/**
 * No profit without price movement, for the client with its operations split at their awaits: quotes are
 * taken at one moment and used at another, but while every price refresh brings the standing prices, no
 * interleaving of callers makes the account richer.
 */
module InterleavedMoney {
  import opened Wrappers
  import opened Ledger
  import opened Invariant
  import Runs
  import opened Conservation
  import opened NoFreeProfit
  import opened Interleaved
  import opened InterleavedQuotes

  predicate CalmBody(body: Body) {
    match body
    case Trading(Close(_, _, r)) => AsksNonNegative(r)
    case _ => true
  }

  /** The callers bring no negative closes and the refreshes only standing prices. */
  predicate CalmEvent(e: Event, prices: Prices) {
    match e
    case Arrive(body) => CalmBody(body)
    case MovePrices(table) => Within(table, prices)
    case _ => true
  }

  predicate AllCalm(es: seq<Event>, prices: Prices) {
    forall i :: 0 <= i < |es| ==> CalmEvent(es[i], prices)
  }

  predicate Calm(c: Client, prices: Prices) {
    Within(c.prices, prices) && forall k :: 0 <= k < |c.bodies| ==> CalmBody(c.bodies[k])
  }

  lemma EventKeepsCalm(c: Client, e: Event, prices: Prices)
    requires Calm(c, prices) && CanHappen(c, e) && CalmEvent(e, prices)
    ensures Calm(Next(c, e), prices)
  {
    hide CalmBody, Within;
    match e
    case Resume(k, env) => ResumeTakesATurn(c, k, env); hide Next;
    case Mark(op) => MarkFrame(c, op); hide MarkObj;
    case _ =>
  }

  lemma {:induction false} RunKeepsCalm(c: Client, es: seq<Event>, d: Client, prices: Prices)
    requires Calm(c, prices) && Reaches(c, es, d) && AllCalm(es, prices)
    ensures Calm(d, prices)
    decreases |es|
  {
    hide Calm, CanHappen, Next, CalmEvent;
    if es != [] {
      EventKeepsCalm(c, es[0], prices);
      RunKeepsCalm(Next(c, es[0]), es[1..], d, prices);
    }
  }

  /** Prices that stood at some moment of a calm run are the standing ones. */
  lemma StoodIsStanding(init: Client, es: seq<Event>, table: Prices, prices: Prices)
    requires Calm(init, prices) && AllCalm(es, prices) && StoodOnce(init, es, table)
    ensures Within(table, prices)
  {
    hide Reaches, CalmEvent;
    var i: nat, mid :| Moment(init, es, i, mid) && Within(table, mid.prices);
    assert AllCalm(es[..i], prices);
    RunKeepsCalm(init, es[..i], mid, prices);
  }

  lemma LoggedIsStanding(initialBalance: real, es: seq<Event>, c: Client, prices: Prices, e: nat)
    requires initialBalance >= 0.0 && Reaches(Initial(initialBalance), es, c) && AllCalm(es, prices) && e < |c.log|
    ensures Standing(c.log[e].call.feed, prices)
  {
    var init := Initial(initialBalance);
    LoggedPricesStood(initialBalance, es, c, e);
    assert Calm(init, prices);
    hide Reaches, Initial, Moment, Calm, AllCalm;
    assert StoodOnce(init, es, c.log[e].call.feed.prices);
    StoodIsStanding(init, es, c.log[e].call.feed.prices, prices);
  }

  lemma LoggedAsksNonNegative(initialBalance: real, es: seq<Event>, c: Client, prices: Prices, e: nat)
    requires initialBalance >= 0.0 && Reaches(Initial(initialBalance), es, c) && AllCalm(es, prices) && e < |c.log|
    ensures NonNegativeCall(c.log[e].call)
  {
    assert Calm(Initial(initialBalance), prices);
    RunKeepsCalm(Initial(initialBalance), es, c, prices);
    LogFollowsLockOrder(initialBalance, es, c);
    hide Reaches, Initial, AllCalm, LogOrdered, LoggedOnce, Within;
    assert OwnerOk(c, e);
  }

  /** However callers interleave at standing prices, cash plus collateral never exceeds the initial balance. */
  lemma NoProfitUnderInterleaving(initialBalance: real, es: seq<Event>, c: Client, prices: Prices)
    requires initialBalance >= 0.0 && Reaches(Initial(initialBalance), es, c) && AllCalm(es, prices)
    ensures Equity(AccountOf(c)) <= initialBalance
  {
    Serialisable(initialBalance, es, c);
    hide Reaches, Inv, AllCalm, Runs.Run, Equity, Standing, NonNegativeCall, Initial;
    var a := Fresh(initialBalance);
    var calls := CallsOf(c.log);
    forall call | call in calls ensures Standing(call.feed, prices) && NonNegativeCall(call) {
      var i :| 0 <= i < |calls| && calls[i] == call;
      LoggedIsStanding(initialBalance, es, c, prices, i);
      LoggedAsksNonNegative(initialBalance, es, c, prices, i);
    }
    RunNoProfit(a, calls, prices);
    FreshEquity(initialBalance);
  }

  lemma FreshEquity(initialBalance: real)
    ensures Equity(Fresh(initialBalance)) == initialBalance
  {
  }
}
