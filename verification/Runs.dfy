/**
 * Whole runs of the account: single operations and take-profit / stop-loss sweeps, in any order.
 * A sweep walks the positions from the last to the first and closes those whose trigger is hit;
 * each close refreshes the prices first, so it brings a feed of its own.
 */
module Runs {
  import opened Wrappers
  import opened Ledger
  import opened Invariant

  datatype Call = Call(op: Op, feed: Feed)

  /** feedAt(i) is what the close of the position at index i sees, if the sweep closes it. */
  datatype Event = Single(call: Call) | Sweep(prices: Prices, feedAt: nat -> Feed)

  datatype Swept = Swept(account: Account, error: Option<Error>)

  predicate Hit(p: Position, prices: Prices) {
    && p.market in prices && prices[p.market] != 0.0
    && var price := prices[p.market];
       || (p.takeProfit.Some? && if p.side.Long? then price >= p.takeProfit.value else price <= p.takeProfit.value)
       || (p.stopLoss.Some? && if p.side.Long? then price <= p.stopLoss.value else price >= p.stopLoss.value)
  }

  /** In an account with distinct positions, looking up the i-th one by name finds index i. */
  lemma FindNamed(ps: seq<Position>, i: nat)
    requires i < |ps| && Distinct(ps)
    ensures Find(ps, ps[i].market, ps[i].side) == i
  {
    var j := Find(ps, ps[i].market, ps[i].side);
    assert ps[i].Names(ps[i].market, ps[i].side);
  }

  function CloseWhole(a: Account, i: nat, feed: Feed): (o: Outcome)
    requires Inv(a) && i < |a.positions|
    ensures Inv(o.After(a))
    ensures o.Accepted? ==> o.account.positions == a.positions[..i] + a.positions[i + 1..]
  {
    var p := a.positions[i];
    FindNamed(a.positions, i);
    StepKeepsInv(a, Close(p.market, p.side, CLOSE_ALL), feed);
    DoClose(a, feed, p.market, p.side, CLOSE_ALL)
  }

  /** The sweep over positions n - 1, ..., 0. A close that throws ends it. */
  function SweepFrom(a: Account, n: nat, prices: Prices, feedAt: nat -> Feed): (r: Swept)
    requires Inv(a) && n <= |a.positions|
    ensures Inv(r.account)
    decreases n
  {
    if n == 0 then Swept(a, None)
    else if !Hit(a.positions[n - 1], prices) then SweepFrom(a, n - 1, prices, feedAt)
    else
      match CloseWhole(a, n - 1, feedAt(n - 1))
      case Rejected(e) => Swept(a, Some(e))
      case Accepted(b, _) => SweepFrom(b, n - 1, feedAt(n - 1).prices, feedAt)
  }

  /** One turn of the sweep. */
  lemma SweepStep(a: Account, i: nat, prices: Prices, feedAt: nat -> Feed)
    requires Inv(a) && i < |a.positions|
    ensures !Hit(a.positions[i], prices) ==> SweepFrom(a, i + 1, prices, feedAt) == SweepFrom(a, i, prices, feedAt)
    ensures Hit(a.positions[i], prices) ==>
              var o := DoClose(a, feedAt(i), a.positions[i].market, a.positions[i].side, CLOSE_ALL);
              && (o.Rejected? ==> SweepFrom(a, i + 1, prices, feedAt) == Swept(a, Some(o.error)))
              && (o.Accepted? ==>
                    Inv(o.account) && i <= |o.account.positions|
                    && SweepFrom(a, i + 1, prices, feedAt) == SweepFrom(o.account, i, feedAt(i).prices, feedAt))
  {
    hide DoClose, Inv, Hit;
    var o := CloseWhole(a, i, feedAt(i));
  }

  lemma SweepEnds(a: Account, prices: Prices, feedAt: nat -> Feed)
    requires Inv(a)
    ensures SweepFrom(a, 0, prices, feedAt) == Swept(a, None)
  {
  }

  function Happen(a: Account, e: Event): (b: Account)
    requires Inv(a)
    ensures Inv(b)
  {
    match e
    case Single(call) => StepKeepsInv(a, call.op, call.feed); Step(a, call.op, call.feed).After(a)
    case Sweep(prices, feedAt) => SweepFrom(a, |a.positions|, prices, feedAt).account
  }

  /** The account after all the events; rejected operations leave no trace. */
  function History(a: Account, es: seq<Event>): (b: Account)
    requires Inv(a)
    ensures Inv(b)
    decreases |es|
  {
    if es == [] then a else History(Happen(a, es[0]), es[1..])
  }

  // ---- Every run is a run of single operations ----

  function Run(a: Account, calls: seq<Call>): (b: Account)
    requires Inv(a)
    ensures Inv(b)
    decreases |calls|
  {
    if calls == [] then a else Run(Happen(a, Single(calls[0])), calls[1..])
  }

  function SweepCalls(a: Account, n: nat, prices: Prices, feedAt: nat -> Feed): (calls: seq<Call>)
    requires Inv(a) && n <= |a.positions|
    ensures forall c :: c in calls ==> c.op.Close? && c.op.request == CLOSE_ALL && exists i: nat :: c.feed == feedAt(i)
    decreases n
  {
    if n == 0 then []
    else if !Hit(a.positions[n - 1], prices) then SweepCalls(a, n - 1, prices, feedAt)
    else
      var p := a.positions[n - 1];
      var call := Call(Close(p.market, p.side, CLOSE_ALL), feedAt(n - 1));
      match CloseWhole(a, n - 1, feedAt(n - 1))
      case Rejected(e) => []
      case Accepted(b, _) => [call] + SweepCalls(b, n - 1, feedAt(n - 1).prices, feedAt)
  }

  function Calls(a: Account, e: Event): seq<Call>
    requires Inv(a)
  {
    match e
    case Single(call) => [call]
    case Sweep(prices, feedAt) => SweepCalls(a, |a.positions|, prices, feedAt)
  }

  function AllCalls(a: Account, es: seq<Event>): seq<Call>
    requires Inv(a)
    decreases |es|
  {
    if es == [] then [] else Calls(a, es[0]) + AllCalls(Happen(a, es[0]), es[1..])
  }

  lemma {:induction false} RunConcat(a: Account, xs: seq<Call>, ys: seq<Call>)
    requires Inv(a)
    ensures Run(a, xs + ys) == Run(Run(a, xs), ys)
    decreases |xs|
  {
    if xs == [] {
      assert xs + ys == ys;
    } else {
      assert (xs + ys)[1..] == xs[1..] + ys;
      RunConcat(Happen(a, Single(xs[0])), xs[1..], ys);
    }
  }

  /** A sweep does exactly what its closes do one by one. */
  lemma {:induction false} SweepIsItsCloses(a: Account, n: nat, prices: Prices, feedAt: nat -> Feed)
    requires Inv(a) && n <= |a.positions|
    ensures SweepFrom(a, n, prices, feedAt).account == Run(a, SweepCalls(a, n, prices, feedAt))
    decreases n
  {
    if n > 0 {
      if !Hit(a.positions[n - 1], prices) {
        SweepIsItsCloses(a, n - 1, prices, feedAt);
      } else {
        var o := CloseWhole(a, n - 1, feedAt(n - 1));
        if o.Accepted? {
          SweepIsItsCloses(o.account, n - 1, feedAt(n - 1).prices, feedAt);
        }
      }
    }
  }

  lemma {:induction false} HistoryIsARun(a: Account, es: seq<Event>)
    requires Inv(a)
    ensures History(a, es) == Run(a, AllCalls(a, es))
    decreases |es|
  {
    if es != [] {
      var b := Happen(a, es[0]);
      HistoryIsARun(b, es[1..]);
      RunConcat(a, Calls(a, es[0]), AllCalls(b, es[1..]));
      match es[0]
      case Single(call) => assert Calls(a, es[0])[1..] == [];
      case Sweep(prices, feedAt) => SweepIsItsCloses(a, |a.positions|, prices, feedAt);
    }
  }
}
