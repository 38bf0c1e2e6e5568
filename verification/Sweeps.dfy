/**
 * The take-profit / stop-loss sweep. It walks the list it splices, each close refreshes the prices the
 * rest of the walk sees, and a close that finds no price ends it. What it does is read off the positions
 * alone: which are kept, what the closed ones settle for, and whether it was cut short.
 */
module Sweeps {
  import opened Wrappers
  import opened Ledger
  import opened Invariant
  import opened Runs

  /** The positions a walk keeps, and what it adds to cash, realised profit and fees. */
  datatype Tally = Tally(kept: seq<Position>, credited: real, pnl: real, fees: real, error: Option<Error>)

  /** The walk over positions n - 1, ..., 0; each hit one settles as if it were closed on its own. */
  function Walk(ps: seq<Position>, n: nat, prices: Prices, feedAt: nat -> Feed): Tally
    requires AllHealthy(ps) && n <= |ps|
    decreases n
  {
    if n == 0 then Tally([], 0.0, 0.0, 0.0, None)
    else
      var p, feed := ps[n - 1], feedAt(n - 1);
      if !Hit(p, prices) then
        var rest := Walk(ps, n - 1, prices, feedAt);
        rest.(kept := rest.kept + [p])
      else if !Priced(feed.prices, p.market) then Tally(ps[..n], 0.0, 0.0, 0.0, Some(NoPrice))
      else
        var c := Figures(p, CLOSE_ALL, feed.prices[p.market], feed.rates.close);
        var rest := Walk(ps, n - 1, feed.prices, feedAt);
        Tally(rest.kept, rest.credited + c.Credited(), rest.pnl + c.pnl, rest.fees + c.fee, rest.error)
  }

  lemma CloseNamed(a: Account, i: nat, feed: Feed)
    requires Inv(a) && i < |a.positions|
    ensures var o := CloseWhole(a, i, feed);
            var p := a.positions[i];
            && (o.Rejected? <==> !Priced(feed.prices, p.market)) && (o.Rejected? ==> o.error == NoPrice)
            && (o.Accepted? ==>
                  var c := Figures(p, CLOSE_ALL, feed.prices[p.market], feed.rates.close);
                  && o.account.balance == a.balance + c.Credited() && o.account.realizedPnl == a.realizedPnl + c.pnl
                  && o.account.feesPaid == a.feesPaid + c.fee)
  {
    hide Figures;
    FindNamed(a.positions, i);
  }

  lemma {:induction false} WalkPrefix(ps: seq<Position>, qs: seq<Position>, n: nat, prices: Prices, feedAt: nat -> Feed)
    requires AllHealthy(ps) && AllHealthy(qs) && n <= |ps| && n <= |qs| && ps[..n] == qs[..n]
    ensures Walk(ps, n, prices, feedAt) == Walk(qs, n, prices, feedAt)
    decreases n
  {
    hide Figures, Hit, AllHealthy;
    if n > 0 {
      assert ps[n - 1] == ps[..n][n - 1] == qs[..n][n - 1] == qs[n - 1];
      assert ps[..n - 1] == ps[..n][..n - 1] == qs[..n][..n - 1] == qs[..n - 1];
      WalkPrefix(ps, qs, n - 1, prices, feedAt);
      WalkPrefix(ps, qs, n - 1, feedAt(n - 1).prices, feedAt);
    }
  }

  /** The walk does to the account what the tally says, whatever the refreshes bring. */
  predicate Settles(a: Account, n: nat, r: Swept, t: Tally)
    requires n <= |a.positions|
  {
    && r.error == t.error && r.account.positions == t.kept + a.positions[n..]
    && r.account.balance == a.balance + t.credited
    && r.account.realizedPnl == a.realizedPnl + t.pnl && r.account.feesPaid == a.feesPaid + t.fees
  }

  /** A sweep over the first n positions, for all prices before it and all feeds during it. */
  lemma {:induction false} SweepSettles(a: Account, n: nat, prices: Prices, feedAt: nat -> Feed)
    requires Inv(a) && n <= |a.positions|
    ensures Settles(a, n, SweepFrom(a, n, prices, feedAt), Walk(a.positions, n, prices, feedAt))
    decreases n, 1
  {
    InvHealthy(a);
    if n == 0 {
      assert a.positions[0..] == a.positions;
    } else {
      hide Inv, Hit, Walk, SweepFrom, Settles;
      if Hit(a.positions[n - 1], prices) {
        HitSettles(a, n, prices, feedAt);
      } else {
        MissSettles(a, n, prices, feedAt);
      }
    }
  }

  lemma {:induction false} MissSettles(a: Account, n: nat, prices: Prices, feedAt: nat -> Feed)
    requires Inv(a) && 0 < n <= |a.positions| && !Hit(a.positions[n - 1], prices)
    ensures Settles(a, n, SweepFrom(a, n, prices, feedAt), Walk(a.positions, n, prices, feedAt))
    decreases n, 0
  {
    InvHealthy(a);
    hide Inv, Hit, CloseWhole, Figures, AllHealthy, Distinct;
    var ps := a.positions;
    var t := Walk(ps, n - 1, prices, feedAt);
    SweepSettles(a, n - 1, prices, feedAt);
    assert t.kept + ps[n - 1..] == t.kept + [ps[n - 1]] + ps[n..];
  }

  lemma {:induction false} HitSettles(a: Account, n: nat, prices: Prices, feedAt: nat -> Feed)
    requires Inv(a) && 0 < n <= |a.positions| && Hit(a.positions[n - 1], prices)
    ensures Settles(a, n, SweepFrom(a, n, prices, feedAt), Walk(a.positions, n, prices, feedAt))
    decreases n, 0
  {
    hide Inv, Hit, CloseWhole, Figures;
    var ps := a.positions;
    CloseNamed(a, n - 1, feedAt(n - 1));
    var o := CloseWhole(a, n - 1, feedAt(n - 1));
    if o.Rejected? {
      assert ps[..n] + ps[n..] == ps;
    } else {
      var b := o.account;
      assert b.positions[..n - 1] == ps[..n - 1];
      assert b.positions[n - 1..] == ps[n..];
      InvHealthy(a);
      InvHealthy(b);
      WalkPrefix(ps, b.positions, n - 1, feedAt(n - 1).prices, feedAt);
      SweepSettles(b, n - 1, feedAt(n - 1).prices, feedAt);
    }
  }

  lemma InvHealthy(a: Account)
    requires Inv(a)
    ensures AllHealthy(a.positions) && Distinct(a.positions)
  {
  }

  // ---- Which positions are closed ----

  /** The prices the sweep looks at when it reaches position i; None if a close before it threw. */
  function TableAt(ps: seq<Position>, n: nat, prices: Prices, feedAt: nat -> Feed, i: nat): Option<Prices>
    requires i < n <= |ps|
    decreases n
  {
    var p, next := ps[n - 1], feedAt(n - 1).prices;
    if n - 1 == i then Some(prices)
    else if !Hit(p, prices) then TableAt(ps, n - 1, prices, feedAt, i)
    else if !Priced(next, p.market) then None
    else TableAt(ps, n - 1, next, feedAt, i)
  }

  /** Position i is reached, hit at the prices then in force, and its own refresh brings a price. */
  predicate IsClosed(ps: seq<Position>, n: nat, prices: Prices, feedAt: nat -> Feed, i: nat)
    requires i < n <= |ps|
  {
    && TableAt(ps, n, prices, feedAt, i).Some?
    && Hit(ps[i], TableAt(ps, n, prices, feedAt, i).value)
    && Priced(feedAt(i).prices, ps[i].market)
  }

  lemma {:induction false} WalkKeepsSome(ps: seq<Position>, n: nat, prices: Prices, feedAt: nat -> Feed)
    requires AllHealthy(ps) && n <= |ps|
    ensures forall p :: p in Walk(ps, n, prices, feedAt).kept ==> p in ps[..n]
    decreases n
  {
    hide Figures, Hit, AllHealthy;
    if n > 0 {
      assert ps[..n] == ps[..n - 1] + [ps[n - 1]];
      WalkKeepsSome(ps, n - 1, prices, feedAt);
      WalkKeepsSome(ps, n - 1, feedAt(n - 1).prices, feedAt);
    }
  }

  lemma OthersDiffer(ps: seq<Position>, i: nat, k: nat)
    requires Distinct(ps) && i < |ps| && k <= |ps|
    ensures ps[i] in ps[..k] ==> i < k
  {
    if k <= i {
      forall j | 0 <= j < k ensures ps[j] != ps[i] {
        assert !ps[j].Names(ps[i].market, ps[i].side);
      }
    }
  }

  lemma {:induction false} WalkClosesExactly(ps: seq<Position>, n: nat, prices: Prices, feedAt: nat -> Feed, i: nat)
    requires AllHealthy(ps) && Distinct(ps) && i < n <= |ps|
    ensures ps[i] in Walk(ps, n, prices, feedAt).kept <==> !IsClosed(ps, n, prices, feedAt, i)
    decreases n
  {
    hide Figures, Hit, AllHealthy, Distinct;
    var next := feedAt(n - 1).prices;
    assert ps[..n][i] == ps[i];
    if n - 1 == i {
      WalkKeepsSome(ps, i, next, feedAt);
      OthersDiffer(ps, i, i);
    } else {
      assert ps[n - 1] != ps[i] by {
        assert ps[..n - 1][i] == ps[i];
        OthersDiffer(ps, n - 1, n - 1);
      }
      WalkClosesExactly(ps, n - 1, prices, feedAt, i);
      WalkClosesExactly(ps, n - 1, next, feedAt, i);
    }
  }

  /**
   * For all prices and refreshes: a full sweep closes position i if and only if it gets there, the price
   * then in force has reached a trigger, and the refresh of the close itself brings a price.
   */
  lemma SweepClosesExactly(a: Account, i: nat, prices: Prices, feedAt: nat -> Feed)
    requires Inv(a) && i < |a.positions|
    ensures a.positions[i] in Happen(a, Sweep(prices, feedAt)).positions <==>
            !IsClosed(a.positions, |a.positions|, prices, feedAt, i)
  {
    var ps := a.positions;
    InvHealthy(a);
    SweepSettles(a, |ps|, prices, feedAt);
    WalkClosesExactly(ps, |ps|, prices, feedAt, i);
    hide Walk, IsClosed, Inv;
    assert ps[|ps|..] == [];
  }

  // ---- At fixed prices ----

  function Survivors(ps: seq<Position>, prices: Prices): seq<Position> {
    if ps == [] then []
    else
      var n := |ps| - 1;
      Survivors(ps[..n], prices) + if Hit(ps[n], prices) then [] else [ps[n]]
  }

  /** The client only ever stores positive prices. */
  predicate Positive(prices: Prices) {
    forall m :: m in prices ==> prices[m] > 0.0
  }

  ghost predicate FixedPrices(prices: Prices, feedAt: nat -> Feed) {
    forall i: nat :: feedAt(i).prices == prices
  }

  lemma {:induction false} WalkAtFixedPrices(ps: seq<Position>, n: nat, prices: Prices, feedAt: nat -> Feed)
    requires AllHealthy(ps) && n <= |ps| && Positive(prices) && FixedPrices(prices, feedAt)
    ensures var t := Walk(ps, n, prices, feedAt); t.error.None? && t.kept == Survivors(ps[..n], prices)
    decreases n
  {
    hide Figures, AllHealthy;
    if n > 0 {
      assert ps[..n][..n - 1] == ps[..n - 1];
      WalkAtFixedPrices(ps, n - 1, prices, feedAt);
    }
  }

  /** A full sweep: exactly the unhit positions remain, in order, and the hit ones are settled. */
  lemma SweepClosesExactlyTheHit(a: Account, prices: Prices, feedAt: nat -> Feed)
    requires Inv(a) && Positive(prices) && FixedPrices(prices, feedAt)
    ensures var b := Happen(a, Sweep(prices, feedAt));
            && b.positions == Survivors(a.positions, prices)
            && b.balance == a.balance + Walk(a.positions, |a.positions|, prices, feedAt).credited
    ensures forall p :: p in Happen(a, Sweep(prices, feedAt)).positions <==> p in a.positions && !Hit(p, prices)
  {
    InvHealthy(a);
    var n := |a.positions|;
    SweepSettles(a, n, prices, feedAt);
    WalkAtFixedPrices(a.positions, n, prices, feedAt);
    SurvivorsAreTheUnhit(a.positions, prices);
    hide Walk, Survivors, Hit, Inv;
    assert a.positions[..n] == a.positions && a.positions[n..] == [];
  }

  lemma {:induction false} SurvivorsAreTheUnhit(ps: seq<Position>, prices: Prices)
    ensures forall p :: p in Survivors(ps, prices) <==> p in ps && !Hit(p, prices)
  {
    hide Hit;
    if ps != [] {
      var n := |ps| - 1;
      assert ps == ps[..n] + [ps[n]];
      SurvivorsAreTheUnhit(ps[..n], prices);
    }
  }

  /** With nothing hit a sweep changes nothing, whatever the feeds would have been. */
  lemma {:induction false} NothingHit(a: Account, n: nat, prices: Prices, feedAt: nat -> Feed)
    requires Inv(a) && n <= |a.positions| && forall i :: 0 <= i < n ==> !Hit(a.positions[i], prices)
    ensures SweepFrom(a, n, prices, feedAt) == Swept(a, None)
    decreases n
  {
    hide Inv, Hit;
    if n > 0 { NothingHit(a, n - 1, prices, feedAt); }
  }

  /** Sweeping again at the same prices does nothing. */
  lemma SweepIsIdempotent(a: Account, prices: Prices, feedAt: nat -> Feed)
    requires Inv(a) && Positive(prices) && FixedPrices(prices, feedAt)
    ensures var b := Happen(a, Sweep(prices, feedAt)); Happen(b, Sweep(prices, feedAt)) == b
  {
    SweepClosesExactlyTheHit(a, prices, feedAt);
    var b := Happen(a, Sweep(prices, feedAt));
    hide Hit, Walk, Survivors;
    forall i | 0 <= i < |b.positions| ensures !Hit(b.positions[i], prices) {
      assert b.positions[i] in b.positions;
    }
    NothingHit(b, |b.positions|, prices, feedAt);
  }

  // ---- What marks do ----

  /** The price has reached the profit target or fallen to the stop, seen from the position's side. */
  predicate Crossed(side: Side, price: real, takeProfit: real, stopLoss: real) {
    if side.Long? then price >= takeProfit || price <= stopLoss else price <= takeProfit || price >= stopLoss
  }

  /**
   * After both marks of a position are set, a sweep closes it if and only if the sweep gets there, the
   * market has a price by then that has crossed a mark, and the close itself finds a price.
   */
  lemma SetMarksDecideTheSweep(a: Account, m: Market, s: Side, tp: real, sl: real, prices: Prices, feedAt: nat -> Feed)
    requires Inv(a) && Find(a.positions, m, s) < |a.positions|
    ensures var b := DoSetTpSl(a, m, s, Some(tp), Some(sl)).account;
            var i := Find(a.positions, m, s);
            && Inv(b) && |b.positions| == |a.positions|
            && var table := TableAt(b.positions, |b.positions|, prices, feedAt, i);
               (b.positions[i] !in Happen(b, Sweep(prices, feedAt)).positions <==>
                && table.Some? && m in table.value && table.value[m] != 0.0 && Crossed(s, table.value[m], tp, sl)
                && Priced(feedAt(i).prices, m))
  {
    TriggersKeepInv(a, m, s, Some(tp), Some(sl));
    var b := DoSetTpSl(a, m, s, Some(tp), Some(sl)).account;
    var i := Find(a.positions, m, s);
    SweepClosesExactly(b, i, prices, feedAt);
    MarksAreTriggers(b.positions[i], tp, sl);
    hide Hit, DoSetTpSl, Inv, Happen, TableAt, Crossed;
  }

  lemma MarksAreTriggers(p: Position, tp: real, sl: real)
    requires p.takeProfit == Some(tp) && p.stopLoss == Some(sl)
    ensures forall table: Prices :: Hit(p, table) <==>
              p.market in table && table[p.market] != 0.0 && Crossed(p.side, table[p.market], tp, sl)
  {
  }

  /**
   * With a stop-loss and no take-profit, a sweep closes the position if and only if it gets there, the price
   * then in force has fallen to the stop (for a short, risen to it), and the close itself finds a price.
   */
  lemma StopLossDecidesTheSweep(a: Account, i: nat, stop: real, prices: Prices, feedAt: nat -> Feed)
    requires Inv(a) && i < |a.positions|
    requires a.positions[i].takeProfit == None && a.positions[i].stopLoss == Some(stop)
    ensures var p := a.positions[i];
            var table := TableAt(a.positions, |a.positions|, prices, feedAt, i);
            p !in Happen(a, Sweep(prices, feedAt)).positions <==>
            && table.Some? && p.market in table.value && table.value[p.market] != 0.0
            && (if p.side == Long then table.value[p.market] <= stop else table.value[p.market] >= stop)
            && p.market in feedAt(i).prices && feedAt(i).prices[p.market] > 0.0
  {
    SweepClosesExactly(a, i, prices, feedAt);
    hide Inv, Happen, TableAt;
  }

  /** The same for a take-profit and no stop-loss: the price has risen to the target (for a short, fallen to it). */
  lemma TakeProfitDecidesTheSweep(a: Account, i: nat, target: real, prices: Prices, feedAt: nat -> Feed)
    requires Inv(a) && i < |a.positions|
    requires a.positions[i].takeProfit == Some(target) && a.positions[i].stopLoss == None
    ensures var p := a.positions[i];
            var table := TableAt(a.positions, |a.positions|, prices, feedAt, i);
            p !in Happen(a, Sweep(prices, feedAt)).positions <==>
            && table.Some? && p.market in table.value && table.value[p.market] != 0.0
            && (if p.side == Long then table.value[p.market] >= target else table.value[p.market] <= target)
            && p.market in feedAt(i).prices && feedAt(i).prices[p.market] > 0.0
  {
    SweepClosesExactly(a, i, prices, feedAt);
    hide Inv, Happen, TableAt;
  }

  /**
   * At fixed prices, said of the prices alone: the sweep drops a position with one mark if and only if its
   * market has a price and the price has reached that mark.
   */
  lemma OneMarkDecidesAtFixedPrices(a: Account, p: Position, mark: real, prices: Prices, feedAt: nat -> Feed)
    requires Inv(a) && p in a.positions && Positive(prices) && FixedPrices(prices, feedAt)
    ensures p.takeProfit == Some(mark) && p.stopLoss == None ==>
              (p !in Happen(a, Sweep(prices, feedAt)).positions <==>
               p.market in prices && if p.side == Long then prices[p.market] >= mark else prices[p.market] <= mark)
    ensures p.takeProfit == None && p.stopLoss == Some(mark) ==>
              (p !in Happen(a, Sweep(prices, feedAt)).positions <==>
               p.market in prices && if p.side == Long then prices[p.market] <= mark else prices[p.market] >= mark)
  {
    SweepClosesExactlyTheHit(a, prices, feedAt);
    hide Inv, Happen, Walk, Survivors;
  }

  /** A position whose marks were removed survives every sweep, whatever the prices do and whatever throws. */
  lemma RemovedMarksSurvive(a: Account, m: Market, s: Side, prices: Prices, feedAt: nat -> Feed)
    requires Inv(a) && Find(a.positions, m, s) < |a.positions|
    ensures var b := DoRemoveTpSl(a, m, s).account;
            && Inv(b) && |b.positions| == |a.positions|
            && b.positions[Find(a.positions, m, s)] in Happen(b, Sweep(prices, feedAt)).positions
  {
    TriggersKeepInv(a, m, s, None, None);
    var b := DoRemoveTpSl(a, m, s).account;
    SweepClosesExactly(b, Find(a.positions, m, s), prices, feedAt);
    hide DoRemoveTpSl, Inv, Happen, TableAt;
  }
}
