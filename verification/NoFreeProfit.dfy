/**
 * While prices stand still, no run of operations makes the account richer: balance plus locked
 * collateral never increases. Fills are never better than the price, so a long's entry stays at or
 * above it and a short's at or below it, through every merge.
 *
 * The close operation itself accepts a negative percentage or amount. That is the one way the
 * property can fail, and it fails every time (NegativeCloseMintsEquity, EquityRisesIffNegative).
 */
module NoFreeProfit {
  import opened Wrappers
  import opened RealArith
  import opened Ledger
  import opened Invariant
  import opened Runs
  import opened Conservation

  function Equity(a: Account): real { a.balance + SumCollateral(a.positions) }

  /** p was not entered at a better price than the standing one. */
  predicate NotBetterThan(p: Position, prices: Prices) {
    && p.market in prices
    && if p.side.Long? then p.entry >= prices[p.market] else p.entry <= prices[p.market]
  }

  predicate NoneBetterThan(ps: seq<Position>, prices: Prices) {
    forall i :: 0 <= i < |ps| ==> NotBetterThan(ps[i], prices)
  }

  /** Everything the feed quotes is quoted at the standing price. */
  predicate Standing(feed: Feed, prices: Prices) {
    forall m :: m in feed.prices ==> m in prices && feed.prices[m] == prices[m]
  }

  /** The request does not ask to close a negative part: a guard the callers can check. */
  predicate AsksNonNegative(r: CloseRequest) {
    if ByPercent(r) then r.percent.value >= 0.0 else r.amount.Some? ==> r.amount.value >= 0.0
  }

  /** The request asks for a negative part, and leaves at least the dust limit of a position of this size. */
  predicate Reopening(r: CloseRequest, size: real)
    requires size > 0.0
  {
    !AsksNonNegative(r) && size * (1.0 - RequestedFraction(r, size)) >= DUST_USD
  }

  predicate NonNegativeCall(call: Call) {
    call.op.Close? ==> AsksNonNegative(call.op.request)
  }

  lemma FillNotBetter(feed: Feed, m: Market, s: Side)
    requires Priced(feed.prices, m)
    ensures if s.Long? then FillPrice(feed, m, s) >= feed.prices[m] else FillPrice(feed, m, s) <= feed.prices[m]
  {
    var shift := feed.slippageBps as real / 10000.0;
    MulNonNegative(feed.prices[m], shift);
    assert feed.prices[m] * (1.0 + shift) == feed.prices[m] + feed.prices[m] * shift;
    assert feed.prices[m] * (1.0 - shift) == feed.prices[m] - feed.prices[m] * shift;
  }

  lemma MergeNotBetter(p: Position, fill: real, size: real, collateral: real, leverage: real, fee: real, rates: Rates,
                       prices: Prices)
    requires Healthy(p) && size > 0.0 && NotBetterThan(p, prices)
    requires if p.side.Long? then fill >= prices[p.market] else fill <= prices[p.market]
    ensures NotBetterThan(Merge(p, fill, size, collateral, leverage, fee, rates), prices)
  {
    hide LiquidationPrice;
    if p.side.Long? {
      WeightedMeanAbove(p.entry, p.size, fill, size, prices[p.market]);
    } else {
      WeightedMeanBelow(p.entry, p.size, fill, size, prices[p.market]);
    }
  }

  /** At a price no better than the entry a position has no profit. */
  lemma NoProfit(p: Position, price: real)
    requires Healthy(p) && if p.side.Long? then p.entry >= price else p.entry <= price
    ensures Pnl(p.entry, p.size, p.side, price) <= 0.0
  {
    if p.side.Long? {
      DivNonNegative(p.entry - price, p.entry);
      MulNonNegative((p.entry - price) / p.entry, p.size);
      assert (price - p.entry) / p.entry == -((p.entry - price) / p.entry);
    } else {
      DivNonNegative(price - p.entry, p.entry);
      MulNonNegative((price - p.entry) / p.entry, p.size);
    }
  }

  lemma FractionSign(r: CloseRequest, size: real)
    requires size > 0.0
    ensures EffectiveFraction(r, size) >= 0.0 <==>
            AsksNonNegative(r) || size * (1.0 - RequestedFraction(r, size)) < DUST_USD
  {
    if !ByPercent(r) && r.amount.Some? {
      if r.amount.value >= 0.0 {
        DivNonNegative(r.amount.value, size);
      } else {
        DivPositive(-r.amount.value, size);
        assert r.amount.value / size == -(-r.amount.value / size);
      }
    }
  }

  /** A part f of collateral and loss pays back at most that part of the collateral, unless f is negative. */
  lemma PartCredit(collateral: real, pnl: real, f: real, part: real, partPnl: real, fee: real)
    requires collateral > 0.0 && pnl <= 0.0 && fee >= 0.0 && part == collateral * f && partPnl == pnl * f
    ensures FloorZero(part + partPnl - fee) <= part <==> f >= 0.0
  {
    if f >= 0.0 {
      MulNonNegative(collateral, f);
      MulNonNegative(-pnl, f);
      assert (-pnl) * f == -partPnl;
    } else {
      MulPositive(collateral, -f);
      assert collateral * (-f) == -part;
    }
  }

  /** What a close of fraction f leaves behind, for a position with no profit. */
  lemma CloseEquity(p: Position, r: CloseRequest, price: real, rate: real)
    requires Healthy(p) && Pnl(p.entry, p.size, p.side, price) <= 0.0
    ensures var c := Figures(p, r, price, rate);
            c.Credited() <= c.collateral <==> EffectiveFraction(r, p.size) >= 0.0
  {
    hide Pnl, FloorZero, EffectiveFraction, ClosesFully;
    var c, f := Figures(p, r, price, rate), EffectiveFraction(r, p.size);
    assert c.fee >= 0.0 by {
      if p.size * f > 0.0 && rate > 0.0 { MulPositive(p.size * f, rate); }
    }
    PartCredit(p.collateral, Pnl(p.entry, p.size, p.side, price), f, c.collateral, c.pnl, c.fee);
  }

  lemma FeeNonNegative(size: real, rate: real)
    ensures FeeUsd(size, rate) >= 0.0
  {
    if size > 0.0 && rate > 0.0 { MulPositive(size, rate); }
  }

  /**
   * Exactly when an accepted close at a standing price can raise the equity: when it asks for a
   * negative part, unless what would remain is below the dust limit and everything is closed.
   */
  lemma EquityRisesIffNegative(a: Account, feed: Feed, m: Market, s: Side, r: CloseRequest)
    requires Inv(a) && CloseError(a, feed, m, s, r).None?
    requires NotBetterThan(a.positions[Find(a.positions, m, s)], feed.prices)
    ensures var size := a.positions[Find(a.positions, m, s)].size;
            Equity(DoClose(a, feed, m, s, r).account) > Equity(a) <==> Reopening(r, size)
  {
    var p := a.positions[Find(a.positions, m, s)];
    NoProfit(p, feed.prices[m]);
    CloseMovesEquity(a, feed, m, s, r);
    hide Pnl, DoClose, Figures, EffectiveFraction, RequestedFraction, AsksNonNegative;
    CloseEquity(p, r, feed.prices[m], feed.rates.close);
    FractionSign(r, p.size);
  }

  lemma CloseMovesEquity(a: Account, feed: Feed, m: Market, s: Side, r: CloseRequest)
    requires Inv(a) && CloseError(a, feed, m, s, r).None?
    ensures var c := Figures(a.positions[Find(a.positions, m, s)], r, feed.prices[m], feed.rates.close);
            Equity(DoClose(a, feed, m, s, r).account) == Equity(a) - c.collateral + c.Credited()
  {
    SumClosed(a.positions, Find(a.positions, m, s), r, feed.prices[m], feed.rates.close);
    hide Figures, ClosedPositions, CloseTrade, Trim, FloorZero, AmountTooBig, SumCollateral;
  }

  /** A long opened at the price and "closed" by -100 percent: its collateral doubles, nothing is paid. */
  lemma NegativeCloseMintsEquity()
    ensures var p := Position("p", "SOL", Long, 100.0, 200.0, 100.0, 2.0, 0.0, 0.01, 0.0, None, None, None);
            var a := Account(0.0, [p], [], 0.0, 0.0);
            var feed := Feed(map["SOL" := 100.0], Rates(0.0, 0.0, 0.01), 0, 100.0, "q", "t");
            var r := CloseRequest(Some(-100.0), None);
            && Inv(a) && NoneBetterThan(a.positions, feed.prices)
            && CloseError(a, feed, "SOL", Long, r).None?
            && Equity(DoClose(a, feed, "SOL", Long, r).account) > Equity(a)
  {
    var p := Position("p", "SOL", Long, 100.0, 200.0, 100.0, 2.0, 0.0, 0.01, 0.0, None, None, None);
    var a := Account(0.0, [p], [], 0.0, 0.0);
    var feed := Feed(map["SOL" := 100.0], Rates(0.0, 0.0, 0.01), 0, 100.0, "q", "t");
    var r := CloseRequest(Some(-100.0), None);
    assert a.positions[0].Names("SOL", Long);
    assert Find(a.positions, "SOL", Long) == 0;
    assert RequestedFraction(r, 200.0) == -1.0;
    EquityRisesIffNegative(a, feed, "SOL", Long, r);
  }

  lemma OpenNoProfit(a: Account, feed: Feed, m: Market, s: Side, collateral: real, leverage: real, prices: Prices)
    requires Inv(a) && NoneBetterThan(a.positions, prices) && Standing(feed, prices)
    requires OpenError(a, feed, m, s, collateral, leverage).None?
    ensures var b := DoOpen(a, feed, m, s, collateral, leverage).account;
            Equity(b) <= Equity(a) && NoneBetterThan(b.positions, prices)
  {
    var size := SizeUsd(collateral, leverage);
    var fee := FeeUsd(size, feed.rates.open);
    FillNotBetter(feed, m, s);
    MulPositive(collateral, leverage);
    FeeNonNegative(size, feed.rates.open);
    SumOpened(a.positions, feed, m, s, collateral, leverage);
    var i := Find(a.positions, m, s);
    if i < |a.positions| {
      MergeNotBetter(a.positions[i], FillPrice(feed, m, s), size, collateral, leverage, fee, feed.rates, prices);
    }
  }

  /** Closing, even a negative part, leaves no entry better than it was. */
  lemma CloseKeepsEntries(a: Account, feed: Feed, m: Market, s: Side, r: CloseRequest, prices: Prices)
    requires Inv(a) && NoneBetterThan(a.positions, prices) && CloseError(a, feed, m, s, r).None?
    ensures NoneBetterThan(DoClose(a, feed, m, s, r).account.positions, prices)
  {
    hide Figures, Trim, CloseTrade, FloorZero, Inv;
  }

  /**
   * The call is an accepted close that asks for a negative part and leaves the position open. The tool
   * through which users close positions refuses such requests; the client itself does not.
   */
  predicate Mints(a: Account, call: Call)
    requires Inv(a)
  {
    && call.op.Close?
    && CloseError(a, call.feed, call.op.market, call.op.side, call.op.request).None?
    && Reopening(call.op.request, a.positions[Find(a.positions, call.op.market, call.op.side)].size)
  }

  lemma CloseMintsOrNot(a: Account, feed: Feed, m: Market, s: Side, r: CloseRequest, prices: Prices)
    requires Inv(a) && NoneBetterThan(a.positions, prices) && Standing(feed, prices)
    requires CloseError(a, feed, m, s, r).None?
    ensures var b := DoClose(a, feed, m, s, r).account;
            && NoneBetterThan(b.positions, prices)
            && (Equity(b) <= Equity(a) <==> !Mints(a, Call(Close(m, s, r), feed)))
  {
    CloseKeepsEntries(a, feed, m, s, r, prices);
    AtTheFeed(a.positions[Find(a.positions, m, s)], feed, prices);
    hide DoClose, Equity, NoneBetterThan, NotBetterThan, Standing, Reopening;
    EquityRisesIffNegative(a, feed, m, s, r);
  }

  lemma AtTheFeed(p: Position, feed: Feed, prices: Prices)
    requires NotBetterThan(p, prices) && Standing(feed, prices) && p.market in feed.prices
    ensures NotBetterThan(p, feed.prices)
  {
  }

  /** One call at standing prices: entries stay no better, and the equity rises exactly in a minting close. */
  lemma StepNoProfit(a: Account, call: Call, prices: Prices)
    requires Inv(a) && NoneBetterThan(a.positions, prices) && Standing(call.feed, prices)
    ensures var b := Happen(a, Single(call));
            NoneBetterThan(b.positions, prices) && (Equity(b) <= Equity(a) <==> !Mints(a, call))
  {
    if Step(a, call.op, call.feed).Accepted? {
      match call.op
      case Open(m, s, collateral, leverage) => OpenNoProfit(a, call.feed, m, s, collateral, leverage, prices);
      case Close(m, s, r) => CloseMintsOrNot(a, call.feed, m, s, r, prices);
      case _ => OtherStepNoProfit(a, call, prices);
    }
  }

  lemma OtherStepNoProfit(a: Account, call: Call, prices: Prices)
    requires Inv(a) && NoneBetterThan(a.positions, prices) && !call.op.Open? && !call.op.Close?
    ensures var b := Happen(a, Single(call)); NoneBetterThan(b.positions, prices) && Equity(b) <= Equity(a)
  {
    StepBook(a, call);
    hide Trim, CollateralTrade, WouldBeLiquidated;
  }

  /** The equity does not rise at any of the calls. */
  predicate NeverRises(a: Account, calls: seq<Call>)
    requires Inv(a)
    decreases |calls|
  {
    calls == [] ||
    var b := Happen(a, Single(calls[0])); Equity(b) <= Equity(a) && NeverRises(b, calls[1..])
  }

  predicate NeverMints(a: Account, calls: seq<Call>)
    requires Inv(a)
    decreases |calls|
  {
    calls == [] || (!Mints(a, calls[0]) && NeverMints(Happen(a, Single(calls[0])), calls[1..]))
  }

  ghost predicate AllStanding(calls: seq<Call>, prices: Prices) {
    forall i :: 0 <= i < |calls| ==> Standing(calls[i].feed, prices)
  }

  /**
   * Exactly when standing prices keep a run from making the account richer: the equity rises at no call
   * if and only if no call is, in the account it meets, a minting close.
   */
  lemma {:induction false} EquityNeverRisesExactlyWithoutMinting(a: Account, calls: seq<Call>, prices: Prices)
    requires Inv(a) && NoneBetterThan(a.positions, prices) && AllStanding(calls, prices)
    ensures NeverRises(a, calls) <==> NeverMints(a, calls)
    ensures NoneBetterThan(Run(a, calls).positions, prices)
    ensures NeverMints(a, calls) ==> Equity(Run(a, calls)) <= Equity(a)
    decreases |calls|
  {
    hide Equity, Mints, NoneBetterThan, Standing;
    if calls != [] {
      StepNoProfit(a, calls[0], prices);
      EquityNeverRisesExactlyWithoutMinting(Happen(a, Single(calls[0])), calls[1..], prices);
    }
  }

  /** Calls without negative closes never mint, so no such run ends with more equity. */
  lemma {:induction false} RunNoProfit(a: Account, calls: seq<Call>, prices: Prices)
    requires Inv(a) && NoneBetterThan(a.positions, prices)
    requires forall c :: c in calls ==> Standing(c.feed, prices) && NonNegativeCall(c)
    ensures NeverMints(a, calls) && NeverRises(a, calls)
    ensures Equity(Run(a, calls)) <= Equity(a) && NoneBetterThan(Run(a, calls).positions, prices)
  {
    assert AllStanding(calls, prices);
    NonNegativeNeverMints(a, calls);
    hide Equity, NoneBetterThan, Standing;
    EquityNeverRisesExactlyWithoutMinting(a, calls, prices);
  }

  lemma {:induction false} NonNegativeNeverMints(a: Account, calls: seq<Call>)
    requires Inv(a) && forall c :: c in calls ==> NonNegativeCall(c)
    ensures NeverMints(a, calls)
    decreases |calls|
  {
    if calls != [] {
      assert calls[0] in calls && forall c :: c in calls[1..] ==> c in calls;
      NonNegativeNeverMints(Happen(a, Single(calls[0])), calls[1..]);
      hide AsksNonNegative;
    }
  }

  ghost predicate StandingEvent(e: Event, prices: Prices) {
    match e
    case Single(call) => Standing(call.feed, prices) && NonNegativeCall(call)
    case Sweep(_, feedAt) => forall i: nat :: Standing(feedAt(i), prices)
  }

  lemma {:induction false} StandingCalls(a: Account, es: seq<Event>, prices: Prices)
    requires Inv(a) && forall e :: e in es ==> StandingEvent(e, prices)
    ensures forall c :: c in AllCalls(a, es) ==> Standing(c.feed, prices) && NonNegativeCall(c)
    decreases |es|
  {
    if es != [] {
      assert StandingEvent(es[0], prices);
      StandingCalls(Happen(a, es[0]), es[1..], prices);
    }
  }

  /**
   * From a new account, in every run with standing prices and no negative close, the equity never
   * exceeds the initial balance, and neither does the cash.
   */
  lemma NoProfitWithoutPriceMovement(initialBalance: real, es: seq<Event>, prices: Prices)
    requires initialBalance >= 0.0
    requires forall e :: e in es ==> StandingEvent(e, prices)
    ensures var b := History(Fresh(initialBalance), es);
            Equity(b) <= initialBalance && b.balance <= initialBalance
  {
    var a := Fresh(initialBalance);
    HistoryIsARun(a, es);
    StandingCalls(a, es, prices);
    RunNoProfit(a, AllCalls(a, es), prices);
    CollateralNonNegative(History(a, es).positions);
  }

  lemma CollateralNonNegative(ps: seq<Position>)
    requires AllHealthy(ps)
    ensures SumCollateral(ps) >= 0.0
  {
    if ps != [] { CollateralNonNegative(ps[1..]); }
  }
}
