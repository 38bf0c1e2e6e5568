/**
 * What every operation keeps: a non-negative balance, one position per (market, side), positive
 * sizes, collateral and entries, leverage equal to size over collateral, and a bounded history.
 */
module Invariant {
  import opened Wrappers
  import opened RealArith
  import opened Ledger

  lemma FreshIsHealthy(m: Market, s: Side, fill: real, collateral: real, leverage: real, fee: real, feed: Feed)
    requires fill > 0.0 && collateral > 0.0 && leverage > 0.0
    ensures var p := FreshPosition(m, s, fill, collateral, leverage, fee, feed); Healthy(p) && p.Names(m, s)
  {
    MulPositive(collateral, leverage);
    assert leverage * collateral == collateral * leverage;
    DivUnique(collateral * leverage, collateral, leverage);
  }

  lemma MergeIsHealthy(p: Position, fill: real, size: real, collateral: real, leverage: real, fee: real, rates: Rates)
    requires Healthy(p) && fill > 0.0 && size > 0.0 && collateral > 0.0
    ensures var q := Merge(p, fill, size, collateral, leverage, fee, rates); Healthy(q) && q.Names(p.market, p.side)
  {
    MulPositive(p.entry, p.size);
    MulPositive(fill, size);
    DivPositive(p.entry * p.size + fill * size, p.size + size);
    DivPositive(p.size + size, p.collateral + collateral);
  }

  /** A partial close scales size and collateral alike, so the leverage does not move. */
  lemma PartialCloseKeepsLeverage(p: Position, r: CloseRequest, price: real, rate: real)
    requires Healthy(p) && !ClosesFully(r, p.size)
    ensures var c := Figures(p, r, price, rate);
            var q := Reduced(p, c.size, c.collateral);
            Healthy(q) && q.leverage == p.leverage && q.size >= 0.5
  {
    var f := EffectiveFraction(r, p.size);
    var k := 1.0 - f;
    assert p.size - p.size * f == p.size * k;
    assert p.collateral - p.collateral * f == p.collateral * k;
    DivCancel(p.size, p.collateral, k);
  }

  lemma RemovalKeepsDistinct(ps: seq<Position>, i: nat)
    requires i < |ps| && Distinct(ps)
    ensures Distinct(ps[..i] + ps[i + 1..])
  {
    var qs := ps[..i] + ps[i + 1..];
    forall j, k | 0 <= j < k < |qs| ensures !qs[j].Names(qs[k].market, qs[k].side) {
      var j', k' := if j < i then j else j + 1, if k < i then k else k + 1;
      assert qs[j] == ps[j'] && qs[k] == ps[k'];
    }
  }

  lemma OpenKeepsInv(a: Account, feed: Feed, m: Market, s: Side, collateral: real, leverage: real)
    requires Inv(a) && OpenError(a, feed, m, s, collateral, leverage).None?
    ensures Inv(DoOpen(a, feed, m, s, collateral, leverage).account)
  {
    hide Merge, FreshPosition, Healthy, FillPrice, LiquidationPrice;
    var fill := FillPrice(feed, m, s);
    var fee := FeeUsd(SizeUsd(collateral, leverage), feed.rates.open);
    MulPositive(collateral, leverage);
    var i := Find(a.positions, m, s);
    if i < |a.positions| {
      MergeIsHealthy(a.positions[i], fill, SizeUsd(collateral, leverage), collateral, leverage, fee, feed.rates);
    } else {
      FreshIsHealthy(m, s, fill, collateral, leverage, fee, feed);
    }
  }

  lemma CloseKeepsInv(a: Account, feed: Feed, m: Market, s: Side, r: CloseRequest)
    requires Inv(a) && CloseError(a, feed, m, s, r).None?
    ensures Inv(DoClose(a, feed, m, s, r).account)
  {
    var i := Find(a.positions, m, s);
    var p := a.positions[i];
    if ClosesFully(r, p.size) {
      RemovalKeepsDistinct(a.positions, i);
    } else {
      PartialCloseKeepsLeverage(p, r, feed.prices[m], feed.rates.close);
    }
  }

  lemma UpdateKeepsNames(ps: seq<Position>, i: nat, q: Position)
    requires i < |ps| && AllHealthy(ps) && Distinct(ps) && Healthy(q) && q.Names(ps[i].market, ps[i].side)
    ensures AllHealthy(ps[i := q]) && Distinct(ps[i := q])
  {
    hide Healthy;
  }

  /** Collateral changes read nothing from outside but the price table. */
  lemma CollateralKeepsInv(a: Account, prices: Prices, m: Market, s: Side, amount: real)
    requires Inv(a)
    ensures Inv(DoAddCollateral(a, prices, m, s, amount).After(a))
    ensures Inv(DoRemoveCollateral(a, prices, m, s, amount).After(a))
  {
    var i := Find(a.positions, m, s);
    if i < |a.positions| {
      var p := a.positions[i];
      if amount > 0.0 { UpdateKeepsNames(a.positions, i, WithCollateral(p, p.collateral + amount)); }
      if amount < p.collateral { UpdateKeepsNames(a.positions, i, WithCollateral(p, p.collateral - amount)); }
    }
    hide AllHealthy, Distinct, Healthy, WithCollateral, WouldBeLiquidated, CollateralTrade;
  }

  lemma TriggersKeepInv(a: Account, m: Market, s: Side, tp: Option<real>, sl: Option<real>)
    requires Inv(a)
    ensures Inv(DoSetTpSl(a, m, s, tp, sl).After(a)) && Inv(DoRemoveTpSl(a, m, s).After(a))
  {
    var i := Find(a.positions, m, s);
    if i < |a.positions| {
      UpdateKeepsNames(a.positions, i, DoSetTpSl(a, m, s, tp, sl).account.positions[i]);
      UpdateKeepsNames(a.positions, i, DoRemoveTpSl(a, m, s).account.positions[i]);
    }
    hide AllHealthy, Distinct, Healthy;
  }

  /** Every operation, accepted or rejected, keeps the invariant; no input is excluded. */
  lemma StepKeepsInv(a: Account, op: Op, feed: Feed)
    requires Inv(a)
    ensures Inv(Step(a, op, feed).After(a))
  {
    match op
    case Open(m, s, collateral, leverage) => OpenOrNotKeepsInv(a, feed, m, s, collateral, leverage);
    case Close(m, s, r) => CloseOrNotKeepsInv(a, feed, m, s, r);
    case AddCollateral(m, s, amount) => CollateralKeepsInv(a, feed.prices, m, s, amount);
    case RemoveCollateral(m, s, amount) => CollateralKeepsInv(a, feed.prices, m, s, amount);
    case SetTpSl(m, s, tp, sl) => TriggersKeepInv(a, m, s, tp, sl);
    case RemoveTpSl(m, s) => TriggersKeepInv(a, m, s, None, None);
  }

  lemma OpenOrNotKeepsInv(a: Account, feed: Feed, m: Market, s: Side, collateral: real, leverage: real)
    requires Inv(a)
    ensures Inv(DoOpen(a, feed, m, s, collateral, leverage).After(a))
  {
    if OpenError(a, feed, m, s, collateral, leverage).None? { OpenKeepsInv(a, feed, m, s, collateral, leverage); }
    hide Inv, OpenError, FillPrice, FeeUsd, SizeUsd, LeverageLiquidationPrice, OpenedPositions, OpenTrade, Trim, Find;
  }

  lemma CloseOrNotKeepsInv(a: Account, feed: Feed, m: Market, s: Side, r: CloseRequest)
    requires Inv(a)
    ensures Inv(DoClose(a, feed, m, s, r).After(a))
  {
    if CloseError(a, feed, m, s, r).None? { CloseKeepsInv(a, feed, m, s, r); }
    hide Figures, ClosedPositions, CloseTrade, Trim, FloorZero, AllHealthy, Distinct;
  }

  // ---- Liquidation prices ----

  /** The leverage form of the liquidation price agrees with the size-and-collateral form. */
  lemma LiquidationFormsAgree(entry: real, size: real, collateral: real, side: Side, margin: real, closeFee: real)
    requires size > 0.0 && collateral > 0.0
    ensures LeverageLiquidationPrice(entry, size / collateral, side, margin, closeFee)
         == LiquidationPrice(entry, size, collateral, side, margin, closeFee)
  {
    DivPositive(size, collateral);
    var leverage := size / collateral;
    var unit := 1.0 / leverage;
    DivPositive(1.0, leverage);
    assert unit * size == collateral by {
      assert leverage * collateral == size;
      assert unit * leverage == 1.0;
      assert unit * (leverage * collateral) == (unit * leverage) * collateral;
    }
    var perUnit := unit - margin - closeFee;
    var available := collateral - size * margin - size * closeFee;
    assert perUnit * size == unit * size - margin * size - closeFee * size;
    assert perUnit * size == available;
    DivUnique(available, size, perUnit);
    if available > 0.0 {
      MulCancel(0.0, perUnit, size);
    } else if perUnit > 0.0 {
      MulPositive(perUnit, size);
    }
  }

  lemma LiquidationIsOnTheLosingSide(fill: real, leverage: real, s: Side, margin: real, closeFee: real)
    requires leverage > 0.0 && LeverageLiquidationPrice(fill, leverage, s, margin, closeFee) > 0.0
    ensures closeFee < 1.0 / leverage
    ensures var liquidation := LeverageLiquidationPrice(fill, leverage, s, margin, closeFee);
            if s.Long? then liquidation < fill else fill < liquidation
  {
    var available := 1.0 / leverage - 1.0 * margin - 1.0 * closeFee;
    assert available > 0.0;
    DivPositive(available, 1.0);
    MulPositive(available / 1.0, fill);
  }

  lemma FeeBelowCollateral(collateral: real, leverage: real, closeFee: real)
    requires collateral > 0.0 && leverage > 0.0 && closeFee < 1.0 / leverage
    ensures FeeUsd(collateral * leverage, closeFee) < collateral
  {
    MulPositive(collateral, leverage);
    MulPositive(1.0 / leverage - closeFee, collateral * leverage);
    DivTimes(1.0, leverage);
    assert (1.0 / leverage) * (collateral * leverage) == ((1.0 / leverage) * leverage) * collateral;
  }

  /** An accepted open is liquidated strictly on the losing side of its own fill, and can pay its close fee. */
  lemma AcceptedOpenIsNotLiquidated(a: Account, feed: Feed, m: Market, s: Side, collateral: real, leverage: real)
    requires OpenError(a, feed, m, s, collateral, leverage).None?
    ensures var fill := FillPrice(feed, m, s);
            var liquidation := DoOpen(a, feed, m, s, collateral, leverage).receipt.liquidation;
            0.0 < liquidation && if s.Long? then liquidation < fill else fill < liquidation
    ensures FeeUsd(SizeUsd(collateral, leverage), feed.rates.close) < collateral
  {
    LiquidationIsOnTheLosingSide(FillPrice(feed, m, s), leverage, s, feed.rates.margin, feed.rates.close);
    FeeBelowCollateral(collateral, leverage, feed.rates.close);
  }

  // ---- Collateral changes ----

  /** p, at its own leverage, would be liquidated at the current price: what a removal is refused for. */
  predicate AtRisk(p: Position, prices: Prices) {
    WouldBeLiquidated(p.entry, p.leverage, p.side, p.marginRate, p.closeFeeRate, PriceOr(prices, p.market, p.entry))
  }

  /** An accepted removal leaves a position whose liquidation price the current price has not reached. */
  lemma AcceptedRemovalIsNotLiquidated(a: Account, prices: Prices, m: Market, s: Side, amount: real)
    requires Inv(a) && DoRemoveCollateral(a, prices, m, s, amount).Accepted?
    ensures var i := Find(a.positions, m, s);
            var q := DoRemoveCollateral(a, prices, m, s, amount).account.positions[i];
            var liquidation := LiquidationPrice(q.entry, q.size, q.collateral, s, q.marginRate, q.closeFeeRate);
            && 0.0 < liquidation && q.size == a.positions[i].size && q.collateral == a.positions[i].collateral - amount
            && if s.Long? then liquidation < PriceOr(prices, m, q.entry) else PriceOr(prices, m, q.entry) < liquidation
  {
    var i := Find(a.positions, m, s);
    var p := a.positions[i];
    DivPositive(p.size, p.collateral - amount);
    LiquidationFormsAgree(p.entry, p.size, p.collateral - amount, s, p.marginRate, p.closeFeeRate);
    hide LiquidationPrice, LeverageLiquidationPrice, Find, Trim, CollateralTrade;
  }

  /**
   * Taking out again what was just put in restores balance and positions, exactly when the position as it
   * was is not at risk; otherwise the removal is refused and the collateral stays in.
   */
  lemma RemovingUndoesAdding(a: Account, prices: Prices, m: Market, s: Side, amount: real)
    requires Inv(a) && DoAddCollateral(a, prices, m, s, amount).Accepted?
    ensures var b := DoAddCollateral(a, prices, m, s, amount).account;
            var o := DoRemoveCollateral(b, prices, m, s, amount);
            if AtRisk(a.positions[Find(a.positions, m, s)], prices) then o == Rejected(WouldLiquidate)
            else o.Accepted? && o.account.balance == a.balance && o.account.positions == a.positions
  {
    var i := Find(a.positions, m, s);
    var p := a.positions[i];
    var q := WithCollateral(p, p.collateral + amount);
    InThenOut(p, amount);
    hide WouldBeLiquidated, Trim, CollateralTrade, WithCollateral, Healthy;
    var b := DoAddCollateral(a, prices, m, s, amount).account;
    assert b.positions == a.positions[i := q];
    FindUpdated(a.positions, i, q, m, s);
    assert b.positions[i := p] == a.positions;
  }

  lemma InThenOut(p: Position, amount: real)
    requires Healthy(p) && amount > 0.0
    ensures var q := WithCollateral(p, p.collateral + amount);
            && q.market == p.market && q.side == p.side && q.entry == p.entry && q.collateral == p.collateral + amount
            && WithCollateral(q, q.collateral - amount) == p
            && p.leverage > 0.0 && p.collateral > 0.0
  {
    DivPositive(p.size, p.collateral);
  }

  lemma FindUpdated(ps: seq<Position>, i: nat, q: Position, m: Market, s: Side)
    requires i < |ps| && i == Find(ps, m, s) && q.Names(m, s)
    ensures Find(ps[i := q], m, s) == i
  {
    assert ps[i := q][i].Names(m, s);
    assert forall k :: 0 <= k < i ==> ps[i := q][k] == ps[k];
  }

  // ---- Accepted opens and closes, spelled out ----

  /** An accepted open, in terms of what it pays and places. */
  lemma OpenOutcome(a: Account, feed: Feed, m: Market, s: Side, collateral: real, leverage: real)
    requires OpenError(a, feed, m, s, collateral, leverage).None?
    ensures m in feed.prices
    ensures var fee := FeeUsd(SizeUsd(collateral, leverage), feed.rates.open);
            var ps := OpenedPositions(a.positions, feed, m, s, collateral, leverage);
            var fill := FillPrice(feed, m, s);
            DoOpen(a, feed, m, s, collateral, leverage) ==
            Accepted(
              Account(a.balance - (collateral + fee), ps,
                      Trim(a.history + [OpenTrade(a, feed, m, s, collateral, leverage)]),
                      a.realizedPnl, a.feesPaid + fee),
              OpenReceipt(ps[Find(a.positions, m, s)].entry,
                          LeverageLiquidationPrice(fill, leverage, s, feed.rates.margin, feed.rates.close),
                          SizeUsd(collateral, leverage)))
  {
    hide FillPrice, FeeUsd, SizeUsd, LeverageLiquidationPrice, OpenedPositions, OpenTrade, Trim;
  }

  /** An accepted close, in terms of the figures. */
  lemma CloseOutcome(a: Account, feed: Feed, m: Market, s: Side, r: CloseRequest)
    requires Inv(a) && CloseError(a, feed, m, s, r).None?
    ensures var i := Find(a.positions, m, s);
            var p, price := a.positions[i], feed.prices[m];
            var c := Figures(p, r, price, feed.rates.close);
            DoClose(a, feed, m, s, r) ==
            Accepted(
              Account(a.balance + c.Credited(), ClosedPositions(a.positions, i, c),
                      Trim(a.history + [CloseTrade(p, s, c, price)]), a.realizedPnl + c.pnl, a.feesPaid + c.fee),
              CloseReceipt(price, c.pnl, IsPartial(r) && !c.full, c.size,
                           if c.full then 0.0 else Reduced(p, c.size, c.collateral).size))
  {
    hide Figures, ClosedPositions, CloseTrade, Trim, Reduced, IsPartial, AmountTooBig, FloorZero;
  }
}
