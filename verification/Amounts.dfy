/**
 * What the operations on the account cost and earn, and when they are accepted, in plain numbers: prices,
 * sizes, rates and basis points, with none of the ledger's own formulas.
 */
module Amounts {
  import opened Wrappers
  import opened RealArith
  import opened Ledger
  import opened Invariant

  // ---- Closing ----

  /** The size a request asks to close of a position of the given size. */
  function Asked(r: CloseRequest, size: real): real {
    if r.percent.Some? && r.percent.value < 100.0 then size * r.percent.value / 100.0
    else if r.amount.Some? then r.amount.value
    else size
  }

  lemma AskedIsFraction(r: CloseRequest, size: real)
    requires size > 0.0
    ensures Asked(r, size) == size * RequestedFraction(r, size)
    ensures !IsPartial(r) ==> RequestedFraction(r, size) == 1.0
  {
    if !(r.percent.Some? && r.percent.value < 100.0) && r.amount.Some? {
      DivTimes(r.amount.value, size);
    }
  }

  lemma SnapInSizes(f: real, size: real, asked: real)
    requires size > 0.0 && asked == size * f
    ensures f >= 0.999 <==> asked >= 0.999 * size
    ensures size * (1.0 - f) == size - asked
  {
    if f >= 0.999 { MulNonNegative(f - 0.999, size); } else { MulPositive(0.999 - f, size); }
  }

  lemma ClosedPart(r: CloseRequest, size: real, asked: real, f: real)
    requires size > 0.0 && asked == Asked(r, size) && f == RequestedFraction(r, size)
    ensures var all := asked >= 0.999 * size || size - asked < 0.5;
            && ClosesFully(r, size) == all
            && size * EffectiveFraction(r, size) == if all then size else asked
  {
    AskedIsFraction(r, size);
    SnapInSizes(f, size, asked);
    hide RequestedFraction, Asked;
    if f >= 0.999 {
      assert SnappedFraction(r, size) == 1.0;
    } else {
      assert IsPartial(r) && SnappedFraction(r, size) == f;
    }
  }

  /** What a price move earns per unit of entry price on a position closed in part or whole. */
  function Gain(s: Side, size: real, entry: real, price: real): real {
    if s == Long then size * (price - entry) else size * (entry - price)
  }

  predicate Earned(pnl: real, entry: real, gain: real) { pnl * entry == gain }

  lemma EarnedInNumbers(pnl: real, s: Side, size: real, entry: real, price: real)
    requires Earned(pnl, entry, Gain(s, size, entry, price))
    ensures pnl * entry == if s == Long then size * (price - entry) else size * (entry - price)
  {
  }

  lemma ClosedPnl(p: Position, price: real, f: real, closed: real, units: real)
    requires p.entry > 0.0 && closed == p.size * f && units == (price - p.entry) / p.entry
    ensures Earned(Pnl(p.entry, p.size, p.side, price) * f, p.entry, Gain(p.side, closed, p.entry, price))
  {
    DivTimes(price - p.entry, p.entry);
    var rest := p.size * p.side.Sign() * f;
    assert Pnl(p.entry, p.size, p.side, price) * f == units * rest;
    assert units * rest * p.entry == (units * p.entry) * rest;
    assert (price - p.entry) * rest == Gain(p.side, closed, p.entry, price);
  }

  lemma ClosedShare(size: real, collateral: real, f: real, closed: real)
    requires size > 0.0 && closed == size * f
    ensures collateral * f == Share(collateral, closed, size)
  {
    DivUnique(collateral * closed, size, collateral * f);
  }

  /** The share of the collateral that belongs to a part of the size. */
  function Share(collateral: real, part: real, size: real): real
    requires size > 0.0
  {
    collateral * part / size
  }

  /** A rate charged on a size; there are no rebates. */
  function Charge(size: real, rate: real): real {
    if size > 0.0 && rate > 0.0 then size * rate else 0.0
  }

  lemma FeeIsCharge(size: real, rate: real)
    ensures FeeUsd(size, rate) == Charge(size, rate)
  {
  }

  lemma WholeFigures(p: Position, r: CloseRequest, price: real, rate: real)
    requires Healthy(p)
    ensures var c := Figures(p, r, price, rate);
            var asked := Asked(r, p.size);
            var all := asked >= 0.999 * p.size || p.size - asked < 0.5;
            && c.full == all && c.size == (if all then p.size else asked)
            && c.collateral == Share(p.collateral, c.size, p.size)
            && Earned(c.pnl, p.entry, Gain(p.side, c.size, p.entry, price))
            && c.fee == Charge(c.size, rate)
  {
    var f := EffectiveFraction(r, p.size);
    var c := Figures(p, r, price, rate);
    ClosedPart(r, p.size, Asked(r, p.size), RequestedFraction(r, p.size));
    hide Asked, EffectiveFraction, ClosesFully, FeeUsd, Pnl, Gain, Charge;
    ClosedPnl(p, price, f, c.size, (price - p.entry) / p.entry);
    ClosedShare(p.size, p.collateral, f, c.size);
    FeeIsCharge(c.size, rate);
  }

  lemma TakenOut(p: Position, r: CloseRequest, price: real, rate: real)
    requires Healthy(p)
    ensures var c := Figures(p, r, price, rate);
            var left := Reduced(p, c.size, c.collateral);
            !c.full ==> left.leverage == p.leverage
  {
    if !ClosesFully(r, p.size) { PartialCloseKeepsLeverage(p, r, price, rate); }
    hide Pnl, FeeUsd, EffectiveFraction, ClosesFully, Reduced;
  }

  lemma CloseGain(a: Account, feed: Feed, m: Market, s: Side, r: CloseRequest)
    requires Inv(a) && DoClose(a, feed, m, s, r).Accepted?
    ensures Find(a.positions, m, s) < |a.positions| && m in feed.prices
    ensures var p := a.positions[Find(a.positions, m, s)];
            var receipt := DoClose(a, feed, m, s, r).receipt;
            && receipt.CloseReceipt? && receipt.exitPrice == feed.prices[m]
            && receipt.closedSize == (
                 if Asked(r, p.size) >= 0.999 * p.size || p.size - Asked(r, p.size) < 0.5 then p.size
                 else Asked(r, p.size))
            && Earned(receipt.pnl, p.entry, Gain(s, receipt.closedSize, p.entry, feed.prices[m]))
  {
    CloseAccepted(a, feed, m, s, r);
    CloseBooks(a, feed, m, s, r);
    WholeFigures(a.positions[Find(a.positions, m, s)], r, feed.prices[m], feed.rates.close);
    hide DoClose, Figures, Asked, Find, CloseError, Inv, Healthy, Share, Charge, Gain, Earned;
  }

  /**
   * A close takes what was asked for, or all of it when that is at least 99.9 percent or would leave less
   * than 50 cents, and earns the price move on what it takes.
   */
  lemma CloseEarns(a: Account, feed: Feed, m: Market, s: Side, r: CloseRequest)
    requires Inv(a) && DoClose(a, feed, m, s, r).Accepted?
    ensures Find(a.positions, m, s) < |a.positions| && m in feed.prices
    ensures var p := a.positions[Find(a.positions, m, s)];
            var receipt := DoClose(a, feed, m, s, r).receipt;
            var asked, size, price := Asked(r, p.size), receipt.closedSize, feed.prices[m];
            && receipt.exitPrice == price
            && size == (if asked >= 0.999 * p.size || p.size - asked < 0.5 then p.size else asked)
            && receipt.pnl * p.entry == if s == Long then size * (price - p.entry) else size * (p.entry - price)
  {
    hide DoClose, Asked, Find, Inv, Gain, Earned;
    CloseGain(a, feed, m, s, r);
    var receipt := DoClose(a, feed, m, s, r).receipt;
    EarnedInNumbers(receipt.pnl, s, receipt.closedSize, a.positions[Find(a.positions, m, s)].entry, feed.prices[m]);
  }

  /**
   * A close pays the rate on the size it takes, and credits the share of the collateral plus the profit less
   * that fee, or nothing if this is negative.
   */
  lemma ClosePays(a: Account, feed: Feed, m: Market, s: Side, r: CloseRequest)
    requires Inv(a) && DoClose(a, feed, m, s, r).Accepted?
    ensures Find(a.positions, m, s) < |a.positions|
    ensures var p := a.positions[Find(a.positions, m, s)];
            var receipt := DoClose(a, feed, m, s, r).receipt;
            var b := DoClose(a, feed, m, s, r).account;
            var fee := Charge(receipt.closedSize, feed.rates.close);
            var credit := Share(p.collateral, receipt.closedSize, p.size) + receipt.pnl - fee;
            && b.balance == a.balance + (if credit >= 0.0 then credit else 0.0)
            && b.feesPaid == a.feesPaid + fee && b.realizedPnl == a.realizedPnl + receipt.pnl
  {
    CloseAccepted(a, feed, m, s, r);
    var p := a.positions[Find(a.positions, m, s)];
    CloseBooks(a, feed, m, s, r);
    WholeFigures(p, r, feed.prices[m], feed.rates.close);
    hide DoClose, Figures, Asked, Find, Gain, Share, Charge, CloseError, Inv;
  }

  lemma CloseBooks(a: Account, feed: Feed, m: Market, s: Side, r: CloseRequest)
    requires Inv(a) && CloseError(a, feed, m, s, r).None?
    ensures var p := a.positions[Find(a.positions, m, s)];
            var c := Figures(p, r, feed.prices[m], feed.rates.close);
            var b := DoClose(a, feed, m, s, r).account;
            var receipt := DoClose(a, feed, m, s, r).receipt;
            && receipt.exitPrice == feed.prices[m] && receipt.pnl == c.pnl && receipt.closedSize == c.size
            && b.balance == a.balance + FloorZero(c.collateral + c.pnl - c.fee)
            && b.feesPaid == a.feesPaid + c.fee && b.realizedPnl == a.realizedPnl + c.pnl
  {
    CloseOutcome(a, feed, m, s, r);
    hide DoClose, Figures, ClosedPositions, CloseTrade, Trim, Find, Reduced, IsPartial, FloorZero;
  }

  lemma CloseAccepted(a: Account, feed: Feed, m: Market, s: Side, r: CloseRequest)
    requires Inv(a)
    ensures DoClose(a, feed, m, s, r).Accepted? <==> CloseError(a, feed, m, s, r).None?
    ensures CloseError(a, feed, m, s, r).None? ==>
              var i := Find(a.positions, m, s);
              i < |a.positions| && m in feed.prices && Healthy(a.positions[i])
  {
    hide Figures, ClosedPositions, CloseTrade, Trim, FloorZero, Healthy;
  }

  /**
   * A close of the whole position removes it from the list. A partial one leaves what was not taken, at the
   * same leverage and entry, and both put what they did on the record.
   */
  lemma CloseLeaves(a: Account, feed: Feed, m: Market, s: Side, r: CloseRequest)
    requires Inv(a) && DoClose(a, feed, m, s, r).Accepted?
    ensures Find(a.positions, m, s) < |a.positions| && m in feed.prices
    ensures var i := Find(a.positions, m, s);
            var p := a.positions[i];
            var receipt := DoClose(a, feed, m, s, r).receipt;
            var b := DoClose(a, feed, m, s, r).account;
            var size := receipt.closedSize;
            var share := Share(p.collateral, size, p.size);
            && b.positions == (
                 if size == p.size then a.positions[..i] + a.positions[i + 1..]
                 else a.positions[i := p.(size := p.size - size, collateral := p.collateral - share)])
            && receipt.remainingSize == p.size - size && (receipt.isPartial <==> size != p.size)
            && b.history != []
            && b.history[|b.history| - 1] == Trade(
                 p.id, if size == p.size then Closed else PartiallyClosed, m, s, size, share, p.leverage,
                 feed.prices[m], Some(p.entry), Some(receipt.pnl))
  {
    CloseAccepted(a, feed, m, s, r);
    var p := a.positions[Find(a.positions, m, s)];
    WholeFigures(p, r, feed.prices[m], feed.rates.close);
    TakenOut(p, r, feed.prices[m], feed.rates.close);
    AskedIsFraction(r, p.size);
    CloseOutcome(a, feed, m, s, r);
    hide DoClose, Figures, Asked, Find, FloorZero, IsPartial, RequestedFraction, Gain, Share, Charge;
  }

  /**
   * A close is accepted if and only if the position is there, its market has a positive price, and an amount
   * that counts is no larger than the position.
   */
  lemma CloseAcceptedExactly(a: Account, feed: Feed, m: Market, s: Side, r: CloseRequest)
    requires Inv(a)
    ensures DoClose(a, feed, m, s, r).Accepted? <==>
              && (exists p :: p in a.positions && p.market == m && p.side == s
                     && (r.amount.Some? && !(r.percent.Some? && r.percent.value < 100.0) ==> r.amount.value <= p.size))
              && m in feed.prices && feed.prices[m] > 0.0
  {
    CloseAccepted(a, feed, m, s, r);
    hide DoClose, Inv;
    var i := Find(a.positions, m, s);
    if i < |a.positions| {
      assert a.positions[i] in a.positions;
      OnlyOneNamed(a.positions, m, s);
    }
  }

  lemma HeldExactly(ps: seq<Position>, m: Market, s: Side)
    ensures Find(ps, m, s) < |ps| <==> exists p :: p in ps && p.market == m && p.side == s
  {
    var i := Find(ps, m, s);
    if i < |ps| { assert ps[i] in ps; }
  }

  lemma OnlyOneNamed(ps: seq<Position>, m: Market, s: Side)
    requires Distinct(ps) && Find(ps, m, s) < |ps|
    ensures forall p :: p in ps && p.market == m && p.side == s ==> p == ps[Find(ps, m, s)]
  {
    var i := Find(ps, m, s);
    forall j | 0 <= j < |ps| && ps[j].market == m && ps[j].side == s ensures j == i {
      assert ps[i].Names(ps[j].market, ps[j].side) && ps[j].Names(ps[i].market, ps[i].side);
    }
  }

  // ---- Opening ----

  /** 10,000 times the fill: the price shifted against the trader by so many basis points. */
  function Shifted(s: Side, price: real, bps: nat): real {
    if s == Long then price * (10000.0 + bps as real) else price * (10000.0 - bps as real)
  }

  lemma FillInBps(feed: Feed, m: Market, s: Side)
    requires m in feed.prices
    ensures 10000.0 * FillPrice(feed, m, s) == Shifted(s, feed.prices[m], feed.slippageBps)
  {
    var shift := feed.slippageBps as real / 10000.0;
    assert 10000.0 * shift == feed.slippageBps as real;
    assert 10000.0 * (feed.prices[m] * (1.0 + shift)) == feed.prices[m] * (10000.0 + 10000.0 * shift);
    assert 10000.0 * (feed.prices[m] * (1.0 - shift)) == feed.prices[m] * (10000.0 - 10000.0 * shift);
  }

  lemma OpenIsAccepted(a: Account, feed: Feed, m: Market, s: Side, collateral: real, leverage: real)
    ensures DoOpen(a, feed, m, s, collateral, leverage).Accepted? <==>
            OpenError(a, feed, m, s, collateral, leverage).None?
    ensures OpenError(a, feed, m, s, collateral, leverage).None? ==>
              m in feed.prices && feed.prices[m] > 0.0 && collateral > 0.0 && leverage > 0.0
  {
    hide FillPrice, FeeUsd, SizeUsd, LeverageLiquidationPrice, OpenedPositions, OpenTrade, Trim, Find;
  }

  /** What an accepted open costs: the collateral, and the open rate on collateral times leverage. */
  lemma OpenCosts(a: Account, feed: Feed, m: Market, s: Side, collateral: real, leverage: real)
    requires DoOpen(a, feed, m, s, collateral, leverage).Accepted?
    ensures var b := DoOpen(a, feed, m, s, collateral, leverage).account;
            var fee := Charge(collateral * leverage, feed.rates.open);
            && DoOpen(a, feed, m, s, collateral, leverage).receipt.size == collateral * leverage
            && b.balance == a.balance - collateral - fee
            && b.feesPaid == a.feesPaid + fee && b.realizedPnl == a.realizedPnl
  {
    OpenIsAccepted(a, feed, m, s, collateral, leverage);
    OpenOutcome(a, feed, m, s, collateral, leverage);
    FeeIsCharge(SizeUsd(collateral, leverage), feed.rates.open);
    hide DoOpen, OpenError, FillPrice, FeeUsd, LeverageLiquidationPrice, OpenedPositions, OpenTrade, Trim, Find, Charge;
  }

  lemma FreshOpen(a: Account, feed: Feed, m: Market, s: Side, collateral: real, leverage: real)
    requires DoOpen(a, feed, m, s, collateral, leverage).Accepted?
    requires Find(a.positions, m, s) == |a.positions|
    ensures m in feed.prices
    ensures var o := DoOpen(a, feed, m, s, collateral, leverage);
            var size := SizeUsd(collateral, leverage);
            && |o.account.positions| == |a.positions| + 1 && o.account.positions[..|a.positions|] == a.positions
            && var q := o.account.positions[|a.positions|];
               && 10000.0 * q.entry == Shifted(s, feed.prices[m], feed.slippageBps)
               && q == Position(feed.positionId, m, s, q.entry, size, collateral, leverage,
                                Charge(size, feed.rates.open), feed.rates.margin, feed.rates.close, None, None, None)
               && o.receipt.OpenReceipt? && o.receipt.entry == q.entry
  {
    OpenIsAccepted(a, feed, m, s, collateral, leverage);
    OpenOutcome(a, feed, m, s, collateral, leverage);
    FeeIsCharge(SizeUsd(collateral, leverage), feed.rates.open);
    FillInBps(feed, m, s);
    hide DoOpen, OpenError, FillPrice, FeeUsd, SizeUsd, LeverageLiquidationPrice, OpenTrade, Trim, Charge, Shifted;
  }

  /**
   * An accepted open with no position on its market and side appends one, filled at the price shifted by the
   * slippage in basis points: up for a long, down for a short.
   */
  lemma FreshOpenFills(a: Account, feed: Feed, m: Market, s: Side, collateral: real, leverage: real)
    requires DoOpen(a, feed, m, s, collateral, leverage).Accepted?
    requires !exists p :: p in a.positions && p.market == m && p.side == s
    ensures m in feed.prices
    ensures var o := DoOpen(a, feed, m, s, collateral, leverage);
            var n, size, bps := |a.positions|, collateral * leverage, feed.slippageBps as real;
            && |o.account.positions| == n + 1 && o.account.positions[..n] == a.positions
            && var q := o.account.positions[n];
               && 10000.0 * q.entry == feed.prices[m] * (if s == Long then 10000.0 + bps else 10000.0 - bps)
               && q == Position(feed.positionId, m, s, q.entry, size, collateral, leverage,
                                Charge(size, feed.rates.open), feed.rates.margin, feed.rates.close, None, None, None)
               && o.receipt.entry == q.entry
  {
    HeldExactly(a.positions, m, s);
    hide DoOpen, Find, Charge;
    FreshOpen(a, feed, m, s, collateral, leverage);
  }

  predicate Averages(entry: real, p: Position, shifted: real, size: real) {
    10000.0 * entry * (p.size + size) == 10000.0 * p.entry * p.size + shifted * size
  }

  lemma MergedEntry(p: Position, fill: real, size: real, total: real, shifted: real)
    requires total > 0.0 && total == p.size + size && 10000.0 * fill == shifted
    ensures Averages((p.entry * p.size + fill * size) / total, p, shifted, size)
  {
    DivTimes(p.entry * p.size + fill * size, total);
    assert 10000.0 * (fill * size) == shifted * size;
  }

  /** The liquidation price that goes with a position's entry, size and collateral. */
  function LiquidationOf(q: Position, rates: Rates): Option<real> {
    Some(LiquidationPrice(q.entry, q.size, q.collateral, q.side, rates.margin, rates.close))
  }

  lemma MergeInNumbers(p: Position, feed: Feed, m: Market, s: Side, collateral: real, leverage: real, size: real)
    requires Healthy(p) && m in feed.prices && collateral > 0.0 && leverage > 0.0 && size == collateral * leverage
    ensures var q := MergedPosition(p, feed, m, s, collateral, leverage);
            && Averages(q.entry, p, Shifted(s, feed.prices[m], feed.slippageBps), size)
            && q == p.(entry := q.entry, size := p.size + size, collateral := p.collateral + collateral,
                       leverage := (p.size + size) / (p.collateral + collateral),
                       openFee := p.openFee + Charge(size, feed.rates.open),
                       liquidation := LiquidationOf(q, feed.rates))
  {
    MulPositive(collateral, leverage);
    FeeIsCharge(size, feed.rates.open);
    FillInBps(feed, m, s);
    DivPositive(p.size + size, p.collateral + collateral);
    MergedEntry(p, FillPrice(feed, m, s), size, p.size + size, Shifted(s, feed.prices[m], feed.slippageBps));
    hide FillPrice, FeeUsd, LiquidationPrice, Charge, Shifted, Averages;
  }

  lemma MergedOpen(a: Account, feed: Feed, m: Market, s: Side, collateral: real, leverage: real, size: real)
    requires Inv(a) && DoOpen(a, feed, m, s, collateral, leverage).Accepted? && size == collateral * leverage
    requires Find(a.positions, m, s) < |a.positions|
    ensures m in feed.prices
    ensures var o := DoOpen(a, feed, m, s, collateral, leverage);
            var i := Find(a.positions, m, s);
            var p := a.positions[i];
            && |o.account.positions| == |a.positions|
            && var q := o.account.positions[i];
               && o.account.positions == a.positions[i := q]
               && Averages(q.entry, p, Shifted(s, feed.prices[m], feed.slippageBps), size)
               && q == p.(entry := q.entry, size := p.size + size, collateral := p.collateral + collateral,
                          leverage := (p.size + size) / (p.collateral + collateral),
                          openFee := p.openFee + Charge(size, feed.rates.open),
                          liquidation := LiquidationOf(q, feed.rates))
               && o.receipt.OpenReceipt? && o.receipt.entry == q.entry
  {
    OpenIsAccepted(a, feed, m, s, collateral, leverage);
    OpenOutcome(a, feed, m, s, collateral, leverage);
    MergeInNumbers(a.positions[Find(a.positions, m, s)], feed, m, s, collateral, leverage, size);
    hide DoOpen, OpenError, FillPrice, FeeUsd, SizeUsd, LeverageLiquidationPrice, MergedPosition, OpenTrade, Trim;
    hide Find, Averages, Shifted, Charge, LiquidationOf;
  }

  lemma AveragesInBps(entry: real, p: Position, s: Side, price: real, bps: nat, size: real)
    requires Averages(entry, p, Shifted(s, price, bps), size)
    ensures var shift := if s == Long then bps as real else -(bps as real);
            10000.0 * entry * (p.size + size) == 10000.0 * p.entry * p.size + price * (10000.0 + shift) * size
  {
  }

  /**
   * An accepted open on a position already held adds size and collateral to it and averages the entries by
   * size, the new fill being the shifted price; nothing else of the position or of the list changes but the
   * leverage, the fee it carries and its liquidation price.
   */
  lemma MergedOpenFills(a: Account, feed: Feed, m: Market, s: Side, collateral: real, leverage: real, size: real)
    requires Inv(a) && DoOpen(a, feed, m, s, collateral, leverage).Accepted? && size == collateral * leverage
    requires Find(a.positions, m, s) < |a.positions|
    ensures m in feed.prices
    ensures var o := DoOpen(a, feed, m, s, collateral, leverage);
            var i := Find(a.positions, m, s);
            var p := a.positions[i];
            var shift := if s == Long then feed.slippageBps as real else -(feed.slippageBps as real);
            && |o.account.positions| == |a.positions|
            && var q := o.account.positions[i];
               && o.account.positions == a.positions[i := q]
               && 10000.0 * q.entry * (p.size + size) ==
                  10000.0 * p.entry * p.size + feed.prices[m] * (10000.0 + shift) * size
               && q == p.(entry := q.entry, size := p.size + size, collateral := p.collateral + collateral,
                          leverage := (p.size + size) / (p.collateral + collateral),
                          openFee := p.openFee + Charge(size, feed.rates.open),
                          liquidation := LiquidationOf(q, feed.rates))
               && o.receipt.entry == q.entry
  {
    hide DoOpen, Find, Inv, Averages, Shifted, Charge, LiquidationOf;
    MergedOpen(a, feed, m, s, collateral, leverage, size);
    var i := Find(a.positions, m, s);
    var q := DoOpen(a, feed, m, s, collateral, leverage).account.positions[i];
    AveragesInBps(q.entry, a.positions[i], s, feed.prices[m], feed.slippageBps, size);
  }

  /** The record an open leaves: what was put in, at the price before the shift. */
  lemma OpenIsRecorded(a: Account, feed: Feed, m: Market, s: Side, collateral: real, leverage: real)
    requires DoOpen(a, feed, m, s, collateral, leverage).Accepted?
    ensures m in feed.prices
    ensures var h := DoOpen(a, feed, m, s, collateral, leverage).account.history;
            var i := Find(a.positions, m, s);
            && h != []
            && h[|h| - 1] == Trade(if i < |a.positions| then a.positions[i].id else feed.tradeId, Opened, m, s,
                                   collateral * leverage, collateral, leverage, feed.prices[m], None, None)
  {
    OpenIsAccepted(a, feed, m, s, collateral, leverage);
    OpenOutcome(a, feed, m, s, collateral, leverage);
    hide DoOpen, OpenError, FillPrice, FeeUsd, LeverageLiquidationPrice, OpenedPositions, Find;
  }

  // ---- Liquidation ----

  /**
   * At its liquidation price a position has lost what its collateral exceeds the margin and the close fee by.
   * There is none, and the price is 0, when nothing is left for a loss or a long could lose it all.
   */
  lemma LiquidationLeavesTheMargin(entry: real, size: real, collateral: real, s: Side, margin: real, closeFee: real)
    requires entry > 0.0 && size > 0.0 && collateral > 0.0
    ensures var price := LiquidationPrice(entry, size, collateral, s, margin, closeFee);
            var available := collateral - size * margin - size * closeFee;
            if margin < 0.0 || closeFee < 0.0 || available <= 0.0 || (s == Long && available >= size) then price == 0.0
            else price > 0.0
                 && (if s == Long then size * (entry - price) else size * (price - entry)) == available * entry
  {
    var available := collateral - size * margin - size * closeFee;
    if available > 0.0 { MoveOfSize(available, size, entry); }
    hide PriceMove;
  }

  /** The price move is the part of the entry price that the available collateral is of the size. */
  lemma MoveOfSize(available: real, size: real, entry: real)
    requires available > 0.0 && size > 0.0 && entry > 0.0
    ensures var move := PriceMove(available, size, entry);
            move > 0.0 && size * move == available * entry && (move < entry <==> available < size)
  {
    DivTimes(available, size);
    DivPositive(available, size);
    MulPositive(available / size, entry);
    var move := PriceMove(available, size, entry);
    assert move > 0.0 && size * move == (available / size * size) * entry;
    hide PriceMove;
    SameOrder(size, move, available, entry, available * entry);
  }

  lemma Ordered(k: real, x: real, y: real)
    requires k > 0.0
    ensures x <= y <==> k * x <= k * y
    ensures x >= y <==> k * x >= k * y
  {
    if k * x <= k * y { MulCancel(x, y, k); }
    if k * x >= k * y { MulCancel(y, x, k); }
  }

  lemma ScaledOrder(k: real, x: real, y: real, kx: real, ky: real)
    requires k > 0.0 && kx == k * x && ky == k * y
    ensures x <= y <==> kx <= ky
  {
    Ordered(k, x, y);
  }

  lemma SameOrder(size: real, move: real, available: real, entry: real, room: real)
    requires size > 0.0 && entry > 0.0 && size * move == room && available * entry == room
    ensures move < entry <==> available < size
  {
    ScaledOrder(size, entry, move, size * entry, room);
    ScaledOrder(entry, size, available, size * entry, room);
  }

  lemma BelowOne(x: real, y: real)
    requires y > 0.0 && x < y
    ensures x / y < 1.0
  {
  }

  lemma InverseAbove(unit: real, leverage: real, rates: real, k: real)
    requires leverage > 0.0 && k == unit * leverage
    ensures unit > rates <==> leverage * rates < k
  {
    Ordered(leverage, unit, rates);
  }

  lemma InverseOf(leverage: real, rates: real)
    requires leverage >= 1.1
    ensures 0.0 < 1.0 / leverage < 1.0
    ensures 1.0 / leverage - rates > 0.0 <==> leverage * rates < 1.0
  {
    DivPositive(1.0, leverage);
    BelowOne(1.0, leverage);
    DivTimes(1.0, leverage);
    InverseAbove(1.0 / leverage, leverage, rates, 1.0);
  }

  lemma UnitSurvives(fill: real, unit: real, s: Side, margin: real, closeFee: real)
    requires fill > 0.0 && 0.0 < unit < 1.0
    ensures var liquidation := LiquidationPrice(fill, 1.0, unit, s, margin, closeFee);
            (liquidation != fill && liquidation > 0.0) <==>
            (margin >= 0.0 && closeFee >= 0.0 && unit > margin + closeFee)
  {
    var available := unit - 1.0 * margin - 1.0 * closeFee;
    LiquidationLeavesTheMargin(fill, 1.0, unit, s, margin, closeFee);
    if available > 0.0 { MulPositive(available, fill); }
    hide LiquidationPrice;
  }

  lemma FillSurvives(fill: real, leverage: real, s: Side, margin: real, closeFee: real)
    requires leverage >= 1.1
    ensures var liquidation := LeverageLiquidationPrice(fill, leverage, s, margin, closeFee);
            (liquidation != fill && liquidation > 0.0) <==>
            (fill > 0.0 && margin >= 0.0 && closeFee >= 0.0 && leverage * (margin + closeFee) < 1.0)
  {
    InverseOf(leverage, margin + closeFee);
    if fill > 0.0 { UnitSurvives(fill, 1.0 / leverage, s, margin, closeFee); }
    hide LiquidationPrice;
  }

  lemma FillIsPositive(feed: Feed, m: Market, s: Side)
    requires m in feed.prices && feed.prices[m] > 0.0
    ensures FillPrice(feed, m, s) > 0.0 <==> s == Long || feed.slippageBps < 10000
  {
    FillInBps(feed, m, s);
    var k := if s == Long then 10000.0 + feed.slippageBps as real else 10000.0 - feed.slippageBps as real;
    assert Shifted(s, feed.prices[m], feed.slippageBps) == feed.prices[m] * k;
    hide FillPrice, Shifted;
    if k > 0.0 { MulPositive(feed.prices[m], k); } else { MulNonNegative(feed.prices[m], -k); }
  }

  /**
   * An open is accepted if and only if the leverage is at least 1.1 and within the market's limit, the market
   * has a positive price, the margin and the close fee together take less than the collateral, the slippage
   * does not eat a short's whole price, and the balance covers a positive collateral and the fee.
   */
  lemma OpenAcceptedExactly(a: Account, feed: Feed, m: Market, s: Side, collateral: real, leverage: real)
    ensures DoOpen(a, feed, m, s, collateral, leverage).Accepted? <==>
              && 1.1 <= leverage <= feed.maxLeverage && collateral > 0.0
              && m in feed.prices && feed.prices[m] > 0.0
              && feed.rates.margin >= 0.0 && feed.rates.close >= 0.0
              && leverage * (feed.rates.margin + feed.rates.close) < 1.0
              && (s == Short ==> feed.slippageBps < 10000)
              && collateral + Charge(collateral * leverage, feed.rates.open) <= a.balance
  {
    OpenIsAccepted(a, feed, m, s, collateral, leverage);
    FeeIsCharge(SizeUsd(collateral, leverage), feed.rates.open);
    ChargeIsNoRebate(collateral * leverage, feed.rates.open);
    if m in feed.prices && feed.prices[m] > 0.0 && leverage >= 1.1 {
      FillIsPositive(feed, m, s);
      FillSurvives(FillPrice(feed, m, s), leverage, s, feed.rates.margin, feed.rates.close);
    }
    hide DoOpen, FillPrice, LeverageLiquidationPrice, FeeUsd, Charge, Find;
  }

  lemma ChargeIsNoRebate(size: real, rate: real)
    ensures Charge(size, rate) >= 0.0
  {
  }

  // ---- Collateral ----

  /**
   * Adding collateral is accepted if and only if the amount is positive, the balance covers it and the
   * position is there; it moves the amount from the balance to the position and nowhere else.
   */
  lemma AddingMovesTheAmount(a: Account, prices: Prices, m: Market, s: Side, amount: real)
    requires Inv(a)
    ensures var o := DoAddCollateral(a, prices, m, s, amount);
            var i := Find(a.positions, m, s);
            && (o.Accepted? <==> 0.0 < amount <= a.balance && i < |a.positions|)
            && (o.Accepted? ==>
                  var p, total := a.positions[i], a.positions[i].collateral + amount;
                  && total > 0.0
                  && o.account.positions == a.positions[i := p.(collateral := total, leverage := p.size / total)]
                  && o.account.balance == a.balance - amount
                  && o.account.realizedPnl == a.realizedPnl && o.account.feesPaid == a.feesPaid
                  && o.account.history == Trim(a.history + [Trade(
                       p.id, CollateralAdded, m, s, p.size, amount, p.size / total,
                       if m in prices then prices[m] else p.entry, None, None)]))
  {
    hide Find, Trim;
  }

  /**
   * In terms of sizes: at this price the loss has used up what is available. A long never loses more than its
   * whole size, so with more than that available there is no price to reach.
   */
  predicate UsedUp(size: real, entry: real, s: Side, available: real, price: real) {
    if s == Long then available >= size || size * price <= entry * (size - available)
    else size * price >= entry * (size + available)
  }

  lemma ReachedIsUsedUp(size: real, entry: real, s: Side, available: real, liquidation: real, price: real, room: real)
    requires size > 0.0 && room == available * entry && room > 0.0 && (s == Long ==> available < size)
    requires (if s == Long then size * (entry - liquidation) else size * (liquidation - entry)) == room
    ensures liquidation != entry
    ensures UsedUp(size, entry, s, available, price) <==>
            if s == Long then liquidation >= price else liquidation <= price
  {
    if s == Long {
      assert size * liquidation == size * entry - room == entry * (size - available);
    } else {
      assert size * liquidation == size * entry + room == entry * (size + available);
    }
    Ordered(size, liquidation, price);
  }

  lemma RiskIsUsedUp(entry: real, size: real, collateral: real, s: Side, margin: real, closeFee: real, price: real,
                     available: real)
    requires entry > 0.0 && size > 0.0 && collateral > 0.0
    requires available == collateral - size * margin - size * closeFee
    ensures var liquidation := LiquidationPrice(entry, size, collateral, s, margin, closeFee);
            ((if s == Long then liquidation >= price else liquidation <= price) || liquidation <= 0.0
             || liquidation == entry) <==>
            margin < 0.0 || closeFee < 0.0 || available <= 0.0 || UsedUp(size, entry, s, available, price)
  {
    LiquidationLeavesTheMargin(entry, size, collateral, s, margin, closeFee);
    var liquidation := LiquidationPrice(entry, size, collateral, s, margin, closeFee);
    hide LiquidationPrice;
    if liquidation > 0.0 {
      MulPositive(available, entry);
      ReachedIsUsedUp(size, entry, s, available, liquidation, price, available * entry);
      hide UsedUp;
    }
  }

  lemma RiskInNumbers(p: Position, collateral: real, s: Side, price: real, available: real)
    requires Healthy(p) && collateral > 0.0
    requires available == collateral - p.size * p.marginRate - p.size * p.closeFeeRate
    ensures WouldBeLiquidated(p.entry, p.size / collateral, s, p.marginRate, p.closeFeeRate, price) <==>
              p.marginRate < 0.0 || p.closeFeeRate < 0.0 || available <= 0.0
              || UsedUp(p.size, p.entry, s, available, price)
  {
    LiquidationFormsAgree(p.entry, p.size, collateral, s, p.marginRate, p.closeFeeRate);
    RiskIsUsedUp(p.entry, p.size, collateral, s, p.marginRate, p.closeFeeRate, price, available);
    hide LiquidationPrice, LeverageLiquidationPrice, UsedUp;
  }

  /**
   * Taking collateral out is accepted if and only if the amount is positive and less than all of it and what
   * stays covers margin, close fee and the loss at the current price; it moves the amount back to the balance.
   */
  lemma RemovingMovesTheAmount(a: Account, prices: Prices, m: Market, s: Side, amount: real, available: real)
    requires Inv(a) && Find(a.positions, m, s) < |a.positions|
    requires var p := a.positions[Find(a.positions, m, s)];
             available == p.collateral - amount - p.size * p.marginRate - p.size * p.closeFeeRate
    ensures var o := DoRemoveCollateral(a, prices, m, s, amount);
            var i := Find(a.positions, m, s);
            var p, total := a.positions[i], a.positions[i].collateral - amount;
            var price := if m in prices then prices[m] else p.entry;
            && (o.Accepted? <==>
                  && 0.0 < amount < p.collateral && p.marginRate >= 0.0 && p.closeFeeRate >= 0.0 && available > 0.0
                  && !UsedUp(p.size, p.entry, s, available, price))
            && (o.Accepted? ==>
                  && total > 0.0
                  && o.account.positions == a.positions[i := p.(collateral := total, leverage := p.size / total)]
                  && o.account.balance == a.balance + amount
                  && o.account.realizedPnl == a.realizedPnl && o.account.feesPaid == a.feesPaid
                  && o.account.history == Trim(a.history + [Trade(
                       p.id, CollateralRemoved, m, s, p.size, amount, p.size / total, price, None, None)]))
  {
    var p := a.positions[Find(a.positions, m, s)];
    if amount < p.collateral {
      DivPositive(p.size, p.collateral - amount);
      RiskInNumbers(p, p.collateral - amount, s, PriceOr(prices, m, p.entry), available);
    }
    hide Find, Trim, UsedUp, WouldBeLiquidated;
  }

  // ---- Marks ----

  /** Setting one mark keeps the other, and nothing else about the account changes. */
  lemma OneMarkKeepsTheOther(a: Account, m: Market, s: Side, mark: real)
    requires Find(a.positions, m, s) < |a.positions|
    ensures var i := Find(a.positions, m, s);
            var p := a.positions[i];
            && DoSetTpSl(a, m, s, Some(mark), None)
               == Accepted(a.(positions := a.positions[i := p.(takeProfit := Some(mark))]), TriggersReceipt)
            && DoSetTpSl(a, m, s, None, Some(mark))
               == Accepted(a.(positions := a.positions[i := p.(stopLoss := Some(mark))]), TriggersReceipt)
            && DoSetTpSl(a, m, s, None, None) == Accepted(a, TriggersReceipt)
  {
    var i := Find(a.positions, m, s);
    hide Find;
    assert a.positions[i := a.positions[i]] == a.positions;
  }
}
