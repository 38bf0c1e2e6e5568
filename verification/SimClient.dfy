/**
 * SimulatedFlashClient as an object: its methods update the balance, the totals, the list of position
 * objects and the position objects themselves, statement by statement as the source does, and each is
 * proved to do to the account exactly what the operation of module Ledger does.
 */
module SimClient {
  import opened Wrappers
  import opened Ledger
  import opened Invariant
  import opened Runs

  lemma CollateralFields(p: Position, collateral: real)
    ensures var q := WithCollateral(p, collateral);
            && q.leverage == (if collateral > 0.0 then p.size / collateral else 0.0)
            && q.entry == p.entry && q.market == p.market
            && q.marginRate == p.marginRate && q.closeFeeRate == p.closeFeeRate
  {
  }

  lemma ReducedFields(p: Position, size: real, collateral: real)
    ensures var q := Reduced(p, size, collateral); q.id == p.id && q.market == p.market && q.entry == p.entry
  {
  }

  lemma OpenSettled(a: Account, feed: Feed, m: Market, s: Side, collateral: real, leverage: real,
                    b: Account, trade: Trade, receipt: Receipt)
    requires Inv(a) && OpenError(a, feed, m, s, collateral, leverage).None? && m in feed.prices && receipt.OpenReceipt?
    requires receipt.size == SizeUsd(collateral, leverage)
    requires receipt.liquidation ==
             LeverageLiquidationPrice(FillPrice(feed, m, s), leverage, s, feed.rates.margin, feed.rates.close)
    requires var ps := OpenedPositions(a.positions, feed, m, s, collateral, leverage);
             var i := Find(a.positions, m, s);
             var fee := FeeUsd(receipt.size, feed.rates.open);
             var id := if i < |a.positions| then a.positions[i].id else feed.tradeId;
             && receipt.entry == ps[i].entry
             && trade == Trade(id, Opened, m, s, receipt.size, collateral, leverage, feed.prices[m], None, None)
             && b == Account(a.balance - (collateral + fee), ps, Trim(a.history + [trade]), a.realizedPnl,
                             a.feesPaid + fee)
    ensures DoOpen(a, feed, m, s, collateral, leverage) == Accepted(b, receipt) && Inv(b)
  {
    OpenOutcome(a, feed, m, s, collateral, leverage);
    OpenKeepsInv(a, feed, m, s, collateral, leverage);
    hide Inv, DoOpen, OpenError, FillPrice, FeeUsd, SizeUsd, LeverageLiquidationPrice, OpenedPositions, Trim, Find;
  }

  lemma HasSizes(a: Account)
    requires Inv(a)
    ensures forall i :: 0 <= i < |a.positions| ==> a.positions[i].size > 0.0
  {
  }

  lemma CloseRefused(a: Account, feed: Feed, m: Market, s: Side, r: CloseRequest)
    requires Inv(a)
    ensures var i := Find(a.positions, m, s);
            var byAmount := !(r.percent.Some? && r.percent.value < 100.0) && r.amount.Some?;
            if i == |a.positions| then DoClose(a, feed, m, s, r) == Rejected(NoPosition)
            else if !(m in feed.prices && feed.prices[m] > 0.0) then DoClose(a, feed, m, s, r) == Rejected(NoPrice)
            else if byAmount && r.amount.value > a.positions[i].size then
              DoClose(a, feed, m, s, r) == Rejected(AmountExceedsSize)
            else CloseError(a, feed, m, s, r).None?
  {
    hide Figures, ClosedPositions, CloseTrade, Trim;
  }

  lemma OpenRefused(a: Account, feed: Feed, m: Market, s: Side, collateral: real, leverage: real)
    ensures var e := OpenError(a, feed, m, s, collateral, leverage);
            e.Some? ==> DoOpen(a, feed, m, s, collateral, leverage) == Rejected(e.value)
  {
    hide OpenError, FillPrice, FeeUsd, SizeUsd, LeverageLiquidationPrice, OpenedPositions, OpenTrade, Trim, Find;
  }

  lemma SameTimes(x: real, y: real, k: real)
    requires x == y
    ensures x * k == y * k
  {
  }

  /** The fee on a size; nothing for a size or a rate that is not positive. */
  method CalcFeeUsd(size: real, rate: real) returns (fee: real)
    ensures fee == FeeUsd(size, rate)
  {
    if size <= 0.0 || rate <= 0.0 { return 0.0; }
    return size * rate;
  }

  /** The protocol's liquidation price; 0 when the position has none. */
  method ComputeLiquidationPrice(entry: real, size: real, collateral: real, side: Side, margin: real, closeFee: real)
    returns (price: real)
    ensures price == LiquidationPrice(entry, size, collateral, side, margin, closeFee)
  {
    if entry <= 0.0 || size <= 0.0 || collateral <= 0.0 { return 0.0; }
    if margin < 0.0 || closeFee < 0.0 { return 0.0; }
    var maintenanceMargin := size * margin;
    var exitFee := size * closeFee;
    var available := collateral - maintenanceMargin - exitFee;
    if available <= 0.0 { return 0.0; }
    var priceMove := available / size * entry;
    assert priceMove == PriceMove(available, size, entry);
    hide PriceMove;
    if side == Long {
      price := entry - priceMove;
      if price <= 0.0 { price := 0.0; }
    } else {
      price := entry + priceMove;
    }
  }

  /** The liquidation price at some leverage, computed on a size normalised to 1. */
  method CalcLiquidationPrice(entry: real, leverage: real, side: Side, margin: real, closeFee: real)
    returns (price: real)
    ensures price == LeverageLiquidationPrice(entry, leverage, side, margin, closeFee)
  {
    hide LiquidationPrice;
    if leverage <= 0.0 || entry <= 0.0 { return 0.0; }
    var size := 1.0;
    var collateral := size / leverage;
    price := ComputeLiquidationPrice(entry, size, collateral, side, margin, closeFee);
  }

  class SimulatedPosition {
    const id: string
    const market: Market
    const side: Side
    const marginRate: real
    const closeFeeRate: real
    var entryPrice: real
    var sizeUsd: real
    var collateralUsd: real
    var leverage: real
    var openFee: real
    var liquidationPrice: Option<real>
    var takeProfit: Option<real>
    var stopLoss: Option<real>

    function View(): Position
      reads this
    {
      Position(id, market, side, entryPrice, sizeUsd, collateralUsd, leverage, openFee, marginRate, closeFeeRate,
               liquidationPrice, takeProfit, stopLoss)
    }

    constructor (p: Position)
      ensures View() == p
    {
      id, market, side, marginRate, closeFeeRate := p.id, p.market, p.side, p.marginRate, p.closeFeeRate;
      entryPrice, sizeUsd, collateralUsd, leverage := p.entry, p.size, p.collateral, p.leverage;
      openFee, liquidationPrice, takeProfit, stopLoss := p.openFee, p.liquidation, p.takeProfit, p.stopLoss;
    }
  }

  function Views(ps: seq<SimulatedPosition>): (vs: seq<Position>)
    reads ps
    ensures |vs| == |ps| && forall i :: 0 <= i < |ps| ==> vs[i] == ps[i].View()
  {
    seq(|ps|, i requires 0 <= i < |ps| reads ps => ps[i].View())
  }

  /** No two entries of the list are the same object. */
  predicate NoAliases(ps: seq<SimulatedPosition>) {
    forall i, j :: 0 <= i < j < |ps| ==> ps[i] != ps[j]
  }

  class SimulatedFlashClient {
    var balance: real
    var positions: seq<SimulatedPosition>
    var tradeHistory: seq<Trade>
    var totalRealizedPnl: real
    var totalFeesPaid: real
    var livePrices: Prices

    function View(): Account
      reads this, positions
    {
      Account(balance, Views(positions), tradeHistory, totalRealizedPnl, totalFeesPaid)
    }

    ghost predicate Valid()
      reads this, positions
    {
      NoAliases(positions) && Inv(View())
    }

    /** The position objects in the list. */
    ghost function Objects(): set<object>
      reads this
    {
      set p | p in positions :: p
    }

    constructor (initialBalance: real)
      requires initialBalance >= 0.0
      ensures Valid() && View() == Account(initialBalance, [], [], 0.0, 0.0) && livePrices == map[]
    {
      balance, positions, tradeHistory, totalRealizedPnl, totalFeesPaid := initialBalance, [], [], 0.0, 0.0;
      livePrices := map[];
    }

    method FindIndex(m: Market, s: Side) returns (i: nat)
      ensures i == Find(Views(positions), m, s)
      ensures i < |positions| ==> positions[i] in Objects()
    {
      i := 0;
      while i < |positions| && !(positions[i].market == m && positions[i].side == s)
        invariant 0 <= i <= |positions|
        invariant forall j :: 0 <= j < i ==> !positions[j].View().Names(m, s)
      {
        i := i + 1;
      }
      if i < |positions| { assert positions[i] in positions; }
    }

    method TrimHistory()
      modifies this`tradeHistory
      ensures tradeHistory == Trim(old(tradeHistory))
    {
      if |tradeHistory| > 500 {
        tradeHistory := tradeHistory[|tradeHistory| - 500..];
      }
    }

    /** Every operation ends by recording its trade. */
    method Record(trade: Trade)
      modifies this`tradeHistory
      ensures tradeHistory == Trim(old(tradeHistory) + [trade])
    {
      tradeHistory := tradeHistory + [trade];
      TrimHistory();
    }

    method OpenPosition(m: Market, s: Side, collateral: real, leverage: real, feed: Feed) returns (r: Result)
      requires Valid()
      modifies this, Objects()
      ensures Valid() && fresh(Objects() - old(Objects())) && livePrices == feed.prices
      ensures var o := DoOpen(old(View()), feed, m, s, collateral, leverage);
              View() == o.After(old(View())) && r == ResultOf(o)
    {
      ghost var before := View();
      OpenRefused(before, feed, m, s, collateral, leverage);
      hide Inv, DoOpen, FeeUsd, LeverageLiquidationPrice, Find;
      livePrices := feed.prices;
      if leverage > feed.maxLeverage { return Threw(LeverageTooHigh); }
      if collateral <= 0.0 || collateral > balance || leverage < 1.1 { return Threw(InvalidTrade); }
      if m !in livePrices || livePrices[m] <= 0.0 { return Threw(NoPrice); }
      var price := livePrices[m];
      var slippage := feed.slippageBps as real / 10000.0;
      var slippageMult := if s == Long then 1.0 + slippage else 1.0 - slippage;
      var fill := price * slippageMult;
      assert fill == FillPrice(feed, m, s);
      hide FillPrice;
      var size := collateral * leverage;
      var fee := CalcFeeUsd(size, feed.rates.open);
      var liquidation := CalcLiquidationPrice(fill, leverage, s, feed.rates.margin, feed.rates.close);
      if liquidation == fill || liquidation <= 0.0 { return Threw(ImmediateLiquidation); }
      if collateral + fee > balance { return Threw(InsufficientBalance); }
      assert size == SizeUsd(collateral, leverage);
      r := OpenChecked(m, s, collateral, leverage, fill, size, fee, liquidation, feed);
    }

    /** The open once every check has passed. */
    method OpenChecked(m: Market, s: Side, collateral: real, leverage: real,
                       fill: real, size: real, fee: real, liquidation: real, feed: Feed)
      returns (r: Result)
      requires Valid() && livePrices == feed.prices && OpenError(View(), feed, m, s, collateral, leverage).None?
      requires m in feed.prices && fill == FillPrice(feed, m, s) && size == SizeUsd(collateral, leverage)
      requires fee == FeeUsd(size, feed.rates.open)
      requires liquidation == LeverageLiquidationPrice(fill, leverage, s, feed.rates.margin, feed.rates.close)
      modifies this`balance, this`totalFeesPaid, this`tradeHistory, this`positions, Objects()
      ensures Valid() && fresh(Objects() - old(Objects()))
      ensures var o := DoOpen(old(View()), feed, m, s, collateral, leverage);
              o.Accepted? && View() == o.account && r == Completed(o.receipt)
    {
      hide Inv, DoOpen, OpenError, FillPrice, FeeUsd, SizeUsd, LeverageLiquidationPrice, OpenedPositions, Trim, Find;
      ghost var before := View();
      var entry, id := BookFill(m, s, fill, size, collateral, leverage, fee, feed);
      var trade := Trade(id, Opened, m, s, size, collateral, leverage, feed.prices[m], None, None);
      Record(trade);
      OpenSettled(before, feed, m, s, collateral, leverage, View(), trade, OpenReceipt(entry, liquidation, size));
      return Completed(OpenReceipt(entry, liquidation, size));
    }

    /** Pays collateral and fee and places the fill. */
    method BookFill(m: Market, s: Side, fill: real, size: real, collateral: real, leverage: real, fee: real, feed: Feed)
      returns (entry: real, id: string)
      requires NoAliases(positions) && m in feed.prices && fill == FillPrice(feed, m, s)
      requires size == SizeUsd(collateral, leverage) && fee == FeeUsd(size, feed.rates.open)
      modifies this`balance, this`totalFeesPaid, this`positions, Objects()
      ensures NoAliases(positions) && fresh(Objects() - old(Objects()))
      ensures var a := old(View());
              var ps := OpenedPositions(a.positions, feed, m, s, collateral, leverage);
              var i := Find(a.positions, m, s);
              && View() == a.(balance := a.balance - (collateral + fee), positions := ps, feesPaid := a.feesPaid + fee)
              && entry == ps[i].entry && id == if i < |a.positions| then a.positions[i].id else feed.tradeId
    {
      hide OpenedPositions, FillPrice, FeeUsd, SizeUsd, Find, NoAliases;
      balance := balance - (collateral + fee);
      totalFeesPaid := totalFeesPaid + fee;
      entry, id := PlaceFill(m, s, fill, size, collateral, leverage, fee, feed);
    }

    /** Merges the fill into the position held on this market and side, or appends a new position. */
    method PlaceFill(m: Market, s: Side, fill: real, size: real, collateral: real, leverage: real, fee: real,
                     feed: Feed)
      returns (entry: real, id: string)
      requires NoAliases(positions) && m in feed.prices && fill == FillPrice(feed, m, s)
      requires size == SizeUsd(collateral, leverage) && fee == FeeUsd(size, feed.rates.open)
      modifies this`positions, Objects()
      ensures NoAliases(positions) && fresh(Objects() - old(Objects()))
      ensures Views(positions) == OpenedPositions(old(Views(positions)), feed, m, s, collateral, leverage)
      ensures var i := Find(old(Views(positions)), m, s);
              && entry == Views(positions)[i].entry
              && id == if i < old(|positions|) then old(Views(positions))[i].id else feed.tradeId
    {
      hide Merge, FillPrice, FeeUsd, SizeUsd, Find;
      ghost var before := Views(positions);
      var i := FindIndex(m, s);
      if i < |positions| {
        var p := positions[i];
        entry := MergeInto(p, fill, size, collateral, leverage, fee, feed.rates);
        id := p.id;
        assert p.View() == MergedPosition(before[i], feed, m, s, collateral, leverage);
        hide MergedPosition;
        assert Views(positions) == before[i := p.View()];
      } else {
        var p := new SimulatedPosition(
          Position(feed.positionId, m, s, fill, size, collateral, leverage, fee,
                   feed.rates.margin, feed.rates.close, None, None, None));
        assert p.View() == NewPosition(feed, m, s, collateral, leverage);
        hide NewPosition;
        positions := positions + [p];
        entry, id := p.entryPrice, feed.tradeId;
        assert Views(positions) == before + [p.View()];
      }
    }

    static method MergeInto(p: SimulatedPosition, fill: real, size: real, collateral: real, leverage: real, fee: real,
                            rates: Rates)
      returns (entry: real)
      modifies p
      ensures p.View() == Merge(old(p.View()), fill, size, collateral, leverage, fee, rates) && entry == p.entryPrice
    {
      hide LiquidationPrice;
      ghost var merge := Merge(p.View(), fill, size, collateral, leverage, fee, rates);
      var totalSize := p.sizeUsd + size;
      entry := if totalSize > 0.0 then (p.entryPrice * p.sizeUsd + fill * size) / totalSize else fill;
      assert merge.entry == entry && merge.size == totalSize;
      p.sizeUsd := totalSize;
      p.collateralUsd := p.collateralUsd + collateral;
      var merged := if p.collateralUsd > 0.0 then p.sizeUsd / p.collateralUsd else leverage;
      p.leverage := if merged > 0.0 then merged else leverage;
      p.entryPrice := entry;
      p.openFee := p.openFee + fee;
      var liquidation :=
        ComputeLiquidationPrice(p.entryPrice, p.sizeUsd, p.collateralUsd, p.side, rates.margin, rates.close);
      p.liquidationPrice := Some(liquidation);
    }

    method ClosePosition(m: Market, s: Side, request: CloseRequest, feed: Feed) returns (r: Result)
      requires Valid()
      modifies this, Objects()
      ensures Valid() && Objects() <= old(Objects()) && livePrices == feed.prices
      ensures var o := DoClose(old(View()), feed, m, s, request);
              View() == o.After(old(View())) && r == ResultOf(o)
    {
      ghost var before := View();
      CloseRefused(before, feed, m, s, request);
      hide Inv, DoClose, Find, NoAliases, CloseError;
      livePrices := feed.prices;
      var idx := FindIndex(m, s);
      if idx == |positions| { return Threw(NoPosition); }
      r := CloseFound(idx, m, s, request, feed);
    }

    /** The close of the position found: refused without a price, or for more than its size. */
    method CloseFound(idx: nat, m: Market, s: Side, request: CloseRequest, feed: Feed) returns (r: Result)
      requires Valid() && livePrices == feed.prices && idx == Find(Views(positions), m, s) < |positions|
      modifies this`totalFeesPaid, this`totalRealizedPnl, this`balance, this`positions, this`tradeHistory, Objects()
      ensures Valid() && Objects() <= old(Objects())
      ensures var o := DoClose(old(View()), feed, m, s, request);
              View() == o.After(old(View())) && r == ResultOf(o)
    {
      ghost var before := View();
      CloseRefused(before, feed, m, s, request);
      hide Inv, DoClose, Find, NoAliases, CloseError;
      if m !in livePrices || livePrices[m] <= 0.0 { return Threw(NoPrice); }
      assert before.positions[idx] == positions[idx].View();
      var byAmount := !(request.percent.Some? && request.percent.value < 100.0) && request.amount.Some?;
      if byAmount && request.amount.value > positions[idx].sizeUsd { return Threw(AmountExceedsSize); }
      r := CloseAt(idx, m, s, request, feed);
    }

    /** The close once nothing stands against it. */
    method CloseAt(idx: nat, m: Market, s: Side, request: CloseRequest, feed: Feed) returns (r: Result)
      requires Valid() && livePrices == feed.prices && CloseError(View(), feed, m, s, request).None?
      requires idx == Find(Views(positions), m, s)
      modifies this`totalFeesPaid, this`totalRealizedPnl, this`balance, this`positions, this`tradeHistory, Objects()
      ensures Valid() && Objects() <= old(Objects())
      ensures var o := DoClose(old(View()), feed, m, s, request);
              o.Accepted? && View() == o.account && r == Completed(o.receipt)
    {
      ghost var before := View();
      CloseOutcome(before, feed, m, s, request);
      CloseKeepsInv(before, feed, m, s, request);
      HasSizes(before);
      hide Inv, DoClose, Figures, Reduced, Find, Trim, ClosedPositions, CloseTrade, CloseFigures.Credited;
      var p := positions[idx];
      assert before.positions[idx] == p.View();
      var price := livePrices[m];
      var c := QuoteClose(p, request, price, feed.rates.close);
      var left := Settle(idx, s, c, price);
      var isPartial := (request.percent.Some? && request.percent.value < 100.0) || request.amount.Some?;
      return Completed(CloseReceipt(price, c.pnl, isPartial && !c.full, c.size, left));
    }

    /** Books the figures, takes the size out of the position and records the trade. */
    method Settle(idx: nat, s: Side, c: CloseFigures, price: real) returns (left: real)
      requires idx < |positions| && NoAliases(positions)
      modifies this`totalFeesPaid, this`totalRealizedPnl, this`balance, this`positions, this`tradeHistory, Objects()
      ensures NoAliases(positions) && Objects() <= old(Objects())
      ensures var a := old(View());
              var p := a.positions[idx];
              && View() == Account(a.balance + c.Credited(), ClosedPositions(a.positions, idx, c),
                                   Trim(a.history + [CloseTrade(p, s, c, price)]), a.realizedPnl + c.pnl,
                                   a.feesPaid + c.fee)
              && left == if c.full then 0.0 else Reduced(p, c.size, c.collateral).size
    {
      hide Reduced, Trim, ClosedPositions;
      ghost var before := View();
      var p := positions[idx];
      assert p in positions && before.positions[idx] == p.View();
      totalFeesPaid := totalFeesPaid + c.fee;
      totalRealizedPnl := totalRealizedPnl + c.pnl;
      var returnAmount := c.collateral + c.pnl - c.fee;
      balance := balance + if returnAmount > 0.0 then returnAmount else 0.0;
      left := TakeOut(idx, c);
      ReducedFields(before.positions[idx], c.size, c.collateral);
      assert Views(positions) == ClosedPositions(before.positions, idx, c) && tradeHistory == before.history;
      var trade := Trade(p.id, if c.full then Closed else PartiallyClosed, p.market, s, c.size, c.collateral,
                         p.leverage, price, Some(p.entryPrice), Some(c.pnl));
      assert trade == CloseTrade(before.positions[idx], s, c, price);
      hide CloseTrade;
      Record(trade);
    }

    /** The part of the position to close: what was asked for, snapped to all of it when little remains. */
    static method CloseFraction(size: real, request: CloseRequest) returns (shouldFullClose: bool, effective: real)
      requires size > 0.0 && !AmountTooBig(request, size)
      ensures shouldFullClose == ClosesFully(request, size) && effective == EffectiveFraction(request, size)
    {
      var isPartial := (request.percent.Some? && request.percent.value < 100.0) || request.amount.Some?;
      var fraction := 1.0;
      if request.percent.Some? && request.percent.value < 100.0 {
        fraction := request.percent.value / 100.0;
      } else if request.amount.Some? {
        fraction := request.amount.value / size;
      }
      assert fraction == RequestedFraction(request, size);
      hide RequestedFraction;
      if fraction >= 0.999 { fraction := 1.0; }
      var remainingSize := size * (1.0 - fraction);
      shouldFullClose := !isPartial || remainingSize < 0.5 || fraction >= 1.0;
      effective := if shouldFullClose then 1.0 else fraction;
    }

    /** The figures of a close, computed step by step from the position object. */
    static method QuoteClose(p: SimulatedPosition, request: CloseRequest, price: real, rate: real)
      returns (c: CloseFigures)
      requires p.sizeUsd > 0.0 && !AmountTooBig(request, p.sizeUsd)
      ensures c == Figures(p.View(), request, price, rate)
    {
      hide FeeUsd, ClosesFully, EffectiveFraction, AmountTooBig;
      var priceDelta := price - p.entryPrice;
      var pnlMultiplier := if p.side == Long then 1.0 else -1.0;
      var fullPnl := if p.entryPrice > 0.0 then priceDelta / p.entryPrice * p.sizeUsd * pnlMultiplier else 0.0;
      var shouldFullClose, effective := CloseFraction(p.sizeUsd, request);
      SameTimes(fullPnl, Pnl(p.entryPrice, p.sizeUsd, p.side, price), effective);
      hide Pnl;
      var closedSize := p.sizeUsd * effective;
      var fee := CalcFeeUsd(closedSize, rate);
      c := CloseFigures(shouldFullClose, closedSize, p.collateralUsd * effective, fullPnl * effective, fee);
    }

    /** Splices the position out, or reduces it in place. */
    method TakeOut(idx: nat, c: CloseFigures) returns (left: real)
      requires idx < |positions| && NoAliases(positions)
      modifies this`positions, positions[idx]
      ensures NoAliases(positions) && Objects() <= old(Objects())
      ensures Views(positions) == ClosedPositions(old(Views(positions)), idx, c)
      ensures var p := old(positions[idx]);
              var was := old(positions[idx].View());
              && p.View() == (if c.full then was else Reduced(was, c.size, c.collateral))
              && left == if c.full then 0.0 else p.sizeUsd
    {
      ghost var before := Views(positions);
      var p := positions[idx];
      if c.full {
        positions := positions[..idx] + positions[idx + 1..];
        assert forall q :: q in positions ==> q in old(positions);
        left := 0.0;
        assert Views(positions) == before[..idx] + before[idx + 1..];
      } else {
        p.sizeUsd := p.sizeUsd - c.size;
        p.collateralUsd := p.collateralUsd - c.collateral;
        p.leverage := if p.collateralUsd > 0.0 then p.sizeUsd / p.collateralUsd else 0.0;
        left := p.sizeUsd;
        assert Views(positions) == before[idx := Reduced(before[idx], c.size, c.collateral)];
      }
    }

    method AddCollateral(m: Market, s: Side, amount: real) returns (r: Result)
      requires Valid()
      modifies this, Objects()
      ensures Valid() && positions == old(positions) && livePrices == old(livePrices)
      ensures var o := DoAddCollateral(old(View()), livePrices, m, s, amount);
              View() == o.After(old(View())) && r == ResultOf(o)
    {
      hide Inv, WithCollateral, CollateralTrade, Trim, Find;
      ghost var before := View();
      CollateralKeepsInv(before, livePrices, m, s, amount);
      if amount <= 0.0 { return Threw(InvalidAmount); }
      if amount > balance { return Threw(InsufficientBalance); }
      var i := FindIndex(m, s);
      if i == |positions| { return Threw(NoPosition); }
      var leverage := MoveCollateral(i, positions[i].collateralUsd + amount, balance - amount, CollateralAdded, amount);
      return Completed(CollateralReceipt(leverage));
    }

    /** Stores a new collateral and balance and records the trade. */
    method MoveCollateral(i: nat, collateral: real, newBalance: real, action: Action, amount: real)
      returns (leverage: real)
      requires i < |positions| && NoAliases(positions)
      modifies this`balance, this`tradeHistory, Objects()
      ensures var a := old(View());
              var p := WithCollateral(a.positions[i], collateral);
              && View() == a.(balance := newBalance, positions := a.positions[i := p],
                              history := Trim(a.history + [CollateralTrade(p, action, amount, livePrices)]))
              && leverage == p.leverage
    {
      hide WithCollateral, Trim;
      var p := positions[i];
      assert p in positions;
      SetCollateral(i, collateral);
      balance := newBalance;
      var price := if p.market in livePrices then livePrices[p.market] else p.entryPrice;
      Record(Trade(p.id, action, p.market, p.side, p.sizeUsd, amount, p.leverage, price, None, None));
      leverage := p.leverage;
    }

    /** Stores a new collateral and the leverage that goes with it. */
    method SetCollateral(i: nat, collateral: real)
      requires i < |positions| && NoAliases(positions)
      modifies positions[i]
      ensures Views(positions) == old(Views(positions))[i := WithCollateral(old(positions[i].View()), collateral)]
    {
      var p := positions[i];
      p.collateralUsd := collateral;
      p.leverage := if p.collateralUsd > 0.0 then p.sizeUsd / p.collateralUsd else 0.0;
    }

    method RemoveCollateral(m: Market, s: Side, amount: real, prices: Prices) returns (r: Result)
      requires Valid()
      modifies this, Objects()
      ensures Valid() && positions == old(positions)
      ensures livePrices == if amount <= 0.0 then old(livePrices) else prices
      ensures var o := DoRemoveCollateral(old(View()), prices, m, s, amount);
              View() == o.After(old(View())) && r == ResultOf(o)
    {
      hide Inv, WouldBeLiquidated, WithCollateral, CollateralTrade, Trim, Find;
      ghost var before := View();
      CollateralKeepsInv(before, prices, m, s, amount);
      if amount <= 0.0 { return Threw(InvalidAmount); }
      livePrices := prices;
      var i := FindIndex(m, s);
      if i == |positions| { return Threw(NoPosition); }
      if amount >= positions[i].collateralUsd { return Threw(AllCollateral); }
      r := RemoveFrom(i, m, s, amount);
    }

    /** The removal from the position found: refused if it would be liquidated at the refreshed price. */
    method RemoveFrom(i: nat, m: Market, s: Side, amount: real) returns (r: Result)
      requires NoAliases(positions) && i == Find(Views(positions), m, s) < |positions|
      requires 0.0 < amount < positions[i].collateralUsd
      modifies this`balance, this`tradeHistory, Objects()
      ensures var o := DoRemoveCollateral(old(View()), livePrices, m, s, amount);
              View() == o.After(old(View())) && r == ResultOf(o)
    {
      hide LeverageLiquidationPrice, WithCollateral, CollateralTrade, Trim, Find;
      ghost var before := View();
      var p := positions[i];
      assert before.positions[i] == p.View();
      var newCollateral := p.collateralUsd - amount;
      var newLeverage := if newCollateral > 0.0 then p.sizeUsd / newCollateral else 0.0;
      CollateralFields(p.View(), newCollateral);
      if newLeverage > 0.0 {
        var current := if p.market in livePrices then livePrices[p.market] else p.entryPrice;
        var liquidation := CalcLiquidationPrice(p.entryPrice, newLeverage, s, p.marginRate, p.closeFeeRate);
        var wouldLiquidate := if s == Long then liquidation >= current else liquidation <= current;
        if wouldLiquidate || liquidation <= 0.0 || liquidation == p.entryPrice { return Threw(WouldLiquidate); }
      }
      var leverage := MoveCollateral(i, newCollateral, balance + amount, CollateralRemoved, amount);
      return Completed(CollateralReceipt(leverage));
    }

    method SetTpSl(m: Market, s: Side, tp: Option<real>, sl: Option<real>) returns (r: Result)
      requires Valid()
      modifies Objects()
      ensures Valid()
      ensures var o := DoSetTpSl(old(View()), m, s, tp, sl); View() == o.After(old(View())) && r == ResultOf(o)
    {
      hide Inv, Find;
      ghost var before := View();
      TriggersKeepInv(before, m, s, tp, sl);
      var i := FindIndex(m, s);
      if i == |positions| { return Threw(NoPosition); }
      var p := positions[i];
      if tp.Some? { p.takeProfit := tp; }
      if sl.Some? { p.stopLoss := sl; }
      assert Views(positions) == DoSetTpSl(before, m, s, tp, sl).account.positions;
      return Completed(TriggersReceipt);
    }

    method RemoveTpSl(m: Market, s: Side) returns (r: Result)
      requires Valid()
      modifies Objects()
      ensures Valid()
      ensures var o := DoRemoveTpSl(old(View()), m, s); View() == o.After(old(View())) && r == ResultOf(o)
    {
      hide Inv, Find;
      ghost var before := View();
      TriggersKeepInv(before, m, s, None, None);
      var i := FindIndex(m, s);
      if i == |positions| { return Threw(NoPosition); }
      positions[i].takeProfit, positions[i].stopLoss := None, None;
      assert Views(positions) == DoRemoveTpSl(before, m, s).account.positions;
      return Completed(TriggersReceipt);
    }

    /** Has the price reached the take-profit mark, or else the stop-loss mark? */
    static method TriggerHit(p: SimulatedPosition, prices: Prices) returns (hit: bool)
      ensures hit == Hit(p.View(), prices)
    {
      if p.market !in prices || prices[p.market] == 0.0 { return false; }
      var currentPrice := prices[p.market];
      var isLong := p.side == Long;
      if p.takeProfit.Some? {
        var tpHit := if isLong then currentPrice >= p.takeProfit.value else currentPrice <= p.takeProfit.value;
        if tpHit { return true; }
      }
      if p.stopLoss.Some? {
        var slHit := if isLong then currentPrice <= p.stopLoss.value else currentPrice >= p.stopLoss.value;
        if slHit { return true; }
      }
      return false;
    }

    /** The reverse loop of the sweep; feedAt(i) is what the close of the i-th position would see. */
    method CheckTpSlTriggers(feedAt: nat -> Feed) returns (error: Option<Error>)
      requires Valid()
      modifies this, Objects()
      ensures Valid() && Objects() <= old(Objects())
      ensures Swept(View(), error) == SweepFrom(old(View()), |old(positions)|, old(livePrices), feedAt)
    {
      hide Inv, Hit, DoClose, Find, SweepFrom, CloseWhole;
      var i: nat := |positions|;
      while i > 0
        invariant Valid() && i <= |positions| && Objects() <= old(Objects())
        invariant SweepFrom(View(), i, livePrices, feedAt)
               == SweepFrom(old(View()), |old(positions)|, old(livePrices), feedAt)
        decreases i
      {
        i := i - 1;
        SweepStep(View(), i, livePrices, feedAt);
        var p := positions[i];
        var hit := TriggerHit(p, livePrices);
        if hit {
          var r := ClosePosition(p.market, p.side, CLOSE_ALL, feedAt(i));
          if r.Threw? { return Some(r.error); }
        }
      }
      SweepEnds(View(), livePrices, feedAt);
      return None;
    }
  }
}
