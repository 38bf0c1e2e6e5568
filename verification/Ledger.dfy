/**
 * The paper-trading account of src/client/simulation.ts as a value, and every operation on it as a
 * function with the source's branches in the source's order. Amounts are exact reals.
 *
 * A market is named by its canonical (upper-case) symbol. What an operation reads from outside the
 * account arrives in a Feed: the price table after the refresh, the protocol rates and slippage of
 * the operation's market, its leverage limit, and the identifiers that a new position and its trade get.
 */
module Ledger {
  import opened Wrappers

  type Market = string
  type Prices = map<Market, real>

  datatype Side = Long | Short {
    function Sign(): real { if Long? then 1.0 else -1.0 }
  }

  datatype Position = Position(
    id: string, market: Market, side: Side, entry: real, size: real, collateral: real, leverage: real,
    openFee: real, marginRate: real, closeFeeRate: real, liquidation: Option<real>,
    takeProfit: Option<real>, stopLoss: Option<real>)
  {
    predicate Names(m: Market, s: Side) { market == m && side == s }
  }

  datatype Action = Opened | Closed | PartiallyClosed | CollateralAdded | CollateralRemoved

  datatype Trade = Trade(
    id: string, action: Action, market: Market, side: Side, size: real, collateral: real,
    leverage: real, price: real, entry: Option<real>, pnl: Option<real>)

  datatype Account = Account(
    balance: real, positions: seq<Position>, history: seq<Trade>, realizedPnl: real, feesPaid: real)

  datatype Rates = Rates(open: real, close: real, margin: real)

  datatype Feed = Feed(
    prices: Prices, rates: Rates, slippageBps: nat, maxLeverage: real,
    positionId: string, tradeId: string)

  datatype CloseRequest = CloseRequest(percent: Option<real>, amount: Option<real>)

  const CLOSE_ALL := CloseRequest(None, None)

  datatype Op =
    | Open(market: Market, side: Side, collateral: real, leverage: real)
    | Close(market: Market, side: Side, request: CloseRequest)
    | AddCollateral(market: Market, side: Side, amount: real)
    | RemoveCollateral(market: Market, side: Side, amount: real)
    | SetTpSl(market: Market, side: Side, takeProfit: Option<real>, stopLoss: Option<real>)
    | RemoveTpSl(market: Market, side: Side)

  datatype Error =
    | LeverageTooHigh | InvalidTrade | NoPrice | ImmediateLiquidation | InsufficientBalance
    | NoPosition | AmountExceedsSize | InvalidAmount | AllCollateral | WouldLiquidate

  datatype Receipt =
    | OpenReceipt(entry: real, liquidation: real, size: real)
    | CloseReceipt(exitPrice: real, pnl: real, isPartial: bool, closedSize: real, remainingSize: real)
    | CollateralReceipt(newLeverage: real)
    | TriggersReceipt

  datatype Outcome = Accepted(account: Account, receipt: Receipt) | Rejected(error: Error) {
    /** The account after the operation: a rejected one changes nothing. */
    function After(a: Account): Account { if Accepted? then account else a }
  }

  const MIN_LEVERAGE := 1.1
  const SNAP_FRACTION := 0.999
  const DUST_USD := 0.5
  const MAX_TRADE_HISTORY := 500

  // ---- Lookups and protocol formulas ----

  /** Index of the first position with this market and side, or |ps|. */
  function Find(ps: seq<Position>, m: Market, s: Side): (i: nat)
    ensures i <= |ps|
    ensures i < |ps| ==> ps[i].Names(m, s)
    ensures forall j :: 0 <= j < i ==> !ps[j].Names(m, s)
  {
    if ps == [] || ps[0].Names(m, s) then 0 else 1 + Find(ps[1..], m, s)
  }

  predicate Priced(prices: Prices, m: Market) { m in prices && prices[m] > 0.0 }

  /** Position size bought by some collateral at some leverage. */
  function SizeUsd(collateral: real, leverage: real): real { collateral * leverage }

  function FeeUsd(size: real, rate: real): real {
    if size <= 0.0 || rate <= 0.0 then 0.0 else size * rate
  }

  /** How far the price must move for a position of this size to lose the available collateral. */
  function PriceMove(available: real, size: real, entry: real): real
    requires size > 0.0
  {
    available / size * entry
  }

  /** Liquidation price from position size and collateral; 0 stands for "none". */
  function LiquidationPrice(entry: real, size: real, collateral: real, side: Side, margin: real, closeFee: real): real {
    if entry <= 0.0 || size <= 0.0 || collateral <= 0.0 then 0.0
    else if margin < 0.0 || closeFee < 0.0 then 0.0
    else
      var available := collateral - size * margin - size * closeFee;
      if available <= 0.0 then 0.0
      else
        var move := PriceMove(available, size, entry);
        if side.Short? then entry + move
        else if entry - move > 0.0 then entry - move else 0.0
  }

  /** The same price from leverage alone, by way of a position of size 1. */
  function LeverageLiquidationPrice(entry: real, leverage: real, side: Side, margin: real, closeFee: real): real {
    if leverage <= 0.0 || entry <= 0.0 then 0.0
    else LiquidationPrice(entry, 1.0, 1.0 / leverage, side, margin, closeFee)
  }

  function Pnl(entry: real, size: real, side: Side, price: real): real {
    if entry > 0.0 then (price - entry) / entry * size * side.Sign() else 0.0
  }

  function Trim(h: seq<Trade>): seq<Trade> {
    if |h| > MAX_TRADE_HISTORY then h[|h| - MAX_TRADE_HISTORY..] else h
  }

  // ---- Account invariant ----

  predicate Healthy(p: Position) {
    p.size > 0.0 && p.collateral > 0.0 && p.entry > 0.0 && p.leverage == p.size / p.collateral
  }

  predicate Distinct(ps: seq<Position>) {
    forall i, j :: 0 <= i < j < |ps| ==> !ps[i].Names(ps[j].market, ps[j].side)
  }

  predicate AllHealthy(ps: seq<Position>) {
    forall i :: 0 <= i < |ps| ==> Healthy(ps[i])
  }

  predicate Inv(a: Account) {
    a.balance >= 0.0 && AllHealthy(a.positions) && Distinct(a.positions) && |a.history| <= MAX_TRADE_HISTORY
  }

  // ---- Open ----

  function FillPrice(feed: Feed, m: Market, s: Side): real
    requires m in feed.prices
  {
    var shift := feed.slippageBps as real / 10000.0;
    feed.prices[m] * (if s.Long? then 1.0 + shift else 1.0 - shift)
  }

  function OpenError(a: Account, feed: Feed, m: Market, s: Side, collateral: real, leverage: real): Option<Error> {
    if leverage > feed.maxLeverage then Some(LeverageTooHigh)
    else if collateral <= 0.0 || collateral > a.balance || leverage < MIN_LEVERAGE then Some(InvalidTrade)
    else if !Priced(feed.prices, m) then Some(NoPrice)
    else
      var fill := FillPrice(feed, m, s);
      var liquidation := LeverageLiquidationPrice(fill, leverage, s, feed.rates.margin, feed.rates.close);
      if liquidation == fill || liquidation <= 0.0 then Some(ImmediateLiquidation)
      else if collateral + FeeUsd(SizeUsd(collateral, leverage), feed.rates.open) > a.balance then
        Some(InsufficientBalance)
      else None
  }

  /** Adds a fill to a position already held: size-weighted entry, summed size and collateral. */
  function Merge(p: Position, fill: real, size: real, collateral: real, leverage: real, fee: real,
                 rates: Rates): Position
  {
    var totalSize := p.size + size;
    var entry := if totalSize > 0.0 then (p.entry * p.size + fill * size) / totalSize else fill;
    var totalCollateral := p.collateral + collateral;
    var merged := if totalCollateral > 0.0 then totalSize / totalCollateral else leverage;
    p.(entry := entry, size := totalSize, collateral := totalCollateral,
       leverage := if merged > 0.0 then merged else leverage, openFee := p.openFee + fee,
       liquidation := Some(LiquidationPrice(entry, totalSize, totalCollateral, p.side, rates.margin, rates.close)))
  }

  function FreshPosition(m: Market, s: Side, fill: real, collateral: real, leverage: real, fee: real,
                         feed: Feed): Position
  {
    Position(feed.positionId, m, s, fill, SizeUsd(collateral, leverage), collateral, leverage, fee,
             feed.rates.margin, feed.rates.close, None, None, None)
  }

  function MergedPosition(p: Position, feed: Feed, m: Market, s: Side, collateral: real, leverage: real): Position
    requires m in feed.prices
  {
    var size := SizeUsd(collateral, leverage);
    Merge(p, FillPrice(feed, m, s), size, collateral, leverage, FeeUsd(size, feed.rates.open), feed.rates)
  }

  function NewPosition(feed: Feed, m: Market, s: Side, collateral: real, leverage: real): Position
    requires m in feed.prices
  {
    var fee := FeeUsd(SizeUsd(collateral, leverage), feed.rates.open);
    FreshPosition(m, s, FillPrice(feed, m, s), collateral, leverage, fee, feed)
  }

  function OpenedPositions(ps: seq<Position>, feed: Feed, m: Market, s: Side, collateral: real,
                           leverage: real): (r: seq<Position>)
    requires m in feed.prices
    ensures |r| == if Find(ps, m, s) < |ps| then |ps| else |ps| + 1
  {
    var i := Find(ps, m, s);
    if i < |ps| then ps[i := MergedPosition(ps[i], feed, m, s, collateral, leverage)]
    else ps + [NewPosition(feed, m, s, collateral, leverage)]
  }

  function OpenTrade(a: Account, feed: Feed, m: Market, s: Side, collateral: real, leverage: real): Trade
    requires m in feed.prices
  {
    var i := Find(a.positions, m, s);
    var id := if i < |a.positions| then a.positions[i].id else feed.tradeId;
    Trade(id, Opened, m, s, SizeUsd(collateral, leverage), collateral, leverage, feed.prices[m], None, None)
  }

  function DoOpen(a: Account, feed: Feed, m: Market, s: Side, collateral: real, leverage: real): Outcome {
    var error := OpenError(a, feed, m, s, collateral, leverage);
    if error.Some? then Rejected(error.value)
    else
      var fill := FillPrice(feed, m, s);
      var size := SizeUsd(collateral, leverage);
      var fee := FeeUsd(size, feed.rates.open);
      var ps := OpenedPositions(a.positions, feed, m, s, collateral, leverage);
      var i := Find(a.positions, m, s);
      var trade := OpenTrade(a, feed, m, s, collateral, leverage);
      Accepted(
        Account(a.balance - (collateral + fee), ps, Trim(a.history + [trade]), a.realizedPnl, a.feesPaid + fee),
        OpenReceipt(ps[i].entry,
                    LeverageLiquidationPrice(fill, leverage, s, feed.rates.margin, feed.rates.close), size))
  }

  // ---- Close ----

  predicate ByPercent(r: CloseRequest) { r.percent.Some? && r.percent.value < 100.0 }

  predicate IsPartial(r: CloseRequest) { ByPercent(r) || r.amount.Some? }

  predicate AmountTooBig(r: CloseRequest, size: real) {
    !ByPercent(r) && r.amount.Some? && r.amount.value > size
  }

  function RequestedFraction(r: CloseRequest, size: real): real
    requires size > 0.0
  {
    if ByPercent(r) then r.percent.value / 100.0
    else if r.amount.Some? then r.amount.value / size
    else 1.0
  }

  /** The fraction after snapping near-full closes to 1. */
  function SnappedFraction(r: CloseRequest, size: real): real
    requires size > 0.0
  {
    var f := RequestedFraction(r, size);
    if f >= SNAP_FRACTION then 1.0 else f
  }

  predicate ClosesFully(r: CloseRequest, size: real)
    requires size > 0.0
  {
    var f := SnappedFraction(r, size);
    !IsPartial(r) || size * (1.0 - f) < DUST_USD || f >= 1.0
  }

  function EffectiveFraction(r: CloseRequest, size: real): (f: real)
    requires size > 0.0
    ensures !ClosesFully(r, size) ==> f < 1.0
  {
    if ClosesFully(r, size) then 1.0 else SnappedFraction(r, size)
  }

  function Reduced(p: Position, closedSize: real, closedCollateral: real): Position {
    var size, collateral := p.size - closedSize, p.collateral - closedCollateral;
    p.(size := size, collateral := collateral, leverage := if collateral > 0.0 then size / collateral else 0.0)
  }

  function CloseError(a: Account, feed: Feed, m: Market, s: Side, r: CloseRequest): Option<Error> {
    var i := Find(a.positions, m, s);
    if i == |a.positions| then Some(NoPosition)
    else if !Priced(feed.prices, m) then Some(NoPrice)
    else if AmountTooBig(r, a.positions[i].size) then Some(AmountExceedsSize)
    else None
  }

  function FloorZero(x: real): real { if x >= 0.0 then x else 0.0 }

  /** What one accepted close takes out of position p. */
  datatype CloseFigures = CloseFigures(full: bool, size: real, collateral: real, pnl: real, fee: real) {
    function Return(): real { collateral + pnl - fee }
    function Credited(): real { FloorZero(Return()) }
    /** The loss the account is not charged, because a negative return is floored at zero. */
    function Forgiven(): real { Credited() - Return() }
  }

  function Figures(p: Position, r: CloseRequest, price: real, closeRate: real): CloseFigures
    requires p.size > 0.0
  {
    var f := EffectiveFraction(r, p.size);
    CloseFigures(ClosesFully(r, p.size), p.size * f, p.collateral * f,
                 Pnl(p.entry, p.size, p.side, price) * f, FeeUsd(p.size * f, closeRate))
  }

  function ClosedPositions(ps: seq<Position>, i: nat, c: CloseFigures): seq<Position>
    requires i < |ps|
  {
    if c.full then ps[..i] + ps[i + 1..] else ps[i := Reduced(ps[i], c.size, c.collateral)]
  }

  function CloseTrade(p: Position, s: Side, c: CloseFigures, price: real): Trade {
    var left := if c.full then p else Reduced(p, c.size, c.collateral);
    Trade(p.id, if c.full then Closed else PartiallyClosed, p.market, s, c.size, c.collateral,
          left.leverage, price, Some(p.entry), Some(c.pnl))
  }

  function DoClose(a: Account, feed: Feed, m: Market, s: Side, r: CloseRequest): Outcome
    requires Inv(a)
  {
    var error := CloseError(a, feed, m, s, r);
    if error.Some? then Rejected(error.value)
    else
      var i := Find(a.positions, m, s);
      var p := a.positions[i];
      var price := feed.prices[m];
      var c := Figures(p, r, price, feed.rates.close);
      var remaining := if c.full then 0.0 else Reduced(p, c.size, c.collateral).size;
      Accepted(
        Account(a.balance + c.Credited(), ClosedPositions(a.positions, i, c),
                Trim(a.history + [CloseTrade(p, s, c, price)]), a.realizedPnl + c.pnl, a.feesPaid + c.fee),
        CloseReceipt(price, c.pnl, IsPartial(r) && !c.full, c.size, remaining))
  }

  // ---- Collateral ----

  function WithCollateral(p: Position, collateral: real): Position {
    p.(collateral := collateral, leverage := if collateral > 0.0 then p.size / collateral else 0.0)
  }

  function PriceOr(prices: Prices, m: Market, default: real): real {
    if m in prices then prices[m] else default
  }

  function CollateralTrade(p: Position, action: Action, amount: real, prices: Prices): Trade {
    Trade(p.id, action, p.market, p.side, p.size, amount, p.leverage, PriceOr(prices, p.market, p.entry), None, None)
  }

  function DoAddCollateral(a: Account, prices: Prices, m: Market, s: Side, amount: real): Outcome {
    var i := Find(a.positions, m, s);
    if amount <= 0.0 then Rejected(InvalidAmount)
    else if amount > a.balance then Rejected(InsufficientBalance)
    else if i == |a.positions| then Rejected(NoPosition)
    else
      var p := WithCollateral(a.positions[i], a.positions[i].collateral + amount);
      Accepted(
        a.(balance := a.balance - amount, positions := a.positions[i := p],
           history := Trim(a.history + [CollateralTrade(p, CollateralAdded, amount, prices)])),
        CollateralReceipt(p.leverage))
  }

  /** Would a position with this entry and leverage be liquidated at once at the given price? */
  predicate WouldBeLiquidated(entry: real, leverage: real, s: Side, margin: real, closeFee: real, price: real) {
    var liquidation := LeverageLiquidationPrice(entry, leverage, s, margin, closeFee);
    || (if s.Long? then liquidation >= price else liquidation <= price)
    || liquidation <= 0.0
    || liquidation == entry
  }

  function DoRemoveCollateral(a: Account, prices: Prices, m: Market, s: Side, amount: real): Outcome {
    var i := Find(a.positions, m, s);
    if amount <= 0.0 then Rejected(InvalidAmount)
    else if i == |a.positions| then Rejected(NoPosition)
    else if amount >= a.positions[i].collateral then Rejected(AllCollateral)
    else
      var p := WithCollateral(a.positions[i], a.positions[i].collateral - amount);
      if && p.leverage > 0.0
         && WouldBeLiquidated(p.entry, p.leverage, s, p.marginRate, p.closeFeeRate, PriceOr(prices, p.market, p.entry))
      then Rejected(WouldLiquidate)
      else
        Accepted(
          a.(balance := a.balance + amount, positions := a.positions[i := p],
             history := Trim(a.history + [CollateralTrade(p, CollateralRemoved, amount, prices)])),
          CollateralReceipt(p.leverage))
  }

  // ---- Take-profit and stop-loss marks ----

  function DoSetTpSl(a: Account, m: Market, s: Side, tp: Option<real>, sl: Option<real>): Outcome {
    var i := Find(a.positions, m, s);
    if i == |a.positions| then Rejected(NoPosition)
    else
      var p := a.positions[i];
      var q := p.(takeProfit := if tp.Some? then tp else p.takeProfit, stopLoss := if sl.Some? then sl else p.stopLoss);
      Accepted(a.(positions := a.positions[i := q]), TriggersReceipt)
  }

  function DoRemoveTpSl(a: Account, m: Market, s: Side): Outcome {
    var i := Find(a.positions, m, s);
    if i == |a.positions| then Rejected(NoPosition)
    else
      var q := a.positions[i].(takeProfit := None, stopLoss := None);
      Accepted(a.(positions := a.positions[i := q]), TriggersReceipt)
  }

  function Step(a: Account, op: Op, feed: Feed): Outcome
    requires Inv(a)
  {
    match op
    case Open(m, s, collateral, leverage) => DoOpen(a, feed, m, s, collateral, leverage)
    case Close(m, s, request) => DoClose(a, feed, m, s, request)
    case AddCollateral(m, s, amount) => DoAddCollateral(a, feed.prices, m, s, amount)
    case RemoveCollateral(m, s, amount) => DoRemoveCollateral(a, feed.prices, m, s, amount)
    case SetTpSl(m, s, tp, sl) => DoSetTpSl(a, m, s, tp, sl)
    case RemoveTpSl(m, s) => DoRemoveTpSl(a, m, s)
  }

  /** What the caller of an operation gets. */
  datatype Result = Completed(receipt: Receipt) | Threw(error: Error)

  function ResultOf(o: Outcome): Result {
    if o.Accepted? then Completed(o.receipt) else Threw(o.error)
  }
}
