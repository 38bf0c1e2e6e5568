/**
 * The client with its operations split at their awaits. Locked bodies go through the promise chain of
 * module TradeLock; between any two of their blocks other callers may arrive, prices may change, and the
 * unlocked setTpSl / removeTpSl may rewrite marks on position objects. The close operation keeps an array
 * index and an object reference across its second await, as the source does.
 *
 * The log records, for every body, the operation it performed and what it was quoted. The main results
 * say that running the log sequentially gives the same account and the same answers (Serialisable) in
 * the order in which the lock was granted (LogFollowsLockOrder).
 */
module Interleaved {
  import opened Wrappers
  import opened Ledger
  import opened Invariant
  import opened Runs
  import opened Conservation
  import L = TradeLock

  /** A position object: its identity and its fields. */
  datatype Obj = Obj(ref: nat, position: Position)

  /** What runs under the lock: one of the four trading operations, or the sweep. */
  datatype Body = Trading(op: Op) | Sweeping

  /** What a close remembers across the await for its fee rate. */
  datatype Quote = Quote(idx: nat, ref: nat, position: Position, price: real, figures: CloseFigures)

  datatype Pc =
    | NotStarted
    | Refreshing                                                      // awaiting refreshPrices
    | OpenQuoted(price: real, slippageBps: nat, maxLeverage: real)    // awaiting the rates of an open
    | ClosePending(m: Market, s: Side, r: CloseRequest, resume: Option<nat>)
    | CloseQuoted(m: Market, s: Side, r: CloseRequest, quote: Quote, resume: Option<nat>)
    | SweepAt(i: nat)                                                 // about to look at position i - 1
    | Returned(result: Result)

  datatype Entry = Entry(owner: Option<nat>, call: Call)

  datatype Client = Client(
    balance: real, objs: seq<Obj>, history: seq<Trade>, realizedPnl: real, feesPaid: real,
    prices: Prices, nextRef: nat, lock: L.Lock, bodies: seq<Body>, pcs: seq<Pc>, log: seq<Entry>)

  /** Env carries what the awaited calls answer: rates, slippage, leverage limit, new identifiers. */
  datatype Event =
    | Arrive(body: Body)
    | Start(k: nat)
    | Resume(k: nat, env: Feed)
    | Release(k: nat)
    | MovePrices(prices: Prices)
    | Mark(op: Op)

  function Values(objs: seq<Obj>): (ps: seq<Position>)
    ensures |ps| == |objs| && forall i :: 0 <= i < |objs| ==> ps[i] == objs[i].position
  {
    seq(|objs|, i requires 0 <= i < |objs| => objs[i].position)
  }

  function AccountOf(c: Client): Account {
    Account(c.balance, Values(c.objs), c.history, c.realizedPnl, c.feesPaid)
  }

  function FindRef(objs: seq<Obj>, ref: nat): (i: nat)
    ensures i <= |objs| && (i < |objs| ==> objs[i].ref == ref) && forall j :: 0 <= j < i ==> objs[j].ref != ref
  {
    if objs == [] || objs[0].ref == ref then 0 else 1 + FindRef(objs[1..], ref)
  }

  // ---- The blocks of the bodies ----

  function Log(c: Client, k: nat, op: Op, feed: Feed): Client {
    c.(log := c.log + [Entry(Some(k), Call(op, feed))])
  }

  function GoTo(c: Client, k: nat, pc: Pc): Client
    requires k < |c.pcs|
  {
    c.(pcs := c.pcs[k := pc])
  }

  function Throw(c: Client, k: nat, op: Op, feed: Feed, e: Error): Client
    requires k < |c.pcs|
  {
    GoTo(Log(c, k, op, feed), k, Returned(Threw(e)))
  }

  function QuotedFeed(m: Market, price: real, env: Feed): Feed {
    env.(prices := map[m := price])
  }

  /** Open, after the price refresh: validate against the balance and remember the price. */
  function OpenFirst(c: Client, k: nat, op: Op, env: Feed): Client
    requires k < |c.pcs| && op.Open?
  {
    var feed := env.(prices := c.prices);
    if op.leverage > env.maxLeverage then Throw(c, k, op, feed, LeverageTooHigh)
    else if op.collateral <= 0.0 || op.collateral > c.balance || op.leverage < MIN_LEVERAGE then
      Throw(c, k, op, feed, InvalidTrade)
    else if !Priced(c.prices, op.market) then Throw(c, k, op, feed, NoPrice)
    else GoTo(c, k, OpenQuoted(c.prices[op.market], env.slippageBps, env.maxLeverage))
  }

  /** Merges the fill into the object found now, or appends a new object. */
  function Placed(objs: seq<Obj>, nextRef: nat, feed: Feed, op: Op): (r: seq<Obj>)
    requires op.Open? && op.market in feed.prices
    ensures |r| == if Find(Values(objs), op.market, op.side) < |objs| then |objs| else |objs| + 1
  {
    var i := Find(Values(objs), op.market, op.side);
    if i < |objs| then
      var merged := MergedPosition(objs[i].position, feed, op.market, op.side, op.collateral, op.leverage);
      objs[i := Obj(objs[i].ref, merged)]
    else
      objs + [Obj(nextRef, NewPosition(feed, op.market, op.side, op.collateral, op.leverage))]
  }

  /** Open, once the rates are known: the last checks, then pay and merge or append. */
  function OpenSecond(c: Client, k: nat, op: Op, pc: Pc, env: Feed): Client
    requires k < |c.pcs| && op.Open? && pc.OpenQuoted?
  {
    var feed := QuotedFeed(op.market, pc.price, env.(slippageBps := pc.slippageBps, maxLeverage := pc.maxLeverage));
    var fill := FillPrice(feed, op.market, op.side);
    var size := SizeUsd(op.collateral, op.leverage);
    var fee := FeeUsd(size, env.rates.open);
    var liquidation := LeverageLiquidationPrice(fill, op.leverage, op.side, env.rates.margin, env.rates.close);
    if liquidation == fill || liquidation <= 0.0 then Throw(c, k, op, feed, ImmediateLiquidation)
    else if op.collateral + fee > c.balance then Throw(c, k, op, feed, InsufficientBalance)
    else
      var i := Find(Values(c.objs), op.market, op.side);
      var objs := Placed(c.objs, c.nextRef, feed, op);
      var trade := OpenTrade(AccountOf(c), feed, op.market, op.side, op.collateral, op.leverage);
      var d := c.(balance := c.balance - (op.collateral + fee), objs := objs, feesPaid := c.feesPaid + fee,
                  history := Trim(c.history + [trade]), nextRef := c.nextRef + 1);
      GoTo(Log(d, k, op, feed), k, Returned(Completed(OpenReceipt(objs[i].position.entry, liquidation, size))))
  }

  /** Close, after the price refresh: look the position up, remember its index, reference and figures. */
  function CloseFirst(c: Client, k: nat, pc: Pc, env: Feed): Client
    requires k < |c.pcs| && pc.ClosePending? && forall o :: o in c.objs ==> o.position.size > 0.0
  {
    var op := Close(pc.m, pc.s, pc.r);
    var feed := env.(prices := c.prices);
    var i := Find(Values(c.objs), pc.m, pc.s);
    if i == |c.objs| then Throw(c, k, op, feed, NoPosition)
    else if !Priced(c.prices, pc.m) then Throw(c, k, op, feed, NoPrice)
    else if AmountTooBig(pc.r, c.objs[i].position.size) then Throw(c, k, op, feed, AmountExceedsSize)
    else
      var price := c.prices[pc.m];
      var q := Quote(i, c.objs[i].ref, c.objs[i].position, price, Figures(c.objs[i].position, pc.r, price, 0.0));
      GoTo(c, k, CloseQuoted(pc.m, pc.s, pc.r, q, pc.resume))
  }

  /**
   * Close, once the rate is known: charge the fee, then splice at the remembered index, or reduce the
   * remembered object. A referenced object that is no longer listed keeps the fields it was quoted with.
   */
  function CloseSecond(c: Client, k: nat, pc: Pc, env: Feed): Client
    requires k < |c.pcs| && pc.CloseQuoted?
  {
    var q := pc.quote;
    var feed := QuotedFeed(pc.m, q.price, env);
    var figures := q.figures.(fee := FeeUsd(q.figures.size, env.rates.close));
    var at := FindRef(c.objs, q.ref);
    var p := if at < |c.objs| then c.objs[at].position else q.position;
    var left := if figures.full then p else Reduced(p, figures.size, figures.collateral);
    var objs :=
      if figures.full then (if q.idx < |c.objs| then c.objs[..q.idx] + c.objs[q.idx + 1..] else c.objs)
      else if at < |c.objs| then c.objs[at := Obj(q.ref, left)] else c.objs;
    var trade := Trade(p.id, if figures.full then Closed else PartiallyClosed, p.market, pc.s, figures.size,
                       figures.collateral, left.leverage, q.price, Some(p.entry), Some(figures.pnl));
    var d := c.(balance := c.balance + figures.Credited(), objs := objs, feesPaid := c.feesPaid + figures.fee,
                realizedPnl := c.realizedPnl + figures.pnl, history := Trim(c.history + [trade]));
    var receipt := CloseReceipt(q.price, figures.pnl, IsPartial(pc.r) && !figures.full, figures.size,
                                if figures.full then 0.0 else left.size);
    var next := if pc.resume.Some? then SweepAt(pc.resume.value) else Returned(Completed(receipt));
    GoTo(Log(d, k, Close(pc.m, pc.s, pc.r), feed), k, next)
  }

  /** The two collateral operations run in one block; they have no await after the last read. */
  function CollateralBlock(c: Client, k: nat, op: Op, env: Feed): Client
    requires k < |c.pcs| && (op.AddCollateral? || op.RemoveCollateral?)
  {
    var feed := env.(prices := c.prices);
    var o := if op.AddCollateral? then DoAddCollateral(AccountOf(c), c.prices, op.market, op.side, op.amount)
             else DoRemoveCollateral(AccountOf(c), c.prices, op.market, op.side, op.amount);
    if o.Rejected? then Throw(c, k, op, feed, o.error)
    else
      var i := Find(Values(c.objs), op.market, op.side);
      var d := c.(balance := o.account.balance, history := o.account.history,
                  objs := if i < |c.objs| && i < |o.account.positions|
                          then c.objs[i := Obj(c.objs[i].ref, o.account.positions[i])] else c.objs);
      GoTo(Log(d, k, op, feed), k, Returned(Completed(o.receipt)))
  }

  /** One turn of the sweep loop, up to the next await. */
  function SweepBlock(c: Client, k: nat, i: nat): Client
    requires k < |c.pcs|
  {
    if i == 0 || i > |c.objs| then GoTo(c, k, Returned(Completed(TriggersReceipt)))
    else
      var p := c.objs[i - 1].position;
      if Hit(p, c.prices) then GoTo(c, k, ClosePending(p.market, p.side, CLOSE_ALL, Some(i - 1)))
      else GoTo(c, k, SweepAt(i - 1))
  }

  // ---- Steps ----

  function FirstPc(c: Client, body: Body): Pc {
    match body
    case Sweeping => SweepAt(|c.objs|)
    case Trading(Close(m, s, r)) => ClosePending(m, s, r, None)
    case _ => Refreshing
  }

  predicate MarkOp(op: Op) { op.SetTpSl? || op.RemoveTpSl? }

  predicate LockedOp(op: Op) { !MarkOp(op) }

  predicate CanHappen(c: Client, e: Event) {
    match e
    case Arrive(body) => body.Trading? ==> LockedOp(body.op)
    case Start(k) => L.Enabled(c.lock, L.Start(k)) && k < |c.pcs| && k < |c.bodies|
    case Resume(k, env) =>
      && k < |c.pcs| && k < |c.bodies|
      && (c.pcs[k].Refreshing? || c.pcs[k].OpenQuoted? || c.pcs[k].ClosePending? || c.pcs[k].CloseQuoted?
          || c.pcs[k].SweepAt?)
      && ((c.pcs[k].Refreshing? || c.pcs[k].OpenQuoted?) ==>
            c.bodies[k].Trading? && LockedOp(c.bodies[k].op) && !c.bodies[k].op.Close?)
      && (c.pcs[k].OpenQuoted? ==> c.bodies[k].op.Open?)
      && (c.pcs[k].ClosePending? ==> forall o :: o in c.objs ==> o.position.size > 0.0)
    case Release(k) => k < |c.pcs| && c.pcs[k].Returned? && L.Enabled(c.lock, L.Finish(k))
    case MovePrices(_) => true
    case Mark(op) => MarkOp(op)
  }

  function MarkObj(c: Client, op: Op): Client
    requires MarkOp(op)
  {
    var a := AccountOf(c);
    var o := if op.SetTpSl? then DoSetTpSl(a, op.market, op.side, op.takeProfit, op.stopLoss)
             else DoRemoveTpSl(a, op.market, op.side);
    var i := Find(Values(c.objs), op.market, op.side);
    var feed := Feed(c.prices, Rates(0.0, 0.0, 0.0), 0, 0.0, "", "");
    var d := c.(log := c.log + [Entry(None, Call(op, feed))]);
    if o.Rejected? || i >= |c.objs| || i >= |o.account.positions| then d
    else d.(objs := c.objs[i := Obj(c.objs[i].ref, o.account.positions[i])])
  }

  function Next(c: Client, e: Event): Client
    requires CanHappen(c, e)
  {
    match e
    case Arrive(body) => c.(lock := L.Apply(c.lock, L.Arrive), bodies := c.bodies + [body], pcs := c.pcs + [NotStarted])
    case Start(k) => GoTo(c.(lock := L.Apply(c.lock, L.Start(k))), k, FirstPc(c, c.bodies[k]))
    case Resume(k, env) =>
      (match c.pcs[k]
       case Refreshing =>
         var op := c.bodies[k].op;
         if op.Open? then OpenFirst(c, k, op, env) else CollateralBlock(c, k, op, env)
       case OpenQuoted(_, _, _) => OpenSecond(c, k, c.bodies[k].op, c.pcs[k], env)
       case ClosePending(_, _, _, _) => CloseFirst(c, k, c.pcs[k], env)
       case CloseQuoted(_, _, _, _, _) => CloseSecond(c, k, c.pcs[k], env)
       case SweepAt(i) => SweepBlock(c, k, i)
       case _ => c)
    case Release(k) => c.(lock := L.Apply(c.lock, L.Finish(k)))
    case MovePrices(prices) => c.(prices := prices)
    case Mark(op) => MarkObj(c, op)
  }

  predicate Reaches(c: Client, es: seq<Event>, d: Client)
    decreases |es|
  {
    if es == [] then c == d else CanHappen(c, es[0]) && Reaches(Next(c, es[0]), es[1..], d)
  }

  function Initial(initialBalance: real): Client {
    Client(initialBalance, [], [], 0.0, 0.0, map[], 0, L.FREE, [], [], [])
  }

  // ---- Invariant of the data ----

  predicate UniqueRefs(objs: seq<Obj>, nextRef: nat) {
    && (forall i :: 0 <= i < |objs| ==> objs[i].ref < nextRef)
    && (forall i, j :: 0 <= i < j < |objs| ==> objs[i].ref != objs[j].ref)
  }

  /** The same position up to its take-profit and stop-loss marks. */
  predicate SameButMarks(p: Position, q: Position) {
    p.(takeProfit := None, stopLoss := None) == q.(takeProfit := None, stopLoss := None)
  }

  predicate ResumeOk(c: Client, k: nat, m: Market, s: Side, r: CloseRequest, resume: Option<nat>)
    requires k < |c.bodies|
  {
    match resume
    case None => c.bodies[k] == Trading(Close(m, s, r))
    case Some(i) => c.bodies[k].Sweeping? && r == CLOSE_ALL && i < |c.objs| && c.objs[i].position.Names(m, s)
  }

  /** What a running body may rely on when it resumes. */
  predicate PcOk(c: Client, k: nat)
    requires k < |c.bodies| && k < |c.pcs|
  {
    match c.pcs[k]
    case NotStarted => false
    case Refreshing => c.bodies[k].Trading? && LockedOp(c.bodies[k].op) && !c.bodies[k].op.Close?
    case OpenQuoted(price, _, maxLeverage) =>
      && c.bodies[k].Trading? && c.bodies[k].op.Open? && price > 0.0
      && var op := c.bodies[k].op;
         op.leverage <= maxLeverage && 0.0 < op.collateral <= c.balance && op.leverage >= MIN_LEVERAGE
    case ClosePending(m, s, r, resume) => ResumeOk(c, k, m, s, r, resume)
    case CloseQuoted(m, s, r, q, resume) =>
      && ResumeOk(c, k, m, s, r, resume)
      && q.idx < |c.objs| && q.idx == Find(Values(c.objs), m, s)
      && c.objs[q.idx].ref == q.ref && SameButMarks(c.objs[q.idx].position, q.position)
      && q.position.size > 0.0 && !AmountTooBig(r, q.position.size) && q.price > 0.0
      && q.figures == Figures(q.position, r, q.price, 0.0)
      && (resume.Some? ==> resume.value == q.idx)
    case SweepAt(i) => c.bodies[k].Sweeping? && i <= |c.objs|
    case Returned(_) => true
  }

  predicate DataInv(c: Client) {
    && |c.bodies| == |c.pcs| == |c.lock.callers|
    && UniqueRefs(c.objs, c.nextRef)
    && Inv(AccountOf(c))
    && (forall k :: 0 <= k < |c.bodies| && c.bodies[k].Trading? ==> LockedOp(c.bodies[k].op))
    && (forall k :: 0 <= k < |c.pcs| && c.lock.callers[k] == L.Running ==> PcOk(c, k))
    && (forall k :: 0 <= k < |c.pcs| && c.lock.callers[k] == L.Waiting ==> c.pcs[k].NotStarted?)
    && (forall k :: 0 <= k < |c.pcs| && c.lock.callers[k] == L.Finished ==> c.pcs[k].Returned?)
  }

  // ---- Each block is one sequential step, or none ----

  /** d is c with at most the program counters, the lock and the prices changed. */
  predicate Silent(c: Client, d: Client) {
    d.log == c.log && d.objs == c.objs && d.nextRef == c.nextRef && AccountOf(d) == AccountOf(c)
  }

  /** d is c after one operation, logged as such. */
  predicate OneCall(c: Client, d: Client, owner: Option<nat>, call: Call)
    requires Inv(AccountOf(c))
  {
    && d.log == c.log + [Entry(owner, call)]
    && AccountOf(d) == Happen(AccountOf(c), Single(call))
  }

  /** Caller k holds the lock. */
  predicate Holds(c: Client, k: nat) {
    && k < |c.lock.callers| && c.lock.callers[k] == L.Running
    && forall j :: 0 <= j < |c.lock.callers| && j != k ==> c.lock.callers[j] != L.Running
  }

  /** d differs from c in the data and in caller k's program counter only, and is in order again. */
  predicate BlockOk(c: Client, d: Client, k: nat)
    requires k < |c.pcs|
  {
    && d.lock == c.lock && d.bodies == c.bodies && d.prices == c.prices
    && |d.pcs| == |c.pcs| && d.pcs == c.pcs[k := d.pcs[k]]
    && DataInv(d)
  }

  lemma BlockKeeps(c: Client, d: Client, k: nat)
    requires DataInv(c) && Holds(c, k)
    requires d.lock == c.lock && d.bodies == c.bodies && d.prices == c.prices
    requires |d.pcs| == |c.pcs| && d.pcs == c.pcs[k := d.pcs[k]]
    requires UniqueRefs(d.objs, d.nextRef) && Inv(AccountOf(d)) && PcOk(d, k)
    ensures BlockOk(c, d, k)
  {
  }

  /** The call is one caller k is there to make, and a trading caller is answered as the call answers. */
  predicate Fits(c: Client, d: Client, k: nat, call: Call)
    requires k < |c.bodies| && k < |d.pcs| && Inv(AccountOf(c))
  {
    match c.bodies[k]
    case Trading(op) => call.op == op && d.pcs[k] == Returned(ResultOf(Step(AccountOf(c), call.op, call.feed)))
    case Sweeping => call.op.Close? && call.op.request == CLOSE_ALL
  }

  /** Every outcome of a block: nothing sequential yet, or one sequential step of the caller's. */
  ghost predicate BlockEffect(c: Client, d: Client, k: nat)
    requires k < |c.pcs| && k < |c.bodies| && Inv(AccountOf(c))
  {
    && BlockOk(c, d, k)
    && (|| (Silent(c, d) && (c.bodies[k].Trading? ==> !d.pcs[k].Returned?))
        || exists call :: OneCall(c, d, Some(k), call) && Fits(c, d, k, call))
  }

  lemma OpenFirstStep(c: Client, k: nat, env: Feed)
    requires DataInv(c) && Holds(c, k) && c.pcs[k].Refreshing? && c.bodies[k].op.Open?
    ensures BlockEffect(c, OpenFirst(c, k, c.bodies[k].op, env), k)
  {
    var op := c.bodies[k].op;
    OpenFirstMoves(c, k, op, env);
    hide Inv, OpenFirst, MovedOn, BlockEffect, Step, UniqueRefs;
    var d := OpenFirst(c, k, op, env);
    if d.pcs[k].Returned? {
      ThrownIsOneCall(c, d, k, Call(op, env.(prices := c.prices)));
    } else {
      MovedOnIsSilent(c, d, k);
    }
  }

  /** d is c after caller k was refused: nothing but the answer and the log entry is new. */
  predicate ThrownOnly(c: Client, d: Client, k: nat, call: Call)
    requires k < |c.pcs| && Inv(AccountOf(c))
  {
    var o := Step(AccountOf(c), call.op, call.feed);
    && o.Rejected? && d == GoTo(Log(c, k, call.op, call.feed), k, Returned(Threw(o.error)))
  }

  lemma OpenFirstMoves(c: Client, k: nat, op: Op, env: Feed)
    requires k < |c.pcs| && k < |c.bodies| && Inv(AccountOf(c)) && op.Open? && c.bodies[k] == Trading(op)
    ensures var d := OpenFirst(c, k, op, env);
            && |d.pcs| == |c.pcs|
            && if d.pcs[k].Returned? then ThrownOnly(c, d, k, Call(op, env.(prices := c.prices))) else MovedOn(c, d, k)
  {
    hide LeverageLiquidationPrice, FillPrice, FeeUsd, Inv, OpenedPositions, OpenTrade, SizeUsd, Trim, Find;
  }

  lemma ThrownIsOneCall(c: Client, d: Client, k: nat, call: Call)
    requires DataInv(c) && Holds(c, k) && |d.pcs| == |c.pcs| && ThrownOnly(c, d, k, call)
    requires c.bodies[k] == Trading(call.op)
    ensures BlockEffect(c, d, k)
  {
    hide Inv, UniqueRefs, Step;
    assert AccountOf(d) == AccountOf(c);
    assert OneCall(c, d, Some(k), call) && Fits(c, d, k, call);
    ReturnedIsOk(d, k);
    hide PcOk;
    BlockKeeps(c, d, k);
  }

  /** Placing the fill among the objects is what the open does to the positions. */
  lemma PlacedValues(objs: seq<Obj>, nextRef: nat, feed: Feed, op: Op)
    requires op.Open? && op.market in feed.prices && UniqueRefs(objs, nextRef)
    ensures Values(Placed(objs, nextRef, feed, op))
         == OpenedPositions(Values(objs), feed, op.market, op.side, op.collateral, op.leverage)
    ensures UniqueRefs(Placed(objs, nextRef, feed, op), nextRef + 1)
  {
    hide MergedPosition, NewPosition;
  }

  lemma OpenSecondIsOpen(c: Client, k: nat, op: Op, pc: Pc, env: Feed)
    requires k < |c.pcs| && UniqueRefs(c.objs, c.nextRef) && Inv(AccountOf(c))
    requires op.Open? && pc.OpenQuoted? && pc.price > 0.0
    requires op.leverage <= pc.maxLeverage && 0.0 < op.collateral <= c.balance && op.leverage >= MIN_LEVERAGE
    ensures var quoted := env.(slippageBps := pc.slippageBps, maxLeverage := pc.maxLeverage);
            var feed := QuotedFeed(op.market, pc.price, quoted);
            var d := OpenSecond(c, k, op, pc, env);
            && OneCall(c, d, Some(k), Call(op, feed))
            && |d.pcs| == |c.pcs| && d.pcs == c.pcs[k := Returned(ResultOf(Step(AccountOf(c), op, feed)))]
  {
    hide SizeUsd, LeverageLiquidationPrice, FillPrice, FeeUsd, OpenedPositions, Placed, Inv, Trim, OpenTrade, Find;
    var feed := QuotedFeed(op.market, pc.price, env.(slippageBps := pc.slippageBps, maxLeverage := pc.maxLeverage));
    PlacedValues(c.objs, c.nextRef, feed, op);
    var a := AccountOf(c);
    var d := OpenSecond(c, k, op, pc, env);
    var placed := Placed(c.objs, c.nextRef, feed, op);
    assert Priced(feed.prices, op.market) && feed.prices[op.market] == pc.price;
    var o := DoOpen(a, feed, op.market, op.side, op.collateral, op.leverage);
    assert AccountOf(d) == o.After(a);
  }

  lemma OpenSecondStep(c: Client, k: nat, env: Feed)
    requires DataInv(c) && Holds(c, k) && c.pcs[k].OpenQuoted?
    ensures BlockEffect(c, OpenSecond(c, k, c.bodies[k].op, c.pcs[k], env), k)
  {
    var op, pc := c.bodies[k].op, c.pcs[k];
    var quoted := env.(slippageBps := pc.slippageBps, maxLeverage := pc.maxLeverage);
    var feed := QuotedFeed(op.market, pc.price, quoted);
    assert PcOk(c, k);
    OpenSecondIsOpen(c, k, op, pc, env);
    OpenSecondObjs(c, k, op, pc, env);
    hide OpenSecond, UniqueRefs, Inv, Step, AccountOf, Happen, PcOk;
    var d := OpenSecond(c, k, op, pc, env);
    assert Fits(c, d, k, Call(op, feed));
    assert PcOk(d, k) by { ReturnedIsOk(d, k); }
    BlockKeeps(c, d, k);
  }

  lemma ReturnedIsOk(c: Client, k: nat)
    requires k < |c.pcs| && k < |c.bodies| && c.pcs[k].Returned?
    ensures PcOk(c, k)
  {
  }

  lemma OpenSecondObjs(c: Client, k: nat, op: Op, pc: Pc, env: Feed)
    requires k < |c.pcs| && UniqueRefs(c.objs, c.nextRef) && op.Open? && pc.OpenQuoted? && pc.price > 0.0
    ensures var d := OpenSecond(c, k, op, pc, env);
            && UniqueRefs(d.objs, d.nextRef) && d.lock == c.lock && d.bodies == c.bodies && d.prices == c.prices
  {
    var quoted := env.(slippageBps := pc.slippageBps, maxLeverage := pc.maxLeverage);
    var feed := QuotedFeed(op.market, pc.price, quoted);
    PlacedValues(c.objs, c.nextRef, feed, op);
    hide SizeUsd, LeverageLiquidationPrice, FillPrice, FeeUsd, Placed, Trim, OpenTrade, Find, AccountOf;
  }

  lemma CloseFirstThrows(c: Client, k: nat, pc: Pc, env: Feed)
    requires k < |c.pcs| && pc.ClosePending? && Inv(AccountOf(c)) && forall o :: o in c.objs ==> o.position.size > 0.0
    ensures var d := CloseFirst(c, k, pc, env);
            var call := Call(Close(pc.m, pc.s, pc.r), env.(prices := c.prices));
            && d.lock == c.lock && d.bodies == c.bodies && d.prices == c.prices
            && d.objs == c.objs && d.nextRef == c.nextRef
            && AccountOf(d) == AccountOf(c) && |d.pcs| == |c.pcs| && d.pcs == c.pcs[k := d.pcs[k]]
            && (d.pcs[k].Returned? ==>
                  && OneCall(c, d, Some(k), call)
                  && d.pcs[k] == Returned(ResultOf(Step(AccountOf(c), call.op, call.feed))))
            && (!d.pcs[k].Returned? ==> d.log == c.log)
  {
    hide Figures, Inv, AmountTooBig;
  }

  lemma CloseFirstStep(c: Client, k: nat, env: Feed)
    requires DataInv(c) && Holds(c, k) && c.pcs[k].ClosePending? && forall o :: o in c.objs ==> o.position.size > 0.0
    ensures BlockEffect(c, CloseFirst(c, k, c.pcs[k], env), k)
  {
    hide Figures, Inv, AmountTooBig;
    var pc := c.pcs[k];
    var d := CloseFirst(c, k, pc, env);
    CloseFirstThrows(c, k, pc, env);
    if d.pcs[k].Returned? {
      var call := Call(Close(pc.m, pc.s, pc.r), env.(prices := c.prices));
      assert Fits(c, d, k, call);
    } else if pc.resume.Some? {
      assert Distinct(Values(c.objs)) by { InvDistinct(AccountOf(c)); }
      FindNamed(Values(c.objs), pc.resume.value);
    }
    BlockKeeps(c, d, k);
  }

  lemma InvDistinct(a: Account)
    requires Inv(a)
    ensures Distinct(a.positions) && AllHealthy(a.positions)
  {
  }

  lemma RefFound(objs: seq<Obj>, nextRef: nat, i: nat)
    requires UniqueRefs(objs, nextRef) && i < |objs|
    ensures FindRef(objs, objs[i].ref) == i
  {
  }

  lemma FiguresIgnoreMarks(p: Position, r: CloseRequest, price: real, rate: real)
    requires p.size > 0.0
    ensures Figures(p, r, price, rate) == Figures(p.(takeProfit := None, stopLoss := None), r, price, rate)
  {
  }

  lemma FeeComesLast(p: Position, r: CloseRequest, price: real, rate: real)
    requires p.size > 0.0
    ensures var c := Figures(p, r, price, 0.0); Figures(p, r, price, rate) == c.(fee := FeeUsd(c.size, rate))
  {
  }

  /** Marks play no part in the figures of a close, and the fee can be filled in last. */
  lemma MarksDoNotMatter(p: Position, q: Position, r: CloseRequest, price: real, rate: real)
    requires SameButMarks(p, q) && p.size > 0.0 && q.size > 0.0
    ensures var c := Figures(q, r, price, 0.0); Figures(p, r, price, rate) == c.(fee := FeeUsd(c.size, rate))
  {
    hide Figures;
    FiguresIgnoreMarks(p, r, price, rate);
    FiguresIgnoreMarks(q, r, price, rate);
    FeeComesLast(q, r, price, rate);
  }

  /** The remembered figures, completed with the fee, are those of a close taken now. */
  lemma QuoteStands(c: Client, k: nat, env: Feed)
    requires DataInv(c) && Holds(c, k) && c.pcs[k].CloseQuoted?
    ensures var pc := c.pcs[k];
            var q := pc.quote;
            var p := c.objs[q.idx].position;
            var figures := q.figures.(fee := FeeUsd(q.figures.size, env.rates.close));
            && FindRef(c.objs, q.ref) == q.idx && p.size > 0.0 && figures == Figures(p, pc.r, q.price, env.rates.close)
            && CloseError(AccountOf(c), QuotedFeed(pc.m, q.price, env), pc.m, pc.s, pc.r).None?
  {
    hide Figures, Inv;
    var q := c.pcs[k].quote;
    RefFound(c.objs, c.nextRef, q.idx);
    MarksDoNotMatter(c.objs[q.idx].position, q.position, c.pcs[k].r, q.price, env.rates.close);
  }

  /** What the second block of a close makes of the account, in terms of the figures completed with the fee. */
  lemma CloseSecondAccount(c: Client, k: nat, pc: Pc, env: Feed, figures: CloseFigures)
    requires k < |c.pcs| && pc.CloseQuoted? && UniqueRefs(c.objs, c.nextRef)
    requires pc.quote.idx < |c.objs| && FindRef(c.objs, pc.quote.ref) == pc.quote.idx
    requires c.objs[pc.quote.idx].ref == pc.quote.ref
    requires figures == pc.quote.figures.(fee := FeeUsd(pc.quote.figures.size, env.rates.close))
    ensures var q := pc.quote;
            var ps := Values(c.objs);
            AccountOf(CloseSecond(c, k, pc, env)) ==
            Account(c.balance + figures.Credited(), ClosedPositions(ps, q.idx, figures),
                    Trim(c.history + [CloseTrade(ps[q.idx], pc.s, figures, q.price)]),
                    c.realizedPnl + figures.pnl, c.feesPaid + figures.fee)
  {
    hide Reduced, Trim, FindRef, FeeUsd, CloseFigures.Credited, UniqueRefs;
    ClosedValues(c.objs, c.nextRef, pc.quote.idx, figures);
  }

  lemma CloseSecondBooks(c: Client, k: nat, env: Feed)
    requires DataInv(c) && Holds(c, k) && c.pcs[k].CloseQuoted?
    ensures var pc := c.pcs[k];
            var call := Call(Close(pc.m, pc.s, pc.r), QuotedFeed(pc.m, pc.quote.price, env));
            OneCall(c, CloseSecond(c, k, pc, env), Some(k), call)
  {
    var pc := c.pcs[k];
    var q := pc.quote;
    QuoteStands(c, k, env);
    QuotedObject(c, k);
    hide PcOk, Inv, UniqueRefs, FindRef, Figures, CloseError;
    CloseSecondAccount(c, k, pc, env, q.figures.(fee := FeeUsd(q.figures.size, env.rates.close)));
    CloseOutcome(AccountOf(c), QuotedFeed(pc.m, q.price, env), pc.m, pc.s, pc.r);
    hide DoClose, Reduced, Trim, FeeUsd, CloseFigures.Credited, IsPartial, ClosedPositions, CloseTrade;
  }

  lemma QuotedObject(c: Client, k: nat)
    requires DataInv(c) && Holds(c, k) && c.pcs[k].CloseQuoted?
    ensures var q := c.pcs[k].quote;
            q.idx < |c.objs| && c.objs[q.idx].ref == q.ref && q.idx == Find(Values(c.objs), c.pcs[k].m, c.pcs[k].s)
  {
    hide Inv, Figures;
    assert PcOk(c, k);
  }

  lemma CloseSecondObjs(c: Client, k: nat, env: Feed)
    requires DataInv(c) && Holds(c, k) && c.pcs[k].CloseQuoted?
    ensures var pc := c.pcs[k];
            var d := CloseSecond(c, k, pc, env);
            && UniqueRefs(d.objs, d.nextRef) && |d.pcs| == |c.pcs| && d.pcs == c.pcs[k := d.pcs[k]]
            && (pc.resume.Some? ==> d.pcs[k] == SweepAt(pc.resume.value) && pc.resume.value <= |d.objs|)
  {
    var q := c.pcs[k].quote;
    QuoteStands(c, k, env);
    var figures := q.figures.(fee := FeeUsd(q.figures.size, env.rates.close));
    hide Figures, Reduced, Inv, Trim, FloorZero, FindRef, AmountTooBig, CloseError, FeeUsd;
    ClosedValues(c.objs, c.nextRef, q.idx, figures);
  }

  lemma CloseSecondAnswers(c: Client, k: nat, pc: Pc, env: Feed)
    requires DataInv(c) && Holds(c, k) && pc == c.pcs[k] && pc.CloseQuoted? && pc.resume.None?
    ensures CloseSecond(c, k, pc, env).pcs[k]
         == Returned(ResultOf(DoClose(AccountOf(c), QuotedFeed(pc.m, pc.quote.price, env), pc.m, pc.s, pc.r)))
  {
    QuoteStands(c, k, env);
    hide Figures, Inv, Trim, FloorZero, FindRef, AmountTooBig, CloseError, FeeUsd;
  }

  lemma CloseSecondStep(c: Client, k: nat, env: Feed)
    requires DataInv(c) && Holds(c, k) && c.pcs[k].CloseQuoted?
    ensures BlockEffect(c, CloseSecond(c, k, c.pcs[k], env), k)
  {
    var pc := c.pcs[k];
    CloseSecondBooks(c, k, env);
    CloseSecondObjs(c, k, env);
    if pc.resume.None? { CloseSecondAnswers(c, k, pc, env); }
    var call := Call(Close(pc.m, pc.s, pc.r), QuotedFeed(pc.m, pc.quote.price, env));
    var d := CloseSecond(c, k, pc, env);
    hide CloseSecond, Inv, DoClose;
    CloseSecondFrame(c, k, pc, env);
    assert Fits(c, d, k, call);
    BlockKeeps(c, d, k);
  }

  lemma CloseSecondFrame(c: Client, k: nat, pc: Pc, env: Feed)
    requires k < |c.pcs| && pc.CloseQuoted?
    ensures var d := CloseSecond(c, k, pc, env);
            d.lock == c.lock && d.bodies == c.bodies && d.prices == c.prices
            && (pc.resume.None? ==> d.pcs[k].Returned?)
  {
    hide Reduced, Trim;
  }

  /** The objects after a close, spliced or reduced at index i. */
  lemma ClosedValues(objs: seq<Obj>, nextRef: nat, i: nat, c: CloseFigures)
    requires UniqueRefs(objs, nextRef) && i < |objs|
    ensures Values(objs[..i] + objs[i + 1..]) == Values(objs)[..i] + Values(objs)[i + 1..]
    ensures UniqueRefs(objs[..i] + objs[i + 1..], nextRef)
    ensures var o := Obj(objs[i].ref, Reduced(objs[i].position, c.size, c.collateral));
            Values(objs[i := o]) == Values(objs)[i := o.position] && UniqueRefs(objs[i := o], nextRef)
  {
  }

  lemma CollateralIsCall(c: Client, k: nat, op: Op, env: Feed)
    requires k < |c.pcs| && UniqueRefs(c.objs, c.nextRef) && Inv(AccountOf(c))
    requires op.AddCollateral? || op.RemoveCollateral?
    ensures var d := CollateralBlock(c, k, op, env);
            var call := Call(op, env.(prices := c.prices));
            && OneCall(c, d, Some(k), call) && UniqueRefs(d.objs, d.nextRef)
            && d.lock == c.lock && d.bodies == c.bodies && d.prices == c.prices && |d.pcs| == |c.pcs|
            && d.pcs == c.pcs[k := Returned(ResultOf(Step(AccountOf(c), call.op, call.feed)))]
  {
    var a := AccountOf(c);
    hide Inv, WithCollateral, WouldBeLiquidated, Trim, CollateralTrade, UniqueRefs;
    var o := if op.AddCollateral? then DoAddCollateral(a, c.prices, op.market, op.side, op.amount)
             else DoRemoveCollateral(a, c.prices, op.market, op.side, op.amount);
    if o.Accepted? {
      var i := Find(a.positions, op.market, op.side);
      assert o.account.positions == a.positions[i := o.account.positions[i]];
      ReplacedValues(c.objs, c.nextRef, i, o.account.positions[i]);
    }
  }

  /** Changing the fields of one object changes one position and no reference. */
  lemma ReplacedValues(objs: seq<Obj>, nextRef: nat, i: nat, p: Position)
    requires UniqueRefs(objs, nextRef) && i < |objs|
    ensures Values(objs[i := Obj(objs[i].ref, p)]) == Values(objs)[i := p]
    ensures UniqueRefs(objs[i := Obj(objs[i].ref, p)], nextRef)
  {
  }

  lemma CollateralStep(c: Client, k: nat, env: Feed)
    requires DataInv(c) && Holds(c, k) && c.pcs[k].Refreshing? && !c.bodies[k].op.Open?
    ensures BlockEffect(c, CollateralBlock(c, k, c.bodies[k].op, env), k)
  {
    var op := c.bodies[k].op;
    var call := Call(op, env.(prices := c.prices));
    assert op.AddCollateral? || op.RemoveCollateral? by { assert PcOk(c, k); }
    CollateralIsCall(c, k, op, env);
    StepKeepsInv(AccountOf(c), op, call.feed);
    hide Inv, CollateralBlock, UniqueRefs, Step, AccountOf;
    var d := CollateralBlock(c, k, op, env);
    assert Fits(c, d, k, call);
    BlockKeeps(c, d, k);
  }

  /** d is c with caller k's program counter moved on, to where it may rest. */
  predicate MovedOn(c: Client, d: Client, k: nat)
    requires k < |c.pcs| && k < |c.bodies|
  {
    && |d.pcs| == |c.pcs| && d == c.(pcs := c.pcs[k := d.pcs[k]]) && PcOk(d, k)
    && (c.bodies[k].Trading? ==> !d.pcs[k].Returned?)
  }

  lemma MovedOnIsSilent(c: Client, d: Client, k: nat)
    requires DataInv(c) && Holds(c, k) && |d.pcs| == |c.pcs| && MovedOn(c, d, k)
    ensures BlockEffect(c, d, k)
  {
    hide Inv, UniqueRefs, PcOk;
    assert AccountOf(d) == AccountOf(c);
    BlockKeeps(c, d, k);
  }

  lemma SweepMovesOn(c: Client, k: nat, i: nat)
    requires k < |c.pcs| && k < |c.bodies| && c.bodies[k].Sweeping? && i <= |c.objs|
    ensures |SweepBlock(c, k, i).pcs| == |c.pcs| && MovedOn(c, SweepBlock(c, k, i), k)
  {
    hide Hit;
  }

  lemma SweepStep(c: Client, k: nat, i: nat)
    requires DataInv(c) && Holds(c, k) && c.pcs[k] == SweepAt(i)
    ensures BlockEffect(c, SweepBlock(c, k, i), k)
  {
    hide Inv, SweepBlock, MovedOn, BlockEffect;
    assert PcOk(c, k);
    SweepMovesOn(c, k, i);
    MovedOnIsSilent(c, SweepBlock(c, k, i), k);
  }

  lemma ResumeStep(c: Client, k: nat, env: Feed)
    requires DataInv(c) && Holds(c, k) && CanHappen(c, Resume(k, env))
    ensures BlockEffect(c, Next(c, Resume(k, env)), k)
  {
    hide BlockEffect, OpenFirst, OpenSecond, CloseFirst, CloseSecond, CollateralBlock, SweepBlock, Inv;
    assert PcOk(c, k);
    match c.pcs[k]
    case Refreshing =>
      if c.bodies[k].op.Open? { OpenFirstStep(c, k, env); } else { CollateralStep(c, k, env); }
    case OpenQuoted(_, _, _) => OpenSecondStep(c, k, env);
    case ClosePending(_, _, _, _) => CloseFirstStep(c, k, env);
    case CloseQuoted(_, _, _, _, _) => CloseSecondStep(c, k, env);
    case SweepAt(i) => SweepStep(c, k, i);
  }

  // ---- Marks set while a body is suspended ----

  /** d's objects are c's, with the same references and fields but for the marks. */
  predicate Remarked(before: seq<Obj>, after: seq<Obj>) {
    && |after| == |before|
    && forall i :: 0 <= i < |before| ==>
         && after[i].ref == before[i].ref && SameButMarks(after[i].position, before[i].position)
         && after[i].position.Names(before[i].position.market, before[i].position.side)
  }

  lemma MarkedObjs(c: Client, op: Op)
    requires MarkOp(op)
    ensures Remarked(c.objs, MarkObj(c, op).objs)
  {
  }

  lemma MarkedAccount(c: Client, op: Op)
    requires UniqueRefs(c.objs, c.nextRef) && Inv(AccountOf(c)) && MarkOp(op)
    ensures var d := MarkObj(c, op);
            && |d.log| == |c.log| + 1 && OneCall(c, d, None, d.log[|c.log|].call) && d.log[|c.log|].call.op == op
            && UniqueRefs(d.objs, d.nextRef)
  {
    var a := AccountOf(c);
    hide Inv, UniqueRefs;
    var i := Find(a.positions, op.market, op.side);
    if i < |c.objs| {
      var o := if op.SetTpSl? then DoSetTpSl(a, op.market, op.side, op.takeProfit, op.stopLoss)
               else DoRemoveTpSl(a, op.market, op.side);
      assert o.account.positions == a.positions[i := o.account.positions[i]];
      ReplacedValues(c.objs, c.nextRef, i, o.account.positions[i]);
    }
  }

  lemma FindSameNames(ps: seq<Position>, qs: seq<Position>, m: Market, s: Side)
    requires |ps| == |qs| && forall i :: 0 <= i < |ps| ==> qs[i].Names(ps[i].market, ps[i].side)
    ensures Find(ps, m, s) == Find(qs, m, s)
  {
    var i, j := Find(ps, m, s), Find(qs, m, s);
    if i < |ps| { assert qs[i].Names(m, s); }
    if j < |qs| { assert ps[j].Names(m, s); }
  }

  lemma MarkKeepsPc(c: Client, d: Client, k: nat)
    requires k < |c.pcs| && k < |c.bodies| && PcOk(c, k) && Remarked(c.objs, d.objs)
    requires d.bodies == c.bodies && d.pcs == c.pcs && d.balance == c.balance
    ensures PcOk(d, k)
  {
    hide Figures, AmountTooBig;
    if c.pcs[k].CloseQuoted? {
      FindSameNames(Values(c.objs), Values(d.objs), c.pcs[k].m, c.pcs[k].s);
    }
  }

  lemma MarkKeepsData(c: Client, op: Op)
    requires DataInv(c) && MarkOp(op)
    ensures DataInv(MarkObj(c, op))
  {
    MarkFrame(c, op);
    MarkedObjs(c, op);
    MarkedAccount(c, op);
    hide Inv, PcOk, MarkObj, UniqueRefs, AccountOf, Happen;
    var d := MarkObj(c, op);
    forall k | 0 <= k < |c.pcs| && c.lock.callers[k] == L.Running ensures PcOk(d, k) {
      MarkKeepsPc(c, d, k);
    }
  }

  lemma MarkFrame(c: Client, op: Op)
    requires MarkOp(op)
    ensures var d := MarkObj(c, op);
            && d.lock == c.lock && d.bodies == c.bodies && d.pcs == c.pcs && d.prices == c.prices
            && d.nextRef == c.nextRef && d.balance == c.balance
  {
    hide AccountOf, Find, DoSetTpSl, DoRemoveTpSl;
  }

  // ---- The log ----

  function CallsOf(log: seq<Entry>): (calls: seq<Call>)
    ensures |calls| == |log| && forall i :: 0 <= i < |log| ==> calls[i] == log[i].call
  {
    seq(|log|, i requires 0 <= i < |log| => log[i].call)
  }

  /** The account the log leads to, one call after the other. */
  function Replay(a: Account, log: seq<Entry>): (b: Account)
    requires Inv(a)
    ensures Inv(b)
  {
    Run(a, CallsOf(log))
  }

  lemma ReplayLast(a: Account, log: seq<Entry>, e: Entry)
    requires Inv(a)
    ensures Replay(a, log + [e]) == Happen(Replay(a, log), Single(e.call))
  {
    hide Inv, Happen;
    assert CallsOf(log + [e]) == CallsOf(log) + [e.call];
    RunConcat(a, CallsOf(log), [e.call]);
    assert [e.call][1..] == [];
  }

  /** Entry e is caller k's own, and the caller was told what the replayed call answers. */
  predicate AnsweredAt(a: Account, c: Client, k: nat, e: nat)
    requires Inv(a) && k < |c.pcs|
  {
    && e < |c.log| && c.log[e].owner == Some(k)
    && c.pcs[k] == Returned(ResultOf(Step(Replay(a, c.log[..e]), c.log[e].call.op, c.log[e].call.feed)))
  }

  predicate OwnerOk(c: Client, e: nat)
    requires e < |c.log|
  {
    match c.log[e].owner
    case None => MarkOp(c.log[e].call.op)
    case Some(k) =>
      && k < |c.lock.callers| && k < |c.bodies| && k < |c.pcs| && c.lock.callers[k] != L.Waiting
      && match c.bodies[k]
         case Trading(op) => c.log[e].call.op == op && c.pcs[k].Returned?
         case Sweeping => c.log[e].call.op.Close? && c.log[e].call.op.request == CLOSE_ALL
  }

  /** Callers appear in the log in the order of their turns, and a trading caller appears once. */
  predicate LogOrdered(c: Client) {
    forall i, j :: 0 <= i < j < |c.log| && c.log[i].owner.Some? && c.log[j].owner.Some? ==>
      && c.log[i].owner.value <= c.log[j].owner.value
      && (c.log[i].owner == c.log[j].owner && c.log[i].owner.value < |c.bodies| ==>
            c.bodies[c.log[i].owner.value].Sweeping?)
  }

  ghost predicate AllAnswered(a: Account, c: Client)
    requires Inv(a)
  {
    forall k :: 0 <= k < |c.bodies| && k < |c.pcs| && c.bodies[k].Trading? && c.pcs[k].Returned? ==>
      exists e: nat :: AnsweredAt(a, c, k, e)
  }

  ghost predicate FullInv(a: Account, c: Client)
    requires Inv(a)
  {
    && L.Inv(c.lock) && DataInv(c)
    && Replay(a, c.log) == AccountOf(c)
    && (forall e :: 0 <= e < |c.log| ==> OwnerOk(c, e))
    && LogOrdered(c) && AllAnswered(a, c)
  }

  lemma RunningHolds(c: Client, k: nat)
    requires L.Inv(c.lock) && k < |c.lock.callers| && c.lock.callers[k] == L.Running
    ensures Holds(c, k) && forall j :: 0 <= j < |c.lock.callers| && c.lock.callers[j] != L.Waiting ==> j <= k
  {
    var d: nat :| L.Shape(c.lock, d);
  }

  /** d has all of c's callers, the returned ones with the same answers, and the same log and account. */
  predicate Extends(c: Client, d: Client) {
    && d.log == c.log && AccountOf(d) == AccountOf(c)
    && |c.bodies| <= |d.bodies| && |c.pcs| <= |d.pcs| && |c.lock.callers| <= |d.lock.callers|
    && (forall j :: 0 <= j < |c.bodies| ==> d.bodies[j] == c.bodies[j])
    && (forall j :: 0 <= j < |c.lock.callers| && c.lock.callers[j] != L.Waiting ==> d.lock.callers[j] != L.Waiting)
    && (forall j :: 0 <= j < |c.pcs| && c.pcs[j].Returned? ==> d.pcs[j] == c.pcs[j])
    && (forall j :: 0 <= j < |d.pcs| && j < |d.bodies| && d.bodies[j].Trading? && d.pcs[j].Returned? ==>
          j < |c.pcs| && j < |c.bodies| && c.pcs[j].Returned?)
  }

  lemma LogStays(a: Account, c: Client, d: Client)
    requires Inv(a) && FullInv(a, c) && Extends(c, d) && L.Inv(d.lock) && DataInv(d)
    ensures FullInv(a, d)
  {
    hide Inv, DataInv, Replay;
    forall e | 0 <= e < |d.log| ensures OwnerOk(d, e) { assert OwnerOk(c, e); }
    assert LogOrdered(d) by { OwnersListed(c); }
    forall k | 0 <= k < |d.bodies| && k < |d.pcs| && d.bodies[k].Trading? && d.pcs[k].Returned?
      ensures exists e: nat :: AnsweredAt(a, d, k, e)
    {
      var e: nat :| AnsweredAt(a, c, k, e);
      assert AnsweredAt(a, d, k, e);
    }
  }

  lemma OwnersListed(c: Client)
    requires forall e :: 0 <= e < |c.log| ==> OwnerOk(c, e)
    ensures forall e :: 0 <= e < |c.log| && c.log[e].owner.Some? ==> c.log[e].owner.value < |c.bodies|
  {
    forall e | 0 <= e < |c.log| && c.log[e].owner.Some? ensures c.log[e].owner.value < |c.bodies| {
      assert OwnerOk(c, e);
    }
  }

  lemma GrownAnswers(a: Account, c: Client, d: Client, owner: Option<nat>, call: Call)
    requires Inv(a) && AllAnswered(a, c) && Replay(a, c.log) == AccountOf(c) && Inv(AccountOf(c))
    requires d.log == c.log + [Entry(owner, call)] && d.bodies == c.bodies && |d.pcs| == |c.pcs| == |c.bodies|
    requires forall j :: 0 <= j < |c.pcs| && owner != Some(j) ==> d.pcs[j] == c.pcs[j]
    requires owner.Some? && owner.value < |c.bodies| ==> Fits(c, d, owner.value, call)
    ensures AllAnswered(a, d)
  {
    hide Inv, Replay, Step, AccountOf;
    var n := |c.log|;
    forall k | 0 <= k < |d.bodies| && d.bodies[k].Trading? && d.pcs[k].Returned?
      ensures exists e: nat :: AnsweredAt(a, d, k, e)
    {
      if owner == Some(k) {
        assert d.log[..n] == c.log;
        assert AnsweredAt(a, d, k, n);
      } else {
        var e: nat :| AnsweredAt(a, c, k, e);
        assert d.log[..e] == c.log[..e];
        assert AnsweredAt(a, d, k, e);
      }
    }
  }

  /** One more entry: by caller k, who holds the lock and has not been answered yet, or a mark. */
  lemma LogGrows(a: Account, c: Client, d: Client, owner: Option<nat>, call: Call)
    requires Inv(a) && FullInv(a, c) && DataInv(d) && OneCall(c, d, owner, call)
    requires d.lock == c.lock && d.bodies == c.bodies && |d.pcs| == |c.pcs|
    requires forall j :: 0 <= j < |c.pcs| && owner != Some(j) ==> d.pcs[j] == c.pcs[j]
    requires match owner
             case None => MarkOp(call.op)
             case Some(k) => Holds(c, k) && k < |c.pcs| && !c.pcs[k].Returned? && Fits(c, d, k, call)
    ensures FullInv(a, d)
  {
    assert |c.bodies| == |c.pcs| == |c.lock.callers| && Inv(AccountOf(c));
    hide Inv, DataInv, Replay, Happen, AllAnswered, LogOrdered, OwnerOk, AccountOf;
    ReplayLast(a, c.log, Entry(owner, call));
    if owner.Some? { RunningHolds(c, owner.value); }
    GrownOwners(c, d, owner, call);
    GrownOrder(c, d, owner, call);
    GrownAnswers(a, c, d, owner, call);
  }

  lemma GrownOwners(c: Client, d: Client, owner: Option<nat>, call: Call)
    requires (forall e :: 0 <= e < |c.log| ==> OwnerOk(c, e)) && d.log == c.log + [Entry(owner, call)]
    requires |c.bodies| == |c.pcs| == |c.lock.callers| && d.lock == c.lock && d.bodies == c.bodies && |d.pcs| == |c.pcs|
    requires forall j :: 0 <= j < |c.pcs| && owner != Some(j) ==> d.pcs[j] == c.pcs[j]
    requires Inv(AccountOf(c))
    requires match owner
             case None => MarkOp(call.op)
             case Some(k) => Holds(c, k) && !c.pcs[k].Returned? && Fits(c, d, k, call)
    ensures forall e :: 0 <= e < |d.log| ==> OwnerOk(d, e)
  {
    hide Inv;
    forall e | 0 <= e < |d.log| ensures OwnerOk(d, e) {
      if e < |c.log| {
        assert OwnerOk(c, e);
        assert d.log[e] == c.log[e];
      }
    }
  }

  lemma GrownOrder(c: Client, d: Client, owner: Option<nat>, call: Call)
    requires (forall e :: 0 <= e < |c.log| ==> OwnerOk(c, e)) && LogOrdered(c) && d.log == c.log + [Entry(owner, call)]
    requires d.bodies == c.bodies
    requires owner.Some? ==>
               forall j :: 0 <= j < |c.lock.callers| && c.lock.callers[j] != L.Waiting ==> j <= owner.value
    requires owner.Some? ==> owner.value < |c.pcs| && !c.pcs[owner.value].Returned?
    ensures LogOrdered(d)
  {
    forall i, j | 0 <= i < j < |d.log| && d.log[i].owner.Some? && d.log[j].owner.Some?
      ensures d.log[i].owner.value <= d.log[j].owner.value
      ensures d.log[i].owner == d.log[j].owner && d.log[i].owner.value < |d.bodies| ==>
                d.bodies[d.log[i].owner.value].Sweeping?
    {
      assert d.log[i] == c.log[i] && OwnerOk(c, i);
    }
  }

  // ---- Every step ----

  lemma EventKeepsInv(a: Account, c: Client, e: Event)
    requires Inv(a) && FullInv(a, c) && CanHappen(c, e)
    ensures FullInv(a, Next(c, e))
  {
    hide Inv, FullInv, BlockEffect;
    match e
    case Arrive(body) => ArriveKeepsInv(a, c, body);
    case Start(k) => StartKeepsInv(a, c, k);
    case Resume(k, env) => ResumeKeepsInv(a, c, k, env);
    case Release(k) => ReleaseKeepsInv(a, c, k);
    case MovePrices(prices) => PricesKeepInv(a, c, prices);
    case Mark(op) => MarkKeepsInv(a, c, op);
  }

  lemma ArriveKeepsData(c: Client, body: Body)
    requires DataInv(c) && (body.Trading? ==> LockedOp(body.op))
    ensures DataInv(Next(c, Arrive(body))) && Extends(c, Next(c, Arrive(body)))
  {
    hide Inv;
    var d := Next(c, Arrive(body));
    forall k | 0 <= k < |d.pcs| && d.lock.callers[k] == L.Running ensures PcOk(d, k) { assert PcOk(c, k); }
  }

  lemma ArriveKeepsInv(a: Account, c: Client, body: Body)
    requires Inv(a) && FullInv(a, c) && (body.Trading? ==> LockedOp(body.op))
    ensures FullInv(a, Next(c, Arrive(body)))
  {
    hide Inv, LogOrdered, AllAnswered, OwnerOk, Replay, DataInv, L.Inv, Extends;
    var d := Next(c, Arrive(body));
    L.MoveKeepsInv(c.lock, L.Arrive);
    ArriveKeepsData(c, body);
    LogStays(a, c, d);
  }

  lemma StartKeepsData(c: Client, k: nat)
    requires DataInv(c) && CanHappen(c, Start(k))
    ensures DataInv(Next(c, Start(k))) && Extends(c, Next(c, Start(k)))
  {
    hide Inv;
    var d := Next(c, Start(k));
    assert PcOk(d, k);
    forall j | 0 <= j < |d.pcs| && d.lock.callers[j] == L.Running ensures PcOk(d, j) {
      if j != k { assert PcOk(c, j); }
    }
  }

  lemma StartKeepsInv(a: Account, c: Client, k: nat)
    requires Inv(a) && FullInv(a, c) && CanHappen(c, Start(k))
    ensures FullInv(a, Next(c, Start(k)))
  {
    hide Inv, LogOrdered, AllAnswered, OwnerOk, Replay, DataInv, L.Inv, Extends, PcOk;
    L.MoveKeepsInv(c.lock, L.Start(k));
    StartKeepsData(c, k);
    LogStays(a, c, Next(c, Start(k)));
  }

  lemma ReleaseKeepsData(c: Client, k: nat)
    requires DataInv(c) && CanHappen(c, Release(k))
    ensures DataInv(Next(c, Release(k))) && Extends(c, Next(c, Release(k)))
  {
    hide Inv;
    var d := Next(c, Release(k));
    forall j | 0 <= j < |d.pcs| && d.lock.callers[j] == L.Running ensures PcOk(d, j) { assert PcOk(c, j); }
  }

  lemma ReleaseKeepsInv(a: Account, c: Client, k: nat)
    requires Inv(a) && FullInv(a, c) && CanHappen(c, Release(k))
    ensures FullInv(a, Next(c, Release(k)))
  {
    hide Inv, LogOrdered, AllAnswered, OwnerOk, Replay, DataInv, L.Inv, Extends, PcOk;
    L.MoveKeepsInv(c.lock, L.Finish(k));
    ReleaseKeepsData(c, k);
    LogStays(a, c, Next(c, Release(k)));
  }

  lemma PricesKeepData(c: Client, prices: Prices)
    requires DataInv(c)
    ensures DataInv(c.(prices := prices)) && Extends(c, c.(prices := prices))
  {
    hide Inv;
    var d := c.(prices := prices);
    forall j | 0 <= j < |d.pcs| && d.lock.callers[j] == L.Running ensures PcOk(d, j) { assert PcOk(c, j); }
  }

  lemma PricesKeepInv(a: Account, c: Client, prices: Prices)
    requires Inv(a) && FullInv(a, c)
    ensures FullInv(a, Next(c, MovePrices(prices)))
  {
    hide Inv, LogOrdered, AllAnswered, OwnerOk, Replay, DataInv, L.Inv, Extends, PcOk;
    PricesKeepData(c, prices);
    LogStays(a, c, c.(prices := prices));
  }

  lemma MarkKeepsInv(a: Account, c: Client, op: Op)
    requires Inv(a) && FullInv(a, c) && MarkOp(op)
    ensures FullInv(a, Next(c, Mark(op)))
  {
    MarkedAccount(c, op);
    MarkFrame(c, op);
    MarkKeepsData(c, op);
    hide Inv, MarkObj, LogOrdered, AllAnswered, OwnerOk, Replay, PcOk, AccountOf, UniqueRefs;
    var d := MarkObj(c, op);
    LogGrows(a, c, d, None, d.log[|c.log|].call);
  }

  lemma ResumeKeepsInv(a: Account, c: Client, k: nat, env: Feed)
    requires Inv(a) && FullInv(a, c) && CanHappen(c, Resume(k, env))
    ensures FullInv(a, Next(c, Resume(k, env)))
  {
    hide Inv, Next, CanHappen, DataInv, LogOrdered, AllAnswered, OwnerOk, Replay, AccountOf, L.Inv;
    var d := Next(c, Resume(k, env));
    ResumedRuns(c, k, env);
    RunningHolds(c, k);
    ResumeStep(c, k, env);
    if Silent(c, d) && (c.bodies[k].Trading? ==> !d.pcs[k].Returned?) {
      SilentExtends(c, d, k);
      LogStays(a, c, d);
    } else {
      var call :| OneCall(c, d, Some(k), call) && Fits(c, d, k, call);
      LogGrows(a, c, d, Some(k), call);
    }
  }

  /** Only a running body that has not returned resumes. */
  lemma ResumedRuns(c: Client, k: nat, env: Feed)
    requires DataInv(c) && CanHappen(c, Resume(k, env))
    ensures k < |c.pcs| && |c.bodies| == |c.pcs| == |c.lock.callers|
    ensures c.lock.callers[k] == L.Running && !c.pcs[k].Returned?
  {
    hide Inv, PcOk;
  }

  lemma SilentExtends(c: Client, d: Client, k: nat)
    requires k < |c.pcs| && k < |c.bodies| && |c.bodies| == |c.pcs| && !c.pcs[k].Returned?
    requires BlockOk(c, d, k) && Silent(c, d) && (c.bodies[k].Trading? ==> !d.pcs[k].Returned?)
    ensures Extends(c, d)
  {
    hide DataInv, AccountOf;
  }

  lemma {:induction false} RunKeepsInv(a: Account, c: Client, es: seq<Event>, d: Client)
    requires Inv(a) && FullInv(a, c) && Reaches(c, es, d)
    ensures FullInv(a, d)
    decreases |es|
  {
    hide Inv, FullInv, Next, CanHappen;
    if es != [] {
      EventKeepsInv(a, c, es[0]);
      RunKeepsInv(a, Next(c, es[0]), es[1..], d);
    }
  }

  lemma InitialInv(initialBalance: real)
    requires initialBalance >= 0.0
    ensures var a := Account(initialBalance, [], [], 0.0, 0.0); Inv(a) && FullInv(a, Initial(initialBalance))
  {
    L.FreeIsShaped();
    var c := Initial(initialBalance);
    assert Values(c.objs) == [];
  }

  // ---- Main results ----

  /**
   * However the callers interleave, running the logged calls one by one from the initial balance gives
   * the very account the client ends with: balance, positions with their marks, totals and history.
   */
  lemma Serialisable(initialBalance: real, es: seq<Event>, c: Client)
    requires initialBalance >= 0.0 && Reaches(Initial(initialBalance), es, c)
    ensures var a := Account(initialBalance, [], [], 0.0, 0.0);
            Inv(a) && Run(a, CallsOf(c.log)) == AccountOf(c)
  {
    hide Inv, Initial;
    InitialInv(initialBalance);
    RunKeepsInv(Account(initialBalance, [], [], 0.0, 0.0), Initial(initialBalance), es, c);
  }

  /**
   * Every caller that got an answer got the answer of its own operation at its place in that sequence.
   */
  lemma AnswersAreSequential(initialBalance: real, es: seq<Event>, c: Client, k: nat)
    requires initialBalance >= 0.0 && Reaches(Initial(initialBalance), es, c)
    requires k < |c.bodies| && k < |c.pcs| && c.bodies[k].Trading? && c.pcs[k].Returned?
    ensures var a := Account(initialBalance, [], [], 0.0, 0.0);
            && Inv(a)
            && exists e: nat :: e < |c.log| && c.log[e].owner == Some(k) && c.log[e].call.op == c.bodies[k].op
                 && c.pcs[k].result == ResultOf(Step(Run(a, CallsOf(c.log[..e])), c.log[e].call.op, c.log[e].call.feed))
  {
    hide Inv, Initial;
    InitialInv(initialBalance);
    var a := Account(initialBalance, [], [], 0.0, 0.0);
    RunKeepsInv(a, Initial(initialBalance), es, c);
    var e: nat :| AnsweredAt(a, c, k, e);
    assert OwnerOk(c, e);
  }

  /**
   * The sequence follows the lock: callers appear in the order they arrived, a trading caller at most
   * once and once it is answered exactly once, the sweep only with full closes; the rest of the log are
   * the unlocked mark changes.
   */
  lemma LogFollowsLockOrder(initialBalance: real, es: seq<Event>, c: Client)
    requires initialBalance >= 0.0 && Reaches(Initial(initialBalance), es, c)
    ensures LogOrdered(c) && forall e :: 0 <= e < |c.log| ==> OwnerOk(c, e)
    ensures forall k :: 0 <= k < |c.bodies| && k < |c.pcs| && c.bodies[k].Trading? && c.pcs[k].Returned? ==>
              LoggedOnce(c, k)
  {
    hide Inv, Initial;
    InitialInv(initialBalance);
    var a := Account(initialBalance, [], [], 0.0, 0.0);
    RunKeepsInv(a, Initial(initialBalance), es, c);
    hide DataInv, Replay, OwnerOk, LogOrdered, LoggedOnce, AnsweredAt, Reaches;
    forall k | 0 <= k < |c.bodies| && k < |c.pcs| && c.bodies[k].Trading? && c.pcs[k].Returned?
      ensures LoggedOnce(c, k)
    {
      var e: nat :| AnsweredAt(a, c, k, e);
      AnsweredOnce(a, c, k, e);
    }
  }

  lemma AnsweredOnce(a: Account, c: Client, k: nat, e: nat)
    requires Inv(a) && k < |c.pcs| && k < |c.bodies| && c.bodies[k].Trading? && LogOrdered(c) && AnsweredAt(a, c, k, e)
    ensures LoggedOnce(c, k)
  {
    hide Inv, Replay, Step;
    assert forall f: nat :: f < |c.log| && c.log[f].owner == Some(k) ==> f == e;
  }

  ghost predicate LoggedOnce(c: Client, k: nat) {
    exists e: nat :: e < |c.log| && c.log[e].owner == Some(k)
                     && forall f: nat :: f < |c.log| && c.log[f].owner == Some(k) ==> f == e
  }

  /**
   * Whatever happened since a close took its quote, the remembered index still holds the remembered
   * object, with the market and side asked for, and marks aside the fields it was quoted with.
   */
  lemma IndexStillNamesThePosition(initialBalance: real, es: seq<Event>, c: Client, k: nat)
    requires initialBalance >= 0.0 && Reaches(Initial(initialBalance), es, c)
    requires k < |c.pcs| && c.pcs[k].CloseQuoted?
    ensures var q := c.pcs[k].quote;
            && q.idx < |c.objs| && c.objs[q.idx].ref == q.ref
            && c.objs[q.idx].position.Names(c.pcs[k].m, c.pcs[k].s)
            && SameButMarks(c.objs[q.idx].position, q.position)
  {
    hide Inv, Initial;
    InitialInv(initialBalance);
    RunKeepsInv(Account(initialBalance, [], [], 0.0, 0.0), Initial(initialBalance), es, c);
    assert c.lock.callers[k] == L.Running;
    assert PcOk(c, k);
  }

  /** So exact conservation holds of the interleaved client too. */
  lemma InterleavedConservation(initialBalance: real, es: seq<Event>, c: Client)
    requires initialBalance >= 0.0 && Reaches(Initial(initialBalance), es, c)
    ensures Book(AccountOf(c)) == initialBalance + TotalForgiven(Fresh(initialBalance), CallsOf(c.log))
  {
    hide Initial;
    Serialisable(initialBalance, es, c);
    RunBook(Fresh(initialBalance), CallsOf(c.log));
  }

  /**
   * The client never gets stuck: while a caller is unfinished, one caller can start, resume (whatever
   * its awaited calls answer) or release the lock.
   */
  lemma SomeoneCanMove(initialBalance: real, es: seq<Event>, c: Client, unfinished: nat, env: Feed)
    requires initialBalance >= 0.0 && Reaches(Initial(initialBalance), es, c)
    requires unfinished < |c.lock.callers| && c.lock.callers[unfinished] != L.Finished
    ensures exists k: nat :: CanHappen(c, Start(k)) || CanHappen(c, Resume(k, env)) || CanHappen(c, Release(k))
  {
    hide Inv, Initial;
    InitialInv(initialBalance);
    RunKeepsInv(Account(initialBalance, [], [], 0.0, 0.0), Initial(initialBalance), es, c);
    hide LogOrdered, AllAnswered, OwnerOk, Replay, Reaches, DataInv, CanHappen;
    var d: nat :| L.Shape(c.lock, d);
    FirstUnfinishedCanMove(c, d, env);
  }

  lemma FirstUnfinishedCanMove(c: Client, d: nat, env: Feed)
    requires DataInv(c) && L.Shape(c.lock, d) && d < |c.lock.callers|
    ensures CanHappen(c, Start(d)) || CanHappen(c, Resume(d, env)) || CanHappen(c, Release(d))
  {
    hide Inv;
    if c.lock.callers[d] == L.Waiting {
      assert CanHappen(c, Start(d));
    } else {
      assert PcOk(c, d);
      if c.pcs[d].Returned? {
        assert CanHappen(c, Release(d));
      } else {
        SizesPositive(c);
        assert CanHappen(c, Resume(d, env));
      }
    }
  }

  // ---- Every body ends ----

  /** How many resumptions a body needs at most from here; a sweep looks at i positions, three blocks each. */
  function Turns(pc: Pc): nat {
    match pc
    case Refreshing => 2
    case OpenQuoted(_, _, _) => 1
    case ClosePending(_, _, _, resume) => if resume.Some? then 3 * resume.value + 3 else 2
    case CloseQuoted(_, _, _, _, resume) => if resume.Some? then 3 * resume.value + 2 else 1
    case SweepAt(i) => 3 * i + 1
    case _ => 0
  }

  /** d differs from c in caller k's program counter, which needs fewer turns, and in the data. */
  predicate TakesATurn(c: Client, d: Client, k: nat)
    requires k < |c.pcs|
  {
    && d.lock == c.lock && d.bodies == c.bodies && d.prices == c.prices
    && |d.pcs| == |c.pcs| && d.pcs == c.pcs[k := d.pcs[k]] && Turns(d.pcs[k]) < Turns(c.pcs[k])
  }

  lemma OpenTakesATurn(c: Client, k: nat, op: Op, env: Feed)
    requires k < |c.pcs| && op.Open?
    ensures c.pcs[k].Refreshing? ==> TakesATurn(c, OpenFirst(c, k, op, env), k)
    ensures c.pcs[k].OpenQuoted? ==> TakesATurn(c, OpenSecond(c, k, op, c.pcs[k], env), k)
  {
    hide FillPrice, LeverageLiquidationPrice, FeeUsd, SizeUsd, Placed, OpenTrade, Trim, Find, AccountOf;
  }

  lemma CloseFirstTakesATurn(c: Client, k: nat, env: Feed)
    requires k < |c.pcs| && c.pcs[k].ClosePending? && forall o :: o in c.objs ==> o.position.size > 0.0
    ensures TakesATurn(c, CloseFirst(c, k, c.pcs[k], env), k)
  {
    hide Figures, AmountTooBig, Find;
  }

  lemma CloseSecondTakesATurn(c: Client, k: nat, env: Feed)
    requires k < |c.pcs| && c.pcs[k].CloseQuoted?
    ensures TakesATurn(c, CloseSecond(c, k, c.pcs[k], env), k)
  {
    hide FeeUsd, Reduced, Trim, FindRef, FloorZero;
  }

  lemma CollateralTakesATurn(c: Client, k: nat, op: Op, env: Feed)
    requires k < |c.pcs| && c.pcs[k].Refreshing? && (op.AddCollateral? || op.RemoveCollateral?)
    ensures TakesATurn(c, CollateralBlock(c, k, op, env), k)
  {
    hide DoAddCollateral, DoRemoveCollateral, AccountOf, Find;
  }

  lemma SweepTakesATurn(c: Client, k: nat, i: nat)
    requires k < |c.pcs| && c.pcs[k] == SweepAt(i)
    ensures TakesATurn(c, SweepBlock(c, k, i), k)
  {
    hide Hit;
  }

  lemma ResumeTakesATurn(c: Client, k: nat, env: Feed)
    requires CanHappen(c, Resume(k, env))
    ensures TakesATurn(c, Next(c, Resume(k, env)), k)
  {
    hide TakesATurn, OpenFirst, OpenSecond, CloseFirst, CloseSecond, CollateralBlock, SweepBlock;
    match c.pcs[k] {
      case Refreshing =>
        if c.bodies[k].op.Open? { OpenTakesATurn(c, k, c.bodies[k].op, env); }
        else { CollateralTakesATurn(c, k, c.bodies[k].op, env); }
      case OpenQuoted(_, _, _) => OpenTakesATurn(c, k, c.bodies[k].op, env);
      case ClosePending(_, _, _, _) => CloseFirstTakesATurn(c, k, env);
      case CloseQuoted(_, _, _, _, _) => CloseSecondTakesATurn(c, k, env);
      case SweepAt(i) => SweepTakesATurn(c, k, i);
    }
  }

  /** What is owed, in lexicographic order: starts and releases to come, then turns of the body that runs. */
  predicate Lowers(c: Client, d: Client, e: Event) {
    match e
    case Start(_) => L.Owed(d.lock.callers) == L.Owed(c.lock.callers) - 1
    case Release(_) => L.Owed(d.lock.callers) == L.Owed(c.lock.callers) - 1
    case Resume(k, _) => d.lock == c.lock && k < |c.pcs| && k < |d.pcs| && Turns(d.pcs[k]) < Turns(c.pcs[k])
    case _ => true
  }

  /**
   * Every start, resumption and release of a client lowers what is owed: the first and last the
   * starts and releases to come, a resumption the turns of the body that runs.
   */
  lemma EveryMoveLowers(c: Client, e: Event)
    requires CanHappen(c, e)
    ensures Lowers(c, Next(c, e), e)
  {
    match e
    case Start(k) => L.OwedUpdate(c.lock.callers, k, L.Running);
    case Release(k) => L.OwedUpdate(c.lock.callers, k, L.Finished);
    case Resume(k, env) => ResumeTakesATurn(c, k, env);
    case _ =>
  }

  function Resumptions(es: seq<Event>, k: nat): nat {
    if es == [] then 0 else (if es[0].Resume? && es[0].k == k then 1 else 0) + Resumptions(es[1..], k)
  }

  /** Nothing but its own resumption moves a body that has started. */
  lemma OthersLeaveItsPc(c: Client, e: Event, k: nat)
    requires CanHappen(c, e) && k < |c.pcs| && k < |c.lock.callers| && c.lock.callers[k] != L.Waiting
    requires !(e.Resume? && e.k == k)
    ensures var d := Next(c, e);
            k < |d.pcs| && k < |d.lock.callers| && d.lock.callers[k] != L.Waiting && d.pcs[k] == c.pcs[k]
  {
    match e
    case Resume(j, env) => ResumeTakesATurn(c, j, env);
    case Mark(op) => MarkFrame(c, op);
    case _ =>
  }

  /**
   * A body that has started ends after at most that many resumptions, however the callers, prices and
   * marks around it move; a sweep cannot be kept busy by positions opened after it began.
   */
  lemma {:induction false} ResumptionsAreBounded(c: Client, es: seq<Event>, d: Client, k: nat)
    requires Reaches(c, es, d) && k < |c.pcs| && k < |c.lock.callers| && c.lock.callers[k] != L.Waiting
    ensures k < |d.pcs| && Resumptions(es, k) + Turns(d.pcs[k]) <= Turns(c.pcs[k])
    decreases |es|
  {
    hide Next, CanHappen, Turns;
    if es != [] {
      var n := Next(c, es[0]);
      if es[0].Resume? && es[0].k == k {
        ResumeTakesATurn(c, k, es[0].env);
      } else {
        OthersLeaveItsPc(c, es[0], k);
      }
      ResumptionsAreBounded(n, es[1..], d, k);
    }
  }

  lemma SizesPositive(c: Client)
    requires Inv(AccountOf(c))
    ensures forall o :: o in c.objs ==> o.position.size > 0.0
  {
    forall o | o in c.objs ensures o.position.size > 0.0 {
      var i :| 0 <= i < |c.objs| && c.objs[i] == o;
      assert Healthy(AccountOf(c).positions[i]);
    }
  }
}
