/** No money appears or disappears: what the account holds is what it was given, exactly. */
module Conservation {
  import opened Wrappers
  import opened Ledger
  import opened Invariant
  import opened Runs

  function SumCollateral(ps: seq<Position>): real {
    if ps == [] then 0.0 else ps[0].collateral + SumCollateral(ps[1..])
  }

  lemma {:induction false} SumConcat(ps: seq<Position>, qs: seq<Position>)
    ensures SumCollateral(ps + qs) == SumCollateral(ps) + SumCollateral(qs)
  {
    if ps == [] {
      assert ps + qs == qs;
    } else {
      assert (ps + qs)[1..] == ps[1..] + qs;
      SumConcat(ps[1..], qs);
    }
  }

  lemma SumSplit(ps: seq<Position>, i: nat)
    requires i < |ps|
    ensures SumCollateral(ps) == SumCollateral(ps[..i]) + ps[i].collateral + SumCollateral(ps[i + 1..])
  {
    assert ps == ps[..i] + ([ps[i]] + ps[i + 1..]);
    SumConcat(ps[..i], [ps[i]] + ps[i + 1..]);
    SumConcat([ps[i]], ps[i + 1..]);
    assert [ps[i]][1..] == [];
  }

  lemma SumUpdate(ps: seq<Position>, i: nat, q: Position)
    requires i < |ps|
    ensures SumCollateral(ps[i := q]) == SumCollateral(ps) - ps[i].collateral + q.collateral
  {
    SumSplit(ps, i);
    SumSplit(ps[i := q], i);
    assert ps[i := q][..i] == ps[..i] && ps[i := q][i + 1..] == ps[i + 1..];
  }

  lemma SumRemove(ps: seq<Position>, i: nat)
    requires i < |ps|
    ensures SumCollateral(ps[..i] + ps[i + 1..]) == SumCollateral(ps) - ps[i].collateral
  {
    SumSplit(ps, i);
    SumConcat(ps[..i], ps[i + 1..]);
  }

  lemma SumTakenOut(ps: seq<Position>, i: nat, c: CloseFigures)
    requires i < |ps| && (c.full ==> c.collateral == ps[i].collateral)
    ensures SumCollateral(ClosedPositions(ps, i, c)) == SumCollateral(ps) - c.collateral
  {
    hide SumCollateral;
    if c.full { SumRemove(ps, i); } else { SumUpdate(ps, i, Reduced(ps[i], c.size, c.collateral)); }
  }

  lemma FullTakesAll(p: Position, r: CloseRequest, price: real, rate: real)
    requires p.size > 0.0
    ensures var c := Figures(p, r, price, rate); c.full ==> c.size == p.size && c.collateral == p.collateral
  {
    hide Pnl, FeeUsd, ClosesFully;
  }

  lemma SumClosed(ps: seq<Position>, i: nat, r: CloseRequest, price: real, rate: real)
    requires i < |ps| && ps[i].size > 0.0
    ensures var c := Figures(ps[i], r, price, rate);
            SumCollateral(ClosedPositions(ps, i, c)) == SumCollateral(ps) - c.collateral
  {
    hide Figures, ClosedPositions;
    FullTakesAll(ps[i], r, price, rate);
    SumTakenOut(ps, i, Figures(ps[i], r, price, rate));
  }

  lemma SumOpened(ps: seq<Position>, feed: Feed, m: Market, s: Side, collateral: real, leverage: real)
    requires m in feed.prices
    ensures SumCollateral(OpenedPositions(ps, feed, m, s, collateral, leverage)) == SumCollateral(ps) + collateral
  {
    var i := Find(ps, m, s);
    var qs := OpenedPositions(ps, feed, m, s, collateral, leverage);
    if i < |ps| {
      SumUpdate(ps, i, qs[i]);
    } else {
      SumConcat(ps, [qs[|ps|]]);
      assert [qs[|ps|]][1..] == [];
    }
  }

  // ---- Conservation ----

  /** Cash, locked collateral and paid fees, less realised profit. */
  function Book(a: Account): real {
    a.balance + SumCollateral(a.positions) + a.feesPaid - a.realizedPnl
  }

  /** What the zero floor forgives in one call; nothing unless the call is an accepted close. */
  function Forgiven(a: Account, call: Call): (x: real)
    requires Inv(a)
    ensures x >= 0.0
  {
    match call.op
    case Close(m, s, r) =>
      if CloseError(a, call.feed, m, s, r).Some? then 0.0
      else
        var p := a.positions[Find(a.positions, m, s)];
        Figures(p, r, call.feed.prices[m], call.feed.rates.close).Forgiven()
    case _ => 0.0
  }

  lemma OpenBook(a: Account, feed: Feed, m: Market, s: Side, collateral: real, leverage: real)
    requires Inv(a) && OpenError(a, feed, m, s, collateral, leverage).None?
    ensures Book(DoOpen(a, feed, m, s, collateral, leverage).account) == Book(a)
  {
    hide FillPrice, FeeUsd, SizeUsd, LeverageLiquidationPrice, OpenedPositions, OpenTrade, Trim, Find, Inv;
    SumOpened(a.positions, feed, m, s, collateral, leverage);
  }

  lemma CloseBook(a: Account, feed: Feed, m: Market, s: Side, r: CloseRequest)
    requires Inv(a) && CloseError(a, feed, m, s, r).None?
    ensures var c := Figures(a.positions[Find(a.positions, m, s)], r, feed.prices[m], feed.rates.close);
            Book(DoClose(a, feed, m, s, r).account) == Book(a) + c.Forgiven()
  {
    SumClosed(a.positions, Find(a.positions, m, s), r, feed.prices[m], feed.rates.close);
    hide Figures, ClosedPositions, CloseTrade, Trim, FloorZero, AmountTooBig;
  }

  lemma CollateralBook(a: Account, prices: Prices, m: Market, s: Side, amount: real)
    ensures Book(DoAddCollateral(a, prices, m, s, amount).After(a)) == Book(a)
    ensures Book(DoRemoveCollateral(a, prices, m, s, amount).After(a)) == Book(a)
  {
    var i := Find(a.positions, m, s);
    if i < |a.positions| {
      var p := a.positions[i];
      SumUpdate(a.positions, i, WithCollateral(p, p.collateral + amount));
      SumUpdate(a.positions, i, WithCollateral(p, p.collateral - amount));
    }
    hide Trim, CollateralTrade, WouldBeLiquidated, SumCollateral;
  }

  lemma MarksBook(a: Account, m: Market, s: Side, tp: Option<real>, sl: Option<real>)
    ensures Book(DoSetTpSl(a, m, s, tp, sl).After(a)) == Book(a) == Book(DoRemoveTpSl(a, m, s).After(a))
  {
    var i := Find(a.positions, m, s);
    if i < |a.positions| {
      SumUpdate(a.positions, i, DoSetTpSl(a, m, s, tp, sl).account.positions[i]);
      SumUpdate(a.positions, i, DoRemoveTpSl(a, m, s).account.positions[i]);
    }
    hide SumCollateral;
  }

  /** One call adds to the book exactly what the floor forgives in it. */
  lemma StepBook(a: Account, call: Call)
    requires Inv(a)
    ensures Book(Happen(a, Single(call))) == Book(a) + Forgiven(a, call)
  {
    hide Book, DoOpen, DoClose, DoAddCollateral, DoRemoveCollateral, DoSetTpSl, DoRemoveTpSl;
    match call.op
    case Open(m, s, collateral, leverage) => OpenOrNot(a, call.feed, m, s, collateral, leverage);
    case Close(m, s, r) => CloseOrNot(a, call.feed, m, s, r);
    case AddCollateral(m, s, amount) => CollateralBook(a, call.feed.prices, m, s, amount);
    case RemoveCollateral(m, s, amount) => CollateralBook(a, call.feed.prices, m, s, amount);
    case SetTpSl(m, s, tp, sl) => MarksBook(a, m, s, tp, sl);
    case RemoveTpSl(m, s) => MarksBook(a, m, s, None, None);
  }

  lemma OpenOrNot(a: Account, feed: Feed, m: Market, s: Side, collateral: real, leverage: real)
    requires Inv(a)
    ensures Book(DoOpen(a, feed, m, s, collateral, leverage).After(a)) == Book(a)
  {
    if OpenError(a, feed, m, s, collateral, leverage).None? { OpenBook(a, feed, m, s, collateral, leverage); }
    hide Book, OpenError, FillPrice, FeeUsd, SizeUsd, LeverageLiquidationPrice, OpenedPositions, OpenTrade, Trim, Find;
  }

  lemma CloseOrNot(a: Account, feed: Feed, m: Market, s: Side, r: CloseRequest)
    requires Inv(a)
    ensures Book(DoClose(a, feed, m, s, r).After(a)) == Book(a) + Forgiven(a, Call(Close(m, s, r), feed))
  {
    if CloseError(a, feed, m, s, r).None? { CloseBook(a, feed, m, s, r); }
    hide Book, Figures, ClosedPositions, CloseTrade, Trim, FloorZero;
  }

  function TotalForgiven(a: Account, calls: seq<Call>): (x: real)
    requires Inv(a)
    ensures x >= 0.0
    decreases |calls|
  {
    if calls == [] then 0.0
    else Forgiven(a, calls[0]) + TotalForgiven(Happen(a, Single(calls[0])), calls[1..])
  }

  /** The call is an accepted close whose collateral and profit do not cover its fee and loss. */
  predicate FloorBites(a: Account, call: Call)
    requires Inv(a)
  {
    && call.op.Close?
    && CloseError(a, call.feed, call.op.market, call.op.side, call.op.request).None?
    && var p := a.positions[Find(a.positions, call.op.market, call.op.side)];
       Figures(p, call.op.request, call.feed.prices[call.op.market], call.feed.rates.close).Return() < 0.0
  }

  predicate FloorNeverBites(a: Account, calls: seq<Call>)
    requires Inv(a)
    decreases |calls|
  {
    calls == [] ||
    (!FloorBites(a, calls[0]) && FloorNeverBites(Happen(a, Single(calls[0])), calls[1..]))
  }

  lemma {:induction false} RunBook(a: Account, calls: seq<Call>)
    requires Inv(a)
    ensures Book(Run(a, calls)) == Book(a) + TotalForgiven(a, calls)
    ensures TotalForgiven(a, calls) == 0.0 <==> FloorNeverBites(a, calls)
    decreases |calls|
  {
    if calls != [] {
      StepBook(a, calls[0]);
      RunBook(Happen(a, Single(calls[0])), calls[1..]);
    }
  }

  function Fresh(initialBalance: real): Account {
    Account(initialBalance, [], [], 0.0, 0.0)
  }

  /**
   * Over every run of a new account, cash plus collateral plus fees less realised profit exceeds the
   * initial balance by exactly what the floor forgave, and equals it just when the floor never bit.
   */
  lemma ExactConservation(initialBalance: real, es: seq<Event>)
    requires initialBalance >= 0.0
    ensures var a := Fresh(initialBalance);
            var calls := AllCalls(a, es);
            && Book(History(a, es)) == initialBalance + TotalForgiven(a, calls)
            && (Book(History(a, es)) == initialBalance <==> FloorNeverBites(a, calls))
  {
    var a := Fresh(initialBalance);
    HistoryIsARun(a, es);
    RunBook(a, AllCalls(a, es));
  }

  // ---- Trade history ----

  /** The trades one call adds to the history. */
  function Recorded(a: Account, call: Call): seq<Trade>
    requires Inv(a)
  {
    if Step(a, call.op, call.feed).Rejected? then []
    else
      var feed := call.feed;
      match call.op
      case Open(m, s, collateral, leverage) => [OpenTrade(a, feed, m, s, collateral, leverage)]
      case Close(m, s, r) =>
        var p := a.positions[Find(a.positions, m, s)];
        [CloseTrade(p, s, Figures(p, r, feed.prices[m], feed.rates.close), feed.prices[m])]
      case AddCollateral(m, s, amount) =>
        var p := a.positions[Find(a.positions, m, s)];
        [CollateralTrade(WithCollateral(p, p.collateral + amount), CollateralAdded, amount, feed.prices)]
      case RemoveCollateral(m, s, amount) =>
        var p := a.positions[Find(a.positions, m, s)];
        [CollateralTrade(WithCollateral(p, p.collateral - amount), CollateralRemoved, amount, feed.prices)]
      case _ => []
  }

  function AllRecorded(a: Account, calls: seq<Call>): seq<Trade>
    requires Inv(a)
    decreases |calls|
  {
    if calls == [] then [] else Recorded(a, calls[0]) + AllRecorded(Happen(a, Single(calls[0])), calls[1..])
  }

  lemma TrimTwice(h: seq<Trade>, t: seq<Trade>)
    ensures Trim(Trim(h) + t) == Trim(h + t)
  {
    if |h| > MAX_TRADE_HISTORY {
      var d := |h| - MAX_TRADE_HISTORY;
      var all := h + t;
      assert h[d..] + t == all[d..];
      assert all[d..][|t|..] == all[d + |t|..];
    }
  }

  lemma TrimShort(h: seq<Trade>)
    requires |h| <= MAX_TRADE_HISTORY
    ensures Trim(h) == h
  {
  }

  /** The account after the call records what the call adds. */
  predicate Records(a: Account, call: Call)
    requires Inv(a)
  {
    Step(a, call.op, call.feed).After(a).history == Trim(a.history + Recorded(a, call))
  }

  lemma RejectedRecords(a: Account, call: Call)
    requires Inv(a) && Step(a, call.op, call.feed).Rejected?
    ensures Records(a, call)
  {
    TrimShort(a.history);
    hide Trim, Step;
    assert a.history + [] == a.history;
  }

  lemma OpenRecords(a: Account, call: Call)
    requires Inv(a) && call.op.Open? && Step(a, call.op, call.feed).Accepted?
    ensures Records(a, call)
  {
    hide Inv, FillPrice, FeeUsd, SizeUsd, LeverageLiquidationPrice, OpenedPositions, OpenTrade, Trim, Find, OpenError;
  }

  lemma CloseRecords(a: Account, call: Call)
    requires Inv(a) && call.op.Close? && Step(a, call.op, call.feed).Accepted?
    ensures Records(a, call)
  {
    hide Figures, ClosedPositions, CloseTrade, Trim, FloorZero, AmountTooBig, Reduced;
  }

  lemma OtherRecords(a: Account, call: Call)
    requires Inv(a) && !call.op.Open? && !call.op.Close? && Step(a, call.op, call.feed).Accepted?
    ensures Records(a, call)
  {
    TrimShort(a.history);
    assert a.history + [] == a.history;
    hide Inv, CollateralTrade, WithCollateral, WouldBeLiquidated, Find, Trim;
  }

  lemma StepHistory(a: Account, call: Call)
    requires Inv(a)
    ensures Happen(a, Single(call)).history == Trim(a.history + Recorded(a, call))
  {
    assert Records(a, call) by {
      hide Inv, Step, Records;
      if Step(a, call.op, call.feed).Rejected? { RejectedRecords(a, call); }
      else if call.op.Open? { OpenRecords(a, call); }
      else if call.op.Close? { CloseRecords(a, call); }
      else { OtherRecords(a, call); }
    }
    hide Trim, Recorded, Step;
  }

  lemma {:induction false} HistoryIsTrimmed(a: Account, calls: seq<Call>)
    requires Inv(a)
    ensures Run(a, calls).history == Trim(a.history + AllRecorded(a, calls))
    decreases |calls|
  {
    hide Trim, Recorded, Happen;
    if calls == [] {
      assert a.history + [] == a.history;
      TrimShort(a.history);
    } else {
      var b := Happen(a, Single(calls[0]));
      var t := Recorded(a, calls[0]);
      StepHistory(a, calls[0]);
      HistoryIsTrimmed(b, calls[1..]);
      TrimTwice(a.history + t, AllRecorded(b, calls[1..]));
      assert a.history + t + AllRecorded(b, calls[1..]) == a.history + (t + AllRecorded(b, calls[1..]));
    }
  }

  /** The history kept is always the most recent 500 trades of everything ever recorded. */
  lemma HistoryIsTheRecentSuffix(a: Account, calls: seq<Call>)
    requires Inv(a)
    ensures var all := a.history + AllRecorded(a, calls);
            Run(a, calls).history == if |all| <= 500 then all else all[|all| - 500..]
  {
    HistoryIsTrimmed(a, calls);
    hide Run, AllRecorded, Inv;
  }
}
