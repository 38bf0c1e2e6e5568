/**
 * Repeated opens on one market and side build one position whose entry is the size-weighted mean of
 * the fills, in whatever order they came. The merged long never shows more profit than the separate
 * longs would at the same exit price, the merged short never less, and they agree only for equal fills.
 */
module MergeMean {
  import opened Wrappers
  import opened RealArith
  import opened Ledger
  import opened Invariant
  import opened Runs

  datatype Fill = Fill(price: real, size: real, collateral: real, leverage: real, fee: real, rates: Rates)

  predicate Proper(f: Fill) { f.price > 0.0 && f.size > 0.0 && f.collateral > 0.0 }

  predicate AllProper(fs: seq<Fill>) { forall i :: 0 <= i < |fs| ==> Proper(fs[i]) }

  predicate Live(p: Position) { p.size > 0.0 && p.collateral > 0.0 && p.entry > 0.0 }

  lemma MergeIsLive(p: Position, f: Fill)
    requires Live(p) && Proper(f)
    ensures Live(MergeFill(p, f))
  {
    MulPositive(p.entry, p.size);
    MulPositive(f.price, f.size);
    DivPositive(p.entry * p.size + f.price * f.size, p.size + f.size);
  }

  function MergeFill(p: Position, f: Fill): Position {
    Merge(p, f.price, f.size, f.collateral, f.leverage, f.fee, f.rates)
  }

  /** The position p after all the fills, the last element of fs being the latest. */
  function MergeAll(p: Position, fs: seq<Fill>): (q: Position)
    requires Live(p) && AllProper(fs)
    ensures Live(q) && q.side == p.side && q.market == p.market && q.id == p.id
  {
    if fs == [] then p
    else
      var last := fs[|fs| - 1];
      var q := MergeAll(p, fs[..|fs| - 1]);
      MergeIsLive(q, last);
      MergeFill(q, last)
  }

  function Sum(f: Fill -> real, fs: seq<Fill>): real {
    if fs == [] then 0.0 else Sum(f, fs[..|fs| - 1]) + f(fs[|fs| - 1])
  }

  function Size(): Fill -> real { (f: Fill) => f.size }
  function Collateral(): Fill -> real { (f: Fill) => f.collateral }
  function Fee(): Fill -> real { (f: Fill) => f.fee }
  function Cost(): Fill -> real { (f: Fill) => f.price * f.size }

  lemma {:induction false} SumRemove(f: Fill -> real, fs: seq<Fill>, i: nat)
    requires i < |fs|
    ensures Sum(f, fs) == Sum(f, fs[..i] + fs[i + 1..]) + f(fs[i])
    decreases |fs|
  {
    var n := |fs| - 1;
    if i == n {
      assert fs[..i] + fs[i + 1..] == fs[..n];
    } else {
      var rest := fs[..i] + fs[i + 1..];
      assert rest[..|rest| - 1] == fs[..n][..i] + fs[..n][i + 1..];
      SumRemove(f, fs[..n], i);
    }
  }

  lemma MultisetRemove(gs: seq<Fill>, i: nat)
    requires i < |gs|
    ensures multiset(gs[..i] + gs[i + 1..]) == multiset(gs) - multiset{gs[i]}
  {
    assert gs == gs[..i] + [gs[i]] + gs[i + 1..];
  }

  lemma {:induction false} SumPermutes(f: Fill -> real, fs: seq<Fill>, gs: seq<Fill>)
    requires multiset(fs) == multiset(gs)
    ensures Sum(f, fs) == Sum(f, gs)
    decreases |fs|
  {
    if fs == [] {
      assert |gs| == |multiset(gs)| == 0;
    } else {
      var n := |fs| - 1;
      assert fs[n] in multiset(gs);
      var i :| 0 <= i < |gs| && gs[i] == fs[n];
      MultisetRemove(gs, i);
      MultisetRemove(fs, n);
      assert fs[..n] + fs[n + 1..] == fs[..n];
      SumPermutes(f, fs[..n], gs[..i] + gs[i + 1..]);
      SumRemove(f, gs, i);
    }
  }

  lemma MergeOnce(p: Position, f: Fill)
    requires Live(p) && Proper(f)
    ensures MergeFill(p, f).entry * MergeFill(p, f).size == p.entry * p.size + Cost()(f)
    ensures MergeFill(p, f).size == p.size + f.size && MergeFill(p, f).collateral == p.collateral + f.collateral
    ensures MergeFill(p, f).openFee == p.openFee + f.fee
  {
    DivTimes(p.entry * p.size + f.price * f.size, p.size + f.size);
  }

  /** Size, collateral and fee add up; entry times size is the total cost. */
  lemma {:induction false} MergeAddsUp(p: Position, fs: seq<Fill>)
    requires Live(p) && AllProper(fs)
    ensures var q := MergeAll(p, fs);
            && q.size == p.size + Sum(Size(), fs)
            && q.collateral == p.collateral + Sum(Collateral(), fs)
            && q.openFee == p.openFee + Sum(Fee(), fs)
            && q.entry * q.size == p.entry * p.size + Sum(Cost(), fs)
    decreases |fs|
  {
    hide MergeFill;
    if fs != [] {
      var n := |fs| - 1;
      MergeAddsUp(p, fs[..n]);
      MergeOnce(MergeAll(p, fs[..n]), fs[n]);
    }
  }

  /** The position a list of fills builds from nothing. */
  function Built(id: string, m: Market, s: Side, fs: seq<Fill>): (q: Position)
    requires fs != [] && AllProper(fs)
    ensures Live(q) && q.side == s
  {
    MergeAll(First(id, m, s, fs[0]), fs[1..])
  }

  function First(id: string, m: Market, s: Side, f: Fill): Position {
    Position(id, m, s, f.price, f.size, f.collateral, f.leverage, f.fee,
             f.rates.margin, f.rates.close, None, None, None)
  }

  lemma SumFirst(f: Fill -> real, fs: seq<Fill>)
    requires fs != []
    ensures Sum(f, fs) == f(fs[0]) + Sum(f, fs[1..])
  {
    SumRemove(f, fs, 0);
    assert fs[..0] + fs[1..] == fs[1..];
  }

  lemma BuiltAddsUp(id: string, m: Market, s: Side, fs: seq<Fill>)
    requires fs != [] && AllProper(fs)
    ensures var q := Built(id, m, s, fs);
            && q.size == Sum(Size(), fs) && q.collateral == Sum(Collateral(), fs) && q.openFee == Sum(Fee(), fs)
            && q.entry * q.size == Sum(Cost(), fs)
  {
    hide MergeAll, Sum;
    var p := First(id, m, s, fs[0]);
    assert p.entry * p.size == Cost()(fs[0]);
    MergeAddsUp(p, fs[1..]);
    SumFirst(Size(), fs);
    SumFirst(Collateral(), fs);
    SumFirst(Fee(), fs);
    SumFirst(Cost(), fs);
  }

  /** The entry is the size-weighted mean of the fills. */
  lemma EntryIsTheMean(id: string, m: Market, s: Side, fs: seq<Fill>)
    requires fs != [] && AllProper(fs)
    ensures var q := Built(id, m, s, fs);
            Sum(Size(), fs) > 0.0 && q.entry == Sum(Cost(), fs) / Sum(Size(), fs)
  {
    hide MergeAll, Sum;
    BuiltAddsUp(id, m, s, fs);
    var q := Built(id, m, s, fs);
    DivUnique(Sum(Cost(), fs), q.size, q.entry);
  }

  /** Fills in another order build the same entry, size, collateral and fees. */
  lemma OrderDoesNotMatter(id: string, m: Market, s: Side, fs: seq<Fill>, gs: seq<Fill>)
    requires fs != [] && AllProper(fs)
    requires gs != [] && AllProper(gs)
    requires multiset(fs) == multiset(gs)
    ensures var p, q := Built(id, m, s, fs), Built(id, m, s, gs);
            p.entry == q.entry && p.size == q.size && p.collateral == q.collateral && p.openFee == q.openFee
  {
    EntryIsTheMean(id, m, s, fs);
    EntryIsTheMean(id, m, s, gs);
    BuiltAddsUp(id, m, s, fs);
    BuiltAddsUp(id, m, s, gs);
    SumPermutes(Size(), fs, gs);
    SumPermutes(Collateral(), fs, gs);
    SumPermutes(Fee(), fs, gs);
    SumPermutes(Cost(), fs, gs);
  }

  // ---- Profit of the merged position ----

  /** Size bought per unit of price; a long's profit at price x is x * Units - size. */
  lemma PnlByUnits(entry: real, size: real, side: Side, price: real)
    requires entry > 0.0
    ensures Pnl(entry, size, side, price) == (price * (size / entry) - size) * side.Sign()
  {
    DivTimes(price - entry, entry);
    DivUnique(price - entry, entry, price / entry - 1.0);
    assert (price / entry - 1.0) * size == price * (size / entry) - size;
  }

  lemma CrossTerms(a: real, b: real, x: real, y: real)
    ensures (a * y + b * x) * (x * a + y * b) == (a + b) * (a + b) * (x * y) + (a * b) * (x - y) * (x - y)
  {
    var d, k := x - y, a * b;
    assert (a * y + b * x) * (x * a + y * b) == a * a * (x * y) + k * (y * y) + k * (x * x) + b * b * (x * y);
    assert (a + b) * (a + b) * (x * y) == a * a * (x * y) + 2.0 * (k * (x * y)) + b * b * (x * y);
    assert k * d * d == k * (x * x) - 2.0 * (k * (x * y)) + k * (y * y);
  }

  /** How far two fills' units exceed the merged units, in a denominator-free form. */
  lemma UnitsSlack(x: real, a: real, y: real, b: real)
    requires x > 0.0 && a > 0.0 && y > 0.0 && b > 0.0
    ensures var cost, size := x * a + y * b, a + b;
            var mean := cost / size;
            && mean > 0.0 && cost * (x * y) > 0.0
            && (a / x + b / y - size / mean) * (cost * (x * y)) == (a * b) * (x - y) * (x - y)
  {
    var cost, size := x * a + y * b, a + b;
    MulPositive(x, a);
    MulPositive(y, b);
    MulPositive(x, y);
    MulPositive(cost, x * y);
    DivPositive(cost, size);
    var mean := cost / size;
    var merged, separate := size / mean, a / x + b / y;
    assert mean * size == cost && merged * mean == size;
    assert separate * (x * y) == a * y + b * x by {
      assert (a / x) * x == a && (b / y) * y == b;
      assert (a / x) * (x * y) == ((a / x) * x) * y;
      assert (b / y) * (x * y) == ((b / y) * y) * x;
    }
    assert merged * cost == size * size by {
      assert merged * cost == merged * (mean * size) == (merged * mean) * size;
    }
    CrossTerms(a, b, x, y);
    Compare(merged, separate, cost, x * y, size, a * y + b * x);
  }

  lemma Compare(merged: real, separate: real, cost: real, xy: real, size: real, cross: real)
    requires merged * cost == size * size && separate * xy == cross
    ensures (separate - merged) * (cost * xy) == cross * cost - size * size * xy
  {
    assert separate * (cost * xy) == cross * cost;
    assert merged * (cost * xy) == size * size * xy;
    assert (separate - merged) * (cost * xy) == separate * (cost * xy) - merged * (cost * xy);
  }

  lemma SignOfFactor(g: real, w: real, slack: real)
    requires w > 0.0 && g * w == slack && slack >= 0.0
    ensures g >= 0.0 && (g == 0.0 <==> slack == 0.0)
  {
    MulCancel(0.0, g, w);
    if slack == 0.0 { MulCancel(g, 0.0, w); }
  }

  /** Merging two fills buys no more units than the two fills did, and as many only at one price. */
  lemma UnitsShrink(x: real, a: real, y: real, b: real)
    requires x > 0.0 && a > 0.0 && y > 0.0 && b > 0.0
    ensures var mean := (x * a + y * b) / (a + b);
            mean > 0.0 && (a + b) / mean <= a / x + b / y && ((a + b) / mean == a / x + b / y <==> x == y)
  {
    UnitsSlack(x, a, y, b);
    MulPositive(a, b);
    SlackSign(a * b, x - y);
    var mean := (x * a + y * b) / (a + b);
    SignOfFactor(a / x + b / y - (a + b) / mean, (x * a + y * b) * (x * y), (a * b) * (x - y) * (x - y));
  }

  lemma SlackSign(k: real, d: real)
    requires k > 0.0
    ensures k * d * d >= 0.0 && (k * d * d == 0.0 <==> d == 0.0)
  {
    if d > 0.0 {
      MulPositive(k, d);
      MulPositive(k * d, d);
    } else if d < 0.0 {
      MulPositive(k, -d);
      assert k * -d == -(k * d);
      MulPositive(-(k * d), -d);
      assert -(k * d) * -d == k * d * d;
    }
  }

  // ---- Any number of fills ----

  /** Units of a position and of a list of fills. */
  function Units(): Fill -> real { (f: Fill) => if f.price == 0.0 then 0.0 else f.size / f.price }

  /** Profit of the fills kept apart, at one exit price. */
  function SeparatePnl(s: Side, price: real): Fill -> real {
    (f: Fill) => Pnl(f.price, f.size, s, price)
  }

  lemma {:induction false} SeparateByUnits(s: Side, price: real, fs: seq<Fill>)
    requires AllProper(fs)
    ensures Sum(SeparatePnl(s, price), fs) == (price * Sum(Units(), fs) - Sum(Size(), fs)) * s.Sign()
    decreases |fs|
  {
    hide Pnl, Side.Sign;
    if fs != [] {
      var n := |fs| - 1;
      var f := fs[n];
      SeparateByUnits(s, price, fs[..n]);
      PnlByUnits(f.price, f.size, s, price);
      AddProfits(Sum(Units(), fs[..n]), Sum(Size(), fs[..n]), Units()(f), f.size, s, price);
    }
  }

  lemma AddProfits(units: real, size: real, moreUnits: real, moreSize: real, s: Side, price: real)
    ensures (price * units - size) * s.Sign() + (price * moreUnits - moreSize) * s.Sign()
         == (price * (units + moreUnits) - (size + moreSize)) * s.Sign()
  {
  }

  predicate AllAt(price: real, fs: seq<Fill>) { forall i :: 0 <= i < |fs| ==> fs[i].price == price }

  /** Through any number of merges the units only shrink, and stay equal just when all prices are. */
  lemma {:induction false} MergedUnits(p: Position, fs: seq<Fill>)
    requires Live(p) && AllProper(fs)
    ensures var q := MergeAll(p, fs);
            && q.size / q.entry <= p.size / p.entry + Sum(Units(), fs)
            && (q.size / q.entry == p.size / p.entry + Sum(Units(), fs) <==> AllAt(p.entry, fs))
            && (AllAt(p.entry, fs) ==> q.entry == p.entry)
    decreases |fs|
  {
    if fs != [] {
      var n := |fs| - 1;
      var q, f := MergeAll(p, fs[..n]), fs[n];
      MergedUnits(p, fs[..n]);
      MergeUnits(q, f);
      AllAtLast(p.entry, fs);
    }
  }

  lemma AllAtLast(price: real, fs: seq<Fill>)
    requires fs != []
    ensures AllAt(price, fs) <==> AllAt(price, fs[..|fs| - 1]) && fs[|fs| - 1].price == price
  {
    var n := |fs| - 1;
    if AllAt(price, fs[..n]) && fs[n].price == price {
      forall i | 0 <= i < |fs| ensures fs[i].price == price {
        if i < n { assert fs[..n][i] == fs[i]; }
      }
    }
  }

  lemma MergeUnits(q: Position, f: Fill)
    requires Live(q) && Proper(f)
    ensures var r := MergeFill(q, f);
            && r.entry > 0.0 && r.size / r.entry <= q.size / q.entry + Units()(f)
            && (r.size / r.entry == q.size / q.entry + Units()(f) <==> f.price == q.entry)
            && (f.price == q.entry ==> r.entry == q.entry)
  {
    MergeOnce(q, f);
    assert Units()(f) == f.size / f.price && Cost()(f) == f.price * f.size;
    hide Merge, MergeFill, Units, Cost;
    var r := MergeFill(q, f);
    MergedUnitsShrink(q.entry, q.size, f.price, f.size, r.entry, r.size);
  }

  /** The same with the mean given by the cost it spreads over the size. */
  lemma MergedUnitsShrink(x: real, a: real, y: real, b: real, mean: real, size: real)
    requires x > 0.0 && a > 0.0 && y > 0.0 && b > 0.0 && size == a + b && mean * size == x * a + y * b
    ensures mean > 0.0 && size / mean <= a / x + b / y
    ensures (size / mean == a / x + b / y <==> y == x) && (y == x ==> mean == x)
  {
    var cost := x * a + y * b;
    DivUnique(cost, size, mean);
    UnitsShrink(x, a, y, b);
    if y == x { MeanOfEqual(x, a, b); }
  }

  lemma MeanOfEqual(x: real, a: real, b: real)
    requires a > 0.0 && b > 0.0
    ensures (x * a + x * b) / (a + b) == x
  {
    DivUnique(x * a + x * b, a + b, x);
  }

  /**
   * At every exit price the merged long shows at most the profit of the separate longs and the merged
   * short at least that of the separate shorts; the two agree exactly when all fills are at one price.
   */
  lemma MergingNeverFlatters(id: string, m: Market, s: Side, fs: seq<Fill>, price: real)
    requires fs != [] && AllProper(fs) && price > 0.0
    ensures var q := Built(id, m, s, fs);
            var merged, separate := Pnl(q.entry, q.size, s, price), Sum(SeparatePnl(s, price), fs);
            && (if s.Long? then merged <= separate else merged >= separate)
            && (merged == separate <==> AllAt(fs[0].price, fs))
  {
    hide MergeAll, Pnl, Sum, Side.Sign;
    var p := First(id, m, s, fs[0]);
    var q := Built(id, m, s, fs);
    MergedUnits(p, fs[1..]);
    SumFirst(Units(), fs);
    assert Units()(fs[0]) == p.size / p.entry;
    assert q.size == Sum(Size(), fs) by { BuiltAddsUp(id, m, s, fs); }
    PnlByUnits(q.entry, q.size, s, price);
    SeparateByUnits(s, price, fs);
    AllAtFirst(fs);
    CompareProfits(q.size / q.entry, Sum(Units(), fs), q.size, s, price);
  }

  lemma AllAtFirst(fs: seq<Fill>)
    requires fs != []
    ensures AllAt(fs[0].price, fs) <==> AllAt(fs[0].price, fs[1..])
  {
    if AllAt(fs[0].price, fs[1..]) {
      forall i | 0 <= i < |fs| ensures fs[i].price == fs[0].price {
        if i > 0 { assert fs[1..][i - 1] == fs[i]; }
      }
    }
  }

  lemma CompareProfits(merged: real, separate: real, size: real, s: Side, price: real)
    requires price > 0.0 && merged <= separate
    ensures var x, y := (price * merged - size) * s.Sign(), (price * separate - size) * s.Sign();
            (if s.Long? then x <= y else x >= y) && (x == y <==> merged == separate)
  {
    if merged < separate { MulPositive(price, separate - merged); }
    assert price * (separate - merged) == price * separate - price * merged;
  }

  // ---- On the account ----

  predicate OpensOnly(calls: seq<Call>, m: Market, s: Side) {
    forall i :: 0 <= i < |calls| ==> calls[i].op.Open? && calls[i].op.market == m && calls[i].op.side == s
  }

  function FillOf(call: Call): Fill
    requires call.op.Open? && call.op.market in call.feed.prices
  {
    var size := SizeUsd(call.op.collateral, call.op.leverage);
    Fill(FillPrice(call.feed, call.op.market, call.op.side), size, call.op.collateral, call.op.leverage,
         FeeUsd(size, call.feed.rates.open), call.feed.rates)
  }

  /** The fills of the opens the account accepts. */
  function AcceptedFills(a: Account, m: Market, s: Side, calls: seq<Call>): (fs: seq<Fill>)
    requires Inv(a) && OpensOnly(calls, m, s)
    ensures AllProper(fs)
    decreases |calls|
  {
    if calls == [] then []
    else
      var n := |calls| - 1;
      var call := calls[n];
      var before := AcceptedFills(a, m, s, calls[..n]);
      if Step(Run(a, calls[..n]), call.op, call.feed).Rejected? then before
      else MulPositive(call.op.collateral, call.op.leverage); before + [FillOf(call)]
  }

  lemma RunLast(a: Account, calls: seq<Call>)
    requires Inv(a) && calls != []
    ensures var n := |calls| - 1; Run(a, calls) == Happen(Run(a, calls[..n]), Single(calls[n]))
  {
    hide Happen, Inv;
    var n := |calls| - 1;
    var b := Run(a, calls[..n]);
    RunOne(b, calls[n]);
    assert calls == calls[..n] + [calls[n]];
    hide Run;
    RunConcat(a, calls[..n], [calls[n]]);
  }

  lemma {:induction false} RunOne(a: Account, call: Call)
    requires Inv(a)
    ensures Run(a, [call]) == Happen(a, Single(call))
  {
    hide Happen, Inv;
    assert [call][1..] == [];
  }

  lemma OpenAddsFill(b: Account, call: Call)
    requires Inv(b) && call.op.Open? && Step(b, call.op, call.feed).Accepted?
    ensures call.op.market in call.feed.prices
    ensures var i := Find(b.positions, call.op.market, call.op.side);
            Happen(b, Single(call)).positions ==
            if i < |b.positions| then b.positions[i := MergeFill(b.positions[i], FillOf(call))]
            else b.positions + [First(call.feed.positionId, call.op.market, call.op.side, FillOf(call))]
  {
    hide FillPrice, FeeUsd, LeverageLiquidationPrice, LiquidationPrice, Trim;
    var op := call.op;
    assert Happen(b, Single(call)).positions
        == OpenedPositions(b.positions, call.feed, op.market, op.side, op.collateral, op.leverage);
    var i := Find(b.positions, op.market, op.side);
    var f := FillOf(call);
    if i < |b.positions| {
      var q := Merge(b.positions[i], f.price, f.size, f.collateral, f.leverage, f.fee, f.rates);
      var fill := FillPrice(call.feed, op.market, op.side);
      var size := SizeUsd(op.collateral, op.leverage);
      var fee := FeeUsd(size, call.feed.rates.open);
      assert f.price == fill;
      assert f.size == size;
      assert f.fee == fee;
      assert OpenedPositions(b.positions, call.feed, op.market, op.side, op.collateral, op.leverage)
          == b.positions[i := Merge(b.positions[i], fill, size, op.collateral, op.leverage, fee, call.feed.rates)];
    } else {
      assert First(call.feed.positionId, op.market, op.side, f)
          == FreshPosition(op.market, op.side, f.price, f.collateral, f.leverage, f.fee, call.feed);
    }
  }

  lemma BuiltGrows(id: string, m: Market, s: Side, fs: seq<Fill>, f: Fill)
    requires fs != [] && AllProper(fs) && Proper(f)
    ensures Built(id, m, s, fs + [f]) == MergeFill(Built(id, m, s, fs), f)
  {
    assert (fs + [f])[1..][..|fs| - 1] == fs[1..];
  }

  lemma BuiltFirst(id: string, m: Market, s: Side, f: Fill)
    requires Proper(f)
    ensures Built(id, m, s, [f]) == First(id, m, s, f)
  {
  }

  /** Opens on one market and side leave exactly one position there, built from their fills. */
  lemma {:induction false} OpensBuildTheMean(a: Account, m: Market, s: Side, calls: seq<Call>)
    requires Inv(a) && Find(a.positions, m, s) == |a.positions| && OpensOnly(calls, m, s)
    ensures var b := Run(a, calls);
            var fs := AcceptedFills(a, m, s, calls);
            && |b.positions| == |a.positions| + (if fs == [] then 0 else 1)
            && Find(b.positions, m, s) == |a.positions|
            && (fs != [] ==> var q := b.positions[|a.positions|]; q == Built(q.id, m, s, fs))
    decreases |calls|
  {
    hide MergeFill, Built, FillOf, FillPrice, FeeUsd, First, Happen;
    if calls != [] {
      var n := |calls| - 1;
      var call := calls[n];
      OpensBuildTheMean(a, m, s, calls[..n]);
      RunLast(a, calls);
      var b := Run(a, calls[..n]);
      var fs := AcceptedFills(a, m, s, calls[..n]);
      if Step(b, call.op, call.feed).Accepted? {
        OpenAddsFill(b, call);
        var f := FillOf(call);
        assert AcceptedFills(a, m, s, calls) == fs + [f];
        assert Proper((fs + [f])[|fs|]);
        if fs == [] {
          BuiltFirst(call.feed.positionId, m, s, f);
          FirstNames(call.feed.positionId, m, s, f);
          FindAppended(b.positions, First(call.feed.positionId, m, s, f), m, s);
          assert fs + [f] == [f];
        } else {
          var q := b.positions[|a.positions|];
          MergeNames(q, f);
          BuiltGrows(q.id, m, s, fs, f);
          FindUpdated(b.positions, |a.positions|, MergeFill(q, f), m, s);
        }
      } else {
        RejectedStays(b, call);
      }
    }
  }

  lemma RejectedStays(b: Account, call: Call)
    requires Inv(b) && Step(b, call.op, call.feed).Rejected?
    ensures Happen(b, Single(call)) == b
  {
  }

  lemma FirstNames(id: string, m: Market, s: Side, f: Fill)
    ensures First(id, m, s, f).Names(m, s) && First(id, m, s, f).id == id
  {
  }

  lemma MergeNames(p: Position, f: Fill)
    ensures MergeFill(p, f).market == p.market && MergeFill(p, f).side == p.side && MergeFill(p, f).id == p.id
  {
  }

  lemma FindAppended(ps: seq<Position>, q: Position, m: Market, s: Side)
    requires Find(ps, m, s) == |ps| && q.Names(m, s)
    ensures Find(ps + [q], m, s) == |ps|
  {
    assert (ps + [q])[|ps|].Names(m, s);
    assert forall k :: 0 <= k < |ps| ==> (ps + [q])[k] == ps[k];
  }
}
