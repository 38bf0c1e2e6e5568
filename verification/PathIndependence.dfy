/**
 * Closing in pieces costs and yields exactly what closing at once does. At one price and one fee rate,
 * take any list of close requests after which the position is gone; requests may be refused, may snap
 * to a full close, or may leave dust that is closed with them. The lemma ClosedForm gives the totals of
 * every such list, including those with negative requests, relative to a single full close.
 */
module PathIndependence {
  import opened Wrappers
  import opened RealArith
  import opened Ledger
  import opened Invariant
  import opened Runs
  import opened NoFreeProfit

  /**
   * What a list of closes leaves of the position, what it pays and yields, and the size its negative
   * requests reopen, as a multiple of the size the list starts from.
   */
  datatype Totals = Totals(left: Option<Position>, fees: real, pnl: real, credited: real, reopened: real)

  /** Closing a part f and then reopening `later` times what is left. */
  function Reopened(f: real, later: real): real { (if f >= 0.0 then 0.0 else -f) + (1.0 - f) * later }

  function Before(fee: real, pnl: real, credit: real, f: real, rest: Totals): Totals {
    Totals(rest.left, fee + rest.fees, pnl + rest.pnl, credit + rest.credited, Reopened(f, rest.reopened))
  }

  /** What a partial close leaves is at least the dust limit. */
  lemma RestIsPositive(r: CloseRequest, size: real)
    requires size > 0.0 && !ClosesFully(r, size)
    ensures size - size * EffectiveFraction(r, size) >= DUST_USD
  {
    Complement(size, EffectiveFraction(r, size));
  }

  lemma Complement(x: real, f: real)
    ensures x - x * f == x * (1.0 - f)
  {
  }

  /** All requests, one after the other, on one position. */
  function CloseList(p: Position, rs: seq<CloseRequest>, price: real, rate: real): Totals
    requires p.size > 0.0
    decreases |rs|
  {
    if rs == [] then Totals(Some(p), 0.0, 0.0, 0.0, 0.0)
    else if AmountTooBig(rs[0], p.size) then CloseList(p, rs[1..], price, rate)
    else
      var c := Figures(p, rs[0], price, rate);
      if c.full then Totals(None, c.fee, c.pnl, c.Credited(), 0.0)
      else
        RestIsPositive(rs[0], p.size);
        var rest := CloseList(Reduced(p, c.size, c.collateral), rs[1..], price, rate);
        Before(c.fee, c.pnl, c.Credited(), EffectiveFraction(rs[0], p.size), rest)
  }

  // ---- Everything about a position scales with its size ----

  lemma PnlScales(entry: real, size: real, side: Side, price: real, k: real, scaled: real)
    requires scaled == size * k
    ensures Pnl(entry, scaled, side, price) == Pnl(entry, size, side, price) * k
  {
    if entry > 0.0 {
      var move := (price - entry) / entry;
      hide Side.Sign;
      assert move * scaled == (move * size) * k;
      assert move * scaled * side.Sign() == (move * size * side.Sign()) * k;
    }
  }

  lemma FeeScales(size: real, rate: real, k: real, scaled: real)
    requires size > 0.0 && k >= 0.0 && scaled == size * k
    ensures FeeUsd(scaled, rate) == FeeUsd(size, rate) * k
  {
    if k > 0.0 { MulPositive(size, k); }
    assert scaled * rate == (size * rate) * k;
  }

  lemma FloorScales(x: real, k: real)
    requires k >= 0.0
    ensures FloorZero(x * k) == FloorZero(x) * k
  {
  }

  lemma NegativePart(size: real, rate: real, f: real)
    requires size > 0.0 && f < 0.0
    ensures FeeUsd(size * f, rate) == 0.0
  {
    MulPositive(size, -f);
  }

  /** What closing all of p at once pays and yields, and by how much p is worth less than nothing. */
  datatype Yield = Yield(pnl: real, fee: real, credit: real, shortfall: real)

  function MakeYield(collateral: real, pnl: real, fee: real): Yield {
    Yield(pnl, fee, FloorZero(collateral + pnl - fee), FloorZero(-(collateral + pnl)))
  }

  function AtOnce(p: Position, price: real, rate: real): Yield {
    MakeYield(p.collateral, Pnl(p.entry, p.size, p.side, price), FeeUsd(p.size, rate))
  }

  lemma AtOnceIsTheFullClose(p: Position, price: real, rate: real)
    requires p.size > 0.0
    ensures var c, y := Figures(p, CLOSE_ALL, price, rate), AtOnce(p, price, rate);
            c.full && c.pnl == y.pnl && c.fee == y.fee && c.Credited() == y.credit
  {
  }

  predicate Scaled(x: Yield, y: Yield, k: real) {
    y.pnl == x.pnl * k && y.fee == x.fee * k && y.credit == x.credit * k && y.shortfall == x.shortfall * k
  }

  /** A part f of the whole yields f of it; a negative part pays no fee and yields the shortfall. */
  predicate IsPart(part: Yield, whole: Yield, f: real) {
    && part.pnl == whole.pnl * f
    && part.fee == (if f >= 0.0 then whole.fee * f else 0.0)
    && part.credit == if f >= 0.0 then whole.credit * f else whole.shortfall * -f
  }

  lemma YieldScales(collateral: real, pnl: real, fee: real, k: real, c: real, p: real, f: real)
    requires k >= 0.0 && c == collateral * k && p == pnl * k && f == fee * k
    ensures Scaled(MakeYield(collateral, pnl, fee), MakeYield(c, p, f), k)
  {
    FloorScales(collateral + pnl - fee, k);
    FloorScales(-(collateral + pnl), k);
    hide FloorZero;
    assert c + p - f == (collateral + pnl - fee) * k;
    assert -(c + p) == -(collateral + pnl) * k;
  }

  lemma NegativeYield(collateral: real, pnl: real, fee: real, f: real)
    requires f < 0.0
    ensures IsPart(MakeYield(collateral * f, pnl * f, 0.0), MakeYield(collateral, pnl, fee), f)
  {
    FloorScales(-(collateral + pnl), -f);
    assert collateral * f + pnl * f - 0.0 == -(collateral + pnl) * -f;
  }

  lemma ScaledPosition(p: Position, q: Position, k: real, price: real, rate: real)
    requires p.size > 0.0 && k >= 0.0
    requires q.entry == p.entry && q.side == p.side && q.size == p.size * k && q.collateral == p.collateral * k
    ensures Scaled(AtOnce(p, price, rate), AtOnce(q, price, rate), k)
  {
    PnlScales(p.entry, p.size, p.side, price, k, q.size);
    FeeScales(p.size, rate, k, q.size);
    hide Pnl, FeeUsd, MakeYield, Scaled;
    YieldScales(p.collateral, Pnl(p.entry, p.size, p.side, price), FeeUsd(p.size, rate), k,
                q.collateral, Pnl(q.entry, q.size, q.side, price), FeeUsd(q.size, rate));
  }

  function PartYield(p: Position, f: real, price: real, rate: real): Yield {
    MakeYield(p.collateral * f, Pnl(p.entry, p.size, p.side, price) * f, FeeUsd(p.size * f, rate))
  }

  lemma PartOfWhole(p: Position, f: real, price: real, rate: real)
    requires p.size > 0.0 && f >= 0.0
    ensures IsPart(PartYield(p, f, price, rate), AtOnce(p, price, rate), f)
  {
    var pnl, fee := Pnl(p.entry, p.size, p.side, price), FeeUsd(p.size, rate);
    FeeScales(p.size, rate, f, p.size * f);
    hide Pnl, FeeUsd, MakeYield;
    YieldScales(p.collateral, pnl, fee, f, p.collateral * f, pnl * f, FeeUsd(p.size * f, rate));
  }

  lemma NegativePartOfWhole(p: Position, f: real, price: real, rate: real)
    requires p.size > 0.0 && f < 0.0
    ensures IsPart(PartYield(p, f, price, rate), AtOnce(p, price, rate), f)
  {
    var pnl, fee := Pnl(p.entry, p.size, p.side, price), FeeUsd(p.size, rate);
    NegativePart(p.size, rate, f);
    assert AtOnce(p, price, rate) == MakeYield(p.collateral, pnl, fee);
    assert PartYield(p, f, price, rate) == MakeYield(p.collateral * f, pnl * f, 0.0);
    hide Pnl, FeeUsd, AtOnce, PartYield, MakeYield;
    NegativeYield(p.collateral, pnl, fee, f);
  }

  // ---- Totals ----

  predicate HasTotals(t: Totals, once: Yield) {
    && t.pnl == once.pnl
    && t.fees == once.fee + once.fee * t.reopened
    && t.credited == once.credit + (once.credit + once.shortfall) * t.reopened
  }

  /** A part f of the whole, followed by a list that closes the remaining 1 - f of it. */
  lemma ClosedFormStep(whole: Yield, left: Yield, part: Yield, f: real, rest: Totals)
    requires IsPart(part, whole, f) && Scaled(whole, left, 1.0 - f) && HasTotals(rest, left)
    ensures HasTotals(Before(part.fee, part.pnl, part.credit, f, rest), whole)
  {
    Complement(whole.pnl, f);
    FeesAddUp(whole.fee, f, rest.reopened, part.fee, left.fee);
    CreditsAddUp(whole.credit, whole.shortfall, f, rest.reopened, part.credit, left.credit, left.shortfall);
    hide Reopened;
  }

  lemma FeesAddUp(fee: real, f: real, n: real, part: real, left: real)
    requires part == (if f >= 0.0 then fee * f else 0.0) && left == fee * (1.0 - f)
    ensures part + (left + left * n) == fee + fee * Reopened(f, n)
  {
    var k := 1.0 - f;
    assert left * n == fee * (k * n);
    assert left == fee - fee * f;
    if f < 0.0 { assert fee * (-f + k * n) == -(fee * f) + fee * (k * n); }
  }

  lemma CreditsAddUp(credit: real, shortfall: real, f: real, n: real, part: real, leftCredit: real, leftShortfall: real)
    requires part == (if f >= 0.0 then credit * f else shortfall * -f)
    requires leftCredit == credit * (1.0 - f) && leftShortfall == shortfall * (1.0 - f)
    ensures part + (leftCredit + (leftCredit + leftShortfall) * n) == credit + (credit + shortfall) * Reopened(f, n)
  {
    var k, sum := 1.0 - f, credit + shortfall;
    assert leftCredit + leftShortfall == sum * k;
    assert (leftCredit + leftShortfall) * n == sum * (k * n);
    assert leftCredit == credit - credit * f;
    if f < 0.0 {
      assert sum * (-f + k * n) == -(sum * f) + sum * (k * n);
      assert sum * f == credit * f + shortfall * f;
    }
  }

  lemma ClosedFormPartial(p: Position, f: real, size: real, collateral: real, q: Position, rest: Totals,
                          price: real, rate: real)
    requires p.size > 0.0 && f < 1.0 && size == p.size * f && collateral == p.collateral * f
    requires q == Reduced(p, size, collateral)
    requires HasTotals(rest, AtOnce(q, price, rate))
    ensures var part := PartYield(p, f, price, rate);
            HasTotals(Before(part.fee, part.pnl, part.credit, f, rest), AtOnce(p, price, rate))
  {
    Complement(p.size, f);
    Complement(p.collateral, f);
    hide AtOnce, HasTotals, Before, PartYield;
    ScaledPosition(p, q, 1.0 - f, price, rate);
    if f >= 0.0 { PartOfWhole(p, f, price, rate); } else { NegativePartOfWhole(p, f, price, rate); }
    ClosedFormStep(AtOnce(p, price, rate), AtOnce(q, price, rate), PartYield(p, f, price, rate), f, rest);
  }

  lemma FiguresArePart(p: Position, r: CloseRequest, price: real, rate: real)
    requires p.size > 0.0
    ensures var c := Figures(p, r, price, rate);
            var f := EffectiveFraction(r, p.size);
            var part := PartYield(p, f, price, rate);
            && c.size == p.size * f && c.collateral == p.collateral * f
            && c.fee == part.fee && c.pnl == part.pnl && c.Credited() == part.credit
  {
    hide EffectiveFraction, ClosesFully;
  }

  lemma RestOfPosition(p: Position, r: CloseRequest, price: real, rate: real)
    requires p.size > 0.0 && !ClosesFully(r, p.size)
    ensures var c := Figures(p, r, price, rate); Reduced(p, c.size, c.collateral).size >= DUST_USD
  {
    RestIsPositive(r, p.size);
  }

  lemma ClosedFormBefore(p: Position, r: CloseRequest, rest: Totals, price: real, rate: real)
    requires p.size > 0.0 && !ClosesFully(r, p.size)
    requires var c := Figures(p, r, price, rate);
             HasTotals(rest, AtOnce(Reduced(p, c.size, c.collateral), price, rate))
    ensures var c := Figures(p, r, price, rate);
            HasTotals(Before(c.fee, c.pnl, c.Credited(), EffectiveFraction(r, p.size), rest), AtOnce(p, price, rate))
  {
    FiguresArePart(p, r, price, rate);
    hide Figures, ClosesFully, EffectiveFraction, AtOnce, HasTotals, PartYield, Reduced, CloseFigures.Credited;
    var c := Figures(p, r, price, rate);
    var q := Reduced(p, c.size, c.collateral);
    ClosedFormPartial(p, EffectiveFraction(r, p.size), c.size, c.collateral, q, rest, price, rate);
  }

  /** The totals of any list that ends with the position gone. */
  lemma {:induction false} ClosedForm(p: Position, rs: seq<CloseRequest>, price: real, rate: real)
    requires p.size > 0.0 && CloseList(p, rs, price, rate).left.None?
    ensures HasTotals(CloseList(p, rs, price, rate), AtOnce(p, price, rate))
    decreases |rs|
  {
    if AmountTooBig(rs[0], p.size) {
      ClosedForm(p, rs[1..], price, rate);
    } else if ClosesFully(rs[0], p.size) {
      AtOnceIsTheFullClose(p, price, rate);
    } else {
      var c := Figures(p, rs[0], price, rate);
      var q := Reduced(p, c.size, c.collateral);
      RestOfPosition(p, rs[0], price, rate);
      ClosedForm(q, rs[1..], price, rate);
      ClosedFormBefore(p, rs[0], CloseList(q, rs[1..], price, rate), price, rate);
    }
  }

  /** What a partial close leaves of the position. */
  function Rest(p: Position, r: CloseRequest): (q: Position)
    requires p.size > 0.0 && !ClosesFully(r, p.size)
    ensures q.size > 0.0
  {
    RestIsPositive(r, p.size);
    var f := EffectiveFraction(r, p.size);
    Reduced(p, p.size * f, p.collateral * f)
  }

  /** Some request that is carried out asks for a negative part and leaves the position open. */
  predicate Reopens(p: Position, rs: seq<CloseRequest>)
    requires p.size > 0.0
    decreases |rs|
  {
    if rs == [] then false
    else if AmountTooBig(rs[0], p.size) then Reopens(p, rs[1..])
    else if ClosesFully(rs[0], p.size) then false
    else !AsksNonNegative(rs[0]) || Reopens(Rest(p, rs[0]), rs[1..])
  }

  lemma ReopenedStep(f: real, later: real)
    requires f < 1.0 && later >= 0.0
    ensures Reopened(f, later) >= 0.0 && (Reopened(f, later) == 0.0 <==> f >= 0.0 && later == 0.0)
  {
    if later > 0.0 { MulPositive(1.0 - f, later); }
  }

  lemma {:induction false} ReopenedUnfolds(p: Position, rs: seq<CloseRequest>, price: real, rate: real)
    requires p.size > 0.0 && rs != [] && !AmountTooBig(rs[0], p.size) && !ClosesFully(rs[0], p.size)
    ensures CloseList(p, rs, price, rate).reopened
         == Reopened(EffectiveFraction(rs[0], p.size), CloseList(Rest(p, rs[0]), rs[1..], price, rate).reopened)
  {
    FiguresArePart(p, rs[0], price, rate);
    hide Figures, EffectiveFraction, AmountTooBig, ClosesFully;
  }

  /** Such requests are the only ones that reopen anything. */
  lemma {:induction false} ReopenedSign(p: Position, rs: seq<CloseRequest>, price: real, rate: real)
    requires p.size > 0.0
    ensures CloseList(p, rs, price, rate).reopened >= 0.0
    ensures CloseList(p, rs, price, rate).reopened == 0.0 <==> !Reopens(p, rs)
    decreases |rs|
  {
    hide EffectiveFraction, AmountTooBig, ClosesFully, AsksNonNegative, Rest, Reopened;
    if rs == [] || (!AmountTooBig(rs[0], p.size) && ClosesFully(rs[0], p.size)) {
    } else if AmountTooBig(rs[0], p.size) {
      ReopenedSign(p, rs[1..], price, rate);
    } else {
      ReopenedUnfolds(p, rs, price, rate);
      var q := Rest(p, rs[0]);
      ReopenedSign(q, rs[1..], price, rate);
      hide CloseList;
      ReopenedStep(EffectiveFraction(rs[0], p.size), CloseList(q, rs[1..], price, rate).reopened);
      NegativeIffAsked(rs[0], p.size);
    }
  }

  lemma NegativeIffAsked(r: CloseRequest, size: real)
    requires size > 0.0 && !ClosesFully(r, size)
    ensures EffectiveFraction(r, size) >= 0.0 <==> AsksNonNegative(r)
  {
    FractionSign(r, size);
    if !AsksNonNegative(r) { NegativeRequest(r, size); }
  }

  lemma NegativeRequest(r: CloseRequest, size: real)
    requires size > 0.0 && !ClosesFully(r, size) && !AsksNonNegative(r)
    ensures size * (1.0 - RequestedFraction(r, size)) >= DUST_USD
  {
  }

  lemma {:induction false} NonNegativeNeverReopens(p: Position, rs: seq<CloseRequest>)
    requires p.size > 0.0 && forall r :: r in rs ==> AsksNonNegative(r)
    ensures !Reopens(p, rs)
    decreases |rs|
  {
    hide AmountTooBig, ClosesFully, AsksNonNegative, Rest;
    if rs != [] {
      assert rs[0] in rs && forall r :: r in rs[1..] ==> r in rs;
      NonNegativeNeverReopens(p, rs[1..]);
      if !AmountTooBig(rs[0], p.size) && !ClosesFully(rs[0], p.size) {
        NonNegativeNeverReopens(Rest(p, rs[0]), rs[1..]);
      }
    }
  }

  // ---- On the account ----

  function CloseEach(a: Account, feed: Feed, m: Market, s: Side, rs: seq<CloseRequest>): (b: Account)
    requires Inv(a)
    ensures Inv(b)
    decreases |rs|
  {
    if rs == [] then a
    else
      StepKeepsInv(a, Close(m, s, rs[0]), feed);
      CloseEach(DoClose(a, feed, m, s, rs[0]).After(a), feed, m, s, rs[1..])
  }

  function WithLeft(ps: seq<Position>, i: nat, left: Option<Position>): seq<Position>
    requires i < |ps|
  {
    if left.Some? then ps[i := left.value] else ps[..i] + ps[i + 1..]
  }

  predicate Settles(a: Account, b: Account, i: nat, t: Totals)
    requires i < |a.positions|
  {
    && b.balance == a.balance + t.credited && b.feesPaid == a.feesPaid + t.fees
    && b.realizedPnl == a.realizedPnl + t.pnl && b.positions == WithLeft(a.positions, i, t.left)
  }

  lemma {:induction false} GoneStaysGone(a: Account, feed: Feed, m: Market, s: Side, rs: seq<CloseRequest>)
    requires Inv(a) && Find(a.positions, m, s) == |a.positions|
    ensures CloseEach(a, feed, m, s, rs) == a
    decreases |rs|
  {
    if rs != [] { GoneStaysGone(a, feed, m, s, rs[1..]); }
  }

  lemma FindRemoved(ps: seq<Position>, i: nat)
    requires i < |ps| && Distinct(ps)
    ensures var qs := ps[..i] + ps[i + 1..]; Find(qs, ps[i].market, ps[i].side) == |qs|
  {
    var qs := ps[..i] + ps[i + 1..];
    forall j | 0 <= j < |qs| ensures !qs[j].Names(ps[i].market, ps[i].side) {
      if j < i {
        assert qs[j] == ps[j];
      } else {
        assert qs[j] == ps[j + 1];
        assert !ps[i].Names(ps[j + 1].market, ps[j + 1].side);
      }
    }
  }

  /** The account settles each list as the single position does. */
  lemma {:induction false} CloseEachSettles(a: Account, feed: Feed, m: Market, s: Side, rs: seq<CloseRequest>)
    requires Inv(a) && Find(a.positions, m, s) < |a.positions| && Priced(feed.prices, m)
    ensures var i := Find(a.positions, m, s);
            Settles(a, CloseEach(a, feed, m, s, rs), i,
                    CloseList(a.positions[i], rs, feed.prices[m], feed.rates.close))
    decreases |rs|
  {
    var i := Find(a.positions, m, s);
    var p := a.positions[i];
    if rs == [] {
    } else if AmountTooBig(rs[0], p.size) {
      CloseEachSettles(a, feed, m, s, rs[1..]);
    } else {
      StepKeepsInv(a, Close(m, s, rs[0]), feed);
      var b := DoClose(a, feed, m, s, rs[0]).account;
      if ClosesFully(rs[0], p.size) {
        FindRemoved(a.positions, i);
        GoneStaysGone(b, feed, m, s, rs[1..]);
      } else {
        var c := Figures(p, rs[0], feed.prices[m], feed.rates.close);
        var q := Reduced(p, c.size, c.collateral);
        FindUpdated(a.positions, i, q, m, s);
        CloseEachSettles(b, feed, m, s, rs[1..]);
      }
    }
  }

  /** Same cash, fees, realised profit and positions. */
  predicate SameMoney(a: Account, b: Account) {
    a.balance == b.balance && a.feesPaid == b.feesPaid && a.realizedPnl == b.realizedPnl && a.positions == b.positions
  }

  /**
   * Any list of non-negative requests after which the position is gone changes balance, fees and
   * realised profit exactly as one full close does, whatever was snapped, refused or floored.
   */
  lemma PathIndependence(a: Account, feed: Feed, m: Market, s: Side, rs: seq<CloseRequest>)
    requires Inv(a) && Find(a.positions, m, s) < |a.positions| && Priced(feed.prices, m)
    requires forall r :: r in rs ==> AsksNonNegative(r)
    requires var b := CloseEach(a, feed, m, s, rs); Find(b.positions, m, s) == |b.positions|
    ensures SameMoney(CloseEach(a, feed, m, s, rs), DoClose(a, feed, m, s, CLOSE_ALL).account)
  {
    PathDependence(a, feed, m, s, rs);
    var p := a.positions[Find(a.positions, m, s)];
    NonNegativeNeverReopens(p, rs);
  }

  /**
   * Exactly when a list with negative requests still agrees with one full close: none of those carried
   * out left the position open, or the position is worth exactly nothing and pays no fee.
   */
  lemma PathDependence(a: Account, feed: Feed, m: Market, s: Side, rs: seq<CloseRequest>)
    requires Inv(a) && Find(a.positions, m, s) < |a.positions| && Priced(feed.prices, m)
    requires var b := CloseEach(a, feed, m, s, rs); Find(b.positions, m, s) == |b.positions|
    ensures var p := a.positions[Find(a.positions, m, s)];
            var price, rate := feed.prices[m], feed.rates.close;
            var once := AtOnce(p, price, rate);
            SameMoney(CloseEach(a, feed, m, s, rs), DoClose(a, feed, m, s, CLOSE_ALL).account) <==>
            !Reopens(p, rs) || (once.fee == 0.0 && p.collateral + once.pnl == 0.0)
  {
    var i := Find(a.positions, m, s);
    var p := a.positions[i];
    var price, rate := feed.prices[m], feed.rates.close;
    var t := CloseList(p, rs, price, rate);
    CloseEachSettles(a, feed, m, s, rs);
    LeftIsNamed(p, rs, price, rate);
    if t.left.Some? {
      FindUpdated(a.positions, i, t.left.value, m, s);
    }
    ClosedForm(p, rs, price, rate);
    AtOnceIsTheFullClose(p, price, rate);
    FeeNonNegative(p.size, rate);
    ReopenedSign(p, rs, price, rate);
    EqualTotals(t, p.collateral, Pnl(p.entry, p.size, p.side, price), FeeUsd(p.size, rate));
  }

  const DOUBLING := CloseRequest(Some(-100.0), None)

  lemma DoublingReopens(p: Position)
    requires p.size == 200.0
    ensures !AmountTooBig(DOUBLING, p.size) && !ClosesFully(DOUBLING, p.size) && Reopens(p, [DOUBLING, CLOSE_ALL])
  {
    assert RequestedFraction(DOUBLING, p.size) == -1.0;
  }

  lemma DoublingThenClosing(p: Position, price: real, rate: real)
    requires p.size == 200.0
    ensures CloseList(p, [DOUBLING, CLOSE_ALL], price, rate).left.None?
  {
    DoublingReopens(p);
    var rs := [DOUBLING, CLOSE_ALL];
    var q := Rest(p, DOUBLING);
    assert rs[1..] == [CLOSE_ALL];
    FiguresArePart(p, DOUBLING, price, rate);
    assert ClosesFully(CLOSE_ALL, q.size);
    hide Figures, EffectiveFraction, ClosesFully;
    assert CloseList(q, [CLOSE_ALL], price, rate).left.None?;
  }

  lemma DoublingChangesTheMoney(a: Account, feed: Feed, m: Market, s: Side)
    requires Inv(a) && |a.positions| == 1 && Find(a.positions, m, s) == 0 && Priced(feed.prices, m)
    requires a.positions[0].size == 200.0 && feed.rates.close > 0.0
    ensures var b := CloseEach(a, feed, m, s, [DOUBLING, CLOSE_ALL]);
            b.positions == [] && !SameMoney(b, DoClose(a, feed, m, s, CLOSE_ALL).account)
  {
    var p := a.positions[0];
    var price, rate := feed.prices[m], feed.rates.close;
    DoublingReopens(p);
    DoublingThenClosing(p, price, rate);
    assert AtOnce(p, price, rate).fee == 200.0 * rate;
    hide CloseList, Reopens, AtOnce, CloseEach, DoClose, SameMoney, Inv, Find;
    CloseEachSettles(a, feed, m, s, [DOUBLING, CLOSE_ALL]);
    var b := CloseEach(a, feed, m, s, [DOUBLING, CLOSE_ALL]);
    assert b.positions == a.positions[..0] + a.positions[1..] == [];
    PathDependence(a, feed, m, s, [DOUBLING, CLOSE_ALL]);
  }

  /** A list on which closing is not path independent: "close" -100 percent, then close all that is there. */
  lemma NegativeCloseBreaksPathIndependence()
    ensures var p := Position("p", "SOL", Long, 100.0, 200.0, 100.0, 2.0, 0.0, 0.01, 0.0, None, None, None);
            var a := Account(0.0, [p], [], 0.0, 0.0);
            var feed := Feed(map["SOL" := 100.0], Rates(0.0, 0.01, 0.0), 0, 100.0, "q", "t");
            && Inv(a) && Find(a.positions, "SOL", Long) == 0
            && var b := CloseEach(a, feed, "SOL", Long, [DOUBLING, CLOSE_ALL]);
               b.positions == [] && !SameMoney(b, DoClose(a, feed, "SOL", Long, CLOSE_ALL).account)
  {
    var p := Position("p", "SOL", Long, 100.0, 200.0, 100.0, 2.0, 0.0, 0.01, 0.0, None, None, None);
    var a := Account(0.0, [p], [], 0.0, 0.0);
    var feed := Feed(map["SOL" := 100.0], Rates(0.0, 0.01, 0.0), 0, 100.0, "q", "t");
    assert a.positions[0].Names("SOL", Long);
    assert Find(a.positions, "SOL", Long) == 0;
    assert Inv(a) && Priced(feed.prices, "SOL");
    hide CloseEach, DoClose, SameMoney, Inv;
    DoublingChangesTheMoney(a, feed, "SOL", Long);
  }

  lemma EqualTotals(t: Totals, collateral: real, pnl: real, fee: real)
    requires HasTotals(t, MakeYield(collateral, pnl, fee))
    ensures var y := MakeYield(collateral, pnl, fee);
            t.fees == y.fee && t.credited == y.credit <==>
            t.reopened == 0.0 || (fee == 0.0 && collateral + pnl == 0.0)
  {
    var y := MakeYield(collateral, pnl, fee);
    ZeroProduct(fee, t.reopened);
    ZeroProduct(y.credit + y.shortfall, t.reopened);
  }

  lemma ZeroProduct(x: real, n: real)
    ensures x * n == 0.0 <==> x == 0.0 || n == 0.0
  {
  }

  lemma {:induction false} LeftIsNamed(p: Position, rs: seq<CloseRequest>, price: real, rate: real)
    requires p.size > 0.0
    ensures var left := CloseList(p, rs, price, rate).left;
            left.Some? ==> left.value.Names(p.market, p.side)
    decreases |rs|
  {
    if rs == [] || (!AmountTooBig(rs[0], p.size) && ClosesFully(rs[0], p.size)) {
    } else if AmountTooBig(rs[0], p.size) {
      LeftIsNamed(p, rs[1..], price, rate);
    } else {
      RestIsPositive(rs[0], p.size);
      var c := Figures(p, rs[0], price, rate);
      LeftIsNamed(Reduced(p, c.size, c.collateral), rs[1..], price, rate);
    }
  }
}
