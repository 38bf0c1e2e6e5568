/**
 * The magic trade parser (src/cli/terminal.ts, parseMagicOpenArgs): a trade may be written in any order,
 * with a side, a market symbol, an amount and a leverage, among words it ignores. Words arrive in lower
 * case, cleaned of noise and split at blanks.
 */
module MagicParser {
  import opened Wrappers
  import opened Letters
  import opened RealArith
  import opened Ledger

  datatype Token =
    | SideToken(side: Side)
    | LeverageToken(times: real)     // "5x"
    | NumberToken(value: real)       // "10"
    | SymbolToken(market: string)    // a symbol of the pool, or the symbol an alias stands for
    | Ignored(word: string)

  datatype MagicOpen = MagicOpen(market: string, side: Side, collateral: real, leverage: real)

  /** What the words said so far: the last side, leverage and market, and every bare number in order. */
  datatype Fields = Fields(side: Option<Side>, leverage: Option<real>, market: Option<string>, numbers: seq<real>)

  function Note(f: Fields, t: Token): Fields {
    match t
    case SideToken(s) => f.(side := Some(s))
    case LeverageToken(x) => f.(leverage := Some(x))
    case NumberToken(x) => f.(numbers := f.numbers + [x])
    case SymbolToken(m) => f.(market := Some(m))
    case Ignored(_) => f
  }

  function Read(ts: seq<Token>): Fields {
    if ts == [] then Fields(None, None, None, []) else Note(Read(ts[..|ts| - 1]), ts[|ts| - 1])
  }

  function Insert(x: real, s: seq<real>): (r: seq<real>)
    ensures |r| == |s| + 1
  {
    if s == [] || x <= s[0] then [x] + s else [s[0]] + Insert(x, s[1..])
  }

  function Sort(s: seq<real>): (r: seq<real>)
    ensures |r| == |s|
  {
    if s == [] then [] else Insert(s[0], Sort(s[1..]))
  }

  /** Collateral and leverage from the bare numbers and the "Nx" word. */
  function Amounts(f: Fields): Option<(real, real)> {
    if |f.numbers| == 0 then None
    else if f.leverage.Some? then Some((f.numbers[0], f.leverage.value))
    else if |f.numbers| == 1 then None
    else var sorted := Sort(f.numbers); Some((sorted[1], sorted[0]))
  }

  function Resolve(f: Fields): Option<MagicOpen> {
    match Amounts(f)
    case None => None
    case Some((collateral, leverage)) =>
      if f.market.None? || f.market.value == "" || f.side.None? || collateral <= 0.0 || leverage <= 0.0 then None
      else Some(MagicOpen(f.market.value, f.side.value, collateral, leverage))
  }

  function Parse(ts: seq<Token>): Option<MagicOpen> { Resolve(Read(ts)) }

  // ---- Words ----

  predicate IsDigits(s: string) { s != "" && forall i :: 0 <= i < |s| ==> '0' <= s[i] <= '9' }

  function NatOf(s: string): nat
    requires forall i :: 0 <= i < |s| ==> '0' <= s[i] <= '9'
  {
    if s == "" then 0 else 10 * NatOf(s[..|s| - 1]) + (s[|s| - 1] as int - '0' as int)
  }

  function PowerOfTen(n: nat): (p: nat)
    ensures p > 0
  {
    if n == 0 then 1 else 10 * PowerOfTen(n - 1)
  }

  /** The value of so many digits behind the point. */
  function Fraction(n: nat, digits: nat): real { n as real / PowerOfTen(digits) as real }

  /** Index of the first point, or |s|. */
  function Point(s: string): (i: nat)
    ensures i <= |s|
  {
    if s == "" || s[0] == '.' then 0 else 1 + Point(s[1..])
  }

  /** The number a word spells: digits, with a point and more digits or without. */
  function Decimal(s: string): Option<real> {
    var i := Point(s);
    if i == |s| then if IsDigits(s) then Some(NatOf(s) as real) else None
    else if IsDigits(s[..i]) && IsDigits(s[i + 1..]) then
      Some(NatOf(s[..i]) as real + Fraction(NatOf(s[i + 1..]), |s| - i - 1))
    else None
  }

  /** The leverage a word spells: a number followed by "x". */
  function Times(s: string): Option<real> {
    if s != "" && s[|s| - 1] == 'x' then Decimal(s[..|s| - 1]) else None
  }

  function SideOf(s: string): Option<Side> {
    if s == "long" || s == "buy" then Some(Long)
    else if s == "short" || s == "sell" then Some(Short)
    else None
  }

  function Classify(s: string, symbols: set<string>, aliases: map<string, string>): Token {
    if SideOf(s).Some? then SideToken(SideOf(s).value)
    else if Times(s).Some? then LeverageToken(Times(s).value)
    else if Decimal(s).Some? then NumberToken(Decimal(s).value)
    else if Upper(s) in symbols then SymbolToken(Upper(s))
    else if s in aliases && aliases[s] != "" then SymbolToken(aliases[s])
    else Ignored(s)
  }

  function ClassifyAll(words: seq<string>, symbols: set<string>, aliases: map<string, string>): (ts: seq<Token>)
    ensures |ts| == |words| && forall i :: 0 <= i < |words| ==> ts[i] == Classify(words[i], symbols, aliases)
  {
    seq(|words|, i requires 0 <= i < |words| => Classify(words[i], symbols, aliases))
  }

  // ---- The loop ----

  method ParseMagicOpenArgs(words: seq<string>, symbols: set<string>, aliases: map<string, string>)
    returns (trade: Option<MagicOpen>)
    ensures trade == Parse(ClassifyAll(words, symbols, aliases))
  {
    hide Times, Decimal, Upper;
    ghost var ts := ClassifyAll(words, symbols, aliases);
    var side: Option<Side> := None;
    var leverage: Option<real> := None;
    var collateral: Option<real> := None;
    var market: Option<string> := None;
    var numbers: seq<real> := [];
    for i := 0 to |words|
      invariant Fields(side, leverage, market, numbers) == Read(ts[..i])
    {
      assert ts[..i + 1][..i] == ts[..i];
      assert ts[i] == Classify(words[i], symbols, aliases);
      var word := words[i];
      var upper := Upper(word);
      if word == "long" || word == "short" || word == "buy" || word == "sell" {
        side := Some(if word == "short" || word == "sell" then Short else Long);
      } else if Times(word).Some? {
        leverage := Times(word);
      } else if Decimal(word).Some? {
        numbers := numbers + [Decimal(word).value];
      } else if upper in symbols {
        market := Some(upper);
      } else if word in aliases && aliases[word] != "" {
        market := Some(aliases[word]);
      }
    }
    assert ts[..|words|] == ts;
    if |numbers| == 1 && leverage.Some? {
      collateral := Some(numbers[0]);
    } else if |numbers| == 1 {
      return None;
    } else if |numbers| >= 2 {
      if leverage.None? {
        var sorted := Sort(numbers);
        leverage, collateral := Some(sorted[0]), Some(sorted[1]);
      } else {
        collateral := Some(numbers[0]);
      }
    }
    if market.None? || market.value == "" || side.None? || collateral.None? || leverage.None? { return None; }
    if collateral.value <= 0.0 || leverage.value <= 0.0 { return None; }
    return Some(MagicOpen(market.value, side.value, collateral.value, leverage.value));
  }

  // ---- Sorting ----

  predicate Ascending(s: seq<real>) { forall i, j :: 0 <= i < j < |s| ==> s[i] <= s[j] }

  lemma {:induction false} InsertKeepsOrder(x: real, s: seq<real>)
    requires Ascending(s)
    ensures Ascending(Insert(x, s))
    ensures Insert(x, s)[0] == if s == [] || x <= s[0] then x else s[0]
  {
    if s != [] && x > s[0] {
      InsertKeepsOrder(x, s[1..]);
    }
  }

  lemma {:induction false} InsertAddsOne(x: real, s: seq<real>)
    ensures multiset(Insert(x, s)) == multiset(s) + multiset{x}
  {
    if s != [] && x > s[0] {
      InsertAddsOne(x, s[1..]);
      assert s == [s[0]] + s[1..];
    }
  }

  lemma {:induction false} SortAscends(s: seq<real>)
    ensures Ascending(Sort(s))
  {
    if s != [] {
      SortAscends(s[1..]);
      hide Ascending, Insert;
      InsertKeepsOrder(s[0], Sort(s[1..]));
    }
  }

  lemma {:induction false} SortKeepsNumbers(s: seq<real>)
    ensures multiset(Sort(s)) == multiset(s)
  {
    if s != [] {
      var rest := s[1..];
      SortKeepsNumbers(rest);
      assert Sort(s) == Insert(s[0], Sort(rest));
      hide Insert, Sort;
      InsertAddsOne(s[0], Sort(rest));
      TailIsTheRest(s);
      assert s[0] in multiset(s);
    }
  }

  /** The sorted numbers are in ascending order and are the same numbers. */
  lemma SortIsSorted(s: seq<real>)
    ensures Ascending(Sort(s)) && multiset(Sort(s)) == multiset(s)
  {
    SortAscends(s);
    SortKeepsNumbers(s);
  }

  lemma HeadIsLeast(a: seq<real>, x: real)
    requires Ascending(a) && x in multiset(a)
    ensures a != [] && a[0] <= x
  {
    assert x in a;
  }

  lemma SameHead(a: seq<real>, b: seq<real>)
    requires Ascending(a) && Ascending(b) && multiset(a) == multiset(b) && a != [] && b != []
    ensures a[0] == b[0]
  {
    assert a[0] in multiset(a) && b[0] in multiset(b);
    HeadIsLeast(a, b[0]);
    HeadIsLeast(b, a[0]);
  }

  lemma TailAscends(a: seq<real>)
    requires Ascending(a) && a != []
    ensures Ascending(a[1..])
  {
  }

  lemma TailIsTheRest(a: seq<real>)
    requires a != []
    ensures multiset(a[1..]) == multiset(a) - multiset{a[0]}
  {
    assert a == [a[0]] + a[1..];
  }

  lemma SameRest(a: seq<real>, b: seq<real>)
    requires a != [] && b != [] && a[0] == b[0] && multiset(a) == multiset(b)
    ensures multiset(a[1..]) == multiset(b[1..])
  {
    TailIsTheRest(a);
    TailIsTheRest(b);
  }

  lemma SameLength(a: seq<real>, b: seq<real>)
    requires multiset(a) == multiset(b)
    ensures |a| == |b|
  {
    assert |a| == |multiset(a)| == |multiset(b)| == |b|;
  }

  /** Only one arrangement of the same numbers is ascending. */
  lemma {:induction false} AscendingIsUnique(a: seq<real>, b: seq<real>)
    requires Ascending(a) && Ascending(b) && multiset(a) == multiset(b)
    ensures a == b
  {
    hide Ascending;
    SameLength(a, b);
    if a != [] {
      SameHead(a, b);
      SameRest(a, b);
      TailAscends(a);
      TailAscends(b);
      AscendingIsUnique(a[1..], b[1..]);
      assert a == [a[0]] + a[1..];
      assert b == [b[0]] + b[1..];
    }
  }

  // ---- What the fields say about the words ----

  /** A field is empty exactly when no word of its kind was written, and otherwise holds one that was. */
  predicate Tells(f: Fields, ts: seq<Token>) {
    && (forall t :: t in ts && t.SideToken? ==> f.side.Some?)
    && (forall t :: t in ts && t.LeverageToken? ==> f.leverage.Some?)
    && (forall t :: t in ts && t.SymbolToken? ==> f.market.Some?)
    && (f.side.Some? ==> SideToken(f.side.value) in ts)
    && (f.leverage.Some? ==> LeverageToken(f.leverage.value) in ts)
    && (f.market.Some? ==> SymbolToken(f.market.value) in ts)
  }

  lemma NoteTells(f: Fields, ts: seq<Token>, t: Token)
    requires Tells(f, ts)
    ensures Tells(Note(f, t), ts + [t])
  {
    assert forall u :: u in ts + [t] <==> u in ts || u == t;
  }

  lemma {:induction false} ReadTells(ts: seq<Token>)
    ensures Tells(Read(ts), ts)
  {
    if ts != [] {
      var front, last := ts[..|ts| - 1], ts[|ts| - 1];
      ReadTells(front);
      hide Tells, Note;
      NoteTells(Read(front), front, last);
      assert ts == front + [last];
    }
  }

  lemma NoteCounts(f: Fields, t: Token, x: real)
    ensures multiset(Note(f, t).numbers)[x] == multiset(f.numbers)[x] + if t == NumberToken(x) then 1 else 0
  {
  }

  lemma LastCounts(front: seq<Token>, t: Token, u: Token)
    ensures multiset(front + [t])[u] == multiset(front)[u] + if t == u then 1 else 0
  {
  }

  /** The bare numbers are the numbers written, each as often as it was written. */
  lemma {:induction false} NumbersAreThoseWritten(ts: seq<Token>, x: real)
    ensures multiset(Read(ts).numbers)[x] == multiset(ts)[NumberToken(x)]
  {
    if ts != [] {
      var front, last := ts[..|ts| - 1], ts[|ts| - 1];
      NumbersAreThoseWritten(front, x);
      assert Read(ts) == Note(Read(front), last);
      hide Read, Note;
      NoteCounts(Read(front), last, x);
      LastCounts(front, last, NumberToken(x));
      assert ts == front + [last];
    }
  }

  // ---- Order freedom ----

  /** The same kind of word is never written with two meanings; with an "Nx" word this includes bare numbers. */
  ghost predicate Agreeing(ts: seq<Token>) {
    && SidesAgree(ts) && LeveragesAgree(ts) && SymbolsAgree(ts)
    && ((exists t :: t in ts && t.LeverageToken?) ==> NumbersAgree(ts))
  }

  ghost predicate SidesAgree(ts: seq<Token>) {
    forall t, u :: t in ts && u in ts && t.SideToken? && u.SideToken? ==> t == u
  }

  ghost predicate LeveragesAgree(ts: seq<Token>) {
    forall t, u :: t in ts && u in ts && t.LeverageToken? && u.LeverageToken? ==> t == u
  }

  ghost predicate SymbolsAgree(ts: seq<Token>) {
    forall t, u :: t in ts && u in ts && t.SymbolToken? && u.SymbolToken? ==> t == u
  }

  ghost predicate NumbersAgree(ts: seq<Token>) {
    forall t, u :: t in ts && u in ts && t.NumberToken? && u.NumberToken? ==> t == u
  }

  lemma SameWords(ts: seq<Token>, us: seq<Token>)
    requires multiset(ts) == multiset(us)
    ensures forall t :: t in ts <==> t in us
  {
    forall t ensures t in ts <==> t in us {
      assert t in ts <==> t in multiset(ts);
      assert t in us <==> t in multiset(us);
    }
  }

  lemma SameNumbers(ts: seq<Token>, us: seq<Token>)
    requires multiset(ts) == multiset(us)
    ensures multiset(Read(ts).numbers) == multiset(Read(us).numbers)
    ensures |Read(ts).numbers| == |Read(us).numbers| && Sort(Read(ts).numbers) == Sort(Read(us).numbers)
  {
    var a, b := Read(ts).numbers, Read(us).numbers;
    forall x ensures multiset(a)[x] == multiset(b)[x] {
      NumbersAreThoseWritten(ts, x);
      NumbersAreThoseWritten(us, x);
    }
    assert multiset(a) == multiset(b);
    SameLength(a, b);
    SortIsSorted(a);
    SortIsSorted(b);
    AscendingIsUnique(Sort(a), Sort(b));
  }

  lemma FirstNumberWasWritten(ts: seq<Token>)
    requires Read(ts).numbers != []
    ensures NumberToken(Read(ts).numbers[0]) in ts
  {
    var x := Read(ts).numbers[0];
    NumbersAreThoseWritten(ts, x);
    assert x in multiset(Read(ts).numbers);
    assert NumberToken(x) in multiset(ts);
  }

  /** Words that agree mean the same trade, or the same refusal, in every order. */
  lemma OrderFree(ts: seq<Token>, us: seq<Token>)
    requires multiset(ts) == multiset(us) && Agreeing(ts)
    ensures Parse(us) == Parse(ts)
  {
    var f, g := Read(ts), Read(us);
    SameFields(ts, us);
    SameNumbers(ts, us);
    SameAmounts(ts, us);
    hide Read, Amounts, Agreeing, Sort;
  }

  lemma SameFields(ts: seq<Token>, us: seq<Token>)
    requires multiset(ts) == multiset(us) && Agreeing(ts)
    ensures var f, g := Read(ts), Read(us); f.side == g.side && f.leverage == g.leverage && f.market == g.market
  {
    ReadTells(ts);
    ReadTells(us);
    hide Read;
    SameWords(ts, us);
    var f, g := Read(ts), Read(us);
    assert f.side == g.side by { hide LeveragesAgree, SymbolsAgree, NumbersAgree; }
    assert f.leverage == g.leverage by { hide SidesAgree, SymbolsAgree, NumbersAgree; }
    assert f.market == g.market by { hide SidesAgree, LeveragesAgree, NumbersAgree; }
    hide Tells, SidesAgree, LeveragesAgree, SymbolsAgree, NumbersAgree;
  }

  /** With an "Nx" word the first bare number, whichever it is, is the one they all are. */
  lemma SameFirstNumber(ts: seq<Token>, us: seq<Token>)
    requires multiset(ts) == multiset(us) && NumbersAgree(ts)
    requires Read(ts).numbers != [] && Read(us).numbers != []
    ensures Read(ts).numbers[0] == Read(us).numbers[0]
  {
    FirstNumberWasWritten(ts);
    FirstNumberWasWritten(us);
    SameWords(ts, us);
    hide Read;
    assert NumberToken(Read(ts).numbers[0]) == NumberToken(Read(us).numbers[0]);
  }

  lemma SameAmounts(ts: seq<Token>, us: seq<Token>)
    requires multiset(ts) == multiset(us) && Agreeing(ts)
    ensures Amounts(Read(ts)) == Amounts(Read(us))
  {
    var f, g := Read(ts), Read(us);
    SameNumbers(ts, us);
    SameFields(ts, us);
    if f.leverage.Some? && f.numbers != [] {
      assert LeverageToken(f.leverage.value) in ts by { ReadTells(ts); }
      hide Read, Sort, SidesAgree, LeveragesAgree, SymbolsAgree, NumbersAgree;
      SameFirstNumber(ts, us);
    }
    hide Read, Sort, Agreeing;
  }

  function Without(ts: seq<Token>, i: nat): seq<Token>
    requires i < |ts|
  {
    ts[..i] + ts[i + 1..]
  }

  lemma MovingIsPermuting(ts: seq<Token>, i: nat)
    requires i < |ts|
    ensures multiset(Without(ts, i) + [ts[i]]) == multiset(ts) == multiset([ts[i]] + Without(ts, i))
  {
    assert ts == ts[..i] + [ts[i]] + ts[i + 1..];
  }

  /** Appending words reads on from the fields of the words before. */
  lemma {:induction false} ReadAppend(a: seq<Token>, t: Token)
    ensures Read(a + [t]) == Note(Read(a), t)
  {
    assert (a + [t])[..|a|] == a;
  }

  function NumberFirst(x: real, f: Fields): Fields { f.(numbers := [x] + f.numbers) }

  lemma NoteAfterFirst(x: real, f: Fields, t: Token)
    ensures Note(NumberFirst(x, f), t) == NumberFirst(x, Note(f, t))
  {
    if t.NumberToken? { assert [x] + f.numbers + [t.value] == [x] + (f.numbers + [t.value]); }
  }

  /** Putting one number in front makes it the first, and changes nothing else. */
  lemma {:induction false} ReadPrepend(x: real, a: seq<Token>)
    ensures Read([NumberToken(x)] + a) == NumberFirst(x, Read(a))
  {
    var n := NumberToken(x);
    if a == [] {
      assert [n] + a == a + [n];
      ReadAppend(a, n);
    } else {
      var front, last := a[..|a| - 1], a[|a| - 1];
      ReadPrepend(x, front);
      assert Read(a) == Note(Read(front), last);
      hide Read, Note, NumberFirst;
      assert [n] + a == ([n] + front) + [last];
      ReadAppend([n] + front, last);
      NoteAfterFirst(x, Read(front), last);
    }
  }

  /** Writing a word last makes it the one that counts; every other word still counts as before. */
  lemma LastWordWins(ts: seq<Token>, i: nat)
    requires i < |ts| && !ts[i].NumberToken?
    ensures var f := Read(Without(ts, i) + [ts[i]]);
            && f.numbers == Read(ts).numbers
            && (ts[i].SideToken? ==> f.side == Some(ts[i].side))
            && (ts[i].LeverageToken? ==> f.leverage == Some(ts[i].times))
            && (ts[i].SymbolToken? ==> f.market == Some(ts[i].market))
  {
    ReadAppend(Without(ts, i), ts[i]);
    NumbersSkipOthers(ts, i);
  }

  lemma {:induction false} NumbersSkipOthers(ts: seq<Token>, i: nat)
    requires i < |ts| && !ts[i].NumberToken?
    ensures Read(Without(ts, i)).numbers == Read(ts).numbers
  {
    if i < |ts| - 1 {
      var front, last := ts[..|ts| - 1], ts[|ts| - 1];
      NumbersSkipOthers(front, i);
      assert Without(ts, i) == Without(front, i) + [last];
      ReadAppend(Without(front, i), last);
    } else {
      assert Without(ts, i) == ts[..|ts| - 1];
    }
  }

  /** A trade the words spell out in some other order differs from this one, or is refused there. */
  ghost predicate OrderMatters(ts: seq<Token>) {
    exists us :: multiset(us) == multiset(ts) && Parse(us) != Parse(ts)
  }

  lemma OtherSideLast(ts: seq<Token>, i: nat)
    requires Parse(ts).Some? && i < |ts| && ts[i].SideToken? && ts[i].side != Parse(ts).value.side
    ensures OrderMatters(ts)
  {
    var us := Without(ts, i) + [ts[i]];
    MovingIsPermuting(ts, i);
    LastWordWins(ts, i);
    assert Parse(us) != Parse(ts);
  }

  lemma OtherMarketLast(ts: seq<Token>, i: nat)
    requires Parse(ts).Some? && i < |ts| && ts[i].SymbolToken? && ts[i].market != Parse(ts).value.market
    ensures OrderMatters(ts)
  {
    var us := Without(ts, i) + [ts[i]];
    MovingIsPermuting(ts, i);
    LastWordWins(ts, i);
    assert Parse(us) != Parse(ts);
  }

  lemma OtherLeverageLast(ts: seq<Token>, i: nat)
    requires Parse(ts).Some? && i < |ts| && ts[i].LeverageToken? && ts[i].times != Parse(ts).value.leverage
    ensures OrderMatters(ts)
  {
    var us := Without(ts, i) + [ts[i]];
    MovingIsPermuting(ts, i);
    LastWordWins(ts, i);
    assert Parse(us) != Parse(ts);
  }

  lemma LeverageIsHeard(ts: seq<Token>, us: seq<Token>)
    requires multiset(ts) == multiset(us) && Read(ts).leverage.Some?
    ensures Read(us).leverage.Some?
  {
    ReadTells(ts);
    ReadTells(us);
    SameWords(ts, us);
  }

  lemma OtherNumberFirst(ts: seq<Token>, i: nat)
    requires Parse(ts).Some? && Read(ts).leverage.Some?
    requires i < |ts| && ts[i].NumberToken? && ts[i].value != Parse(ts).value.collateral
    ensures OrderMatters(ts)
  {
    var x, rest := ts[i].value, Without(ts, i);
    var us := [NumberToken(x)] + rest;
    assert multiset(us) == multiset(ts) by { MovingIsPermuting(ts, i); }
    hide Read, Without, Resolve;
    LeverageIsHeard(ts, us);
    ReadPrepend(x, rest);
    OtherAmountOtherTrade(Read(ts), Read(us));
    assert Parse(us) != Parse(ts);
    hide Parse;
    OtherOrder(ts, us);
  }

  lemma OtherOrder(ts: seq<Token>, us: seq<Token>)
    requires multiset(us) == multiset(ts) && Parse(us) != Parse(ts)
    ensures OrderMatters(ts)
  {
  }

  lemma OtherAmountOtherTrade(f: Fields, g: Fields)
    requires Resolve(f).Some? && f.leverage.Some? && g.leverage.Some?
    requires g.numbers != [] && g.numbers[0] != Resolve(f).value.collateral
    ensures Resolve(g) != Resolve(f)
  {
    hide Sort;
  }

  /** If two words disagree with each other, one of them disagrees with the trade that was understood. */
  lemma DisagreementShows(ts: seq<Token>)
    requires Parse(ts).Some? && !Agreeing(ts)
    ensures OrderMatters(ts)
  {
    ReadTells(ts);
    var m := Parse(ts).value;
    var f := Read(ts);
    if t :| t in ts && t.SideToken? && t.side != m.side {
      var i :| 0 <= i < |ts| && ts[i] == t;
      OtherSideLast(ts, i);
    } else if t :| t in ts && t.SymbolToken? && t.market != m.market {
      var i :| 0 <= i < |ts| && ts[i] == t;
      OtherMarketLast(ts, i);
    } else if t :| t in ts && t.LeverageToken? && t.times != m.leverage {
      var i :| 0 <= i < |ts| && ts[i] == t;
      assert f.leverage.Some?;
      OtherLeverageLast(ts, i);
    } else {
      var t :| f.leverage.Some? && t in ts && t.NumberToken? && t.value != m.collateral;
      var i :| 0 <= i < |ts| && ts[i] == t;
      OtherNumberFirst(ts, i);
    }
  }

  /**
   * Exactly when word order is free for words that spell out a trade: every order means that same trade if
   * and only if no two words of one kind disagree.
   */
  lemma OrderFreeExactlyWhenAgreeing(ts: seq<Token>)
    requires Parse(ts).Some?
    ensures !OrderMatters(ts) <==> Agreeing(ts)
  {
    if Agreeing(ts) {
      forall us | multiset(us) == multiset(ts) ensures Parse(us) == Parse(ts) { OrderFree(ts, us); }
    } else {
      DisagreementShows(ts);
    }
  }

  /** Some order of the words spells out a trade: a condition on which words there are, not on their order. */
  ghost predicate Spellable(ts: seq<Token>) {
    && (exists t :: t in ts && t.SideToken?)
    && (exists t :: t in ts && t.SymbolToken? && t.market != "")
    && if exists t :: t in ts && t.LeverageToken? then
         && (exists t :: t in ts && t.LeverageToken? && t.times > 0.0)
         && (exists t :: t in ts && t.NumberToken? && t.value > 0.0)
       else
         |Read(ts).numbers| >= 2 && forall t :: t in ts && t.NumberToken? ==> t.value > 0.0
  }

  lemma SpellableInAnyOrder(ts: seq<Token>, us: seq<Token>)
    requires multiset(ts) == multiset(us)
    ensures Spellable(ts) <==> Spellable(us)
  {
    SameWords(ts, us);
    SameNumbers(ts, us);
    hide Read, Sort;
  }

  lemma NumbersWereWritten(ts: seq<Token>, i: nat)
    requires i < |Read(ts).numbers|
    ensures NumberToken(Read(ts).numbers[i]) in ts
  {
    var x := Read(ts).numbers[i];
    NumbersAreThoseWritten(ts, x);
    assert x in multiset(Read(ts).numbers);
    assert NumberToken(x) in multiset(ts);
  }

  lemma WrittenNumberIsRead(ts: seq<Token>, x: real)
    requires NumberToken(x) in ts
    ensures x in Read(ts).numbers
  {
    NumbersAreThoseWritten(ts, x);
    assert NumberToken(x) in multiset(ts);
    assert x in multiset(Read(ts).numbers);
  }

  /** The least of the numbers is positive just when all of them are. */
  lemma LeastIsPositive(ts: seq<Token>)
    requires |Read(ts).numbers| >= 2
    ensures Sort(Read(ts).numbers)[0] > 0.0 <==> forall t :: t in ts && t.NumberToken? ==> t.value > 0.0
  {
    var numbers := Read(ts).numbers;
    var sorted := Sort(numbers);
    SortIsSorted(numbers);
    hide Read, Sort;
    if sorted[0] > 0.0 {
      forall t | t in ts && t.NumberToken? ensures t.value > 0.0 {
        WrittenNumberIsRead(ts, t.value);
        assert t.value in multiset(sorted);
        HeadIsLeast(sorted, t.value);
      }
    }
    assert sorted[0] in multiset(numbers);
    var i :| 0 <= i < |numbers| && numbers[i] == sorted[0];
    NumbersWereWritten(ts, i);
  }

  /** A parsed trade was spellable. */
  lemma ParsedIsSpellable(ts: seq<Token>)
    requires Parse(ts).Some?
    ensures Spellable(ts)
  {
    var f := Read(ts);
    ReadTells(ts);
    if f.leverage.Some? {
      FirstNumberWasWritten(ts);
    } else {
      LeastIsPositive(ts);
    }
    hide Read, Sort;
  }

  /** The other words when one is set aside. */
  lemma SetAside(ts: seq<Token>, t: Token) returns (rest: seq<Token>)
    requires t in ts
    ensures multiset(ts) == multiset(rest) + multiset{t}
    ensures forall u :: u in ts && u != t ==> u in rest
  {
    var i :| 0 <= i < |ts| && ts[i] == t;
    rest := Without(ts, i);
    assert ts == ts[..i] + [ts[i]] + ts[i + 1..];
    forall u | u in ts && u != t ensures u in rest {
      assert u in multiset(ts);
      assert u in multiset(rest);
    }
  }

  lemma ArrangedFields(rest: seq<Token>, symbol: Token, times: Token, number: Token)
    requires symbol.SymbolToken? && times.LeverageToken? && number.NumberToken?
    ensures var f := Read([number] + rest + [times] + [symbol]);
            && f.market == Some(symbol.market) && f.leverage == Some(times.times)
            && f.numbers != [] && f.numbers[0] == number.value
  {
    ReadPrepend(number.value, rest);
    ReadAppend([number] + rest, times);
    ReadAppend([number] + rest + [times], symbol);
    hide Read;
  }

  /** With the symbol and the leverage last and the amount first, spellable words with "Nx" parse. */
  lemma ArrangeWithLeverage(ts: seq<Token>, symbol: Token, times: Token, number: Token) returns (us: seq<Token>)
    requires symbol in ts && symbol.SymbolToken? && times in ts && times.LeverageToken?
    requires number in ts && number.NumberToken?
    ensures multiset(us) == multiset(ts)
    ensures var f := Read(us);
            && f.market == Some(symbol.market) && f.leverage == Some(times.times)
            && f.numbers != [] && f.numbers[0] == number.value
  {
    hide Read;
    var a := SetAside(ts, symbol);
    var b := SetAside(a, times);
    var c := SetAside(b, number);
    us := [number] + c + [times] + [symbol];
    assert multiset(us) == multiset{number} + multiset(c) + multiset{times} + multiset{symbol};
    ArrangedFields(c, symbol, times, number);
  }

  lemma ArrangeBare(ts: seq<Token>, symbol: Token) returns (us: seq<Token>)
    requires symbol in ts && symbol.SymbolToken?
    ensures multiset(us) == multiset(ts) && Read(us).market == Some(symbol.market)
  {
    var i :| 0 <= i < |ts| && ts[i] == symbol;
    us := Without(ts, i) + [symbol];
    MovingIsPermuting(ts, i);
    ReadAppend(Without(ts, i), symbol);
  }

  lemma SpellableCanBeArranged(ts: seq<Token>)
    requires Spellable(ts)
    ensures exists us :: multiset(us) == multiset(ts) && Parse(us).Some?
  {
    var symbol :| symbol in ts && symbol.SymbolToken? && symbol.market != "";
    if exists t :: t in ts && t.LeverageToken? {
      var times :| times in ts && times.LeverageToken? && times.times > 0.0;
      var number :| number in ts && number.NumberToken? && number.value > 0.0;
      var us := ArrangeWithLeverage(ts, symbol, times, number);
      SideStaysHeard(ts, us);
      hide Read, Spellable;
      assert Parse(us).Some?;
    } else {
      var us := ArrangeBare(ts, symbol);
      SideStaysHeard(ts, us);
      SpellableInAnyOrder(ts, us);
      SameWords(ts, us);
      ReadTells(us);
      LeastIsPositive(us);
      SortIsSorted(Read(us).numbers);
      hide Read, Sort;
      assert Parse(us).Some?;
    }
  }

  lemma SideStaysHeard(ts: seq<Token>, us: seq<Token>)
    requires multiset(ts) == multiset(us) && exists t :: t in ts && t.SideToken?
    ensures Read(us).side.Some?
  {
    SameWords(ts, us);
    ReadTells(us);
    hide Read;
  }

  /** Exactly when some order of the words is understood. */
  lemma SomeOrderParsesExactlyWhenSpellable(ts: seq<Token>)
    ensures (exists us :: multiset(us) == multiset(ts) && Parse(us).Some?) <==> Spellable(ts)
  {
    if us :| multiset(us) == multiset(ts) && Parse(us).Some? {
      ParsedIsSpellable(us);
      SpellableInAnyOrder(ts, us);
    }
    if Spellable(ts) { SpellableCanBeArranged(ts); }
  }

  /**
   * Exactly when word order is free, for all words: no two of a kind disagree, or no order of them is
   * understood at all.
   */
  lemma OrderFreeExactlyWhen(ts: seq<Token>)
    ensures !OrderMatters(ts) <==> Agreeing(ts) || !Spellable(ts)
  {
    hide Parse, Agreeing, Spellable;
    if Agreeing(ts) {
      forall us | multiset(us) == multiset(ts) ensures Parse(us) == Parse(ts) { OrderFree(ts, us); }
    } else if !Spellable(ts) {
      SomeOrderParsesExactlyWhenSpellable(ts);
    } else {
      SpellableCanBeArranged(ts);
      var us :| multiset(us) == multiset(ts) && Parse(us).Some?;
      AgreeingInAnyOrder(ts, us);
      DisagreementShows(us);
      var vs :| multiset(vs) == multiset(us) && Parse(vs) != Parse(us);
      assert Parse(us) != Parse(ts) || Parse(vs) != Parse(ts);
    }
  }

  lemma AgreeingInAnyOrder(ts: seq<Token>, us: seq<Token>)
    requires multiset(ts) == multiset(us)
    ensures Agreeing(ts) <==> Agreeing(us)
  {
    SameWords(ts, us);
  }

  // ---- Round trips ----

  /** A trade in words, followed by words the parser ignores. */
  function Spell(m: MagicOpen, noise: seq<string>): seq<Token> {
    [SideToken(m.side), SymbolToken(m.market), NumberToken(m.collateral), LeverageToken(m.leverage)]
    + seq(|noise|, i requires 0 <= i < |noise| => Ignored(noise[i]))
  }

  /** The same without "Nx": two bare numbers. */
  function SpellBare(m: MagicOpen, noise: seq<string>): seq<Token> {
    [SideToken(m.side), SymbolToken(m.market), NumberToken(m.collateral), NumberToken(m.leverage)]
    + seq(|noise|, i requires 0 <= i < |noise| => Ignored(noise[i]))
  }

  lemma {:induction false} NoiseChangesNothing(ts: seq<Token>, noise: seq<Token>)
    requires forall t :: t in noise ==> t.Ignored?
    ensures Read(ts + noise) == Read(ts)
  {
    if noise == [] {
      assert ts + noise == ts;
    } else {
      var front, last := noise[..|noise| - 1], noise[|noise| - 1];
      NoiseChangesNothing(ts, front);
      assert ts + noise == (ts + front) + [last];
      ReadAppend(ts + front, last);
      assert last in noise;
    }
  }

  lemma ReadFour(a: Token, b: Token, c: Token, d: Token)
    ensures Read([a, b, c, d]) == Note(Note(Note(Note(Fields(None, None, None, []), a), b), c), d)
  {
    hide Note;
    ReadAppend([], a);
    assert [] + [a] == [a];
    ReadAppend([a], b);
    assert [a] + [b] == [a, b];
    ReadAppend([a, b], c);
    assert [a, b] + [c] == [a, b, c];
    ReadAppend([a, b, c], d);
    assert [a, b, c] + [d] == [a, b, c, d];
  }

  lemma SpellReads(m: MagicOpen, noise: seq<string>)
    ensures Read(Spell(m, noise)) == Fields(Some(m.side), Some(m.leverage), Some(m.market), [m.collateral])
  {
    var ts := Spell(m, noise);
    ReadFour(SideToken(m.side), SymbolToken(m.market), NumberToken(m.collateral), LeverageToken(m.leverage));
    NoiseChangesNothing(ts[..4], ts[4..]);
    assert ts == ts[..4] + ts[4..];
  }

  lemma SpellBareReads(m: MagicOpen, noise: seq<string>)
    ensures Read(SpellBare(m, noise)) == Fields(Some(m.side), None, Some(m.market), [m.collateral, m.leverage])
  {
    var ts := SpellBare(m, noise);
    ReadFour(SideToken(m.side), SymbolToken(m.market), NumberToken(m.collateral), NumberToken(m.leverage));
    NoiseChangesNothing(ts[..4], ts[4..]);
    assert ts == ts[..4] + ts[4..];
    assert [] + [m.collateral] + [m.leverage] == [m.collateral, m.leverage];
  }

  lemma WordsAgree(m: MagicOpen, noise: seq<string>)
    ensures Agreeing(Spell(m, noise))
  {
  }

  /** A trade written in any order among any ignored words is parsed back to that trade. */
  lemma RoundTrip(m: MagicOpen, noise: seq<string>, words: seq<Token>)
    requires m.market != "" && m.collateral > 0.0 && m.leverage > 0.0
    requires multiset(words) == multiset(Spell(m, noise))
    ensures Parse(words) == Some(m)
  {
    WordsAgree(m, noise);
    SpellReads(m, noise);
    hide Spell, Read, Agreeing, Sort;
    OrderFree(Spell(m, noise), words);
  }

  lemma BareWordsAgree(m: MagicOpen, noise: seq<string>)
    ensures Agreeing(SpellBare(m, noise))
  {
  }

  lemma SortTwo(x: real, y: real)
    ensures Sort([x, y]) == if x <= y then [x, y] else [y, x]
  {
    assert [x, y][1..] == [y] && [y][1..] == [];
    assert Sort([y]) == [y] by { assert Insert(y, []) == [y]; }
    assert Sort([x, y]) == Insert(x, [y]);
    assert Insert(x, []) == [x];
    assert x > y ==> Insert(x, [y]) == [y] + Insert(x, []) == [y, x];
  }

  /**
   * With two bare numbers the smaller is read as the leverage, in every order: the trade survives exactly
   * when its leverage is at most its collateral.
   */
  lemma BareNumbersRoundTrip(m: MagicOpen, noise: seq<string>, words: seq<Token>)
    requires m.market != "" && m.collateral > 0.0 && m.leverage > 0.0
    requires multiset(words) == multiset(SpellBare(m, noise))
    ensures Parse(words) == Some(if m.leverage <= m.collateral then m
                                 else MagicOpen(m.market, m.side, m.leverage, m.collateral))
    ensures Parse(words) == Some(m) <==> m.leverage <= m.collateral
  {
    BareWordsAgree(m, noise);
    SpellBareReads(m, noise);
    SortTwo(m.collateral, m.leverage);
    hide SpellBare, Read, Agreeing, Sort;
    OrderFree(SpellBare(m, noise), words);
  }

  // ---- From words to a trade ----

  lemma {:induction false} PointIsPast(s: string)
    ensures forall k :: 0 <= k < Point(s) ==> s[k] != '.'
    ensures Point(s) < |s| ==> s[Point(s)] == '.'
  {
    if s != "" && s[0] != '.' { PointIsPast(s[1..]); }
  }

  /** A word that spells a number begins and ends with a digit. */
  lemma DecimalEnds(s: string)
    requires Decimal(s).Some?
    ensures s != "" && '0' <= s[0] <= '9' && '0' <= s[|s| - 1] <= '9'
  {
    var i := Point(s);
    if i < |s| {
      assert s[..i][0] == s[0] && s[i + 1..][|s| - i - 2] == s[|s| - 1];
    }
  }

  /** Which words name a side, and which side. */
  lemma SideWords(w: string, symbols: set<string>, aliases: map<string, string>)
    ensures Classify(w, symbols, aliases) == SideToken(Long) <==> w == "long" || w == "buy"
    ensures Classify(w, symbols, aliases) == SideToken(Short) <==> w == "short" || w == "sell"
  {
    hide Times, Decimal, Upper;
  }

  /** Digits, perhaps with one point that has digits on either side. */
  predicate LooksLikeNumber(w: string) {
    IsDigits(w) || exists i :: 0 <= i < |w| && w[i] == '.' && IsDigits(w[..i]) && IsDigits(w[i + 1..])
  }

  lemma DecimalExactly(w: string)
    ensures Decimal(w).Some? <==> LooksLikeNumber(w)
  {
    PointIsPast(w);
    if IsDigits(w) { DigitsHaveNoPoint(w); }
    if i :| 0 <= i < |w| && w[i] == '.' && IsDigits(w[..i]) && IsDigits(w[i + 1..]) {
      OnlyPoint(w, i);
    }
  }

  lemma OnlyPoint(w: string, i: nat)
    requires i < |w| && w[i] == '.' && IsDigits(w[..i])
    ensures Point(w) == i
  {
    PointIsPast(w);
    assert forall k :: 0 <= k < i ==> w[k] == w[..i][k];
  }

  lemma SidesAreNoNumbers(w: string)
    requires SideOf(w).Some?
    ensures Decimal(w).None? && Times(w).None?
  {
    if Decimal(w).Some? { DecimalEnds(w); }
    hide Decimal;
  }

  /** Which words are read as a bare number, and which as a leverage: a number, and a number followed by "x". */
  lemma NumberWords(w: string, symbols: set<string>, aliases: map<string, string>)
    ensures Classify(w, symbols, aliases).NumberToken? <==> LooksLikeNumber(w)
    ensures Classify(w, symbols, aliases).LeverageToken? <==>
              w != "" && w[|w| - 1] == 'x' && LooksLikeNumber(w[..|w| - 1])
  {
    DecimalExactly(w);
    if SideOf(w).Some? { SidesAreNoNumbers(w); }
    if Decimal(w).Some? { DecimalEnds(w); }
    if w != "" { DecimalExactly(w[..|w| - 1]); }
    hide Decimal, LooksLikeNumber, Upper, SideOf, IsDigits;
  }

  /** Any other word is a symbol of the pool in either case, else an alias, else ignored. */
  lemma OtherWords(w: string, symbols: set<string>, aliases: map<string, string>)
    requires w !in {"long", "buy", "short", "sell"} && !LooksLikeNumber(w)
    requires !(w != "" && w[|w| - 1] == 'x' && LooksLikeNumber(w[..|w| - 1]))
    ensures Classify(w, symbols, aliases) ==
            if Upper(w) in symbols then SymbolToken(Upper(w))
            else if w in aliases && aliases[w] != "" then SymbolToken(aliases[w])
            else Ignored(w)
  {
    NumberWords(w, symbols, aliases);
    hide Decimal, Times, LooksLikeNumber;
  }

  /** A symbol of the pool is recognised in lower case, unless the word also names a side or a number. */
  lemma SymbolIsRecognised(symbol: string, symbols: set<string>, aliases: map<string, string>)
    requires symbol in symbols && Upper(symbol) == symbol && symbol != ""
    requires Lower(symbol) !in {"long", "buy", "short", "sell"} && !('0' <= symbol[0] <= '9')
    ensures Classify(Lower(symbol), symbols, aliases) == SymbolToken(symbol)
  {
    var w := Lower(symbol);
    CasesAgree(symbol);
    if Decimal(w).Some? { DecimalEnds(w); }
    if Decimal(w[..|w| - 1]).Some? { DecimalEnds(w[..|w| - 1]); }
    hide Decimal;
  }

  lemma NumberIsClassified(s: string, symbols: set<string>, aliases: map<string, string>)
    requires Decimal(s).Some?
    ensures Classify(s, symbols, aliases) == NumberToken(Decimal(s).value)
    ensures Classify(s + "x", symbols, aliases) == LeverageToken(Decimal(s).value)
  {
    DecimalEnds(s);
    hide Decimal, Upper;
    assert (s + "x")[..|s|] == s && (s + "x")[0] == s[0];
  }

  lemma {:induction false} ClassifyPermutes(ws: seq<string>, vs: seq<string>, symbols: set<string>,
                                            aliases: map<string, string>)
    requires multiset(ws) == multiset(vs)
    ensures multiset(ClassifyAll(ws, symbols, aliases)) == multiset(ClassifyAll(vs, symbols, aliases))
    decreases |ws|
  {
    hide Classify;
    if ws == [] {
      assert |vs| == |multiset(vs)| == 0;
    } else {
      var n := |ws| - 1;
      assert ws[n] in multiset(vs);
      var i :| 0 <= i < |vs| && vs[i] == ws[n];
      var rest := vs[..i] + vs[i + 1..];
      WordsWithout(ws, n);
      WordsWithout(vs, i);
      assert ws[..n] + ws[n + 1..] == ws[..n];
      ClassifyPermutes(ws[..n], rest, symbols, aliases);
      ClassifiedWithout(ws, n, symbols, aliases);
      ClassifiedWithout(vs, i, symbols, aliases);
    }
  }

  lemma WordsWithout(ws: seq<string>, i: nat)
    requires i < |ws|
    ensures multiset(ws[..i] + ws[i + 1..]) == multiset(ws) - multiset{ws[i]}
  {
    assert ws == ws[..i] + [ws[i]] + ws[i + 1..];
  }

  lemma ClassifiedWithout(ws: seq<string>, i: nat, symbols: set<string>, aliases: map<string, string>)
    requires i < |ws|
    ensures multiset(ClassifyAll(ws, symbols, aliases))
         == multiset(ClassifyAll(ws[..i] + ws[i + 1..], symbols, aliases)) + multiset{Classify(ws[i], symbols, aliases)}
  {
    hide Classify;
    var ts := ClassifyAll(ws, symbols, aliases);
    var rest := ClassifyAll(ws[..i] + ws[i + 1..], symbols, aliases);
    assert rest == ts[..i] + ts[i + 1..];
    hide ClassifyAll;
    assert ts == ts[..i] + [ts[i]] + ts[i + 1..];
  }

  /**
   * Words that name a side, a symbol, an amount and, with an "x", a leverage, in any order among words the
   * parser ignores, are parsed to exactly the trade they name.
   */
  lemma WordsRoundTrip(m: MagicOpen, side: string, symbol: string, amount: string, times: string,
                       noise: seq<string>, words: seq<string>, symbols: set<string>, aliases: map<string, string>)
    requires m.market != "" && m.collateral > 0.0 && m.leverage > 0.0
    requires if m.side == Long then side == "long" || side == "buy" else side == "short" || side == "sell"
    requires Classify(symbol, symbols, aliases) == SymbolToken(m.market)
    requires Decimal(amount) == Some(m.collateral) && Decimal(times) == Some(m.leverage)
    requires forall i :: 0 <= i < |noise| ==> Classify(noise[i], symbols, aliases) == Ignored(noise[i])
    requires multiset(words) == multiset([side, symbol, amount, times + "x"] + noise)
    ensures Parse(ClassifyAll(words, symbols, aliases)) == Some(m)
  {
    var spelled := [side, symbol, amount, times + "x"] + noise;
    SideWords(side, symbols, aliases);
    NumberIsClassified(amount, symbols, aliases);
    NumberIsClassified(times, symbols, aliases);
    ClassifyPermutes(words, spelled, symbols, aliases);
    hide Classify, Parse, SideOf, Decimal;
    SpelledIsClassified(m, side, symbol, amount, times + "x", noise, symbols, aliases);
    hide ClassifyAll, Spell;
    RoundTrip(m, noise, ClassifyAll(words, symbols, aliases));
  }

  lemma SpelledIsClassified(m: MagicOpen, side: string, symbol: string, amount: string, times: string,
                            noise: seq<string>, symbols: set<string>, aliases: map<string, string>)
    requires Classify(side, symbols, aliases) == SideToken(m.side)
    requires Classify(symbol, symbols, aliases) == SymbolToken(m.market)
    requires Classify(amount, symbols, aliases) == NumberToken(m.collateral)
    requires Classify(times, symbols, aliases) == LeverageToken(m.leverage)
    requires forall i :: 0 <= i < |noise| ==> Classify(noise[i], symbols, aliases) == Ignored(noise[i])
    ensures ClassifyAll([side, symbol, amount, times] + noise, symbols, aliases) == Spell(m, noise)
  {
    hide Classify;
    var ws := [side, symbol, amount, times] + noise;
    var ts := ClassifyAll(ws, symbols, aliases);
    var us := Spell(m, noise);
    forall i | 0 <= i < |ws| ensures ts[i] == us[i] {
      if i >= 4 { assert ws[i] == noise[i - 4]; }
    }
  }

  /** The usual way to write a whole number. */
  function Numeral(n: nat): (s: string)
    ensures s != ""
  {
    var digit := (n % 10 + '0' as int) as char;
    if n < 10 then [digit] else Numeral(n / 10) + [digit]
  }

  /** A whole number written the usual way is read as that number. */
  lemma {:induction false} NumeralIsRead(n: nat)
    ensures IsDigits(Numeral(n)) && NatOf(Numeral(n)) == n && Decimal(Numeral(n)) == Some(n as real)
  {
    var s := Numeral(n);
    if n < 10 {
      assert NatOf(s) == n by { assert s[..0] == "" && NatOf(s[..0]) == 0; }
    } else {
      NumeralIsRead(n / 10);
      assert s[..|s| - 1] == Numeral(n / 10);
    }
    DigitsHaveNoPoint(s);
  }

  lemma DigitsHaveNoPoint(s: string)
    requires IsDigits(s)
    ensures Point(s) == |s|
  {
    PointIsPast(s);
  }

  // ---- Numbers with a point ----

  lemma DigitsAppend(a: string, c: char)
    requires forall i :: 0 <= i < |a| ==> '0' <= a[i] <= '9'
    requires '0' <= c <= '9'
    ensures NatOf(a + [c]) == 10 * NatOf(a) + (c as int - '0' as int)
  {
    assert (a + [c])[..|a|] == a;
  }

  /** A number with further digits behind it, p being the power of ten of how many. */
  function Joined(n: nat, p: nat, low: nat): nat { n * p + low }

  lemma CarryTen(n: nat, p: nat, low: nat, digit: nat)
    ensures 10 * Joined(n, p, low) + digit == Joined(n, 10 * p, 10 * low + digit)
  {
  }

  /** Reading digits in two parts: the first counts by the power of ten that the second has digits. */
  lemma {:induction false} DigitsConcat(a: string, b: string)
    requires IsDigits(a) && IsDigits(b)
    ensures IsDigits(a + b) && NatOf(a + b) == Joined(NatOf(a), PowerOfTen(|b|), NatOf(b))
    decreases |b|
  {
    hide Joined;
    if |b| == 1 {
      OneDigit(a, b[0]);
      assert b == [b[0]];
    } else {
      var front, c := b[..|b| - 1], b[|b| - 1];
      DigitsConcat(a, front);
      OneMoreDigit(a, front, c);
      assert b == front + [c];
    }
  }

  lemma {:induction false} OneDigit(a: string, c: char)
    requires IsDigits(a) && '0' <= c <= '9'
    ensures IsDigits(a + [c]) && NatOf(a + [c]) == Joined(NatOf(a), PowerOfTen(1), NatOf([c]))
  {
    DigitsAppend(a, c);
    DigitsAppend("", c);
    assert "" + [c] == [c] && NatOf("") == 0 && PowerOfTen(1) == 10 * PowerOfTen(0) == 10;
  }

  lemma {:induction false} OneMoreDigit(a: string, front: string, c: char)
    requires IsDigits(a) && IsDigits(front) && '0' <= c <= '9' && IsDigits(a + front)
    requires NatOf(a + front) == Joined(NatOf(a), PowerOfTen(|front|), NatOf(front))
    ensures IsDigits(a + (front + [c]))
    ensures NatOf(a + (front + [c])) == Joined(NatOf(a), PowerOfTen(|front + [c]|), NatOf(front + [c]))
  {
    DigitsAppend(front, c);
    DigitsAppend(a + front, c);
    assert a + (front + [c]) == (a + front) + [c];
    assert PowerOfTen(|front + [c]|) == 10 * PowerOfTen(|front|);
    hide NatOf, PowerOfTen, Joined;
    CarryTen(NatOf(a), PowerOfTen(|front|), NatOf(front), c as int - '0' as int);
  }

  lemma {:induction false} PointedDecimal(a: string, b: string)
    requires IsDigits(a) && IsDigits(b)
    ensures Decimal(a + "." + b) == Some(NatOf(a) as real + Fraction(NatOf(b), |b|))
  {
    var s := a + "." + b;
    assert s[..|a|] == a && s[|a|] == '.' && s[|a| + 1..] == b;
    OnlyPoint(s, |a|);
    hide Point, NatOf, Fraction;
  }

  /** x is the whole number n over p. */
  predicate Over(x: real, p: nat, n: nat) { x * p as real == n as real }

  lemma ScaledFraction(x: nat, y: nat, digits: nat, p: nat)
    requires p == PowerOfTen(digits)
    ensures Over(x as real + Fraction(y, digits), p, Joined(x, p, y))
  {
    DivTimes(y as real, p as real);
    assert (x * p) as real == x as real * p as real;
  }

  /** The value of a number with a point: all its digits, over the power of ten of those behind the point. */
  lemma {:induction false} PointDivides(a: string, b: string)
    requires IsDigits(a) && IsDigits(b)
    ensures Decimal(a + "." + b).Some? && IsDigits(a + b)
    ensures Over(Decimal(a + "." + b).value, PowerOfTen(|b|), NatOf(a + b))
  {
    PointedDecimal(a, b);
    DigitsConcat(a, b);
    ScaledFraction(NatOf(a), NatOf(b), |b|, PowerOfTen(|b|));
    hide NatOf, PowerOfTen, Decimal, Fraction, Over, Joined;
  }

  lemma {:induction false} PointBeforeLast(a: string, c: char)
    requires IsDigits(a) && '0' <= c <= '9'
    ensures var before, after := Decimal(a + "." + [c]), Decimal(a + [c]);
            before.Some? && after.Some? && after.value == 10.0 * before.value
  {
    PointDivides(a, [c]);
    WholeDecimal(a + [c]);
    assert PowerOfTen(1) == 10 * PowerOfTen(0);
    hide NatOf, PowerOfTen, Over, Decimal;
    TenTimes(Decimal(a + "." + [c]).value, Decimal(a + [c]).value, 1, NatOf(a + [c]));
  }

  lemma {:induction false} PointInside(a: string, c: char, b: string)
    requires IsDigits(a) && '0' <= c <= '9' && IsDigits(b)
    ensures var before, after := Decimal(a + "." + ([c] + b)), Decimal((a + [c]) + "." + b);
            before.Some? && after.Some? && after.value == 10.0 * before.value
  {
    assert (a + [c]) + b == a + ([c] + b);
    assert IsDigits([c] + b) && IsDigits(a + [c]);
    PointDivides(a, [c] + b);
    PointDivides(a + [c], b);
    assert PowerOfTen(|[c] + b|) == 10 * PowerOfTen(|b|);
    hide NatOf, PowerOfTen, Over, Decimal, IsDigits;
    TenTimes(Decimal(a + "." + ([c] + b)).value, Decimal((a + [c]) + "." + b).value, PowerOfTen(|b|),
             NatOf(a + [c] + b));
  }

  /** Moving the point one digit to the right multiplies the number by ten, until there is no point left. */
  lemma {:induction false} MovingThePoint(a: string, c: char, b: string)
    requires IsDigits(a) && '0' <= c <= '9' && (b == "" || IsDigits(b))
    ensures var before := Decimal(a + "." + ([c] + b));
            var after := if b == "" then Decimal(a + [c]) else Decimal((a + [c]) + "." + b);
            before.Some? && after.Some? && after.value == 10.0 * before.value
  {
    hide Decimal;
    if b == "" {
      assert [c] + b == [c];
      PointBeforeLast(a, c);
    } else {
      PointInside(a, c, b);
    }
  }

  lemma WholeDecimal(s: string)
    requires IsDigits(s)
    ensures Decimal(s).Some? && PowerOfTen(0) == 1 && Over(Decimal(s).value, 1, NatOf(s))
  {
    DigitsHaveNoPoint(s);
  }

  lemma TenTimes(x: real, y: real, p: nat, n: nat)
    requires p > 0 && Over(x, 10 * p, n) && Over(y, p, n)
    ensures y == 10.0 * x
  {
    var q := p as real;
    assert (10 * p) as real == 10.0 * q;
    assert (10.0 * x) * q == y * q;
    MulCancel(10.0 * x, y, q);
    MulCancel(y, 10.0 * x, q);
  }
}
