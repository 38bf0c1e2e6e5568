/**
 * The callers of the bounded distances: side correction and market correction in the interpreter, and
 * the "did you mean" filter of the completer. Each is proved to test the true distance.
 */
module FuzzyMatch {
  import opened Wrappers
  import opened EditDistance
  import opened BoundedDistance

  // ---- Sides ----

  /** How many characters of b lie outside a set. */
  function Foreign(b: string, known: set<char>): nat {
    if b == "" then 0 else Foreign(Init(b), known) + if Last(b) in known then 0 else 1
  }

  /** Every character of b that a does not have costs an edit. */
  lemma {:induction false} ForeignCharactersCost(a: string, b: string, known: set<char>)
    requires forall i :: 0 <= i < |a| ==> a[i] in known
    ensures Distance(a, b) >= Foreign(b, known)
    decreases |a| + |b|
  {
    if b == "" {
    } else if a == "" {
      ForeignCharactersCost(a, Init(b), known);
    } else {
      ForeignCharactersCost(Init(a), b, known);
      ForeignCharactersCost(a, Init(b), known);
      ForeignCharactersCost(Init(a), Init(b), known);
      assert Last(a) in known;
    }
  }

  lemma {:induction false} ForeignAppend(b: string, x: char, known: set<char>)
    ensures Foreign(b + [x], known) == Foreign(b, known) + if x in known then 0 else 1
  {
    assert Init(b + [x]) == b;
  }

  lemma {:induction false} ForeignFive(p: char, q: char, r: char, s: char, t: char, known: set<char>)
    requires p !in known && q !in known && s !in known && t !in known
    ensures Foreign([p, q, r, s, t], known) >= 4
  {
    ForeignAppend([], p, known);
    ForeignAppend([p], q, known);
    ForeignAppend([p, q], r, known);
    ForeignAppend([p, q, r], s, known);
    ForeignAppend([p, q, r, s], t, known);
    hide Foreign;
    assert [] + [p] == [p] && [p] + [q] == [p, q] && [p, q] + [r] == [p, q, r] && [p, q, r] + [s] == [p, q, r, s]
        && [p, q, r, s] + [t] == [p, q, r, s, t];
  }

  lemma {:induction false} LongIsFarFromShort()
    ensures Distance("long", "short") >= 4
  {
    hide Distance, Foreign;
    var known := {'l', 'o', 'n', 'g'};
    ForeignFive('s', 'h', 'o', 'r', 't', known);
    ForeignCharactersCost("long", "short", known);
  }

  /** No token is within distance 1 of both sides. */
  lemma NoTokenIsNearBoth(token: string)
    ensures !(Distance(token, "long") <= 1 && Distance(token, "short") <= 1)
  {
    LongIsFarFromShort();
    Symmetric(token, "long");
    Triangle("long", token, "short");
  }

  /** The answer does not depend on which side is tried first. */
  predicate SideAnswer(token: string, r: Option<string>) {
    && (r == Some("long") <==> Distance(token, "long") <= 1)
    && (r == Some("short") <==> Distance(token, "short") <= 1)
    && (r.Some? ==> r.value == "long" || r.value == "short")
  }

  /** Corrects a side keyword, trying the sides in the given order. */
  method FuzzySide(token: string, sides: seq<string>) returns (r: Option<string>)
    requires sides == ["long", "short"] || sides == ["short", "long"]
    ensures SideAnswer(token, r)
  {
    NoTokenIsNearBoth(token);
    DistanceZero(token, "long");
    DistanceZero(token, "short");
    hide Distance;
    if token == "long" || token == "short" { return Some(token); }
    for i := 0 to |sides|
      invariant forall j :: 0 <= j < i ==> Distance(token, sides[j]) > 1
    {
      var d := MatrixDistance(token, sides[i]);
      MatrixThresholds(token, sides[i], d, 1);
      if d <= 1 { return Some(sides[i]); }
    }
    assert Distance(token, sides[0]) > 1 && Distance(token, sides[1]) > 1;
    return None;
  }

  // ---- Markets ----

  /** A market or alias: what the token is compared with, and the symbol it stands for. */
  datatype Name = Name(text: string, symbol: string)

  /** Near enough: within `short` edits for symbols of up to three letters, `long` for others. */
  predicate IsNear(token: string, name: Name, short: nat, long: nat) {
    Distance(token, name.text) <= if |name.symbol| <= 3 then short else long
  }

  /** The answer is the symbol of the first name near enough, or none if no name is. */
  predicate FirstNear(token: string, names: seq<Name>, short: nat, long: nat, r: Option<string>) {
    match r
    case None => forall i :: 0 <= i < |names| ==> !IsNear(token, names[i], short, long)
    case Some(symbol) =>
      exists i :: 0 <= i < |names| && IsNear(token, names[i], short, long) && names[i].symbol == symbol
                  && forall j :: 0 <= j < i ==> !IsNear(token, names[j], short, long)
  }

  method FindNear(token: string, names: seq<Name>, short: nat, long: nat) returns (r: Option<string>)
    requires short <= 3 && long <= 3
    ensures FirstNear(token, names, short, long, r)
  {
    hide Distance;
    for i := 0 to |names|
      invariant forall j :: 0 <= j < i ==> !IsNear(token, names[j], short, long)
    {
      var d := MatrixDistance(token, names[i].text);
      var maxDist := if |names[i].symbol| <= 3 then short else long;
      MatrixThresholds(token, names[i].text, d, maxDist);
      if d <= maxDist { return Some(names[i].symbol); }
    }
    return None;
  }

  /**
   * Corrects a market name: the direct resolution if it is a known market, else the first market within
   * distance 1 (symbols up to three letters) or 2, else the first alias within distance 1.
   */
  method FuzzyMarket(token: string, direct: string, markets: seq<Name>, aliases: seq<Name>) returns (r: Option<string>)
    ensures if exists i :: 0 <= i < |markets| && markets[i].symbol == direct then r == Some(direct)
            else if exists i :: 0 <= i < |markets| && IsNear(token, markets[i], 1, 2) then
              FirstNear(token, markets, 1, 2, r)
            else FirstNear(token, aliases, 1, 1, r)
  {
    for i := 0 to |markets|
      invariant forall j :: 0 <= j < i ==> markets[j].symbol != direct
    {
      if markets[i].symbol == direct { return Some(direct); }
    }
    hide IsNear;
    r := FindNear(token, markets, 1, 2);
    if r.None? { r := FindNear(token, aliases, 1, 1); }
  }

  // ---- Did you mean ----

  function Near(input: string, commands: seq<string>, limit: nat): seq<string> {
    if commands == [] then []
    else
      var n := |commands| - 1;
      Near(input, commands[..n], limit) + if Distance(input, commands[n]) <= limit then [commands[n]] else []
  }

  /** The answers are the commands within the limit, each as often as it is listed. */
  lemma {:induction false} NearKeepsExactly(input: string, commands: seq<string>, limit: nat, c: string)
    ensures multiset(Near(input, commands, limit))[c]
         == if Distance(input, c) <= limit then multiset(commands)[c] else 0
  {
    hide Distance;
    if commands != [] {
      var n := |commands| - 1;
      assert commands == commands[..n] + [commands[n]];
      NearKeepsExactly(input, commands[..n], limit, c);
    }
  }

  /** And they come in the order of the list. */
  lemma {:induction false} NearKeepsOrder(input: string, commands: seq<string>, more: seq<string>, limit: nat)
    ensures Near(input, commands + more, limit) == Near(input, commands, limit) + Near(input, more, limit)
    decreases |more|
  {
    hide Distance;
    if more == [] {
      assert commands + more == commands;
    } else {
      var n := |more| - 1;
      assert (commands + more)[..|commands| + n] == commands + more[..n];
      NearKeepsOrder(input, commands, more[..n], limit);
    }
  }

  /** The commands within distance 2 of the input; the length test in front of it drops none of them. */
  method CloseCommands(input: string, commands: seq<string>) returns (close: seq<string>)
    ensures close == Near(input, commands, 2)
    ensures forall c :: c in close <==> c in commands && Distance(input, c) <= 2
  {
    hide Distance;
    close := [];
    for i := 0 to |commands|
      invariant close == Near(input, commands[..i], 2)
    {
      var cmd := commands[i];
      LengthGap(input, cmd);
      assert commands[..i + 1][..i] == commands[..i];
      if Gap(cmd, input) <= 2 {
        var d := RowsDistance(input, cmd);
        RowsThresholds(input, cmd, d, 2);
        if d <= 2 { close := close + [cmd]; }
      }
    }
    assert commands[..|commands|] == commands;
    forall c ensures c in close <==> c in commands && Distance(input, c) <= 2 {
      NearKeepsExactly(input, commands, 2, c);
      assert c in close <==> multiset(close)[c] > 0;
      assert c in commands <==> multiset(commands)[c] > 0;
    }
  }
}
