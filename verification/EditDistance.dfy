/**
 * The edit distance both implementations compute: defined by recursion on the last characters, proved
 * to be a metric, and proved to be the least number of single-character edits that lead from one string
 * to the other.
 */
module EditDistance {

  function Min(x: nat, y: nat): nat { if x <= y then x else y }

  function Cost(x: char, y: char): nat { if x == y then 0 else 1 }

  function Init(s: string): string
    requires s != ""
  {
    s[..|s| - 1]
  }

  function Last(s: string): char
    requires s != ""
  {
    s[|s| - 1]
  }

  function Distance(a: string, b: string): nat
    decreases |a| + |b|
  {
    if a == "" then |b|
    else if b == "" then |a|
    else
      Min(Min(Distance(Init(a), b) + 1, Distance(a, Init(b)) + 1),
          Distance(Init(a), Init(b)) + Cost(Last(a), Last(b)))
  }

  // ---- A metric ----

  lemma {:induction false} DistanceZero(a: string, b: string)
    ensures Distance(a, b) == 0 <==> a == b
    decreases |a| + |b|
  {
    if a != "" && b != "" {
      DistanceZero(Init(a), Init(b));
      assert a == Init(a) + [Last(a)] && b == Init(b) + [Last(b)];
    }
  }

  lemma {:induction false} Symmetric(a: string, b: string)
    ensures Distance(a, b) == Distance(b, a)
    decreases |a| + |b|
  {
    if a != "" && b != "" {
      Symmetric(Init(a), b);
      Symmetric(a, Init(b));
      Symmetric(Init(a), Init(b));
    }
  }

  /** Dropping the last character of either string changes the distance by at most one. */
  lemma {:induction false} DropLast(a: string, b: string)
    requires b != ""
    ensures Distance(a, Init(b)) <= Distance(a, b) + 1 && Distance(a, b) <= Distance(a, Init(b)) + 1
    decreases |a| + |b|
  {
    if a != "" {
      DropLast(Init(a), b);
      if |b| > 1 { DropLast(a, Init(b)); }
    }
  }

  /** The distance is at least the difference in length. */
  lemma {:induction false} LengthGap(a: string, b: string)
    ensures |a| <= |b| + Distance(a, b) && |b| <= |a| + Distance(a, b)
    decreases |a| + |b|
  {
    if a != "" && b != "" {
      LengthGap(Init(a), b);
      LengthGap(a, Init(b));
      LengthGap(Init(a), Init(b));
    }
  }

  lemma {:induction false} Triangle(a: string, b: string, c: string)
    ensures Distance(a, c) <= Distance(a, b) + Distance(b, c)
    decreases |a| + |b| + |c|
  {
    if a == "" {
      LengthGap(b, c);
    } else if c == "" {
      LengthGap(a, b);
    } else if b != "" {
      Triangle(Init(a), b, c);
      Triangle(a, b, Init(c));
      Triangle(a, Init(b), c);
      Triangle(a, Init(b), Init(c));
      Triangle(Init(a), Init(b), c);
      Triangle(Init(a), Init(b), Init(c));
      DropLast(a, c);
    } else {
      Triangle(Init(a), b, c);
    }
  }

  // ---- Distance and length ----

  /** All of a, in order, among the characters of b. */
  predicate Subsequence(a: string, b: string)
    decreases |b|
  {
    a == "" || (b != "" && ((Last(a) == Last(b) && Subsequence(Init(a), Init(b))) || Subsequence(a, Init(b))))
  }

  lemma {:induction false} SubsequenceIsShorter(a: string, b: string)
    requires Subsequence(a, b)
    ensures |a| <= |b|
    decreases |b|
  {
    if a != "" {
      if Subsequence(a, Init(b)) { SubsequenceIsShorter(a, Init(b)); } else { SubsequenceIsShorter(Init(a), Init(b)); }
    }
  }

  /** A subsequence is as near as the lengths allow: insertions alone lead from it to the longer string. */
  lemma {:induction false} SubsequenceIsNear(a: string, b: string)
    requires Subsequence(a, b)
    ensures Distance(a, b) <= |b| - |a|
    decreases |b|
  {
    if a != "" {
      if Subsequence(a, Init(b)) { SubsequenceIsNear(a, Init(b)); } else { SubsequenceIsNear(Init(a), Init(b)); }
    }
  }

  lemma {:induction false} NearIsSubsequence(a: string, b: string)
    requires |a| <= |b| && Distance(a, b) == |b| - |a|
    ensures Subsequence(a, b)
    decreases |b|
  {
    if a != "" {
      LengthGap(Init(a), b);
      LengthGap(Init(a), Init(b));
      if Distance(a, b) == Distance(a, Init(b)) + 1 {
        NearIsSubsequence(a, Init(b));
      } else {
        NearIsSubsequence(Init(a), Init(b));
      }
    }
  }

  /** The distance is just the difference of the lengths exactly when the shorter string is a subsequence. */
  lemma GapIsDistanceExactly(a: string, b: string)
    requires |a| <= |b|
    ensures Distance(a, b) == |b| - |a| <==> Subsequence(a, b)
  {
    LengthGap(a, b);
    if Subsequence(a, b) { SubsequenceIsNear(a, b); }
    if Distance(a, b) == |b| - |a| { NearIsSubsequence(a, b); }
  }

  // ---- The least number of edits ----

  datatype Edit = Replace(at: nat, c: char) | Insert(at: nat, c: char) | Delete(at: nat)

  predicate Applies(e: Edit, s: string) {
    if e.Insert? then e.at <= |s| else e.at < |s|
  }

  function ApplyEdit(e: Edit, s: string): string
    requires Applies(e, s)
  {
    match e
    case Replace(at, c) => s[at := c]
    case Insert(at, c) => s[..at] + [c] + s[at..]
    case Delete(at) => s[..at] + s[at + 1..]
  }

  /** The edits, made one after the other, lead from a to b. */
  predicate Leads(a: string, es: seq<Edit>, b: string)
    decreases |es|
  {
    if es == [] then a == b else Applies(es[0], a) && Leads(ApplyEdit(es[0], a), es[1..], b)
  }

  /** Appending the same character on both sides does not increase the distance. */
  lemma AppendSame(a: string, b: string, x: char)
    ensures Distance(a + [x], b + [x]) <= Distance(a, b)
  {
    assert Init(a + [x]) == a && Init(b + [x]) == b;
  }

  lemma {:induction false} AppendAll(a: string, b: string, t: string)
    ensures Distance(a + t, b + t) <= Distance(a, b)
    decreases |t|
  {
    hide Distance;
    if t == "" {
      assert a + t == a && b + t == b;
    } else {
      var front, x := Init(t), Last(t);
      assert t == front + [x];
      AppendAll(a, b, front);
      AppendSame(a + front, b + front, x);
      assert a + t == (a + front) + [x];
      assert b + t == (b + front) + [x];
    }
  }

  lemma ReplaceIsNear(p: string, x: char, y: char)
    ensures Distance(p + [x], p + [y]) <= 1
  {
    DistanceZero(p, p);
    assert Init(p + [x]) == p && Init(p + [y]) == p;
  }

  lemma InsertIsNear(p: string, x: char)
    ensures Distance(p, p + [x]) <= 1 && Distance(p + [x], p) <= 1
  {
    hide Distance;
    DistanceZero(p, p);
    assert Init(p + [x]) == p;
    DropLast(p, p + [x]);
    Symmetric(p, p + [x]);
  }

  lemma OneEditIsNear(e: Edit, s: string)
    requires Applies(e, s)
    ensures Distance(s, ApplyEdit(e, s)) <= 1
  {
    hide Distance;
    var p := s[..e.at];
    match e
    case Replace(at, c) =>
      var t := s[at + 1..];
      assert s == p + [s[at]] + t;
      assert ApplyEdit(e, s) == p + [c] + t;
      ReplaceIsNear(p, s[at], c);
      AppendAll(p + [s[at]], p + [c], t);
    case Insert(at, c) =>
      var t := s[at..];
      assert s == p + t;
      InsertIsNear(p, c);
      AppendAll(p, p + [c], t);
    case Delete(at) =>
      var t := s[at + 1..];
      assert s == p + [s[at]] + t;
      InsertIsNear(p, s[at]);
      AppendAll(p + [s[at]], p, t);
  }

  /** No sequence of edits is shorter than the distance. */
  lemma {:induction false} NoShorterWay(a: string, es: seq<Edit>, b: string)
    requires Leads(a, es, b)
    ensures Distance(a, b) <= |es|
    decreases |es|
  {
    if es == [] {
      DistanceZero(a, b);
    } else {
      var m := ApplyEdit(es[0], a);
      OneEditIsNear(es[0], a);
      NoShorterWay(m, es[1..], b);
      Triangle(a, m, b);
    }
  }

  lemma {:induction false} LeadsConcat(a: string, es: seq<Edit>, b: string, fs: seq<Edit>, c: string)
    requires Leads(a, es, b) && Leads(b, fs, c)
    ensures Leads(a, es + fs, c)
    decreases |es|
  {
    hide Applies, ApplyEdit;
    if es == [] {
      assert es + fs == fs;
    } else {
      LeadsConcat(ApplyEdit(es[0], a), es[1..], b, fs, c);
      assert (es + fs)[1..] == es[1..] + fs;
    }
  }

  /** The same edits work in front of an untouched last character. */
  lemma {:induction false} LeadsBefore(a: string, es: seq<Edit>, b: string, x: char)
    requires Leads(a, es, b)
    ensures Leads(a + [x], es, b + [x])
    decreases |es|
  {
    if es != [] {
      assert ApplyEdit(es[0], a + [x]) == ApplyEdit(es[0], a) + [x];
      LeadsBefore(ApplyEdit(es[0], a), es[1..], b, x);
    }
  }

  lemma OneEdit(e: Edit, a: string, b: string)
    requires Applies(e, a) && ApplyEdit(e, a) == b
    ensures Leads(a, [e], b)
  {
    assert [e][1..] == [];
  }

  lemma DeleteFirst(a: string, es: seq<Edit>, b: string) returns (fs: seq<Edit>)
    requires a != "" && Leads(Init(a), es, b)
    ensures Leads(a, fs, b) && |fs| == |es| + 1
  {
    fs := [Delete(|a| - 1)] + es;
    OneEdit(Delete(|a| - 1), a, Init(a));
    LeadsConcat(a, [Delete(|a| - 1)], Init(a), es, b);
  }

  lemma InsertLast(a: string, es: seq<Edit>, b: string) returns (fs: seq<Edit>)
    requires b != "" && Leads(a, es, Init(b))
    ensures Leads(a, fs, b) && |fs| == |es| + 1
  {
    var e := Insert(|b| - 1, Last(b));
    fs := es + [e];
    OneEdit(e, Init(b), b);
    LeadsConcat(a, es, Init(b), [e], b);
  }

  lemma ReplaceLast(a: string, es: seq<Edit>, b: string) returns (fs: seq<Edit>)
    requires a != "" && b != "" && Leads(Init(a), es, Init(b))
    ensures Leads(a, fs, b) && |fs| == |es| + Cost(Last(a), Last(b))
  {
    hide Leads;
    var middle := Init(b) + [Last(a)];
    LeadsBefore(Init(a), es, Init(b), Last(a));
    assert a == Init(a) + [Last(a)];
    assert b == Init(b) + [Last(b)];
    if Last(a) == Last(b) {
      fs := es;
    } else {
      var e := Replace(|b| - 1, Last(b));
      fs := es + [e];
      assert ApplyEdit(e, middle) == b;
      OneEdit(e, middle, b);
      LeadsConcat(a, es, middle, [e], b);
    }
  }

  /** A way of exactly as many edits as the distance. */
  lemma {:induction false} ShortestWay(a: string, b: string) returns (es: seq<Edit>)
    ensures Leads(a, es, b) && |es| == Distance(a, b)
    decreases |a| + |b|
  {
    if a == "" && b == "" {
      es := [];
    } else if b == "" || (a != "" && Distance(a, b) == Distance(Init(a), b) + 1) {
      es := ShortestWay(Init(a), b);
      es := DeleteFirst(a, es, b);
    } else if a == "" || Distance(a, b) == Distance(a, Init(b)) + 1 {
      es := ShortestWay(a, Init(b));
      es := InsertLast(a, es, b);
    } else {
      es := ShortestWay(Init(a), Init(b));
      es := ReplaceLast(a, es, b);
    }
  }

  /** The distance is the least number of single-character edits from a to b. */
  lemma FewestEdits(a: string, b: string)
    ensures exists es :: Leads(a, es, b) && |es| == Distance(a, b)
    ensures forall es :: Leads(a, es, b) ==> Distance(a, b) <= |es|
  {
    var es := ShortestWay(a, b);
    forall fs | Leads(a, fs, b) ensures Distance(a, b) <= |fs| {
      NoShorterWay(a, fs, b);
    }
  }
}
