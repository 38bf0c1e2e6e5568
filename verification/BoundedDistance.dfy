/**
 * The two bounded implementations of the edit distance: the full matrix with a length-gap exit
 * (src/ai/interpreter.ts) and the two rolling rows with a row-minimum exit (src/cli/completer.ts).
 */
module BoundedDistance {
  import opened EditDistance

  const MAX_DIST := 3

  function Gap(a: string, b: string): nat { if |a| >= |b| then |a| - |b| else |b| - |a| }

  function Cap(d: nat): nat { Min(d, 4) }

  /** Entry (i, j) of the table: the distance between the first i and the first j characters. */
  function Entry(a: string, b: string, i: nat, j: nat): nat
    requires i <= |a| && j <= |b|
  {
    Distance(a[..i], b[..j])
  }

  lemma {:induction false} Unfold(x: string, y: string)
    requires x != "" && y != ""
    ensures Distance(x, y) == Min(Min(Distance(Init(x), y) + 1, Distance(x, Init(y)) + 1),
                                  Distance(Init(x), Init(y)) + Cost(Last(x), Last(y)))
  {
    hide Min, Cost, Init, Last;
  }

  /** One cell of the table from its three neighbours. */
  lemma {:induction false} Cell(a: string, b: string, i: nat, j: nat)
    requires 1 <= i <= |a| && 1 <= j <= |b|
    ensures Entry(a, b, i, j)
         == Min(Min(Entry(a, b, i - 1, j) + 1, Entry(a, b, i, j - 1) + 1),
                Entry(a, b, i - 1, j - 1) + Cost(a[i - 1], b[j - 1]))
  {
    hide Distance;
    Unfold(a[..i], b[..j]);
    assert Init(a[..i]) == a[..i - 1] && Init(b[..j]) == b[..j - 1];
  }

  lemma {:induction false} Borders(a: string, b: string)
    ensures forall i :: 0 <= i <= |a| ==> Entry(a, b, i, 0) == i
    ensures forall j :: 0 <= j <= |b| ==> Entry(a, b, 0, j) == j
    ensures Entry(a, b, |a|, |b|) == Distance(a, b)
  {
    assert a[..|a|] == a && b[..|b|] == b;
  }

  /** What the matrix version answers: the distance, unless both are non-empty and lengths differ by more than 3. */
  predicate MatrixAnswer(a: string, b: string, d: nat) {
    d == if a != "" && b != "" && Gap(a, b) > 3 then 4 else Distance(a, b)
  }

  /** What the two-row version answers: the distance, or 4 for some distances above 3. */
  predicate RowsAnswer(a: string, b: string, d: nat) {
    d == Distance(a, b) || (d == 4 && Distance(a, b) > 3)
  }

  /** Row i of the matrix from row i - 1. */
  method FillRow(a: string, b: string, matrix: array2<nat>, i: nat)
    requires matrix.Length0 == |a| + 1 && matrix.Length1 == |b| + 1 && 1 <= i <= |a| && matrix[i, 0] == i
    requires forall p, q :: 0 <= p < i && 0 <= q <= |b| ==> matrix[p, q] == Entry(a, b, p, q)
    modifies matrix
    ensures forall q :: 0 <= q <= |b| ==> matrix[i, q] == Entry(a, b, i, q)
    ensures forall p, q :: 0 <= p <= |a| && p != i && 0 <= q <= |b| ==> matrix[p, q] == old(matrix[p, q])
  {
    hide Distance, Entry, Cost, Min;
    Borders(a, b);
    for j := 1 to |b| + 1
      invariant forall q :: 0 <= q < j ==> matrix[i, q] == Entry(a, b, i, q)
      invariant forall p, q :: 0 <= p <= |a| && p != i && 0 <= q <= |b| ==> matrix[p, q] == old(matrix[p, q])
    {
      var cost := Cost(a[i - 1], b[j - 1]);
      Cell(a, b, i, j);
      matrix[i, j] := Min(Min(matrix[i - 1, j] + 1, matrix[i, j - 1] + 1), matrix[i - 1, j - 1] + cost);
    }
  }

  method MatrixDistance(a: string, b: string) returns (d: nat)
    ensures MatrixAnswer(a, b, d)
  {
    DistanceZero(a, b);
    if a == b { return 0; }
    if |a| == 0 { return |b|; }
    if |b| == 0 { return |a|; }
    if Gap(a, b) > MAX_DIST { return MAX_DIST + 1; }
    hide Distance, Entry, Cost, Min;
    Borders(a, b);
    var matrix := new nat[|a| + 1, |b| + 1];
    for i := 0 to |a| + 1
      invariant forall p :: 0 <= p < i ==> matrix[p, 0] == p
    {
      matrix[i, 0] := i;
    }
    for j := 0 to |b| + 1
      invariant forall p :: 0 <= p <= |a| ==> matrix[p, 0] == p
      invariant forall q :: 0 <= q < j ==> matrix[0, q] == q
    {
      matrix[0, j] := j;
    }
    for i := 1 to |a| + 1
      invariant forall p :: 0 <= p <= |a| ==> matrix[p, 0] == p
      invariant forall p, q :: 0 <= p < i && 0 <= q <= |b| ==> matrix[p, q] == Entry(a, b, p, q)
    {
      FillRow(a, b, matrix, i);
    }
    return matrix[|a|, |b|];
  }

  /** Row i of the table is nowhere below k. */
  predicate RowAtLeast(a: string, b: string, i: nat, k: nat)
    requires i <= |a|
  {
    forall j :: 0 <= j <= |b| ==> Entry(a, b, i, j) >= k
  }

  /** Row minima never decrease: the next row is nowhere below k either. */
  lemma {:induction false} NextRowAtLeast(a: string, b: string, i: nat, j: nat, k: nat)
    requires i < |a| && j <= |b| && RowAtLeast(a, b, i, k)
    ensures Entry(a, b, i + 1, j) >= k
    decreases j
  {
    hide Distance, Entry;
    if j == 0 {
      Borders(a, b);
      assert Entry(a, b, i, 0) >= k;
    } else {
      NextRowAtLeast(a, b, i, j - 1, k);
      Cell(a, b, i + 1, j);
      assert Entry(a, b, i, j) >= k && Entry(a, b, i, j - 1) >= k;
    }
  }

  lemma {:induction false} AllLaterRowsAtLeast(a: string, b: string, i: nat, k: nat)
    requires i <= |a| && RowAtLeast(a, b, i, k)
    ensures Distance(a, b) >= k
    decreases |a| - i
  {
    hide Entry;
    if i == |a| {
      Borders(a, b);
      assert Entry(a, b, i, |b|) >= k;
    } else {
      var next := i + 1;
      forall j | 0 <= j <= |b| ensures Entry(a, b, next, j) >= k {
        NextRowAtLeast(a, b, i, j, k);
      }
      AllLaterRowsAtLeast(a, b, next, k);
    }
  }

  /** Row i into curr from row i - 1 in prev, and its least entry. */
  method NextRow(a: string, b: string, prev: array<nat>, curr: array<nat>, i: nat) returns (rowMin: nat)
    requires prev != curr && prev.Length == curr.Length == |b| + 1 && 1 <= i <= |a|
    requires forall q :: 0 <= q <= |b| ==> prev[q] == Entry(a, b, i - 1, q)
    modifies curr
    ensures forall q :: 0 <= q <= |b| ==> curr[q] == Entry(a, b, i, q) && rowMin <= curr[q]
  {
    hide Distance, Entry, Cost, Min;
    Borders(a, b);
    curr[0] := i;
    rowMin := i;
    for j := 1 to |b| + 1
      invariant forall q :: 0 <= q < j ==> curr[q] == Entry(a, b, i, q) && rowMin <= curr[q]
    {
      var cost := Cost(a[i - 1], b[j - 1]);
      Cell(a, b, i, j);
      curr[j] := Min(Min(prev[j] + 1, curr[j - 1] + 1), prev[j - 1] + cost);
      if curr[j] < rowMin { rowMin := curr[j]; }
    }
  }

  method RowsDistance(a: string, b: string) returns (d: nat)
    ensures RowsAnswer(a, b, d)
  {
    DistanceZero(a, b);
    if a == b { return 0; }
    if |a| == 0 { return |b|; }
    if |b| == 0 { return |a|; }
    hide Distance, Entry, Cost, Min;
    Borders(a, b);
    var prev := new nat[|b| + 1];
    var curr := new nat[|b| + 1];
    for j := 0 to |b| + 1
      invariant forall q :: 0 <= q < j ==> prev[q] == Entry(a, b, 0, q)
    {
      prev[j] := j;
    }
    for i := 1 to |a| + 1
      invariant forall q :: 0 <= q <= |b| ==> prev[q] == Entry(a, b, i - 1, q)
    {
      var rowMin := NextRow(a, b, prev, curr, i);
      if rowMin > MAX_DIST {
        AllLaterRowsAtLeast(a, b, i, rowMin);
        return MAX_DIST + 1;
      }
      for j := 0 to |b| + 1
        invariant forall q :: 0 <= q <= |b| ==> curr[q] == Entry(a, b, i, q)
        invariant forall q :: 0 <= q < j ==> prev[q] == curr[q]
      {
        prev[j] := curr[j];
      }
    }
    return prev[|b|];
  }

  /** Capped at 4, each implementation gives the true distance, so the two agree; neither ever exceeds it. */
  lemma CappedAnswersAgree(a: string, b: string, m: nat, r: nat)
    requires MatrixAnswer(a, b, m) && RowsAnswer(a, b, r)
    ensures Cap(m) == Cap(Distance(a, b)) == Cap(r)
    ensures m <= Distance(a, b) && r <= Distance(a, b)
  {
    LengthGap(a, b);
  }

  /** For every threshold up to 3, testing the matrix answer is testing the true distance. */
  lemma MatrixThresholds(a: string, b: string, m: nat, threshold: nat)
    requires MatrixAnswer(a, b, m) && threshold <= 3
    ensures m <= threshold <==> Distance(a, b) <= threshold
  {
    LengthGap(a, b);
  }

  /** The same of the two-row answer. */
  lemma RowsThresholds(a: string, b: string, r: nat, threshold: nat)
    requires RowsAnswer(a, b, r) && threshold <= 3
    ensures r <= threshold <==> Distance(a, b) <= threshold
  {
  }

  /** So either answer may be tested against any threshold up to 3. */
  lemma ThresholdsAreExact(a: string, b: string, m: nat, r: nat, threshold: nat)
    requires MatrixAnswer(a, b, m) && RowsAnswer(a, b, r) && threshold <= 3
    ensures (m <= threshold <==> Distance(a, b) <= threshold) && (r <= threshold <==> Distance(a, b) <= threshold)
  {
    MatrixThresholds(a, b, m, threshold);
    RowsThresholds(a, b, r, threshold);
  }

  /** The shorter of two strings is a subsequence of the longer. */
  predicate Embeds(a: string, b: string) {
    if |a| <= |b| then Subsequence(a, b) else Subsequence(b, a)
  }

  /**
   * Exactly when the matrix version gives the distance itself: always but for the length exit, and there
   * just for lengths that differ by 4 where the shorter string is a subsequence of the longer.
   */
  lemma MatrixIsExactWhen(a: string, b: string, m: nat)
    requires MatrixAnswer(a, b, m)
    ensures m == Distance(a, b) <==>
            a == "" || b == "" || Gap(a, b) <= 3 || (Gap(a, b) == 4 && Embeds(a, b))
  {
    LengthGap(a, b);
    Symmetric(a, b);
    if |a| <= |b| { GapIsDistanceExactly(a, b); } else { GapIsDistanceExactly(b, a); }
    hide Distance, Subsequence;
  }

  /** One pair for which it does not: the answer is 4, the distance at least 5. */
  lemma UncappedAnswersDiffer()
    ensures MatrixAnswer("a", "bcdefg", 4) && Distance("a", "bcdefg") >= 5
  {
    LengthGap("a", "bcdefg");
  }
}
