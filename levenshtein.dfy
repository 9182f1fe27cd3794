/** The fuzzy title matcher of utils.js: Levenshtein edit distance, computed by a
    two-row dynamic programme, and the similarity normalised by the longer length. */
module Levenshtein {

  function Max(x: int, y: int): int {
    if x >= y then x else y
  }

  function Min3(x: int, y: int, z: int): int {
    if x <= y && x <= z then x else if y <= z then y else z
  }

  /** Substitution cost of two characters: 0 when equal, 1 otherwise. */
  function Cost(x: char, y: char): nat {
    if x == y then 0 else 1
  }

  /** The edit distance between the first `i` characters of `a` and the first `j`
      characters of `b`, by the recurrence the dynamic programme tabulates: delete the
      last character of the `a` prefix, insert the last character of the `b` prefix,
      or substitute one last character for the other. */
  function PrefixDist(a: string, b: string, i: nat, j: nat): nat
    requires i <= |a| && j <= |b|
  {
    if i == 0 then j
    else if j == 0 then i
    else Min3(PrefixDist(a, b, i - 1, j) + 1, PrefixDist(a, b, i, j - 1) + 1,
              PrefixDist(a, b, i - 1, j - 1) + Cost(a[i - 1], b[j - 1]))
  }

  /** The edit distance of two whole strings. */
  function Dist(a: string, b: string): nat {
    PrefixDist(a, b, |a|, |b|)
  }

  /** One cell of the table from its three neighbours. */
  lemma CellStep(a: string, b: string, i: nat, j: nat, up: nat, left: nat, diag: nat)
    requires 1 <= i <= |a| && 1 <= j <= |b|
    requires up == PrefixDist(a, b, i - 1, j) && left == PrefixDist(a, b, i, j - 1)
    requires diag == PrefixDist(a, b, i - 1, j - 1)
    ensures PrefixDist(a, b, i, j) == Min3(up + 1, left + 1, diag + Cost(a[i - 1], b[j - 1]))
  {
  }

  /** The inner loop of `levenshteinDistance`: fills `currRow` (row `i` of the table)
      from `prevRow` (row `i - 1`). */
  method FillRow(a: string, b: string, i: nat, prevRow: array<nat>, currRow: array<nat>)
    requires 1 <= i <= |a|
    requires prevRow.Length == |b| + 1 && currRow.Length == |b| + 1 && prevRow != currRow
    requires forall k {:trigger prevRow[k]} :: 0 <= k <= |b| ==> prevRow[k] == PrefixDist(a, b, i - 1, k)
    modifies currRow
    ensures forall k {:trigger currRow[k]} :: 0 <= k <= |b| ==> currRow[k] == PrefixDist(a, b, i, k)
  {
    currRow[0] := i;
    var j := 1;
    while j <= |b|
      invariant 1 <= j <= |b| + 1
      invariant forall k {:trigger currRow[k]} :: 0 <= k < j ==> currRow[k] == PrefixDist(a, b, i, k)
    {
      var cost := if a[i - 1] == b[j - 1] then 0 else 1;
      CellStep(a, b, i, j, prevRow[j], currRow[j - 1], prevRow[j - 1]);
      currRow[j] := Min3(prevRow[j] + 1, currRow[j - 1] + 1, prevRow[j - 1] + cost);
      j := j + 1;
    }
  }

  /** `levenshteinDistance(a, b)`: after outer step `i`, `prevRow[j]` holds the
      distance between the first `i` characters of `a` and the first `j` of `b`. */
  method LevenshteinDistance(a: string, b: string) returns (d: nat)
    ensures d == Dist(a, b)
  {
    if |a| == 0 {
      return |b|;
    }
    if |b| == 0 {
      return |a|;
    }
    var prevRow := new nat[|b| + 1](k => k);
    var currRow := new nat[|b| + 1];
    var i := 1;
    while i <= |a|
      invariant 1 <= i <= |a| + 1
      invariant fresh(prevRow) && fresh(currRow) && prevRow != currRow
      invariant prevRow.Length == |b| + 1 && currRow.Length == |b| + 1
      invariant forall j {:trigger prevRow[j]} :: 0 <= j <= |b| ==> prevRow[j] == PrefixDist(a, b, i - 1, j)
    {
      FillRow(a, b, i, prevRow, currRow);
      prevRow, currRow := currRow, prevRow;
      i := i + 1;
    }
    return prevRow[|b|];
  }

  /** The distance to or from the empty string is the other string's length. */
  lemma DistEmpty(a: string)
    ensures Dist(a, "") == |a| && Dist("", a) == |a|
  {
  }

  /** The distance is at most the longer length. */
  lemma {:induction false} PrefixDistUpper(a: string, b: string, i: nat, j: nat)
    requires i <= |a| && j <= |b|
    ensures PrefixDist(a, b, i, j) <= Max(i, j)
  {
    if i > 0 && j > 0 {
      PrefixDistUpper(a, b, i - 1, j - 1);
      var diag := PrefixDist(a, b, i - 1, j - 1);
      assert PrefixDist(a, b, i, j) <= diag + Cost(a[i - 1], b[j - 1]);
    }
  }

  /** The distance is at least the length gap. */
  lemma {:induction false} PrefixDistLower(a: string, b: string, i: nat, j: nat)
    requires i <= |a| && j <= |b|
    ensures i - j <= PrefixDist(a, b, i, j) && j - i <= PrefixDist(a, b, i, j)
  {
    if i > 0 && j > 0 {
      PrefixDistLower(a, b, i - 1, j);
      PrefixDistLower(a, b, i, j - 1);
      PrefixDistLower(a, b, i - 1, j - 1);
      var up, left := PrefixDist(a, b, i - 1, j), PrefixDist(a, b, i, j - 1);
      var diag := PrefixDist(a, b, i - 1, j - 1);
      assert PrefixDist(a, b, i, j) == Min3(up + 1, left + 1, diag + Cost(a[i - 1], b[j - 1]));
    }
  }

  lemma DistBounds(a: string, b: string)
    ensures Dist(a, b) <= Max(|a|, |b|)
    ensures |a| - |b| <= Dist(a, b) && |b| - |a| <= Dist(a, b)
  {
    PrefixDistUpper(a, b, |a|, |b|);
    PrefixDistLower(a, b, |a|, |b|);
  }

  lemma {:induction false} PrefixDistSymmetric(a: string, b: string, i: nat, j: nat)
    requires i <= |a| && j <= |b|
    ensures PrefixDist(a, b, i, j) == PrefixDist(b, a, j, i)
  {
    if i > 0 && j > 0 {
      PrefixDistSymmetric(a, b, i - 1, j);
      PrefixDistSymmetric(a, b, i, j - 1);
      PrefixDistSymmetric(a, b, i - 1, j - 1);
      var x, y := PrefixDist(a, b, i - 1, j), PrefixDist(a, b, i, j - 1);
      var z := PrefixDist(a, b, i - 1, j - 1);
      CellStep(a, b, i, j, x, y, z);
      CellStep(b, a, j, i, y, x, z);
      assert Cost(b[j - 1], a[i - 1]) == Cost(a[i - 1], b[j - 1]);
      Min3Swap(x + 1, y + 1, z + Cost(a[i - 1], b[j - 1]));
    }
  }

  lemma Min3Swap(x: int, y: int, z: int)
    ensures Min3(x, y, z) == Min3(y, x, z)
  {
  }

  lemma DistSymmetric(a: string, b: string)
    ensures Dist(a, b) == Dist(b, a)
  {
    PrefixDistSymmetric(a, b, |a|, |b|);
  }

  lemma {:induction false} PrefixDistSelf(a: string, i: nat)
    requires i <= |a|
    ensures PrefixDist(a, a, i, i) == 0
  {
    if i > 0 {
      PrefixDistSelf(a, i - 1);
    }
  }

  /** Distance zero between two prefixes happens only when they are equal. */
  lemma {:induction false} PrefixDistZero(a: string, b: string, i: nat, j: nat)
    requires i <= |a| && j <= |b|
    requires PrefixDist(a, b, i, j) == 0
    ensures a[..i] == b[..j]
  {
    if i > 0 && j > 0 {
      PrefixDistZero(a, b, i - 1, j - 1);
      assert a[..i] == a[..i - 1] + [a[i - 1]];
      assert b[..j] == b[..j - 1] + [b[j - 1]];
    }
  }

  lemma DistZeroIff(a: string, b: string)
    ensures Dist(a, b) == 0 <==> a == b
  {
    if Dist(a, b) == 0 {
      PrefixDistZero(a, b, |a|, |b|);
      assert a[..|a|] == a && b[..|b|] == b;
    }
    if a == b {
      PrefixDistSelf(a, |a|);
    }
  }

  /** `levenshteinSimilarity(a, b)`: 1 for two empty strings, otherwise one minus the
      distance divided by the longer length. */
  function Similarity(a: string, b: string): (s: real)
    ensures 0.0 <= s <= 1.0
    ensures s == 1.0 <==> a == b
  {
    var maxLength := Max(|a|, |b|);
    if maxLength == 0 then 1.0
    else
      var d := Dist(a, b);
      DistZeroIff(a, b);
      DistBounds(a, b);
      RatioBounds(d, maxLength);
      1.0 - (d as real) / (maxLength as real)
  }

  /** `d / m` lies in [0, 1] for `d <= m`, and is 0 exactly when `d` is. */
  lemma RatioBounds(d: nat, m: nat)
    requires 0 < m && d <= m
    ensures 0.0 <= (d as real) / (m as real) <= 1.0
    ensures (d as real) / (m as real) == 0.0 <==> d == 0
  {
  }

  lemma SimilaritySymmetric(a: string, b: string)
    ensures Similarity(a, b) == Similarity(b, a)
  {
    DistSymmetric(a, b);
  }
}
