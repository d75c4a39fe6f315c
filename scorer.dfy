/**
 * The resolution scorer: Levenshtein edit distance between a caller's true
 * callsign and the operator's guess, and the error level normalised by the
 * length of the true callsign.
 */
module Scorer {
  import opened Wrappers

  function Min3(a: nat, b: nat, c: nat): (m: nat)
    ensures m <= a && m <= b && m <= c
    ensures m == a || m == b || m == c
  {
    if a <= b && a <= c then a else if b <= c then b else c
  }

  function Max(a: nat, b: nat): nat { if a < b then b else a }

  /**
   * Reference definition of the edit distance (insertions, deletions and
   * substitutions each cost 1), by recursion on prefixes. The cell for the
   * prefixes `s` and `t` is what the source's dynamic-programming table holds.
   */
  function EditDistance(s: string, t: string): nat
    decreases |s| + |t|
  {
    if |s| == 0 then |t|
    else if |t| == 0 then |s|
    else
      var s', t' := s[..|s| - 1], t[..|t| - 1];
      Min3(EditDistance(s', t) + 1,
           EditDistance(s, t') + 1,
           EditDistance(s', t') + Mismatch(s[|s| - 1], t[|t| - 1]))
  }

  /** The distance lies between the difference and the larger of the two lengths. */
  lemma {:induction false} EditDistanceBounds(s: string, t: string)
    ensures EditDistance(s, t) <= Max(|s|, |t|)
    ensures |s| - |t| <= EditDistance(s, t) && |t| - |s| <= EditDistance(s, t)
    decreases |s| + |t|
  {
    if |s| > 0 && |t| > 0 {
      var s', t' := s[..|s| - 1], t[..|t| - 1];
      EditDistanceBounds(s', t);
      EditDistanceBounds(s, t');
      EditDistanceBounds(s', t');
    }
  }

  /** The distance does not depend on the order of its arguments. */
  lemma {:induction false} EditDistanceSymmetric(s: string, t: string)
    ensures EditDistance(s, t) == EditDistance(t, s)
    decreases |s| + |t|
  {
    if |s| > 0 && |t| > 0 {
      var s', t' := s[..|s| - 1], t[..|t| - 1];
      EditDistanceSymmetric(s', t);
      EditDistanceSymmetric(s, t');
      EditDistanceSymmetric(s', t');
    }
  }

  /** The distance is zero exactly when the two strings are equal. */
  lemma {:induction false} EditDistanceZeroIff(s: string, t: string)
    ensures EditDistance(s, t) == 0 <==> s == t
    decreases |s| + |t|
  {
    if |s| > 0 && |t| > 0 {
      var s', t' := s[..|s| - 1], t[..|t| - 1];
      EditDistanceZeroIff(s', t');
      if EditDistance(s, t) == 0 {
        assert s == s' + [s[|s| - 1]] && t == t' + [t[|t| - 1]];
      }
      if s == t {
        assert s' == t';
      }
    }
  }

  function Mismatch(c1: char, c2: char): nat { if c1 != c2 then 1 else 0 }

  /** One cell of the table: the recurrence, read on prefixes of whole strings. */
  lemma EditDistanceCell(s: string, t: string, i: nat, j: nat)
    requires i < |s| && j < |t|
    ensures EditDistance(s[..i + 1], t[..j + 1])
         == Min3(EditDistance(s[..i], t[..j + 1]) + 1,
                 EditDistance(s[..i + 1], t[..j]) + 1,
                 EditDistance(s[..i], t[..j]) + Mismatch(s[i], t[j]))
  {
    var row, col := s[..i + 1], t[..j + 1];
    assert row[..|row| - 1] == s[..i] && row[|row| - 1] == s[i];
    assert col[..|col| - 1] == t[..j] && col[|col| - 1] == t[j];
  }

  /**
   * The inner loop of `levenshtein`: from the row of the prefix `str1[..i]`
   * builds the row of `str1[..i + 1]`, one cell per character of `str2`.
   */
  method NextRow(str1: string, str2: string, i: nat, previousRow: seq<nat>) returns (currentRow: seq<nat>)
    requires i < |str1|
    requires |previousRow| == |str2| + 1
    requires forall j :: 0 <= j <= |str2| ==> previousRow[j] == EditDistance(str1[..i], str2[..j])
    ensures |currentRow| == |str2| + 1
    ensures forall j :: 0 <= j <= |str2| ==> currentRow[j] == EditDistance(str1[..i + 1], str2[..j])
  {
    currentRow := [i + 1];
    assert str2[..0] == [] && |str1[..i + 1]| == i + 1;
    for j := 0 to |str2|
      invariant |currentRow| == j + 1
      invariant forall k :: 0 <= k <= j ==> currentRow[k] == EditDistance(str1[..i + 1], str2[..k])
    {
      var insertions := previousRow[j + 1] + 1;
      var deletions := currentRow[j] + 1;
      var substitutions := previousRow[j] + Mismatch(str1[i], str2[j]);
      EditDistanceCell(str1, str2, i, j);
      var cell := Min3(insertions, deletions, substitutions);
      ghost var before := currentRow;
      currentRow := currentRow + [cell];
      assert forall k :: 0 <= k <= j ==> currentRow[k] == before[k];
    }
  }

  /** `levenshtein(str1, str2)`: swaps so the longer string comes first. */
  method Levenshtein(str1: string, str2: string) returns (d: nat)
    ensures d == EditDistance(str1, str2)
    decreases if |str1| < |str2| then 1 else 0
  {
    if |str1| < |str2| {
      d := Levenshtein(str2, str1);
      EditDistanceSymmetric(str2, str1);
      return;
    }
    if |str2| == 0 {
      return |str1|;
    }
    var previousRow: seq<nat> := seq(|str2| + 1, j => j);
    assert str1[..0] == [];
    for i := 0 to |str1|
      invariant |previousRow| == |str2| + 1
      invariant forall j :: 0 <= j <= |str2| ==> previousRow[j] == EditDistance(str1[..i], str2[..j])
    {
      previousRow := NextRow(str1, str2, i, previousRow);
    }
    assert str1[..|str1|] == str1 && str2[..|str2|] == str2;
    d := previousRow[|str2|];
  }

  /** Dividing by `len(str1)` raises when the true string is empty. */
  datatype ScoreError = InvalidComparison

  /**
   * `run_ltest(str1, str2)`: the distance divided by the length of the FIRST
   * string, as a real number. Its comparisons with the thresholds 0.0, 1.0
   * and 0.5 are integer comparisons on the distance.
   */
  function RunLTest(str1: string, str2: string): (r: Result<real, ScoreError>)
    ensures r.Failure? <==> |str1| == 0
    ensures r.Success? ==> 0.0 <= r.value
    ensures r.Success? ==> (r.value == 0.0 <==> str2 == str1)
    ensures r.Success? ==> (r.value < 1.0 <==> EditDistance(str1, str2) < |str1|)
    ensures r.Success? ==> (r.value < 0.5 <==> 2 * EditDistance(str1, str2) < |str1|)
  {
    if |str1| == 0 then Failure(InvalidComparison)
    else
      var lev := EditDistance(str1, str2);
      EditDistanceZeroIff(str1, str2);
      RatioThresholds(lev, |str1|);
      Success((lev as real) / (|str1| as real))
  }

  lemma ScaleByPositive(x: real, y: real, c: real)
    requires c > 0.0
    ensures x < y <==> x * c < y * c
  {
    assert (y - x) * c == y * c - x * c;
    if x < y { assert (y - x) * c > 0.0; }
    if x * c < y * c { assert (y - x) * c > 0.0; }
  }

  /** The quotient `a / b` is below `c` exactly when `a` is below `c * b`. */
  lemma RatioBelow(a: nat, b: nat, c: real)
    requires b > 0
    ensures (a as real) / (b as real) < c <==> (a as real) < c * (b as real)
  {
    var x, br := (a as real) / (b as real), b as real;
    assert x * br == a as real;
    ScaleByPositive(x, c, br);
  }

  /** How the quotient `a / b` compares with the three thresholds. */
  lemma RatioThresholds(a: nat, b: nat)
    requires b > 0
    ensures 0.0 <= (a as real) / (b as real)
    ensures (a as real) / (b as real) == 0.0 <==> a == 0
    ensures (a as real) / (b as real) < 1.0 <==> a < b
    ensures (a as real) / (b as real) < 0.5 <==> 2 * a < b
  {
    RatioBelow(a, b, 0.0);
    RatioBelow(a, b, 1.0);
    RatioBelow(a, b, 0.5);
    assert (a as real) / (b as real) * (b as real) == a as real;
  }

  /** An empty guess is as far as possible from the callsign: the score is 1.0. */
  lemma EmptyGuessScoresOne(callsign: string)
    requires |callsign| > 0
    ensures RunLTest(callsign, "") == Success(1.0)
  {
    var n := |callsign| as real;
    assert EditDistance(callsign, "") == |callsign|;
    assert n / n == 1.0;
  }

  /** The score is not symmetric: "AB" vs "ABC" is 1/2, "ABC" vs "AB" is 1/3. */
  lemma ScoreIsNotSymmetric()
    ensures RunLTest("AB", "ABC") == Success(0.5)
    ensures RunLTest("ABC", "AB") == Success(1.0 / 3.0)
  {
    var ab, abc := "AB", "ABC";
    EditDistanceZeroIff(ab, ab);
    assert abc[..|abc| - 1] == ab;
    EditDistanceBounds(abc, ab);
    assert EditDistance(abc, ab) <= EditDistance(ab, ab) + 1;
    EditDistanceSymmetric(ab, abc);
  }
}
