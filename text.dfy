/**
 * Character classes, Python's substring test `p in s`, and Python's `str(n)`
 * for a non-negative integer, as the trainer uses them.
 */
module Text {

  predicate IsDigit(c: char) { '0' <= c <= '9' }

  predicate IsUpper(c: char) { 'A' <= c <= 'Z' }

  predicate AllUpper(s: string) { forall i :: 0 <= i < |s| ==> IsUpper(s[i]) }

  /** The decimal digit character for `d`. */
  function DigitChar(d: nat): (c: char)
    requires d < 10
    ensures IsDigit(c)
  {
    ('0' as int + d) as char
  }

  function DigitValue(c: char): (d: nat)
    requires IsDigit(c)
    ensures d < 10 && DigitChar(d) == c
  {
    c as int - '0' as int
  }

  /** `letters[i]` of the generator's upper-case alphabet table. */
  function Letter(i: nat): (c: char)
    requires i < 26
    ensures IsUpper(c)
  {
    ('A' as int + i) as char
  }

  function LetterIndex(c: char): (i: nat)
    requires IsUpper(c)
    ensures i < 26 && Letter(i) == c
  {
    c as int - 'A' as int
  }

  // ---------------------------------------------------------------------
  // Python's `p in s` for strings
  // ---------------------------------------------------------------------

  /** `p[k..]` matches `s` from position `i + k`, compared character by character. */
  predicate MatchesAt(s: string, p: string, i: nat, k: nat)
    requires i + |p| <= |s| && k <= |p|
    decreases |p| - k
  {
    k == |p| || (s[i + k] == p[k] && MatchesAt(s, p, i, k + 1))
  }

  /** `p` occurs in `s` at some position at or after `i`. */
  predicate ContainsFrom(s: string, p: string, i: nat)
    requires i <= |s|
    decreases |s| - i
  {
    i + |p| <= |s| && (MatchesAt(s, p, i, 0) || ContainsFrom(s, p, i + 1))
  }

  /** Python's `p in s`. */
  predicate Contains(s: string, p: string)
  {
    ContainsFrom(s, p, 0)
  }

  /** `p` occurs in `s` at position `j`, as a slice equality. */
  predicate OccursAt(s: string, p: string, j: nat)
  {
    j + |p| <= |s| && s[j..j + |p|] == p
  }

  lemma {:induction false} MatchesAtIsSlice(s: string, p: string, i: nat, k: nat)
    requires i + |p| <= |s| && k <= |p|
    ensures MatchesAt(s, p, i, k) <==> s[i + k..i + |p|] == p[k..]
    decreases |p| - k
  {
    if k < |p| {
      MatchesAtIsSlice(s, p, i, k + 1);
      assert s[i + k..i + |p|] == [s[i + k]] + s[i + k + 1..i + |p|];
      assert p[k..] == [p[k]] + p[k + 1..];
    }
  }

  lemma {:induction false} ContainsFromIsOccurrence(s: string, p: string, i: nat)
    requires i <= |s|
    ensures ContainsFrom(s, p, i) <==> exists j: nat :: i <= j && OccursAt(s, p, j)
    decreases |s| - i
  {
    if i + |p| <= |s| {
      MatchesAtIsSlice(s, p, i, 0);
      if i < |s| {
        ContainsFromIsOccurrence(s, p, i + 1);
        if exists j: nat :: i <= j && OccursAt(s, p, j) {
          var j: nat :| i <= j && OccursAt(s, p, j);
          assert j == i || i + 1 <= j;
        }
        if MatchesAt(s, p, i, 0) {
          assert OccursAt(s, p, i);
        }
      } else {
        assert ContainsFrom(s, p, i) <==> OccursAt(s, p, i);
        forall j: nat | i <= j && OccursAt(s, p, j) ensures j == i { }
      }
    } else {
      forall j: nat | i <= j ensures !OccursAt(s, p, j) { }
    }
  }

  /** `p in s` holds exactly when `p` occurs at some position of `s`. */
  lemma ContainsIsOccurrence(s: string, p: string)
    ensures Contains(s, p) <==> exists j: nat :: OccursAt(s, p, j)
  {
    ContainsFromIsOccurrence(s, p, 0);
  }

  lemma OccurrenceEndsInPrefix(a: string, t: string, p: string, j: nat)
    requires |p| > 0
    requires forall i :: 0 <= i < |t| ==> t[i] != p[|p| - 1]
    requires OccursAt(a + t, p, j)
    ensures j + |p| <= |a|
  {
    assert (a + t)[j + |p| - 1] == p[|p| - 1];
  }

  /**
   * Appending text that never holds the last character of `p` does not change
   * whether `p` occurs: an occurrence would have to end inside the appended text.
   */
  lemma ContainsAppend(a: string, t: string, p: string)
    requires |p| > 0
    requires forall i :: 0 <= i < |t| ==> t[i] != p[|p| - 1]
    ensures Contains(a + t, p) <==> Contains(a, p)
  {
    ContainsIsOccurrence(a + t, p);
    ContainsIsOccurrence(a, p);
    if Contains(a + t, p) {
      var j: nat :| OccursAt(a + t, p, j);
      OccurrenceEndsInPrefix(a, t, p, j);
      assert (a + t)[j..j + |p|] == a[j..j + |p|];
      assert OccursAt(a, p, j);
    }
    if Contains(a, p) {
      var j: nat :| OccursAt(a, p, j);
      assert (a + t)[j..j + |p|] == a[j..j + |p|];
      assert OccursAt(a + t, p, j);
    }
  }

  // ---------------------------------------------------------------------
  // Python's str(n) for n >= 0
  // ---------------------------------------------------------------------

  /** Canonical decimal text of `n`: digits only, no leading zero. */
  function NatToString(n: nat): (s: string)
    ensures |s| > 0
    ensures forall i :: 0 <= i < |s| ==> IsDigit(s[i])
    ensures s[0] == '0' <==> n == 0
    ensures n < 10 <==> |s| == 1
  {
    if n < 10 then [DigitChar(n)] else NatToString(n / 10) + [DigitChar(n % 10)]
  }

  /** The number a string of decimal digits denotes. */
  function DigitsValue(s: string): nat
    requires forall i :: 0 <= i < |s| ==> IsDigit(s[i])
  {
    if s == [] then 0 else DigitsValue(s[..|s| - 1]) * 10 + DigitValue(s[|s| - 1])
  }

  /** Reading back the text of `str(n)` gives `n`, so `str` is injective. */
  lemma {:induction false} NatToStringRoundTrip(n: nat)
    ensures DigitsValue(NatToString(n)) == n
  {
    var s := NatToString(n);
    if n >= 10 {
      NatToStringRoundTrip(n / 10);
      assert s[..|s| - 1] == NatToString(n / 10);
    }
  }

  lemma NatToStringInjective(m: nat, n: nat)
    ensures NatToString(m) == NatToString(n) ==> m == n
  {
    NatToStringRoundTrip(m);
    NatToStringRoundTrip(n);
  }
}
