/** Fuzzy matching of item names: case-insensitive Levenshtein distance, a
    similarity percentage derived from it, and the "are these the same item?"
    test used before a new item is created. */
module StringSimilarity {
  import opened Wrappers
  import opened Text
  import Seqs

  function Min3(a: int, b: int, c: int): (m: int)
    ensures m <= a && m <= b && m <= c
    ensures m == a || m == b || m == c
  {
    if a <= b && a <= c then a else if b <= c then b else c
  }

  function Max(a: int, b: int): (m: int)
    ensures m >= a && m >= b && (m == a || m == b)
  {
    if a >= b then a else b
  }

  function Abs(x: int): (r: nat)
    ensures r == x || r == -x
  {
    if x >= 0 then x else -x
  }

  /** The edit distance between the first `i` characters of `a` and the
      first `j` characters of `b`: the recurrence the distance table fills in. */
  function EditDistance(a: string, b: string, i: nat, j: nat): nat
    requires i <= |a| && j <= |b|
    decreases i + j
  {
    if i == 0 then j
    else if j == 0 then i
    else if a[i - 1] == b[j - 1] then EditDistance(a, b, i - 1, j - 1)
    else 1 + Min3(EditDistance(a, b, i - 1, j - 1),
                  EditDistance(a, b, i - 1, j),
                  EditDistance(a, b, i, j - 1))
  }

  /** The Levenshtein distance between two whole strings. */
  function Distance(a: string, b: string): nat
  {
    EditDistance(a, b, |a|, |b|)
  }

  /** `levenshteinDistance`: both strings are lower-cased, then the
      (|s1|+1) x (|s2|+1) table is filled row by row. */
  method LevenshteinDistance(s1: string, s2: string) returns (d: int)
    ensures d == Distance(ToLower(s1), ToLower(s2))
  {
    var a := ToLower(s1);
    var b := ToLower(s2);
    var dp := new int[|a| + 1, |b| + 1];
    var i := 0;
    while i <= |a|
      invariant 0 <= i <= |a| + 1
      invariant forall r :: 0 <= r < i ==> dp[r, 0] == r
    {
      dp[i, 0] := i;
      i := i + 1;
    }
    var j := 0;
    while j <= |b|
      invariant 0 <= j <= |b| + 1
      invariant forall c :: 0 <= c < j ==> dp[0, c] == c
      invariant forall r :: 0 <= r <= |a| ==> dp[r, 0] == r
    {
      dp[0, j] := j;
      j := j + 1;
    }
    i := 1;
    while i <= |a|
      invariant 1 <= i <= |a| + 1
      invariant RowDone(dp, a, b, i - 1)
      invariant forall r :: i <= r <= |a| ==> dp[r, 0] == r
    {
      FillRow(dp, a, b, i);
      i := i + 1;
    }
    d := dp[|a|, |b|];
  }

  /** Row `r` of the table holds the edit distances of the first `r`
      characters of `a` to every prefix of `b`. */
  ghost predicate RowDone(dp: array2<int>, a: string, b: string, r: nat)
    reads dp
    requires dp.Length0 == |a| + 1 && dp.Length1 == |b| + 1 && r <= |a|
  {
    forall c :: 0 <= c <= |b| ==> dp[r, c] == EditDistance(a, b, r, c)
  }

  /** One pass of the outer loop of `levenshteinDistance`: row `i` of the
      table is filled from row `i - 1`, left to right; rows below stay. */
  method FillRow(dp: array2<int>, a: string, b: string, i: nat)
    requires dp.Length0 == |a| + 1 && dp.Length1 == |b| + 1 && 1 <= i <= |a|
    requires RowDone(dp, a, b, i - 1)
    requires dp[i, 0] == i
    modifies dp
    ensures RowDone(dp, a, b, i)
    ensures forall r :: i < r <= |a| ==> dp[r, 0] == old(dp[r, 0])
  {
    var j := 1;
    while j <= |b|
      invariant 1 <= j <= |b| + 1
      invariant RowDone(dp, a, b, i - 1)
      invariant forall c {:trigger dp[i, c]} :: 0 <= c < j ==> dp[i, c] == EditDistance(a, b, i, c)
      invariant forall r :: i < r <= |a| ==> dp[r, 0] == old(dp[r, 0])
    {
      var cell;
      if a[i - 1] == b[j - 1] {
        cell := dp[i - 1, j - 1];
      } else {
        cell := 1 + Min3(dp[i - 1, j - 1], dp[i - 1, j], dp[i, j - 1]);
      }
      assert cell == EditDistance(a, b, i, j);
      dp[i, j] := cell;
      j := j + 1;
    }
  }

  /** The similarity of two strings in percent: 100 minus the distance as a
      share of the longer length, or 100 for two empty strings. */
  function Similarity(s1: string, s2: string): real
  {
    var maxLength := Max(|s1|, |s2|);
    if maxLength == 0 then 100.0
    else (1.0 - Distance(ToLower(s1), ToLower(s2)) as real / maxLength as real) * 100.0
  }

  /** `similarityPercentage`. */
  method SimilarityPercentage(s1: string, s2: string) returns (p: real)
    ensures p == Similarity(s1, s2)
    ensures 0.0 <= p <= 100.0
    ensures p == 100.0 <==> ToLower(s1) == ToLower(s2)
  {
    var distance := LevenshteinDistance(s1, s2);
    var maxLength := Max(|s1|, |s2|);
    SimilarityRange(s1, s2);
    if maxLength == 0 {
      return 100.0;
    }
    p := (1.0 - distance as real / maxLength as real) * 100.0;
  }

  predicate IsLowerAlnum(c: char) { IsLower(c) || IsDigit(c) }

  /** `normalize`: null becomes the empty string; otherwise lower-case, keep
      only `a`-`z` and `0`-`9`, then trim. */
  function Normalize(str: Option<string>): (r: string)
    ensures forall i :: 0 <= i < |r| ==> IsLowerAlnum(r[i])
  {
    match str
    case None => ""
    case Some(s) =>
      var kept := Seqs.Filter(IsLowerAlnum, ToLower(s));
      Seqs.FilterMembers(IsLowerAlnum, ToLower(s));
      TrimOfAlnum(kept);
      Trim(kept)
  }

  /** The verdict of `areSimilar(s1, s2, threshold)`. */
  predicate Similar(s1: Option<string>, s2: Option<string>, threshold: real)
  {
    var norm1 := Normalize(s1);
    var norm2 := Normalize(s2);
    norm1 == norm2 || Similarity(norm1, norm2) >= threshold
  }

  /** `areSimilar(s1, s2, threshold)`: equal after normalisation, or at
      least `threshold` percent similar after normalisation. */
  method AreSimilar(s1: Option<string>, s2: Option<string>, threshold: real) returns (b: bool)
    ensures b == Similar(s1, s2, threshold)
    ensures Normalize(s1) == Normalize(s2) ==> b
    ensures threshold > 100.0 ==> (b <==> Normalize(s1) == Normalize(s2))
  {
    var norm1 := Normalize(s1);
    var norm2 := Normalize(s2);
    if norm1 == norm2 {
      return true;
    }
    var p := SimilarityPercentage(norm1, norm2);
    b := p >= threshold;
  }

  const DEFAULT_THRESHOLD: real := 80.0

  /** `areSimilar(s1, s2)`: the default threshold of 80 percent. */
  method AreSimilarByDefault(s1: Option<string>, s2: Option<string>) returns (b: bool)
    ensures b == Similar(s1, s2, DEFAULT_THRESHOLD)
  {
    b := AreSimilar(s1, s2, DEFAULT_THRESHOLD);
  }

  // ---------------------------------------------------------------------
  // Properties of the distance

  /** The distance is symmetric. */
  lemma {:induction false} EditDistanceSymmetric(a: string, b: string, i: nat, j: nat)
    requires i <= |a| && j <= |b|
    ensures EditDistance(a, b, i, j) == EditDistance(b, a, j, i)
    decreases i + j
  {
    if i > 0 && j > 0 {
      EditDistanceSymmetric(a, b, i - 1, j - 1);
      EditDistanceSymmetric(a, b, i - 1, j);
      EditDistanceSymmetric(a, b, i, j - 1);
    }
  }

  /** No more edits than the longer prefix has characters. */
  lemma {:induction false} EditDistanceUpper(a: string, b: string, i: nat, j: nat)
    requires i <= |a| && j <= |b|
    ensures EditDistance(a, b, i, j) <= Max(i, j)
    decreases i + j
  {
    if i > 0 && j > 0 {
      EditDistanceUpper(a, b, i - 1, j - 1);
    }
  }

  /** At least as many edits as the lengths differ. */
  lemma {:induction false} EditDistanceLower(a: string, b: string, i: nat, j: nat)
    requires i <= |a| && j <= |b|
    ensures EditDistance(a, b, i, j) >= Abs(i - j)
    decreases i + j
  {
    if i > 0 && j > 0 {
      EditDistanceLower(a, b, i - 1, j - 1);
      EditDistanceLower(a, b, i - 1, j);
      EditDistanceLower(a, b, i, j - 1);
    }
  }

  /** Zero edits exactly between equal prefixes. */
  lemma {:induction false} EditDistanceZero(a: string, b: string, i: nat, j: nat)
    requires i <= |a| && j <= |b|
    ensures EditDistance(a, b, i, j) == 0 <==> i == j && a[..i] == b[..j]
    decreases i + j
  {
    if i > 0 && j > 0 {
      EditDistanceZero(a, b, i - 1, j - 1);
      assert a[..i] == a[..i - 1] + [a[i - 1]];
      assert b[..j] == b[..j - 1] + [b[j - 1]];
      if i == j && a[..i] == b[..j] {
        assert a[i - 1] == a[..i][i - 1];
      }
    }
  }

  lemma DistanceZeroIffEqual(a: string, b: string)
    ensures Distance(a, b) == 0 <==> a == b
  {
    EditDistanceZero(a, b, |a|, |b|);
    assert a[..|a|] == a && b[..|b|] == b;
  }

  /** Lower-casing the inputs first changes nothing: the distance the
      table computes depends only on the lower-cased strings. */
  lemma DistanceIgnoresCase(s1: string, s2: string)
    ensures Distance(ToLower(ToLower(s1)), ToLower(ToLower(s2))) == Distance(ToLower(s1), ToLower(s2))
  {
    ToLowerIdempotent(s1);
    ToLowerIdempotent(s2);
  }

  /** Against an empty string the distance is the other string's length. */
  lemma DistanceToEmpty(s: string)
    ensures Distance(ToLower(s), ToLower([])) == |s|
    ensures Distance(ToLower([]), ToLower(s)) == |s|
  {
    assert ToLower([]) == [];
  }

  /** The distance never exceeds the longer length. */
  lemma DistanceBounds(a: string, b: string)
    ensures Abs(|a| - |b|) <= Distance(a, b) <= Max(|a|, |b|)
  {
    EditDistanceUpper(a, b, |a|, |b|);
    EditDistanceLower(a, b, |a|, |b|);
  }

  lemma DistanceSymmetric(a: string, b: string)
    ensures Distance(a, b) == Distance(b, a)
  {
    EditDistanceSymmetric(a, b, |a|, |b|);
  }

  // ---------------------------------------------------------------------
  // Properties of the similarity

  /** The percentage lies in [0, 100] and is 100 exactly for strings equal
      up to case. */
  lemma SimilarityRange(s1: string, s2: string)
    ensures 0.0 <= Similarity(s1, s2) <= 100.0
    ensures Similarity(s1, s2) == 100.0 <==> ToLower(s1) == ToLower(s2)
  {
    var a, b := ToLower(s1), ToLower(s2);
    var m := Max(|s1|, |s2|);
    EditDistanceUpper(a, b, |a|, |b|);
    DistanceZeroIffEqual(a, b);
    if m > 0 {
      var d := Distance(a, b);
      RatioBounds(d, m);
      var q := d as real / m as real;
      assert Similarity(s1, s2) == (1.0 - q) * 100.0;
    } else {
      assert a == [] && b == [];
    }
  }

  lemma RatioBounds(d: nat, m: nat)
    requires 0 < m && d <= m
    ensures 0.0 <= d as real / m as real <= 1.0
    ensures d as real / m as real == 0.0 <==> d == 0
  {
    var q := d as real / m as real;
    assert q * m as real == d as real;
  }

  /** The threshold test in exact arithmetic: for non-empty inputs the
      percentage reaches `t` exactly when `100 * (m - d) >= t * m`, with `d`
      the distance and `m` the longer length. */
  lemma SimilarityThreshold(s1: string, s2: string, t: real)
    requires Max(|s1|, |s2|) > 0
    ensures var m := Max(|s1|, |s2|) as real;
            var d := Distance(ToLower(s1), ToLower(s2)) as real;
            Similarity(s1, s2) >= t <==> 100.0 * (m - d) >= t * m
  {
    var m := Max(|s1|, |s2|) as real;
    var d := Distance(ToLower(s1), ToLower(s2)) as real;
    assert Similarity(s1, s2) == (1.0 - d / m) * 100.0;
    PercentThreshold(d, m, t);
  }

  lemma PercentThreshold(d: real, m: real, t: real)
    requires m > 0.0
    ensures (1.0 - d / m) * 100.0 >= t <==> 100.0 * (m - d) >= t * m
  {
    var q := d / m;
    assert q * m == d;
    var x := (1.0 - q) * 100.0;
    assert x * m == 100.0 * m - 100.0 * (q * m);
    ScaleByPositive(x, t, m);
  }

  lemma ScaleByPositive(x: real, t: real, m: real)
    requires m > 0.0
    ensures x >= t <==> x * m >= t * m
  {
  }

  lemma SimilaritySymmetric(s1: string, s2: string)
    ensures Similarity(s1, s2) == Similarity(s2, s1)
  {
    DistanceSymmetric(ToLower(s1), ToLower(s2));
  }

  /** Similarity ignores case. */
  lemma SimilarityIgnoresCase(s1: string, s2: string)
    ensures Similarity(ToLower(s1), s2) == Similarity(s1, s2)
  {
    ToLowerIdempotent(s1);
  }

  // ---------------------------------------------------------------------
  // Properties of normalisation and of the similarity test

  lemma TrimOfAlnum(s: string)
    requires forall i :: 0 <= i < |s| ==> IsLowerAlnum(s[i])
    ensures Trim(s) == s
  {
    TrimOfTrimmed(s);
  }

  /** Normalising a normalised name changes nothing. */
  lemma NormalizeIdempotent(str: Option<string>)
    ensures Normalize(Some(Normalize(str))) == Normalize(str)
  {
    var n := Normalize(str);
    assert ToLower(n) == n;
    Seqs.FilterAll(IsLowerAlnum, n);
    TrimOfAlnum(n);
  }

  /** Case, spaces and punctuation never matter to normalisation. */
  lemma NormalizeIgnoresCase(s: string)
    ensures Normalize(Some(ToLower(s))) == Normalize(Some(s))
  {
    ToLowerIdempotent(s);
  }

  /** Every name is similar to itself, at every threshold. */
  lemma SimilarReflexive(s: Option<string>, threshold: real)
    ensures Similar(s, s, threshold)
  {
  }

  lemma SimilarSymmetric(s1: Option<string>, s2: Option<string>, threshold: real)
    ensures Similar(s1, s2, threshold) == Similar(s2, s1, threshold)
  {
    SimilaritySymmetric(Normalize(s1), Normalize(s2));
  }

  /** A higher threshold never admits more pairs. */
  lemma SimilarMonotone(s1: Option<string>, s2: Option<string>, lo: real, hi: real)
    requires lo <= hi && Similar(s1, s2, hi)
    ensures Similar(s1, s2, lo)
  {
  }

  /** A threshold of zero or less accepts every pair; one above 100 only
      the pairs that normalise to the same string. */
  lemma SimilarExtremes(s1: Option<string>, s2: Option<string>, threshold: real)
    ensures threshold <= 0.0 ==> Similar(s1, s2, threshold)
    ensures threshold > 100.0 ==> (Similar(s1, s2, threshold) <==> Normalize(s1) == Normalize(s2))
  {
    SimilarityRange(Normalize(s1), Normalize(s2));
  }
}
