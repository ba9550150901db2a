/** internal/registry/registry.go: the parameter-name similarity behind "did you mean",
    with its longest-common-subsequence table. Strings are the bytes the source compares. */
module Similarity {
  import opened Options
  import opened Strings

  // ---------------------------------------------------------------- what is being computed

  /** s is read off t at these strictly increasing places. */
  ghost predicate ReadAt(s: string, t: string, at: seq<nat>)
  {
    && |at| == |s|
    && (forall i | 0 <= i < |at| :: at[i] < |t| && t[at[i]] == s[i])
    && (forall i, j | 0 <= i < j < |at| :: at[i] < at[j])
  }

  ghost predicate Subsequence(s: string, t: string)
  {
    exists at: seq<nat> :: ReadAt(s, t, at)
  }

  ghost predicate Common(s: string, a: string, b: string)
  {
    Subsequence(s, a) && Subsequence(s, b)
  }

  /** The recurrence the table is filled by. */
  function Lcs(a: string, b: string): nat
    decreases |a| + |b|
  {
    if a == "" || b == "" then 0
    else if a[|a| - 1] == b[|b| - 1] then Lcs(a[..|a| - 1], b[..|b| - 1]) + 1
    else
      var up, left := Lcs(a[..|a| - 1], b), Lcs(a, b[..|b| - 1]);
      if up > left then up else left
  }

  // ---------------------------------------------------------------- subsequences

  lemma EmptySubsequence(t: string)
    ensures Subsequence("", t)
  {
    assert ReadAt("", t, []);
  }

  lemma Longer(s: string, t: string)
    requires t != "" && Subsequence(s, t[..|t| - 1])
    ensures Subsequence(s, t)
    ensures Subsequence(s + [t[|t| - 1]], t)
  {
    var at: seq<nat> :| ReadAt(s, t[..|t| - 1], at);
    assert ReadAt(s, t, at);
    assert ReadAt(s + [t[|t| - 1]], t, at + [|t| - 1]);
  }

  /** Without its last character it fits in front of the last place; it fits there whole
      unless that place holds its last character. */
  lemma Shorter(s: string, t: string)
    requires s != "" && Subsequence(s, t)
    ensures t != "" && Subsequence(s[..|s| - 1], t[..|t| - 1])
    ensures s[|s| - 1] == t[|t| - 1] || Subsequence(s, t[..|t| - 1])
  {
    var at: seq<nat> :| ReadAt(s, t, at);
    var last := |s| - 1;
    assert at[last] < |t|;
    assert forall i | 0 <= i < last :: at[i] < at[last];
    assert ReadAt(s[..last], t[..|t| - 1], at[..last]);
    if at[last] < |t| - 1 {
      assert ReadAt(s, t[..|t| - 1], at);
    }
  }

  lemma {:induction false} SubsequenceIsShort(s: string, t: string)
    requires Subsequence(s, t)
    ensures |s| <= |t|
    ensures |s| == |t| ==> s == t
  {
    if s != "" {
      Shorter(s, t);
      SubsequenceIsShort(s[..|s| - 1], t[..|t| - 1]);
      if |s| == |t| {
        if Subsequence(s, t[..|t| - 1]) { SubsequenceIsShort(s, t[..|t| - 1]); }
        assert s == s[..|s| - 1] + [s[|s| - 1]] && t == t[..|t| - 1] + [t[|t| - 1]];
      }
    }
  }

  // ---------------------------------------------------------------- the maximum

  lemma {:induction false} LcsIsReached(a: string, b: string) returns (s: string)
    ensures Common(s, a, b) && |s| == Lcs(a, b)
    decreases |a| + |b|
  {
    if a == "" || b == "" {
      s := "";
      EmptySubsequence(a);
      EmptySubsequence(b);
    } else if a[|a| - 1] == b[|b| - 1] {
      var front := LcsIsReached(a[..|a| - 1], b[..|b| - 1]);
      Longer(front, a);
      Longer(front, b);
      s := front + [a[|a| - 1]];
    } else if Lcs(a[..|a| - 1], b) > Lcs(a, b[..|b| - 1]) {
      s := LcsIsReached(a[..|a| - 1], b);
      Longer(s, a);
    } else {
      s := LcsIsReached(a, b[..|b| - 1]);
      Longer(s, b);
    }
  }

  lemma {:induction false} LcsIsABound(s: string, a: string, b: string)
    requires Common(s, a, b)
    ensures |s| <= Lcs(a, b)
    decreases |a| + |b|
  {
    if s != "" {
      Shorter(s, a);
      Shorter(s, b);
      if a[|a| - 1] == b[|b| - 1] {
        LcsIsABound(s[..|s| - 1], a[..|a| - 1], b[..|b| - 1]);
      } else if s[|s| - 1] != a[|a| - 1] {
        LcsIsABound(s, a[..|a| - 1], b);
      } else {
        LcsIsABound(s, a, b[..|b| - 1]);
      }
    }
  }

  /** The recurrence gives the greatest length of a common subsequence. */
  lemma LcsIsTheMaximum(a: string, b: string)
    ensures exists s :: Common(s, a, b) && |s| == Lcs(a, b)
    ensures forall s :: Common(s, a, b) ==> |s| <= Lcs(a, b)
  {
    var s := LcsIsReached(a, b);
    forall t | Common(t, a, b) ensures |t| <= Lcs(a, b) { LcsIsABound(t, a, b); }
  }

  lemma {:induction false} LcsIsSymmetric(a: string, b: string)
    ensures Lcs(a, b) == Lcs(b, a)
  {
    var s := LcsIsReached(a, b);
    LcsIsABound(s, b, a);
    var t := LcsIsReached(b, a);
    LcsIsABound(t, a, b);
  }

  lemma {:induction false} LcsOfEqual(a: string, b: string)
    ensures Lcs(a, b) <= |a| && Lcs(a, b) <= |b|
    ensures Lcs(a, b) == |a| == |b| <==> a == b
  {
    var s := LcsIsReached(a, b);
    SubsequenceIsShort(s, a);
    SubsequenceIsShort(s, b);
    if a == b {
      SubstringIsSubsequence(a, a, 0);
      LcsIsABound(a, a, a);
    }
  }

  // ---------------------------------------------------------------- similarity

  lemma SubstringIsSubsequence(t: string, s: string, i: nat)
    requires OccursAt(t, s, i)
    ensures Subsequence(s, t)
  {
    var at := seq(|s|, k requires 0 <= k < |s| => i + k);
    assert forall k | 0 <= k < |s| :: t[at[k]] == t[i..i + |s|][k];
    assert ReadAt(s, t, at);
  }

  lemma LcsOfSubstring(t: string, s: string)
    requires Contains(t, s)
    ensures Lcs(t, s) == |s| && Lcs(s, t) == |s| && |s| <= |t|
  {
    var i: nat :| i <= |t| && OccursAt(t, s, i);
    SubstringIsSubsequence(t, s, i);
    SubstringIsSubsequence(s, s, 0);
    LcsIsABound(s, t, s);
    LcsOfEqual(t, s);
    LcsIsSymmetric(t, s);
  }

  function Max(m: nat, n: nat): nat
  {
    if n > m then n else m
  }

  function Min(m: nat, n: nat): nat
  {
    if n < m then n else m
  }

  function Percent(part: nat, whole: nat): nat
    requires whole > 0
  {
    part * 100 / whole
  }

  /** similarity, with the substring shortcut. */
  function Score(a: string, b: string): nat
  {
    if a == "" || b == "" then 0
    else if Contains(a, b) || Contains(b, a) then Percent(Min(|a|, |b|), Max(|a|, |b|))
    else Percent(Lcs(a, b), Max(|a|, |b|))
  }

  /** The shortcut changes nothing. */
  lemma ShortcutAgrees(a: string, b: string)
    requires a != "" && b != ""
    ensures Score(a, b) == Percent(Lcs(a, b), Max(|a|, |b|))
  {
    hide Percent;
    if Contains(a, b) {
      LcsOfSubstring(a, b);
    } else if Contains(b, a) {
      LcsOfSubstring(b, a);
    }
  }

  /** The similarity of two names is the greatest length of a common subsequence in hundredths
      of the longer name, rounded down. */
  lemma ScoreIsTheShare(a: string, b: string, s: string)
    requires Common(s, a, b) && forall t :: Common(t, a, b) ==> |t| <= |s|
    ensures a == "" || b == "" ==> Score(a, b) == 0
    ensures a != "" && b != "" ==>
      var longer := if |a| > |b| then |a| else |b|;
      Score(a, b) * longer <= 100 * |s| < (Score(a, b) + 1) * longer
  {
    var r := LcsIsReached(a, b);
    LcsIsABound(s, a, b);
    if a != "" && b != "" {
      ShortcutAgrees(a, b);
      Quotient(100 * |s|, Max(|a|, |b|));
      hide Score;
    }
  }

  lemma Quotient(x: nat, whole: nat)
    requires whole > 0
    ensures x / whole * whole <= x < (x / whole + 1) * whole
  {
  }

  lemma PercentBounds(part: nat, whole: nat)
    requires part <= whole && whole > 0
    ensures 0 <= Percent(part, whole) <= 100
    ensures Percent(part, whole) == 100 <==> part == whole
  {
    DivisionBounds(part * 100, whole, Percent(part, whole));
  }

  lemma DivisionBounds(x: nat, whole: nat, q: nat)
    requires whole > 0 && x <= 100 * whole && q == x / whole
    ensures q <= 100 && (q == 100 <==> x == 100 * whole)
  {
    assert q * whole <= x < (q + 1) * whole;
    if q <= 99 {
      assert (q + 1) * whole <= 100 * whole;
    }
  }

  /** A percentage, the same both ways, and 100 for equal names only. */
  lemma ScoreIsAPercentage(a: string, b: string)
    ensures 0 <= Score(a, b) <= 100
    ensures Score(a, b) == Score(b, a)
    ensures Score(a, b) == 100 <==> a == b && a != ""
  {
    hide Percent;
    if a != "" && b != "" {
      ShortcutAgrees(a, b);
      ShortcutAgrees(b, a);
      LcsIsSymmetric(a, b);
      LcsOfEqual(a, b);
      PercentBounds(Lcs(a, b), Max(|a|, |b|));
    }
  }

  // ---------------------------------------------------------------- the methods

  method LongestCommonSubsequence(a: string, b: string) returns (r: nat)
    ensures r == Lcs(a, b)
  {
    var m, n := |a|, |b|;
    var dp := new nat[m + 1, n + 1]((_, _) => 0);
    for i := 1 to m + 1
      invariant forall k, l | 0 <= k < i && 0 <= l <= n :: dp[k, l] == Lcs(a[..k], b[..l])
      invariant forall k | i <= k <= m :: dp[k, 0] == 0
    {
      for j := 1 to n + 1
        invariant forall k, l | 0 <= k < i && 0 <= l <= n :: dp[k, l] == Lcs(a[..k], b[..l])
        invariant forall l | 0 <= l < j :: dp[i, l] == Lcs(a[..i], b[..l])
        invariant forall k | i <= k <= m :: dp[k, 0] == 0
      {
        CellRecurrence(a, b, i, j);
        if a[i - 1] == b[j - 1] {
          dp[i, j] := dp[i - 1, j - 1] + 1;
        } else if dp[i - 1, j] > dp[i, j - 1] {
          dp[i, j] := dp[i - 1, j];
        } else {
          dp[i, j] := dp[i, j - 1];
        }
      }
    }
    assert a[..m] == a && b[..n] == b;
    r := dp[m, n];
  }

  lemma CellRecurrence(a: string, b: string, i: nat, j: nat)
    requires 0 < i <= |a| && 0 < j <= |b|
    ensures Lcs(a[..i], b[..j]) ==
      if a[i - 1] == b[j - 1] then Lcs(a[..i - 1], b[..j - 1]) + 1
      else Max(Lcs(a[..i - 1], b[..j]), Lcs(a[..i], b[..j - 1]))
  {
    assert a[..i][..i - 1] == a[..i - 1] && b[..j][..j - 1] == b[..j - 1];
  }

  method ComputeSimilarity(a: string, b: string) returns (r: nat)
    ensures r == Score(a, b)
  {
    hide Percent;
    if |a| == 0 || |b| == 0 {
      return 0;
    }
    if Contains(a, b) || Contains(b, a) {
      var shorter := |a|;
      if |b| < shorter { shorter := |b|; }
      var longer := |a|;
      if |b| > longer { longer := |b|; }
      return Percent(shorter, longer);
    }
    var lcs := LongestCommonSubsequence(a, b);
    var maxLen := |a|;
    if |b| > maxLen { maxLen := |b|; }
    r := Percent(lcs, maxLen);
  }

  /** What findSimilarParams compares: the names without case and separators. */
  function Alike(p: string, e: string): nat
  {
    Score(Normalize(p), Normalize(e))
  }

  /** Expected name i is the first of those most like p, and at least half alike. */
  predicate FirstBest(p: string, expected: seq<string>, i: nat)
  {
    && i < |expected| && Alike(p, expected[i]) >= 50
    && (forall k | 0 <= k < |expected| ::
          Alike(p, expected[k]) < Alike(p, expected[i]) ||
          (Alike(p, expected[k]) == Alike(p, expected[i]) && i <= k))
  }

  /** The inner loop: the suggestion for one parameter name. */
  method BestMatch(p: string, expected: seq<string>) returns (best: Option<nat>)
    ensures best.None? <==> forall i | 0 <= i < |expected| :: Alike(p, expected[i]) < 50
    ensures best.Some? ==> FirstBest(p, expected, best.value)
  {
    hide Score, Normalize;
    best := None;
    var bestScore := 0;
    for i := 0 to |expected|
      invariant best.None? <==> forall k | 0 <= k < i :: Alike(p, expected[k]) < 50
      invariant best.None? ==> bestScore == 0
      invariant best.Some? ==> best.value < i && bestScore == Alike(p, expected[best.value]) >= 50
      invariant best.Some? ==> forall k | 0 <= k < i ::
        Alike(p, expected[k]) < bestScore || (Alike(p, expected[k]) == bestScore && best.value <= k)
    {
      var score := ComputeSimilarity(Normalize(p), Normalize(expected[i]));
      if score > bestScore && score >= 50 {
        best, bestScore := Some(i), score;
      }
    }
  }

  /** Some expected name is the same but for case and separators. */
  predicate Expected(p: string, expected: seq<string>)
  {
    exists i | 0 <= i < |expected| :: Normalize(expected[i]) == Normalize(p)
  }

  /** Suggestions for exactly the provided names that are not expected and have a match,
      each the first of the best. */
  method FindSimilarParams(provided: seq<string>, expected: seq<string>) returns (result: map<string, string>)
    ensures forall p :: p in result <==>
      p in provided && !Expected(p, expected) && exists i | 0 <= i < |expected| :: Alike(p, expected[i]) >= 50
    ensures forall p <- result :: exists i | 0 <= i < |expected| ::
      FirstBest(p, expected, i) && result[p] == expected[i]
  {
    hide Normalize, Alike, FirstBest;
    result := map[];
    var known: set<string> := {};
    for i := 0 to |expected|
      invariant forall x :: x in known <==> exists k | 0 <= k < i :: Normalize(expected[k]) == x
    {
      known := known + {Normalize(expected[i])};
    }
    for i := 0 to |provided|
      invariant forall p :: p in result <==>
        p in provided[..i] && !Expected(p, expected) && exists k | 0 <= k < |expected| :: Alike(p, expected[k]) >= 50
      invariant forall p <- result :: exists k | 0 <= k < |expected| ::
        FirstBest(p, expected, k) && result[p] == expected[k]
    {
      var p := provided[i];
      assert provided[..i + 1] == provided[..i] + [p];
      if Normalize(p) in known {
        continue;
      }
      var best := BestMatch(p, expected);
      if best.Some? {
        ghost var k := best.value;
        assert Alike(p, expected[k]) >= 50 by { BestIsAlike(p, expected, k); }
        result := result[p := expected[best.value]];
      }
    }
    assert provided[..|provided|] == provided;
  }

  lemma BestIsAlike(p: string, expected: seq<string>, i: nat)
    requires FirstBest(p, expected, i)
    ensures i < |expected| && Alike(p, expected[i]) >= 50
  {
  }
}
