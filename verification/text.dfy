/** Ordinal `String.Replace(oldValue, newValue)`: every leftmost, non-overlapping
    occurrence of `oldValue` is replaced, scanning from the start of the string. */
module Text {

  /** `pat` occurs in `s` starting at index `i`. */
  predicate OccursAt(s: string, pat: string, i: int)
  {
    0 <= i && i + |pat| <= |s| && MatchesFrom(s, pat, i, 0)
  }

  /** The characters of `pat` from `d` on agree with those of `s` from `i + d` on. */
  predicate MatchesFrom(s: string, pat: string, i: nat, d: nat)
    requires i + |pat| <= |s|
    decreases |pat| - d
  {
    d >= |pat| || (s[i + d] == pat[d] && MatchesFrom(s, pat, i, d + 1))
  }

  /** Character-wise matching is slice equality. */
  lemma {:induction false} MatchesFromSlice(s: string, pat: string, i: nat, d: nat)
    requires i + |pat| <= |s| && d <= |pat|
    ensures MatchesFrom(s, pat, i, d) <==> s[i + d..i + |pat|] == pat[d..]
    decreases |pat| - d
  {
    if d < |pat| {
      MatchesFromSlice(s, pat, i, d + 1);
      assert s[i + d..i + |pat|] == [s[i + d]] + s[i + d + 1..i + |pat|];
      assert pat[d..] == [pat[d]] + pat[d + 1..];
    }
  }

  /** `OccursAt` is slice equality. */
  lemma OccursAtSlice(s: string, pat: string, i: int)
    ensures OccursAt(s, pat, i) <==> 0 <= i && i + |pat| <= |s| && s[i..i + |pat|] == pat
  {
    if 0 <= i && i + |pat| <= |s| {
      MatchesFromSlice(s, pat, i, 0);
    }
  }

  /** `pat` occurs somewhere in `s`. */
  ghost predicate Occurs(s: string, pat: string)
  {
    exists i :: OccursAt(s, pat, i)
  }

  /** Number of occurrences found by a left-to-right scan from index `i` that
      skips past each occurrence it finds (so overlapping occurrences are
      counted once). */
  function CountFrom(s: string, pat: string, i: nat): nat
    requires |pat| > 0 && i <= |s|
    decreases |s| - i
  {
    if |s| - i < |pat| then 0
    else if OccursAt(s, pat, i) then 1 + CountFrom(s, pat, i + |pat|)
    else CountFrom(s, pat, i + 1)
  }

  /** Number of occurrences `Replace` replaces. */
  function Count(s: string, pat: string): nat
    requires |pat| > 0
  {
    CountFrom(s, pat, 0)
  }

  /** The output of the scan from index `i` on: the text from `i` with each
      occurrence found replaced. */
  function ReplaceFrom(s: string, pat: string, rep: string, i: nat): string
    requires |pat| > 0 && i <= |s|
    decreases |s| - i
  {
    if |s| - i < |pat| then s[i..]
    else if OccursAt(s, pat, i) then rep + ReplaceFrom(s, pat, rep, i + |pat|)
    else [s[i]] + ReplaceFrom(s, pat, rep, i + 1)
  }

  /** `s.Replace(pat, rep)`; .NET refuses an empty `pat`, hence the precondition. */
  function Replace(s: string, pat: string, rep: string): string
    requires |pat| > 0
  {
    ReplaceFrom(s, pat, rep, 0)
  }

  /** Each occurrence the scan replaces changes the length by the difference
      between the replacement's length and the pattern's. */
  lemma {:induction false} ReplaceFromLength(s: string, pat: string, rep: string, i: nat)
    requires |pat| > 0 && i <= |s|
    ensures |ReplaceFrom(s, pat, rep, i)| == |s| - i + CountFrom(s, pat, i) * (|rep| - |pat|)
    decreases |s| - i
  {
    if |s| - i < |pat| {
    } else if OccursAt(s, pat, i) {
      ScanMatch(s, pat, rep, i);
      ReplaceFromLength(s, pat, rep, i + |pat|);
      var c := CountFrom(s, pat, i + |pat|);
      assert CountFrom(s, pat, i) == 1 + c;
      MulSucc(c, |rep| - |pat|);
    } else {
      ScanSkip(s, pat, rep, i);
      ReplaceFromLength(s, pat, rep, i + 1);
      assert CountFrom(s, pat, i) == CountFrom(s, pat, i + 1);
    }
  }

  /** `(1 + c) * d` distributes. */
  lemma MulSucc(c: int, d: int)
    ensures (1 + c) * d == d + c * d
  {
  }

  /** The length law of `Replace`. */
  lemma ReplaceLength(s: string, pat: string, rep: string)
    requires |pat| > 0
    ensures |Replace(s, pat, rep)| == |s| + Count(s, pat) * (|rep| - |pat|)
  {
    ReplaceFromLength(s, pat, rep, 0);
  }

  /** Where the pattern does not occur from `i` on, the scan copies the rest. */
  lemma {:induction false} ReplaceFromAbsent(s: string, pat: string, rep: string, i: nat)
    requires |pat| > 0 && i <= |s|
    requires forall j :: i <= j ==> !OccursAt(s, pat, j)
    ensures ReplaceFrom(s, pat, rep, i) == s[i..]
    decreases |s| - i
  {
    if |s| - i >= |pat| {
      assert !OccursAt(s, pat, i);
      ReplaceFromAbsent(s, pat, rep, i + 1);
      ConsDrop(s, i);
    }
  }

  /** Replacing a pattern that does not occur leaves the string unchanged. */
  lemma ReplaceAbsent(s: string, pat: string, rep: string)
    requires |pat| > 0
    requires !Occurs(s, pat)
    ensures Replace(s, pat, rep) == s
  {
    ReplaceFromAbsent(s, pat, rep, 0);
  }

  /** The suffix from `i` is its first character followed by the suffix after it. */
  lemma ConsDrop(s: string, i: nat)
    requires i < |s|
    ensures [s[i]] + s[i + 1..] == s[i..]
  {
  }

  /** The suffix from an occurrence is the pattern followed by what comes after it. */
  lemma MatchDrop(s: string, pat: string, i: nat)
    requires OccursAt(s, pat, i)
    ensures pat + s[i + |pat|..] == s[i..]
  {
    OccursAtSlice(s, pat, i);
    assert s[i..] == s[i..i + |pat|] + s[i + |pat|..];
  }

  /** A suffix of a suffix is a suffix. */
  lemma DropDrop(s: string, m: nat, i: nat)
    requires m + i <= |s|
    ensures s[m..][i..] == s[m + i..]
  {
  }

  /** One scanning step past an index where the pattern does not start. */
  lemma ScanSkip(s: string, pat: string, rep: string, i: nat)
    requires |pat| > 0 && i + |pat| <= |s|
    requires !OccursAt(s, pat, i)
    ensures ReplaceFrom(s, pat, rep, i) == [s[i]] + ReplaceFrom(s, pat, rep, i + 1)
  {
  }

  /** One scanning step over an occurrence of the pattern. */
  lemma ScanMatch(s: string, pat: string, rep: string, i: nat)
    requires |pat| > 0
    requires OccursAt(s, pat, i)
    ensures ReplaceFrom(s, pat, rep, i) == rep + ReplaceFrom(s, pat, rep, i + |pat|)
  {
  }

  /** Putting back the first character of a slice. */
  lemma ConsSlice(s: string, i: nat, k: nat, tail: string)
    requires i < k <= |s|
    ensures [s[i]] + (s[i + 1..k] + tail) == s[i..k] + tail
  {
    assert [s[i]] + s[i + 1..k] == s[i..k];
  }

  /** At the first occurrence `k` from `i` on, the text before it is kept, the
      occurrence becomes the replacement, and the scan resumes after it. */
  lemma {:induction false} ReplaceFromFirstOccurrence(s: string, pat: string, rep: string, i: nat, k: nat)
    requires |pat| > 0 && i <= k
    requires OccursAt(s, pat, k)
    requires forall j :: i <= j < k ==> !OccursAt(s, pat, j)
    ensures ReplaceFrom(s, pat, rep, i) == s[i..k] + (rep + ReplaceFrom(s, pat, rep, k + |pat|))
    decreases k - i
  {
    if i < k {
      ScanSkip(s, pat, rep, i);
      ReplaceFromFirstOccurrence(s, pat, rep, i + 1, k);
      ConsSlice(s, i, k, rep + ReplaceFrom(s, pat, rep, k + |pat|));
    } else {
      ScanMatch(s, pat, rep, k);
      assert s[i..k] == [];
    }
  }

  /** An occurrence at `i` in the suffix from `m` is an occurrence at `m + i`
      in the whole string, and conversely. */
  lemma OccursAtSuffix(s: string, pat: string, m: nat, i: nat)
    requires m + i <= |s|
    ensures OccursAt(s, pat, m + i) <==> OccursAt(s[m..], pat, i)
  {
    OccursAtSlice(s, pat, m + i);
    OccursAtSlice(s[m..], pat, i);
    if m + i + |pat| <= |s| {
      assert s[m..][i..i + |pat|] == s[m + i..m + i + |pat|];
    }
  }

  /** The scan from `m + i` is the scan of the suffix from `m`, started at `i`:
      resuming after an occurrence replaces the rest of the string as a string
      of its own. */
  lemma {:induction false} ReplaceFromSuffix(s: string, pat: string, rep: string, m: nat, i: nat)
    requires |pat| > 0 && m + i <= |s|
    ensures ReplaceFrom(s, pat, rep, m + i) == ReplaceFrom(s[m..], pat, rep, i)
    decreases |s| - m - i
  {
    if |s| - (m + i) < |pat| {
      DropDrop(s, m, i);
    } else if OccursAt(s, pat, m + i) {
      ReplaceFromSuffix(s, pat, rep, m, i + |pat|);
      SuffixMatchStep(s, pat, rep, m, i);
    } else {
      ReplaceFromSuffix(s, pat, rep, m, i + 1);
      SuffixSkipStep(s, pat, rep, m, i);
    }
  }

  /** A match step taken in the whole string and in the suffix alike. */
  lemma SuffixMatchStep(s: string, pat: string, rep: string, m: nat, i: nat)
    requires |pat| > 0 && m + i + |pat| <= |s|
    requires OccursAt(s, pat, m + i)
    requires ReplaceFrom(s, pat, rep, m + i + |pat|) == ReplaceFrom(s[m..], pat, rep, i + |pat|)
    ensures ReplaceFrom(s, pat, rep, m + i) == ReplaceFrom(s[m..], pat, rep, i)
  {
    OccursAtSuffix(s, pat, m, i);
    ScanMatch(s, pat, rep, m + i);
    ScanMatch(s[m..], pat, rep, i);
  }

  /** A skip step taken in the whole string and in the suffix alike. */
  lemma SuffixSkipStep(s: string, pat: string, rep: string, m: nat, i: nat)
    requires |pat| > 0 && m + i + |pat| <= |s|
    requires !OccursAt(s, pat, m + i)
    requires ReplaceFrom(s, pat, rep, m + i + 1) == ReplaceFrom(s[m..], pat, rep, i + 1)
    ensures ReplaceFrom(s, pat, rep, m + i) == ReplaceFrom(s[m..], pat, rep, i)
  {
    OccursAtSuffix(s, pat, m, i);
    ScanSkip(s, pat, rep, m + i);
    ScanSkip(s[m..], pat, rep, i);
  }

  /** `Replace` at the first occurrence of the pattern: the text before it is
      kept, the occurrence becomes the replacement, and the rest of the string
      after it is replaced as a string of its own. */
  lemma ReplaceFirstOccurrence(s: string, pat: string, rep: string, k: nat)
    requires |pat| > 0
    requires OccursAt(s, pat, k)
    requires forall j :: 0 <= j < k ==> !OccursAt(s, pat, j)
    ensures Replace(s, pat, rep) == s[..k] + rep + Replace(s[k + |pat|..], pat, rep)
  {
    ReplaceFromFirstOccurrence(s, pat, rep, 0, k);
    ReplaceFromSuffix(s, pat, rep, k + |pat|, 0);
  }

  /** Replacing a pattern by itself is the identity. */
  lemma {:induction false} ReplaceFromSelf(s: string, pat: string, i: nat)
    requires |pat| > 0 && i <= |s|
    ensures ReplaceFrom(s, pat, pat, i) == s[i..]
    decreases |s| - i
  {
    if |s| - i < |pat| {
    } else if OccursAt(s, pat, i) {
      ReplaceFromSelf(s, pat, i + |pat|);
      SelfMatchStep(s, pat, i);
    } else {
      ReplaceFromSelf(s, pat, i + 1);
      SelfSkipStep(s, pat, i);
    }
  }

  /** A match step of `ReplaceFromSelf`: the occurrence is put back as it was. */
  lemma SelfMatchStep(s: string, pat: string, i: nat)
    requires |pat| > 0 && OccursAt(s, pat, i)
    requires ReplaceFrom(s, pat, pat, i + |pat|) == s[i + |pat|..]
    ensures ReplaceFrom(s, pat, pat, i) == s[i..]
  {
    ScanMatch(s, pat, pat, i);
    MatchDrop(s, pat, i);
  }

  /** A skip step of `ReplaceFromSelf`: the character is copied. */
  lemma SelfSkipStep(s: string, pat: string, i: nat)
    requires |pat| > 0 && i + |pat| <= |s| && !OccursAt(s, pat, i)
    requires ReplaceFrom(s, pat, pat, i + 1) == s[i + 1..]
    ensures ReplaceFrom(s, pat, pat, i) == s[i..]
  {
    ScanSkip(s, pat, pat, i);
    ConsDrop(s, i);
  }

  /** Replacing a pattern by itself leaves the string unchanged. */
  lemma ReplaceSelf(s: string, pat: string)
    requires |pat| > 0
    ensures Replace(s, pat, pat) == s
  {
    ReplaceFromSelf(s, pat, 0);
  }
}
