/** The two JavaScript string built-ins the manifest patch relies on:
    `String.prototype.includes` and `String.prototype.replace` with a string pattern. */
module Strings {
  import opened Wrappers

  /** `pat` occurs in `s` starting at index `i`. */
  predicate OccursAt(s: string, pat: string, i: nat)
  {
    i + |pat| <= |s| && s[i..i + |pat|] == pat
  }

  /** The first position at which `pat` occurs in `s`, or None; for the ASCII patterns used here this is
      what `s.indexOf(pat) >= 0` tests (positions count characters, not UTF-16 code units). */
  function IndexOf(s: string, pat: string): Option<nat>
    decreases |s|
  {
    if |s| < |pat| then None
    else if s[..|pat|] == pat then Some(0)
    else
      match IndexOf(s[1..], pat)
      case None => None
      case Some(k) => Some(k + 1)
  }

  /** `indexOf` finds the first occurrence, and reports none only when there is none. */
  lemma {:induction false} IndexOfSpec(s: string, pat: string)
    ensures IndexOf(s, pat).Some? ==> OccursAt(s, pat, IndexOf(s, pat).value)
    ensures IndexOf(s, pat).Some? ==> forall j: nat :: j < IndexOf(s, pat).value ==> !OccursAt(s, pat, j)
    ensures IndexOf(s, pat).None? ==> forall j: nat :: !OccursAt(s, pat, j)
    decreases |s|
  {
    if |s| >= |pat| && s[..|pat|] != pat {
      IndexOfSpec(s[1..], pat);
      assert !OccursAt(s, pat, 0);
      forall j: nat | j > 0
        ensures OccursAt(s, pat, j) <==> OccursAt(s[1..], pat, j - 1)
      {
        OccursShift(s, pat, j - 1);
      }
    }
  }

  /** An occurrence in the tail is an occurrence one position further in the whole. */
  lemma OccursShift(s: string, pat: string, j: nat)
    requires |s| > 0
    ensures OccursAt(s, pat, j + 1) <==> OccursAt(s[1..], pat, j)
  {
    if j + 1 + |pat| <= |s| {
      assert s[1..][j..j + |pat|] == s[j + 1..j + 1 + |pat|];
    }
  }

  /** `s.includes(pat)` */
  predicate Contains(s: string, pat: string)
  {
    IndexOf(s, pat).Some?
  }

  /** `s.replace(pat, rep)` with a string pattern and a replacement that holds no `$` patterns:
      only the first occurrence is replaced, and `rep` is inserted literally. */
  function ReplaceFirst(s: string, pat: string, rep: string): string
  {
    IndexOfSpec(s, pat);
    match IndexOf(s, pat)
    case None => s
    case Some(i) => s[..i] + rep + s[i + |pat|..]
  }

  /** Without an occurrence `replace` keeps the string; with one, it splices `rep` in place
      of the first occurrence and keeps the rest. */
  lemma ReplaceFirstSpec(s: string, pat: string, rep: string)
    ensures !Contains(s, pat) ==> ReplaceFirst(s, pat, rep) == s
    ensures Contains(s, pat) ==>
      exists i: nat ::
        && OccursAt(s, pat, i)
        && (forall j: nat :: j < i ==> !OccursAt(s, pat, j))
        && ReplaceFirst(s, pat, rep) == s[..i] + rep + s[i + |pat|..]
  {
    IndexOfSpec(s, pat);
    if Contains(s, pat) {
      var i := IndexOf(s, pat).value;
      assert OccursAt(s, pat, i);
    }
  }

  /** `includes` holds exactly when some occurrence exists. */
  lemma ContainsIff(s: string, pat: string)
    ensures Contains(s, pat) <==> exists i: nat :: OccursAt(s, pat, i)
  {
    IndexOfSpec(s, pat);
    if Contains(s, pat) {
      assert OccursAt(s, pat, IndexOf(s, pat).value);
    }
  }

  /** A witnessed occurrence makes `includes` true. */
  lemma ContainsAt(s: string, pat: string, i: nat)
    requires OccursAt(s, pat, i)
    ensures Contains(s, pat)
  {
    ContainsIff(s, pat);
  }

  /** Where a pattern occurs, so does each of its prefixes. */
  lemma PrefixOccurs(s: string, pat: string, n: nat, i: nat)
    requires OccursAt(s, pat, i) && n <= |pat|
    ensures OccursAt(s, pat[..n], i)
  {
    assert s[i..i + n] == s[i..i + |pat|][..n];
  }

  /** A pattern longer than the string never occurs, so `replace` leaves the string as is. */
  lemma ReplaceFirstShort(s: string, pat: string, rep: string)
    requires |s| < |pat|
    ensures !Contains(s, pat)
    ensures ReplaceFirst(s, pat, rep) == s
  {
  }

  /** After replacing, the replacement text is present, and the text before the replaced
      occurrence is kept. */
  lemma ReplaceFirstInserts(s: string, pat: string, rep: string)
    requires Contains(s, pat)
    ensures Contains(ReplaceFirst(s, pat, rep), rep)
    ensures |ReplaceFirst(s, pat, rep)| == |s| - |pat| + |rep|
  {
    IndexOfSpec(s, pat);
    var i := IndexOf(s, pat).value;
    var r := ReplaceFirst(s, pat, rep);
    assert r == s[..i] + rep + s[i + |pat|..];
    assert r[i..i + |rep|] == rep;
    ContainsAt(r, rep, i);
  }
}
