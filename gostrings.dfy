/**
 * The handful of Go standard-library string operations that the scraper
 * applies to cell text, modelled exactly (strings.HasSuffix, strings.TrimLeft,
 * strings.Replace with n = -1 and a non-empty pattern, and the anchored lazy match `^(.*?)/`).
 * The model reads a Go string as its runes (the text is taken to be valid
 * UTF-8); a Dafny `char` stands for one rune. The cutset and the patterns
 * used here are ASCII, so this agrees with Go's byte-wise operations.
 */
module GoStrings {
  import opened Wrappers

  /** strings.HasSuffix(s, suffix). */
  predicate HasSuffix(s: string, suffix: string) {
    |suffix| <= |s| && s[|s| - |suffix|..] == suffix
  }

  /** Any string followed by `suffix` ends with `suffix`. */
  lemma HasSuffixAppend(p: string, suffix: string)
    ensures HasSuffix(p + suffix, suffix)
  {
    assert (p + suffix)[|p|..] == suffix;
  }

  // ---------------------------------------------------------------------------
  // strings.TrimLeft
  // ---------------------------------------------------------------------------

  /**
   * strings.TrimLeft(s, cutset): removes every leading rune that occurs
   * ANYWHERE in `cutset` (a set of runes, not a prefix).
   */
  function TrimLeft(s: string, cutset: string): (r: string)
    ensures |r| <= |s| && r == s[|s| - |r|..]
    ensures forall i :: 0 <= i < |s| - |r| ==> s[i] in cutset
    ensures r == [] || r[0] !in cutset
    decreases |s|
  {
    if |s| > 0 && s[0] in cutset then TrimLeft(s[1..], cutset) else s
  }

  /**
   * TrimLeft is the unique split point: if s[..k] is made of cutset runes and
   * s[k] (if any) is not, TrimLeft returns exactly s[k..].
   */
  lemma {:induction false} TrimLeftUnique(s: string, cutset: string, k: nat)
    requires k <= |s|
    requires forall i :: 0 <= i < k ==> s[i] in cutset
    requires k == |s| || s[k] !in cutset
    ensures TrimLeft(s, cutset) == s[k..]
    decreases k
  {
    if k > 0 {
      assert s[0] in cutset;
      TrimLeftUnique(s[1..], cutset, k - 1);
      assert s[1..][k - 1..] == s[k..];
    }
  }

  /** Trimming twice trims nothing more. */
  lemma TrimLeftIdempotent(s: string, cutset: string)
    ensures TrimLeft(TrimLeft(s, cutset), cutset) == TrimLeft(s, cutset)
  {
    var r := TrimLeft(s, cutset);
    TrimLeftUnique(r, cutset, 0);
  }

  // ---------------------------------------------------------------------------
  // strings.Replace(s, pat, rep, -1)
  // ---------------------------------------------------------------------------

  /** `pat` occurs in `s` starting at index i. */
  predicate OccursAt(s: string, pat: string, i: nat) {
    i + |pat| <= |s| && s[i..i + |pat|] == pat
  }

  /**
   * strings.Replace(s, pat, rep, -1): scans left to right and replaces every
   * non-overlapping occurrence of `pat`; text produced by a replacement is
   * never scanned again. Only a non-empty pattern is modelled: the scraper
   * always passes one.
   */
  function ReplaceAll(s: string, pat: string, rep: string): string
    requires |pat| > 0
    decreases |s|
  {
    if |s| < |pat| then s
    else if s[..|pat|] == pat then rep + ReplaceAll(s[|pat|..], pat, rep)
    else [s[0]] + ReplaceAll(s[1..], pat, rep)
  }

  /** A string in which `pat` does not occur is left as it is. */
  lemma {:induction false} ReplaceAbsent(s: string, pat: string, rep: string)
    requires |pat| > 0
    requires forall i :: 0 <= i < |s| ==> !OccursAt(s, pat, i)
    ensures ReplaceAll(s, pat, rep) == s
    decreases |s|
  {
    if |s| >= |pat| {
      assert !OccursAt(s, pat, 0);
      forall i | 0 <= i < |s| - 1 ensures !OccursAt(s[1..], pat, i) {
        assert !OccursAt(s, pat, i + 1);
        if i + |pat| <= |s| - 1 {
          assert s[1..][i..i + |pat|] == s[i + 1..i + 1 + |pat|];
        }
      }
      ReplaceAbsent(s[1..], pat, rep);
      assert [s[0]] + s[1..] == s;
    }
  }

  /**
   * A prefix in which no occurrence of `pat` starts passes through untouched:
   * replacement only happens in what follows.
   */
  lemma {:induction false} ReplaceAfterClean(s: string, t: string, pat: string, rep: string)
    requires |pat| > 0
    requires forall i :: 0 <= i < |s| ==> !OccursAt(s + t, pat, i)
    ensures ReplaceAll(s + t, pat, rep) == s + ReplaceAll(t, pat, rep)
    decreases |s|
  {
    if s != [] {
      var st := s + t;
      CleanAfterFirst(s, t, pat);
      ReplaceAfterClean(s[1..], t, pat, rep);
      ReplacePassesFirst(st, pat, rep);
      assert [s[0]] + (s[1..] + ReplaceAll(t, pat, rep)) == s + ReplaceAll(t, pat, rep);
    } else {
      assert s + t == t;
    }
  }

  /** Dropping the first character of a clean prefix leaves a clean prefix. */
  lemma CleanAfterFirst(s: string, t: string, pat: string)
    requires s != []
    requires forall i :: 0 <= i < |s| ==> !OccursAt(s + t, pat, i)
    ensures (s + t)[1..] == s[1..] + t
    ensures !OccursAt(s + t, pat, 0)
    ensures forall i :: 0 <= i < |s| - 1 ==> !OccursAt(s[1..] + t, pat, i)
  {
    var st := s + t;
    assert st[1..] == s[1..] + t;
    assert !OccursAt(st, pat, 0);
    forall i | 0 <= i < |s| - 1 ensures !OccursAt(s[1..] + t, pat, i) {
      assert !OccursAt(st, pat, i + 1);
      if i + |pat| <= |st| - 1 {
        assert st[1..][i..i + |pat|] == st[i + 1..i + 1 + |pat|];
      }
    }
  }

  /** Where no occurrence starts, the first character is copied. */
  lemma ReplacePassesFirst(s: string, pat: string, rep: string)
    requires |pat| > 0 && s != [] && !OccursAt(s, pat, 0)
    ensures ReplaceAll(s, pat, rep) == [s[0]] + ReplaceAll(s[1..], pat, rep)
  {
    if |s| < |pat| {
      ReplaceAbsentShort(s[1..], pat, rep);
    }
  }

  /** A string shorter than the pattern is left alone. */
  lemma ReplaceAbsentShort(s: string, pat: string, rep: string)
    requires 0 < |pat| && |s| < |pat|
    ensures ReplaceAll(s, pat, rep) == s
  {
  }

  /** Deleting occurrences never makes a string longer. */
  lemma {:induction false} DeleteShortens(s: string, pat: string)
    requires |pat| > 0
    ensures |ReplaceAll(s, pat, "")| <= |s|
    decreases |s|
  {
    if |s| >= |pat| {
      if s[..|pat|] == pat {
        DeleteShortens(s[|pat|..], pat);
      } else {
        DeleteShortens(s[1..], pat);
      }
    }
  }

  // ---------------------------------------------------------------------------
  // The anchored lazy match `^(.*?)/`
  // ---------------------------------------------------------------------------

  /**
   * Group 1 of Go's `^(.*?)/`: the text before the first `/`. Go's `.` does
   * not match a newline, so there is no match when a newline comes before
   * the first `/` (or when there is no `/` at all).
   */
  function TextBeforeSlash(s: string): (r: Option<string>)
    ensures r.Some? ==> |r.value| < |s| && s[..|r.value|] == r.value && s[|r.value|] == '/'
    ensures r.Some? ==> '/' !in r.value && '\n' !in r.value
    ensures r.None? ==> forall k :: 0 <= k < |s| && s[k] == '/' ==> '\n' in s[..k]
    decreases |s|
  {
    if s == [] then None
    else if s[0] == '/' then Some([])
    else if s[0] == '\n' then None
    else match TextBeforeSlash(s[1..])
      case None => None
      case Some(t) => Some([s[0]] + t)
  }
}
