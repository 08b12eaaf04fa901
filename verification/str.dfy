/**
 * The string helpers the field descriptor calls: PHP's `trim` and `strpos`, Laravel's
 * `filled` (the negation of `blank`) and `Str::replaceFirst`.
 */
module Str {
  import opened Php

  /** The characters PHP's `trim` strips by default: space, tab, LF, CR, NUL and vertical tab. */
  predicate IsTrimChar(c: char)
  {
    c == ' ' || c == '\t' || c == '\n' || c == '\r' || c == '\0' || c == '\U{B}'
  }

  /** `ltrim`: the suffix of `s` that is left once leading trim characters are removed. */
  function TrimStart(s: string): (r: string)
    ensures |r| <= |s| && r == s[|s| - |r|..]
    ensures r == [] || !IsTrimChar(r[0])
    ensures forall i :: 0 <= i < |s| - |r| ==> IsTrimChar(s[i])
  {
    if s != [] && IsTrimChar(s[0]) then TrimStart(s[1..]) else s
  }

  /** `rtrim`: the prefix of `s` that is left once trailing trim characters are removed. */
  function TrimEnd(s: string): (r: string)
    ensures |r| <= |s| && r == s[..|r|]
    ensures r == [] || !IsTrimChar(r[|r| - 1])
    ensures forall i :: |r| <= i < |s| ==> IsTrimChar(s[i])
  {
    if s != [] && IsTrimChar(s[|s| - 1]) then TrimEnd(s[..|s| - 1]) else s
  }

  /** `trim`: strips trim characters from both ends. */
  function Trim(s: string): string
  {
    TrimEnd(TrimStart(s))
  }

  /** A string that is not blank: some character of it is not a trim character. */
  predicate Filled(s: string)
  {
    exists i :: 0 <= i < |s| && !IsTrimChar(s[i])
  }

  /** Removing leading trim characters keeps a string filled or blank. */
  lemma {:induction false} TrimStartKeepsFilled(s: string)
    ensures Filled(TrimStart(s)) <==> Filled(s)
  {
    if s != [] && IsTrimChar(s[0]) {
      TrimStartKeepsFilled(s[1..]);
      assert forall i :: 0 < i < |s| ==> s[i] == s[1..][i - 1];
    }
  }

  /** Removing trailing trim characters keeps a string filled or blank. */
  lemma {:induction false} TrimEndKeepsFilled(s: string)
    ensures Filled(TrimEnd(s)) <==> Filled(s)
  {
    if s != [] && IsTrimChar(s[|s| - 1]) {
      TrimEndKeepsFilled(s[..|s| - 1]);
      assert forall i :: 0 <= i < |s| - 1 ==> s[i] == s[..|s| - 1][i];
    }
  }

  /** Laravel's `filled($s)` for a string is `trim($s) !== ''`, which is exactly `Filled`. */
  lemma FilledIsTrimNonEmpty(s: string)
    ensures Filled(s) <==> Trim(s) != ""
  {
    var r := Trim(s);
    TrimStartKeepsFilled(s);
    TrimEndKeepsFilled(TrimStart(s));
    if r != "" {
      assert !IsTrimChar(r[|r| - 1]);
    }
  }

  /** `needle` occurs in `haystack` starting at index `j`. */
  predicate OccursAt(haystack: string, needle: string, j: int)
  {
    0 <= j && j + |needle| <= |haystack| && haystack[j..j + |needle|] == needle
  }

  /** Shifting the haystack by one character shifts every occurrence by one. */
  lemma OccursShift(haystack: string, needle: string, j: int)
    requires haystack != [] && 0 <= j
    ensures OccursAt(haystack, needle, j + 1) <==> OccursAt(haystack[1..], needle, j)
  {
    if j + 1 + |needle| <= |haystack| {
      assert haystack[j + 1..j + 1 + |needle|] == haystack[1..][j..j + |needle|];
    }
  }

  /** PHP's `strpos`: the first index at which `needle` occurs in `haystack`, or `false` (None). */
  function StrPos(haystack: string, needle: string): (r: Option<nat>)
    ensures r.Some? ==> OccursAt(haystack, needle, r.value)
    ensures r.Some? ==> forall j :: 0 <= j < r.value ==> !OccursAt(haystack, needle, j)
    ensures r.None? ==> forall j :: !OccursAt(haystack, needle, j)
    decreases |haystack|
  {
    if |haystack| < |needle| then None
    else if haystack[..|needle|] == needle then Some(0)
    else
      var tail := haystack[1..];
      assert !OccursAt(haystack, needle, 0);
      assert forall j :: 0 <= j ==> (OccursAt(haystack, needle, j + 1) <==> OccursAt(tail, needle, j)) by {
        forall j | 0 <= j ensures OccursAt(haystack, needle, j + 1) <==> OccursAt(tail, needle, j) {
          OccursShift(haystack, needle, j);
        }
      }
      match StrPos(tail, needle)
      case None =>
        assert forall j :: !OccursAt(haystack, needle, j) by {
          forall j ensures !OccursAt(haystack, needle, j) {
            if j > 0 { assert !OccursAt(tail, needle, j - 1); }
          }
        }
        None
      case Some(i) =>
        assert forall j :: 0 <= j < i + 1 ==> !OccursAt(haystack, needle, j) by {
          forall j | 0 < j < i + 1 ensures !OccursAt(haystack, needle, j) {
            assert !OccursAt(tail, needle, j - 1);
          }
        }
        Some(i + 1)
  }

  /**
   * `Str::replaceFirst($search, $replace, $subject)`: an empty search leaves the subject
   * as it is; otherwise the first occurrence of `search`, if any, is replaced.
   */
  function ReplaceFirst(search: string, replace: string, subject: string): (r: string)
    ensures search == "" ==> r == subject
    ensures (forall j :: !OccursAt(subject, search, j)) ==> r == subject
    ensures search != "" && (exists j :: OccursAt(subject, search, j)) ==>
              |r| == |subject| - |search| + |replace|
    ensures forall p :: search != "" && OccursAt(subject, search, p)
                        && (forall j :: 0 <= j < p ==> !OccursAt(subject, search, j)) ==>
              r == subject[..p] + replace + subject[p + |search|..]
  {
    if search == "" then subject
    else match StrPos(subject, search)
      case None => subject
      case Some(p) => subject[..p] + replace + subject[p + |search|..]
  }

  /** Removing the first occurrence of a non-empty prefix undoes prepending it. */
  lemma ReplaceFirstStripsPrefix(prefix: string, s: string)
    requires prefix != ""
    ensures ReplaceFirst(prefix, "", prefix + s) == s
  {
    assert OccursAt(prefix + s, prefix, 0);
    var p := StrPos(prefix + s, prefix);
    assert p == Some(0);
    assert (prefix + s)[|prefix|..] == s;
  }
}
