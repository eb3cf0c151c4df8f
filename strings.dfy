/**
 * The ASCII part of Go's `strings.ToLower`, `strings.ToUpper` and
 * `strings.TrimSpace`, which the environment parsers apply before matching.
 */
module Strings {

  /** ASCII white space as `strings.TrimSpace` sees it: '\t', '\n', '\v', '\f', '\r' and ' '. */
  predicate IsSpace(c: char) {
    c == ' ' || c == '\t' || c == '\n' || c == '\U{000B}' || c == '\U{000C}' || c == '\r'
  }

  predicate IsUpperLetter(c: char) { 'A' <= c <= 'Z' }

  predicate IsLowerLetter(c: char) { 'a' <= c <= 'z' }

  function LowerChar(c: char): (d: char)
    ensures IsUpperLetter(c) ==> IsLowerLetter(d) && d as int == c as int + 32
    ensures !IsUpperLetter(c) ==> d == c
  {
    if IsUpperLetter(c) then (c as int + 32) as char else c
  }

  function UpperChar(c: char): (d: char)
    ensures IsLowerLetter(c) ==> IsUpperLetter(d) && d as int == c as int - 32
    ensures !IsLowerLetter(c) ==> d == c
  {
    if IsLowerLetter(c) then (c as int - 32) as char else c
  }

  /** Letter case never turns a space into a non-space or back. */
  lemma CaseKeepsSpace(c: char)
    ensures IsSpace(LowerChar(c)) == IsSpace(c)
    ensures IsSpace(UpperChar(c)) == IsSpace(c)
  {
  }

  /** `strings.ToLower` on ASCII: every character is lowered, the length is kept. */
  function ToLower(s: string): (r: string)
    ensures |r| == |s|
    ensures forall i :: 0 <= i < |s| ==> r[i] == LowerChar(s[i])
  {
    if s == [] then [] else [LowerChar(s[0])] + ToLower(s[1..])
  }

  /** `strings.ToUpper` on ASCII: every character is raised, the length is kept. */
  function ToUpper(s: string): (r: string)
    ensures |r| == |s|
    ensures forall i :: 0 <= i < |s| ==> r[i] == UpperChar(s[i])
  {
    if s == [] then [] else [UpperChar(s[0])] + ToUpper(s[1..])
  }

  /** A string without upper-case letters is its own lower-case form. */
  lemma LowerKeepsLower(s: string)
    requires forall i :: 0 <= i < |s| ==> !IsUpperLetter(s[i])
    ensures ToLower(s) == s
  {
    assert forall i :: 0 <= i < |s| ==> ToLower(s)[i] == s[i];
  }

  /** Lowering forgets a previous raising, and raising forgets a previous lowering. */
  lemma CaseFolds(s: string)
    ensures ToLower(ToUpper(s)) == ToLower(s)
    ensures ToUpper(ToLower(s)) == ToUpper(s)
  {
    assert forall i :: 0 <= i < |s| ==> ToLower(ToUpper(s))[i] == ToLower(s)[i];
    assert forall i :: 0 <= i < |s| ==> ToUpper(ToLower(s))[i] == ToUpper(s)[i];
  }

  ghost predicate AllSpace(s: string) {
    forall i :: 0 <= i < |s| ==> IsSpace(s[i])
  }

  /** Every character of s[lo..hi] is white space. */
  ghost predicate SpaceBetween(s: string, lo: int, hi: int) {
    forall k :: lo <= k < hi && 0 <= k < |s| ==> IsSpace(s[k])
  }

  /** s[i..j] is s with all leading and trailing white space removed. */
  ghost predicate TrimBounds(s: string, i: int, j: int) {
    && 0 <= i <= j <= |s|
    && SpaceBetween(s, 0, i) && SpaceBetween(s, j, |s|)
    && (i < j ==> !IsSpace(s[i]) && !IsSpace(s[j - 1]))
  }

  /** r is s with all leading and trailing white space removed. */
  ghost predicate IsTrimOf(s: string, r: string) {
    exists i, j :: TrimBounds(s, i, j) && r == s[i..j]
  }

  /** Number of leading white-space characters. */
  function LeadingSpace(s: string): (k: nat)
    ensures k <= |s|
    ensures forall i :: 0 <= i < k ==> IsSpace(s[i])
    ensures k < |s| ==> !IsSpace(s[k])
  {
    if |s| > 0 && IsSpace(s[0]) then 1 + LeadingSpace(s[1..]) else 0
  }

  /** Number of trailing white-space characters. */
  function TrailingSpace(s: string): (k: nat)
    ensures k <= |s|
    ensures forall i :: |s| - k <= i < |s| ==> IsSpace(s[i])
    ensures k < |s| ==> !IsSpace(s[|s| - 1 - k])
  {
    if |s| > 0 && IsSpace(s[|s| - 1]) then 1 + TrailingSpace(s[..|s| - 1]) else 0
  }

  /** `strings.TrimSpace` on ASCII. */
  function TrimSpace(s: string): (r: string)
    ensures IsTrimOf(s, r)
  {
    var a := LeadingSpace(s);
    var t := s[a..];
    var b := TrailingSpace(t);
    assert TrimBounds(s, a, |s| - b);
    t[..|t| - b]
  }

  /** There is only one way to trim a string. */
  lemma {:induction false} TrimIsUnique(s: string, r1: string, r2: string)
    requires IsTrimOf(s, r1) && IsTrimOf(s, r2)
    ensures r1 == r2
  {
    var i1, j1 :| TrimBounds(s, i1, j1) && r1 == s[i1..j1];
    var i2, j2 :| TrimBounds(s, i2, j2) && r2 == s[i2..j2];
    if i1 < j1 && i2 < j2 {
      assert i1 == i2 && j1 == j2;
    }
  }

  /** A string with no white space at either end is its own trim. */
  lemma TrimKeepsUnpadded(s: string)
    requires s != [] ==> !IsSpace(s[0]) && !IsSpace(s[|s| - 1])
    ensures TrimSpace(s) == s
  {
    assert TrimBounds(s, 0, |s|) && s == s[0..|s|];
    TrimIsUnique(s, s, TrimSpace(s));
  }

  /** Surrounding white space does not change the trimmed string. */
  lemma {:induction false} TrimIgnoresPadding(p: string, s: string, q: string)
    requires AllSpace(p) && AllSpace(q)
    ensures TrimSpace(p + s + q) == TrimSpace(s)
  {
    var r := TrimSpace(s);
    var t := p + s + q;
    var i, j :| TrimBounds(s, i, j) && r == s[i..j];
    assert t[|p| + i..|p| + j] == r;
    assert TrimBounds(t, |p| + i, |p| + j);
    TrimIsUnique(t, r, TrimSpace(t));
  }

  /** Raising letters commutes with trimming. */
  lemma {:induction false} TrimOfUpper(s: string)
    ensures TrimSpace(ToUpper(s)) == ToUpper(TrimSpace(s))
  {
    var r := TrimSpace(s);
    var u := ToUpper(s);
    var i, j :| TrimBounds(s, i, j) && r == s[i..j];
    forall k | 0 <= k < |s| ensures IsSpace(u[k]) == IsSpace(s[k]) { CaseKeepsSpace(s[k]); }
    assert u[i..j] == ToUpper(r);
    assert TrimBounds(u, i, j);
    TrimIsUnique(u, ToUpper(r), TrimSpace(u));
  }
}
