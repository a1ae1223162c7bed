/**
 Text helpers from Go's standard library that the calculator relies on:
 `strings.TrimSpace`, `strings.ToUpper` and the calculator's own `contains`.
 Strings are sequences of Unicode scalar values; Go's byte-level UTF-8
 handling (invalid encodings in particular) is not modelled.
 */
module Strings {

  /** Go's `unicode.IsSpace`: the Latin-1 white space characters
      ('\t', '\n', '\v', '\f', '\r', ' ', U+0085, U+00A0) and the other
      characters with the Unicode White_Space property. */
  predicate IsSpace(c: char)
  {
    || c == ' ' || c == '\t' || c == '\n' || c == '\U{000B}' || c == '\U{000C}' || c == '\r'
    || c == '\U{0085}' || c == '\U{00A0}' || c == '\U{1680}'
    || ('\U{2000}' <= c <= '\U{200A}')
    || c == '\U{2028}' || c == '\U{2029}' || c == '\U{202F}' || c == '\U{205F}' || c == '\U{3000}'
  }

  predicate AllSpace(s: string)
  {
    forall i :: 0 <= i < |s| ==> IsSpace(s[i])
  }

  /** The length of the white space at the front of `s`. */
  function LeadingSpaces(s: string): (n: nat)
    ensures n <= |s|
    ensures forall k :: 0 <= k < n ==> IsSpace(s[k])
    ensures n == |s| || !IsSpace(s[n])
  {
    if s == [] || !IsSpace(s[0]) then 0
    else
      var n := LeadingSpaces(s[1..]);
      assert forall k :: 1 <= k < n + 1 ==> s[k] == s[1..][k - 1];
      n + 1
  }

  /** The length of the white space at the back of `s`. */
  function TrailingSpaces(s: string): (n: nat)
    ensures n <= |s|
    ensures forall k :: |s| - n <= k < |s| ==> IsSpace(s[k])
    ensures n == |s| || !IsSpace(s[|s| - 1 - n])
  {
    if s == [] || !IsSpace(s[|s| - 1]) then 0
    else
      var n := TrailingSpaces(s[..|s| - 1]);
      assert forall k :: |s| - 1 - n <= k < |s| - 1 ==> s[k] == s[..|s| - 1][k];
      n + 1
  }

  /** Neither end of `w` is white space. */
  predicate Trimmed(w: string)
  {
    w == [] || (!IsSpace(w[0]) && !IsSpace(w[|w| - 1]))
  }

  /** Go's `strings.TrimSpace`: the white space at the front is cut, then
      the white space at the back of what remains. The result is a slice of
      `s` with neither end white space and only white space around it. */
  function TrimSpace(s: string): (r: string)
    ensures Trimmed(r)
    ensures exists i, j :: 0 <= i <= j <= |s| && r == s[i..j] && AllSpace(s[..i]) && AllSpace(s[j..])
  {
    var i := LeadingSpaces(s);
    var j := |s| - TrailingSpaces(s[i..]);
    CutShape(s, i, j);
    s[i..j]
  }

  /** Cutting `s` at `i`, after its leading white space, and at `j`, before
      the trailing white space of `s[i..]`, leaves a trimmed middle with
      only white space around it. */
  lemma CutShape(s: string, i: nat, j: nat)
    requires i <= j <= |s|
    requires forall k :: 0 <= k < i ==> IsSpace(s[k])
    requires i == |s| || !IsSpace(s[i])
    requires forall k :: j - i <= k < |s| - i ==> IsSpace(s[i..][k])
    requires j == i || !IsSpace(s[i..][j - i - 1])
    ensures Trimmed(s[i..j])
    ensures AllSpace(s[..i]) && AllSpace(s[j..])
  {
    assert forall k :: 0 <= k < i ==> s[..i][k] == s[k];
    assert forall k :: 0 <= k < |s| - j ==> s[j..][k] == s[i..][k + j - i];
    if i < j {
      assert s[i..j][0] == s[i];
      assert s[i..j][j - i - 1] == s[i..][j - i - 1];
    }
  }

  /** White space in front of a string that does not start with white space
      is exactly what LeadingSpaces counts. */
  lemma {:induction false} LeadingSpacesPadded(pre: string, w: string)
    requires AllSpace(pre)
    requires w == [] || !IsSpace(w[0])
    ensures LeadingSpaces(pre + w) == |pre|
  {
    if pre != [] {
      assert (pre + w)[0] == pre[0];
      assert (pre + w)[1..] == pre[1..] + w;
      LeadingSpacesPadded(pre[1..], w);
    } else {
      assert pre + w == w;
    }
  }

  /** White space behind a string that does not end with white space is
      exactly what TrailingSpaces counts. */
  lemma {:induction false} TrailingSpacesPadded(w: string, post: string)
    requires AllSpace(post)
    requires w == [] || !IsSpace(w[|w| - 1])
    ensures TrailingSpaces(w + post) == |post|
  {
    if post != [] {
      assert (w + post)[|w + post| - 1] == post[|post| - 1];
      assert (w + post)[..|w + post| - 1] == w + post[..|post| - 1];
      TrailingSpacesPadded(w, post[..|post| - 1]);
    } else {
      assert w + post == w;
    }
  }

  /** TrimSpace is characterised by its result: whenever `s` is white space,
      then a string with no white space at either end, then white space,
      TrimSpace returns exactly that middle part. */
  lemma TrimSpacePadded(pre: string, w: string, post: string)
    requires AllSpace(pre) && AllSpace(post) && Trimmed(w)
    ensures TrimSpace(pre + w + post) == w
  {
    var s := pre + w + post;
    if w == [] {
      assert s == pre + post;
      assert AllSpace(pre + post);
      LeadingSpacesPadded(pre + post, []);
      assert pre + post + [] == pre + post;
    } else {
      assert s == pre + (w + post);
      LeadingSpacesPadded(pre, w + post);
      assert s[|pre|..] == w + post;
      TrailingSpacesPadded(w, post);
      assert s[|pre|..|s| - |post|] == w;
    }
  }

  /** Go's `unicode.ToUpper` restricted to ASCII letters. */
  function UpperAscii(c: char): char
  {
    if 'a' <= c <= 'z' then (c as int - 32) as char else c
  }

  /** Go's `strings.ToUpper`, letter by letter: no lower-case letter
      survives, each one becomes its capital, and every other character is
      kept. */
  function ToUpper(s: string): (r: string)
    ensures |r| == |s|
    ensures forall i :: 0 <= i < |r| ==> !('a' <= r[i] <= 'z')
    ensures forall i :: 0 <= i < |s| && 'a' <= s[i] <= 'z' ==> r[i] as int == s[i] as int - 32
    ensures forall i :: 0 <= i < |s| && !('a' <= s[i] <= 'z') ==> r[i] == s[i]
  {
    seq(|s|, i requires 0 <= i < |s| => UpperAscii(s[i]))
  }

  /** The calculator's `contains`: a linear scan for an exact match. */
  function Contains(s: seq<string>, item: string): (r: bool)
    ensures r <==> item in s
  {
    if s == [] then false
    else if s[0] == item then true
    else Contains(s[1..], item)
  }
}
