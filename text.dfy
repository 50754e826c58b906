/**
 * The string operations the classifier and the settings store rely on:
 * JavaScript's `toLowerCase`, `includes`, `startsWith`, `endsWith` and
 * `Array.prototype.join`, on strings as sequences of characters.
 */
module Text {

  predicate IsUpper(c: char) {
    'A' <= c <= 'Z'
  }

  /** Lower-cases one character; only the ASCII letters A-Z change. */
  function LowerChar(c: char): (d: char)
    ensures !IsUpper(d)
    ensures IsUpper(c) ==> d as int - c as int == 32
    ensures !IsUpper(c) ==> d == c
  {
    if IsUpper(c) then (c as int + 32) as char else c
  }

  /** Model of `s.toLowerCase()` restricted to ASCII letters. */
  function Lower(s: string): (r: string)
    ensures |r| == |s|
    ensures forall i :: 0 <= i < |s| ==> r[i] == LowerChar(s[i])
  {
    seq(|s|, i requires 0 <= i < |s| => LowerChar(s[i]))
  }

  predicate NoUpper(s: string) {
    forall i :: 0 <= i < |s| ==> !IsUpper(s[i])
  }

  lemma LowerHasNoUpper(s: string)
    ensures NoUpper(Lower(s))
  {
  }

  /** A string without upper-case letters is its own lower-case form. */
  lemma LowerOfNoUpper(s: string)
    requires NoUpper(s)
    ensures Lower(s) == s
  {
  }

  /** Lower-casing twice is lower-casing once. */
  lemma LowerIdempotent(s: string)
    ensures Lower(Lower(s)) == Lower(s)
  {
    LowerHasNoUpper(s);
    LowerOfNoUpper(Lower(s));
  }

  /** `s.startsWith(p)` */
  predicate HasPrefix(s: string, p: string) {
    |p| <= |s| && s[..|p|] == p
  }

  /** `s.endsWith(p)` */
  predicate HasSuffix(s: string, p: string) {
    |p| <= |s| && s[|s| - |p|..] == p
  }

  /** `s.includes(p)`: `p` occurs in `s` at some offset. */
  predicate Includes(s: string, p: string) {
    exists i | 0 <= i <= |s| :: HasPrefix(s[i..], p)
  }

  lemma IncludesAt(s: string, p: string, i: nat)
    requires i + |p| <= |s| && s[i..i + |p|] == p
    ensures Includes(s, p)
  {
    assert HasPrefix(s[i..], p);
  }

  /** The empty string occurs in every string. */
  lemma IncludesEmpty(s: string)
    ensures Includes(s, "")
  {
    assert HasPrefix(s[0..], "");
  }

  lemma PrefixIsIncluded(s: string, p: string)
    requires HasPrefix(s, p)
    ensures Includes(s, p)
  {
    assert s[0..] == s;
  }

  lemma SuffixIsIncluded(s: string, p: string)
    requires HasSuffix(s, p)
    ensures Includes(s, p)
  {
    IncludesAt(s, p, |s| - |p|);
  }

  /** A pattern holding a character the text lacks cannot occur in the text. */
  lemma NotIncludedByMissingChar(s: string, p: string, c: char)
    requires c in p && c !in s
    ensures !Includes(s, p)
  {
  }

  /** Model of `parts.join(sep)`. */
  function Join(parts: seq<string>, sep: string): (r: string)
    ensures |parts| == 1 ==> r == parts[0]
    ensures |parts| == 0 ==> r == ""
  {
    if |parts| == 0 then ""
    else if |parts| == 1 then parts[0]
    else parts[0] + sep + Join(parts[1..], sep)
  }

  /** A joined list of at least two parts contains the separator. */
  lemma {:induction false} JoinContainsSeparator(parts: seq<string>, sep: string)
    requires |parts| >= 2
    ensures Includes(Join(parts, sep), sep)
  {
    IncludesAt(Join(parts, sep), sep, |parts[0]|);
  }
}
