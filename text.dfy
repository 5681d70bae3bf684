/**
  The two string operations the front end applies to user input:
  JavaScript's String.prototype.trim (login credentials, poll options)
  and String.prototype.toLowerCase (login e-mail).
 */
module Text {

  /** The characters `trim` strips: ECMAScript WhiteSpace and LineTerminator. */
  predicate IsWhitespace(c: char) {
    || c == ' ' || c == '\t' || c == '\n' || c == '\r'
    || c == '\U{000B}' || c == '\U{000C}'
    || c == '\U{00A0}' || c == '\U{FEFF}' || c == '\U{1680}'
    || ('\U{2000}' <= c <= '\U{200A}')
    || c == '\U{2028}' || c == '\U{2029}' || c == '\U{202F}' || c == '\U{205F}' || c == '\U{3000}'
  }

  /** A string that `trim` turns into the empty string. */
  predicate AllWhitespace(s: string) {
    forall k :: 0 <= k < |s| ==> IsWhitespace(s[k])
  }

  /** The position of the first character at or after `i` that is not
      whitespace, or `|s|` when there is none. */
  function StartIndex(s: string, i: nat): (j: nat)
    requires i <= |s|
    ensures i <= j <= |s|
    ensures forall k :: i <= k < j ==> IsWhitespace(s[k])
    ensures j == |s| || !IsWhitespace(s[j])
    decreases |s| - i
  {
    if i < |s| && IsWhitespace(s[i]) then StartIndex(s, i + 1) else i
  }

  /** The position just after the last character before `hi` that is not
      whitespace, or `lo` when `s[lo..hi]` is all whitespace. */
  function EndIndex(s: string, lo: nat, hi: nat): (j: nat)
    requires lo <= hi <= |s|
    ensures lo <= j <= hi
    ensures forall k :: j <= k < hi ==> IsWhitespace(s[k])
    ensures j == lo || !IsWhitespace(s[j - 1])
    decreases hi
  {
    if lo < hi && IsWhitespace(s[hi - 1]) then EndIndex(s, lo, hi - 1) else hi
  }

  /** `s.trim()`: the piece of `s` between its leading and its trailing whitespace. */
  function Trim(s: string): string {
    var start := StartIndex(s, 0);
    s[start..EndIndex(s, start, |s|)]
  }

  /** `trim` yields a contiguous piece of its input, starting after the
      leading whitespace, with no whitespace at either end; only whitespace
      is cut off, and the result is empty exactly when the input is all
      whitespace. */
  lemma TrimSpec(s: string)
    ensures var start := StartIndex(s, 0); var r := Trim(s);
      && start + |r| <= |s|
      && r == s[start..start + |r|]
      && (forall k :: 0 <= k < start ==> IsWhitespace(s[k]))
      && (forall k :: start + |r| <= k < |s| ==> IsWhitespace(s[k]))
      && (r == [] || (!IsWhitespace(r[0]) && !IsWhitespace(r[|r| - 1])))
      && (r == [] <==> AllWhitespace(s))
  {
    var start := StartIndex(s, 0);
    var end := EndIndex(s, start, |s|);
    var r := Trim(s);
    assert r == s[start..end];
    if r != [] {
      assert r[0] == s[start] && r[|r| - 1] == s[end - 1];
    }
  }

  /** A string with no whitespace at either end is its own trim. */
  lemma TrimOfClean(t: string)
    requires t == [] || (!IsWhitespace(t[0]) && !IsWhitespace(t[|t| - 1]))
    ensures Trim(t) == t
  {
    assert StartIndex(t, 0) == 0;
    assert EndIndex(t, 0, |t|) == |t|;
  }

  /** Trimming a trimmed string changes nothing. */
  lemma TrimIdempotent(s: string)
    ensures Trim(Trim(s)) == Trim(s)
  {
    TrimSpec(s);
    TrimOfClean(Trim(s));
  }

  /** An ASCII capital letter. */
  predicate IsUpperAscii(c: char) {
    'A' <= c <= 'Z'
  }

  /** `c.toLowerCase()` for the ASCII capitals; every other character is kept. */
  function LowerChar(c: char): char {
    if IsUpperAscii(c) then (c as int + 32) as char else c
  }

  /** `s.toLowerCase()`: same length, no ASCII capital left, and every
      character lowered on its own. */
  function ToLower(s: string): (r: string)
    ensures |r| == |s|
    ensures forall k :: 0 <= k < |r| ==> !IsUpperAscii(r[k])
    ensures forall k :: 0 <= k < |s| ==> r[k] == LowerChar(s[k])
    decreases |s|
  {
    if s == [] then [] else [LowerChar(s[0])] + ToLower(s[1..])
  }

  /** Two strings that differ only in the case of ASCII letters lower-case to the same string. */
  lemma {:induction false} ToLowerIgnoresCase(s: string, t: string)
    requires |s| == |t|
    requires forall k :: 0 <= k < |s| ==> LowerChar(s[k]) == LowerChar(t[k])
    ensures ToLower(s) == ToLower(t)
    decreases |s|
  {
    if s != [] {
      ToLowerIgnoresCase(s[1..], t[1..]);
    }
  }

  /** Lower-casing neither creates nor removes whitespace. */
  lemma ToLowerKeepsWhitespace(s: string)
    ensures forall k :: 0 <= k < |s| ==> (IsWhitespace(ToLower(s)[k]) <==> IsWhitespace(s[k]))
  {
  }

  /** Lower-casing twice is lower-casing once. */
  lemma ToLowerIdempotent(s: string)
    ensures ToLower(ToLower(s)) == ToLower(s)
  {
    var t := ToLower(s);
    assert ToLower(t) == t by {
      assert forall k :: 0 <= k < |t| ==> !IsUpperAscii(t[k]);
    }
  }
}
