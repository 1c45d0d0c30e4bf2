/**
  The two JavaScript string operations the category filter applies:
  `String.prototype.toLowerCase` and `String.prototype.trim`.
 */
module Text {

  /** Upper-case letters of Basic Latin and Latin-1 (A-Z, and U+00C0-U+00DE except U+00D7). */
  predicate IsUpper(c: char) {
    ('A' <= c <= 'Z') || ('\U{00C0}' <= c <= '\U{00DE}' && c != '\U{00D7}')
  }

  /** Lower-casing of one character; both ranges map to their lower-case letter 0x20 above. */
  function LowerChar(c: char): (r: char)
    ensures IsUpper(c) ==> r as int == c as int + 0x20
    ensures !IsUpper(c) ==> r == c
    ensures !IsUpper(r)
  {
    if IsUpper(c) then (c as int + 0x20) as char else c
  }

  /** `s.toLowerCase()`: each character lower-cased. */
  function Lower(s: string): (r: string)
    ensures |r| == |s|
  {
    if s == [] then [] else [LowerChar(s[0])] + Lower(s[1..])
  }

  lemma {:induction false} LowerAt(s: string)
    ensures forall i :: 0 <= i < |s| ==> Lower(s)[i] == LowerChar(s[i])
    ensures forall i :: 0 <= i < |s| ==> !IsUpper(Lower(s)[i])
  {
    if s != [] {
      LowerAt(s[1..]);
      assert forall i :: 1 <= i < |s| ==> Lower(s)[i] == Lower(s[1..])[i - 1];
    }
  }

  /** The characters `trim` removes: ECMAScript WhiteSpace and LineTerminator. */
  predicate IsSpace(c: char) {
    c == '\t' || c == '\n' || c == '\U{000B}' || c == '\U{000C}' || c == '\r' || c == ' '
    || c == '\U{00A0}' || c == '\U{1680}' || ('\U{2000}' <= c <= '\U{200A}')
    || c == '\U{2028}' || c == '\U{2029}' || c == '\U{202F}' || c == '\U{205F}'
    || c == '\U{3000}' || c == '\U{FEFF}'
  }

  /** Drops the leading white space. */
  function TrimStart(s: string): (r: string)
    ensures |r| <= |s|
  {
    if s != [] && IsSpace(s[0]) then TrimStart(s[1..]) else s
  }

  /** `TrimStart` keeps the suffix after the leading white space. */
  lemma {:induction false} TrimStartMeaning(s: string)
    ensures TrimStart(s) == s[|s| - |TrimStart(s)|..]
    ensures forall i :: 0 <= i < |s| - |TrimStart(s)| ==> IsSpace(s[i])
    ensures TrimStart(s) == [] || !IsSpace(TrimStart(s)[0])
  {
    if s != [] && IsSpace(s[0]) {
      TrimStartMeaning(s[1..]);
      assert forall i :: 1 <= i < |s| ==> s[1..][i - 1] == s[i];
    }
  }

  /** Drops the trailing white space. */
  function TrimEnd(s: string): (r: string)
    ensures |r| <= |s|
  {
    if s != [] && IsSpace(s[|s| - 1]) then TrimEnd(s[..|s| - 1]) else s
  }

  /** `TrimEnd` keeps the prefix before the trailing white space. */
  lemma {:induction false} TrimEndMeaning(s: string)
    ensures TrimEnd(s) == s[..|TrimEnd(s)|]
    ensures forall i :: |TrimEnd(s)| <= i < |s| ==> IsSpace(s[i])
    ensures TrimEnd(s) == [] || !IsSpace(TrimEnd(s)[|TrimEnd(s)| - 1])
  {
    if s != [] && IsSpace(s[|s| - 1]) {
      TrimEndMeaning(s[..|s| - 1]);
    }
  }

  /** `s.trim()`. */
  function Trim(s: string): string {
    TrimEnd(TrimStart(s))
  }

  /** Where the slice `trim` keeps starts and ends in `s`. */
  lemma TrimBounds(s: string) returns (i: int, j: int)
    ensures 0 <= i <= j <= |s| && Trim(s) == s[i..j]
    ensures forall k :: 0 <= k < i ==> IsSpace(s[k])
    ensures forall k :: j <= k < |s| ==> IsSpace(s[k])
  {
    var t := TrimStart(s);
    TrimStartMeaning(s);
    TrimEndMeaning(t);
    i := |s| - |t|;
    j := i + |TrimEnd(t)|;
    forall k | j <= k < |s| ensures IsSpace(s[k]) {
      assert s[k] == t[k - i];
    }
  }

  /** `trim` keeps the slice of `s` between its leading and its trailing white space. */
  lemma TrimMeaning(s: string)
    ensures exists i, j ::
              && 0 <= i <= j <= |s| && Trim(s) == s[i..j]
              && (forall k :: 0 <= k < i ==> IsSpace(s[k]))
              && (forall k :: j <= k < |s| ==> IsSpace(s[k]))
    ensures Trim(s) == [] || (!IsSpace(Trim(s)[0]) && !IsSpace(Trim(s)[|Trim(s)| - 1]))
  {
    var i, j := TrimBounds(s);
    var t := TrimStart(s);
    TrimStartMeaning(s);
    TrimEndMeaning(t);
    if Trim(s) != [] {
      assert Trim(s)[0] == t[0];
    }
  }

  /** The key the category filter compares: `s.toLowerCase().trim()`. */
  function Normalize(s: string): string {
    Trim(Lower(s))
  }
}
