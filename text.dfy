/** The three JavaScript string built-ins the chat widget relies on:
    `String.prototype.trim`, `String.prototype.toLowerCase` and
    `String.prototype.includes`. Strings are sequences of Unicode scalar
    values (`char`). */
module Text {

  /** The characters `trim` removes: the WhiteSpace and LineTerminator
      code points of ECMAScript (tab, line feed, vertical tab, form feed,
      carriage return, space, no-break space, the Zs space separators,
      the line and paragraph separators and the byte order mark). */
  predicate IsWhitespace(c: char) {
    ('\t' <= c <= '\r') || c == ' ' || c == '\U{00A0}' || c == '\U{1680}'
    || ('\U{2000}' <= c <= '\U{200A}') || c == '\U{2028}' || c == '\U{2029}'
    || c == '\U{202F}' || c == '\U{205F}' || c == '\U{3000}' || c == '\U{FEFF}'
  }

  ghost predicate AllWhitespace(s: string) {
    forall k :: 0 <= k < |s| ==> IsWhitespace(s[k])
  }

  /** Drops the leading whitespace. */
  function TrimStart(s: string): string
  {
    if s != [] && IsWhitespace(s[0]) then TrimStart(s[1..]) else s
  }

  /** Drops the trailing whitespace. */
  function TrimEnd(s: string): string
  {
    if s != [] && IsWhitespace(s[|s| - 1]) then TrimEnd(s[..|s| - 1]) else s
  }

  /** What `TrimStart` leaves is a suffix of `s`, everything it drops is
      whitespace, and what it leaves does not start with whitespace. */
  lemma {:induction false} TrimStartIsSuffix(s: string)
    ensures |TrimStart(s)| <= |s| && TrimStart(s) == s[|s| - |TrimStart(s)|..]
    ensures AllWhitespace(s[..|s| - |TrimStart(s)|])
    ensures TrimStart(s) != [] ==> !IsWhitespace(TrimStart(s)[0])
  {
    if s != [] && IsWhitespace(s[0]) {
      TrimStartIsSuffix(s[1..]);
      var n := |s| - |TrimStart(s)|;
      assert s[1..][..n - 1] == s[1..n];
      assert s[..n] == [s[0]] + s[1..n];
    }
  }

  /** What `TrimEnd` leaves is a prefix of `s`, everything it drops is
      whitespace, and what it leaves does not end with whitespace. */
  lemma {:induction false} TrimEndIsPrefix(s: string)
    ensures |TrimEnd(s)| <= |s| && TrimEnd(s) == s[..|TrimEnd(s)|]
    ensures AllWhitespace(s[|TrimEnd(s)|..])
    ensures TrimEnd(s) != [] ==> !IsWhitespace(TrimEnd(s)[|TrimEnd(s)| - 1])
  {
    if s != [] && IsWhitespace(s[|s| - 1]) {
      var p := s[..|s| - 1];
      TrimEndIsPrefix(p);
      var n := |TrimEnd(s)|;
      assert p[..n] == s[..n];
      assert s[n..] == p[n..] + [s[|s| - 1]];
    }
  }

  /** `s.trim()`: `s` with the whitespace on both ends removed. */
  function Trim(s: string): string
  {
    TrimEnd(TrimStart(s))
  }

  /** What `Trim` leaves is the contiguous middle part of `s`, everything
      it removes on either side is whitespace, and what it leaves neither
      starts nor ends with whitespace. */
  lemma TrimIsMiddle(s: string)
    ensures exists i :: 0 <= i <= |s| - |Trim(s)| && Trim(s) == s[i..i + |Trim(s)|]
                        && AllWhitespace(s[..i]) && AllWhitespace(s[i + |Trim(s)|..])
    ensures Trim(s) != [] ==> !IsWhitespace(Trim(s)[0]) && !IsWhitespace(Trim(s)[|Trim(s)| - 1])
  {
    var t := TrimStart(s);
    var r := TrimEnd(t);
    TrimStartIsSuffix(s);
    TrimEndIsPrefix(t);
    var i := |s| - |t|;
    assert r == s[i..i + |r|];
    assert s[i + |r|..] == t[|r|..];
    if r != [] {
      assert r[0] == t[0];
    }
  }

  /** `!s.trim()` holds exactly when `s` is empty or made of whitespace
      only: the test both submit handlers use to ignore blank input. */
  lemma TrimEmptyIffBlank(s: string)
    ensures Trim(s) == [] <==> AllWhitespace(s)
  {
    var r := Trim(s);
    TrimIsMiddle(s);
    var i :| 0 <= i <= |s| - |r| && r == s[i..i + |r|]
             && AllWhitespace(s[..i]) && AllWhitespace(s[i + |r|..]);
    if r == [] {
      forall k | 0 <= k < |s| ensures IsWhitespace(s[k]) {
        if k < i { assert s[k] == s[..i][k]; } else { assert s[k] == s[i..][k - i]; }
      }
    } else {
      assert s[i] == r[0];
    }
  }

  /** A string that neither starts nor ends with whitespace is its own
      trimmed form. */
  lemma TrimOfUnpadded(s: string)
    requires s != [] && !IsWhitespace(s[0]) && !IsWhitespace(s[|s| - 1])
    ensures Trim(s) == s
  {
    assert TrimStart(s) == s;
  }

  /** Trimming a trimmed string changes nothing. */
  lemma TrimIdempotent(s: string)
    ensures Trim(Trim(s)) == Trim(s)
  {
    var r := Trim(s);
    if r != [] {
      TrimIsMiddle(s);
      TrimOfUnpadded(r);
    }
  }

  /** `toLowerCase` on one character, for the scripts the FAQ table and
      its users write in: Basic Latin, Latin-1 and basic Cyrillic
      (including Ё and the other letters U+0400 to U+040F). Every other
      character is left as it is. */
  function LowerChar(c: char): (d: char)
    ensures IsUpper(c) ==> d != c
    ensures !IsUpper(c) ==> d == c
    ensures !IsUpper(d)
  {
    if 'A' <= c <= 'Z' || ('\U{00C0}' <= c <= '\U{00DE}' && c != '\U{00D7}') || ('А' <= c <= 'Я') then
      (c as int + 32) as char
    else if 'Ѐ' <= c <= 'Џ' then
      (c as int + 80) as char
    else
      c
  }

  /** The upper-case letters of the scripts `LowerChar` covers: A to Z,
      the Latin-1 capitals U+00C0 to U+00DE except the multiplication
      sign, and the Cyrillic capitals U+0400 to U+042F. These are exactly
      the characters `LowerChar` changes, so its first two ensures hold
      by construction; what it promises beyond its body is that its
      result is never upper-case. */
  predicate IsUpper(c: char) {
    'A' <= c <= 'Z' || ('\U{00C0}' <= c <= '\U{00DE}' && c != '\U{00D7}')
    || ('Ѐ' <= c <= 'Я')
  }

  /** `s.toLowerCase()`, character by character. */
  function Lower(s: string): string
  {
    seq(|s|, k requires 0 <= k < |s| => LowerChar(s[k]))
  }

  /** A string with no upper-case letter is its own lower-case form. */
  lemma LowerOfLowercase(s: string)
    requires forall k :: 0 <= k < |s| ==> !IsUpper(s[k])
    ensures Lower(s) == s
  {
  }

  /** Lowering twice is lowering once. */
  lemma LowerIdempotent(s: string)
    ensures Lower(Lower(s)) == Lower(s)
  {
  }

  /** `k` occurs in `s` starting at position `i`. */
  predicate OccursAt(k: string, s: string, i: nat) {
    i + |k| <= |s| && s[i..i + |k|] == k
  }

  /** An occurrence checked one character at a time. */
  lemma OccursAtByChars(k: string, s: string, i: nat)
    requires i + |k| <= |s|
    requires forall j :: 0 <= j < |k| ==> s[i + j] == k[j]
    ensures OccursAt(k, s, i)
  {
    assert s[i..i + |k|] == k;
  }

  /** A keyword with no upper-case letter that occurs in `s` still occurs,
      at the same place, once `s` is lower-cased: the matcher lower-cases
      the input but not its (lower-case) keywords. */
  lemma LowerKeepsLowercaseOccurrence(k: string, s: string, i: nat)
    requires forall j :: 0 <= j < |k| ==> !IsUpper(k[j])
    requires OccursAt(k, s, i)
    ensures OccursAt(k, Lower(s), i)
  {
  }

  /** `k` is a substring of `s`: the meaning of `s.includes(k)`. */
  ghost predicate IsSubstring(k: string, s: string) {
    exists i: nat :: OccursAt(k, s, i)
  }

  /** `s.includes(k)`, computed by trying every start position in turn. */
  function Includes(s: string, k: string): bool
    decreases |s|
  {
    if |k| > |s| then false
    else if s[..|k|] == k then true
    else Includes(s[1..], k)
  }

  /** `Includes` finds `k` exactly when `k` occurs somewhere in `s`. */
  lemma {:induction false} IncludesIsSubstring(s: string, k: string)
    ensures Includes(s, k) <==> IsSubstring(k, s)
    decreases |s|
  {
    if |k| > |s| {
    } else if s[..|k|] == k {
      assert OccursAt(k, s, 0);
    } else {
      IncludesIsSubstring(s[1..], k);
      if IsSubstring(k, s) {
        var i: nat :| OccursAt(k, s, i);
        assert i != 0;
        assert s[1..][i - 1..i - 1 + |k|] == s[i..i + |k|];
        assert OccursAt(k, s[1..], i - 1);
      }
      if IsSubstring(k, s[1..]) {
        var i: nat :| OccursAt(k, s[1..], i);
        assert s[1..][i..i + |k|] == s[i + 1..i + 1 + |k|];
        assert OccursAt(k, s, i + 1);
      }
    }
  }
}
