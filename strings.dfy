/** The few Python `str` operations the backend relies on, over `seq<char>`. */
module Strings {

  /** Python's `str.lower()` restricted to ASCII letters; other characters are kept as they are. */
  function LowerChar(c: char): char {
    if 'A' <= c <= 'Z' then (c as int - 'A' as int + 'a' as int) as char else c
  }

  function Lower(s: string): (r: string)
    ensures |r| == |s|
    ensures forall i :: 0 <= i < |s| ==> r[i] == LowerChar(s[i])
  {
    seq(|s|, i requires 0 <= i < |s| => LowerChar(s[i]))
  }

  /** A string with no upper-case ASCII letter is its own lower-case form. */
  predicate IsLower(s: string) {
    forall i :: 0 <= i < |s| ==> !('A' <= s[i] <= 'Z')
  }

  lemma LowerOfLower(s: string)
    requires IsLower(s)
    ensures Lower(s) == s
  {
  }

  /** Python's `needle in haystack` on two strings; a needle longer than the haystack never occurs. */
  predicate IsSubstring(needle: string, haystack: string)
    ensures IsSubstring(needle, haystack) ==> |needle| <= |haystack|
  {
    exists i | 0 <= i <= |haystack| - |needle| :: OccursAt(needle, haystack, i)
  }

  predicate OccursAt(needle: string, haystack: string, i: int) {
    0 <= i <= |haystack| - |needle| && haystack[i..i + |needle|] == needle
  }

  /** A suffix of a string occurs in it. */
  lemma SuffixIsSubstring(s: string, k: nat)
    requires k <= |s|
    ensures IsSubstring(s[k..], s)
  {
    assert OccursAt(s[k..], s, k);
  }

  /** A needle whose first character is absent from the haystack does not occur in it. */
  lemma FirstCharAbsent(needle: string, haystack: string)
    requires needle != [] && needle[0] !in haystack
    ensures !IsSubstring(needle, haystack)
  {
    forall i | 0 <= i <= |haystack| - |needle| ensures !OccursAt(needle, haystack, i) {
      assert haystack[i..i + |needle|][0] == haystack[i];
    }
  }

  /**
   * The part of `s` after its last `sep`, or all of `s` when `sep` does not occur:
   * Python's `s.split(sep)[-1]`, and `s.rsplit(sep, 1)[1]` when `sep in s`.
   */
  function LastSegment(s: string, sep: char): (r: string)
    ensures sep !in r
    ensures |r| <= |s| && r == s[|s| - |r|..]
    ensures sep in s ==> |r| < |s| && s[|s| - |r| - 1] == sep
    ensures sep !in s ==> r == s
  {
    if s == [] then []
    else if s[|s| - 1] == sep then []
    else LastSegment(s[..|s| - 1], sep) + [s[|s| - 1]]
  }

  /** Splitting at the last separator and joining again gives the string back. */
  lemma {:induction false} LastSegmentSplits(s: string, sep: char)
    requires sep in s
    ensures var r := LastSegment(s, sep); s == s[..|s| - |r| - 1] + [sep] + r
  {
    var r := LastSegment(s, sep);
    assert s[..|s| - |r| - 1] + [sep] + r == s[..|s| - |r| - 1] + s[|s| - |r| - 1..];
  }

  /** The segment after a separator that is followed by no other separator. */
  lemma {:induction false} LastSegmentAfter(prefix: string, sep: char, tail: string)
    requires sep !in tail
    ensures LastSegment(prefix + [sep] + tail, sep) == tail
  {
    var s := prefix + [sep] + tail;
    if tail == [] {
      assert s[|s| - 1] == sep;
    } else {
      assert s[..|s| - 1] == prefix + [sep] + tail[..|tail| - 1];
      LastSegmentAfter(prefix, sep, tail[..|tail| - 1]);
      assert tail == tail[..|tail| - 1] + [tail[|tail| - 1]];
    }
  }

  /**
   * Text put in front of a string that already holds the separator does not
   * change the segment after its last separator.
   */
  lemma {:induction false} LastSegmentOfSuffix(prefix: string, s: string, sep: char)
    requires sep in s
    ensures LastSegment(prefix + s, sep) == LastSegment(s, sep)
  {
    var r := LastSegment(s, sep);
    var front := s[..|s| - |r| - 1];
    LastSegmentSplits(s, sep);
    assert prefix + s == (prefix + front) + [sep] + r;
    LastSegmentAfter(prefix + front, sep, r);
  }

  /** Python's `s.startswith(prefix)`: `s` is `prefix` followed by the rest of `s`. */
  predicate StartsWith(s: string, prefix: string)
    ensures StartsWith(s, prefix) <==> |prefix| <= |s| && s == prefix + s[|prefix|..]
  {
    |prefix| <= |s| && s[..|prefix|] == prefix
  }

  /** Python's `s.endswith(suffix)`. */
  predicate EndsWith(s: string, suffix: string) {
    |suffix| <= |s| && s[|s| - |suffix|..] == suffix
  }

  /**
   * Python's `str.isspace()` for one character (Python's `str.isspace` set). Among
   * ASCII characters it holds exactly for the blank and the control characters 9 to
   * 13 and 28 to 31, so never for a letter or a digit.
   */
  predicate IsSpace(c: char)
    ensures c as int < 128 ==> (IsSpace(c) <==> c == ' ' || 9 <= c as int <= 13 || 28 <= c as int <= 31)
  {
    var n := c as int;
    (9 <= n <= 13) || (28 <= n <= 32) || n == 0x85 || n == 0xA0 || n == 0x1680
    || (0x2000 <= n <= 0x200A) || n == 0x2028 || n == 0x2029 || n == 0x202F
    || n == 0x205F || n == 0x3000
  }

  /** The number of white-space characters `s` starts with. */
  function LeadingSpaces(s: string): (n: nat)
    ensures n <= |s|
    ensures forall k :: 0 <= k < n ==> IsSpace(s[k])
    ensures n < |s| ==> !IsSpace(s[n])
  {
    if s != [] && IsSpace(s[0]) then 1 + LeadingSpaces(s[1..]) else 0
  }

  /** The number of white-space characters `s` ends with. */
  function TrailingSpaces(s: string): (n: nat)
    ensures n <= |s|
    ensures forall k :: |s| - n <= k < |s| ==> IsSpace(s[k])
    ensures n < |s| ==> !IsSpace(s[|s| - n - 1])
  {
    if s != [] && IsSpace(s[|s| - 1]) then 1 + TrailingSpaces(s[..|s| - 1]) else 0
  }

  /**
   * Python's `str.strip()`: the slice of `s` that remains once the white space
   * before index `i` and after it is cut away. The result neither starts nor ends
   * with white space, and it is empty exactly when `s` is all white space.
   */
  function Strip(s: string): (r: string)
    ensures var i := LeadingSpaces(s);
      i + |r| <= |s| && r == s[i..i + |r|]
      && (forall k :: 0 <= k < i ==> IsSpace(s[k]))
      && (forall k :: i + |r| <= k < |s| ==> IsSpace(s[k]))
    ensures r != [] ==> !IsSpace(r[0]) && !IsSpace(r[|r| - 1])
    ensures r == [] <==> forall k :: 0 <= k < |s| ==> IsSpace(s[k])
  {
    var i := LeadingSpaces(s);
    var t := s[i..];
    var n := TrailingSpaces(t);
    assert forall k :: i + |t| - n <= k < |s| ==> s[k] == t[k - i];
    assert t[..|t| - n] == s[i..i + (|t| - n)];
    t[..|t| - n]
  }

  /** Python's `str(n)` for a non-negative integer: its decimal digits, no leading zero. */
  function NatToDecimal(n: nat): (r: string)
    ensures r != []
    ensures forall i :: 0 <= i < |r| ==> '0' <= r[i] <= '9'
    ensures |r| > 1 ==> r[0] != '0'
  {
    if n < 10 then [Digit(n)] else NatToDecimal(n / 10) + [Digit(n % 10)]
  }

  function Digit(d: nat): (c: char)
    requires d < 10
    ensures '0' <= c <= '9' && c as int - '0' as int == d
  {
    ('0' as int + d) as char
  }

  /** Reads a string of decimal digits back as a number (Python's `int(s)`). */
  function DecimalValue(s: string): nat
    requires forall i :: 0 <= i < |s| ==> '0' <= s[i] <= '9'
  {
    if s == [] then 0
    else DecimalValue(s[..|s| - 1]) * 10 + (s[|s| - 1] as int - '0' as int)
  }

  /** `int(str(n)) == n`: the metadata `filesize` string gives the size back. */
  lemma {:induction false} DecimalRoundTrip(n: nat)
    ensures DecimalValue(NatToDecimal(n)) == n
  {
    if n >= 10 {
      var r := NatToDecimal(n);
      assert r[..|r| - 1] == NatToDecimal(n / 10);
      DecimalRoundTrip(n / 10);
    }
  }

  /**
   * Concatenation of string pieces in order, as a loop of `acc += piece` computes
   * it: no pieces give `""`, one piece gives that piece, and otherwise the text
   * starts with the first piece and ends with the last.
   */
  function Concat(pieces: seq<string>): (r: string)
    ensures pieces == [] ==> r == ""
    ensures |pieces| == 1 ==> r == pieces[0]
    ensures pieces != [] ==> StartsWith(r, pieces[0]) && EndsWith(r, pieces[|pieces| - 1])
  {
    if pieces == [] then ""
    else
      var front := pieces[..|pieces| - 1];
      var r := Concat(front) + pieces[|pieces| - 1];
      assert front != [] ==> front[0] == pieces[0] && r[..|pieces[0]|] == Concat(front)[..|pieces[0]|];
      r
  }

  lemma {:induction false} ConcatAppend(a: seq<string>, b: seq<string>)
    ensures Concat(a + b) == Concat(a) + Concat(b)
  {
    if b != [] {
      assert (a + b)[..|a + b| - 1] == a + b[..|b| - 1];
      ConcatAppend(a, b[..|b| - 1]);
    } else {
      assert a + b == a;
    }
  }

  /** The concatenation of non-empty pieces is empty only when there are no pieces. */
  lemma {:induction false} ConcatEmpty(pieces: seq<string>)
    requires forall i :: 0 <= i < |pieces| ==> pieces[i] != ""
    ensures Concat(pieces) == "" <==> pieces == []
  {
    if pieces != [] {
      assert |Concat(pieces)| >= |pieces[|pieces| - 1]| > 0;
    }
  }
}
