/**
 * The few string operations of the ECMAScript library the chat UI relies on:
 * `toLowerCase` (restricted to ASCII), `includes`, `trim` and the decimal
 * rendering of a non-negative integer inside a template literal.
 */
module Text {

  // ---------------------------------------------------------------------------
  // Lower-casing
  // ---------------------------------------------------------------------------

  /** `toLowerCase` on one character, restricted to the ASCII letters. */
  function LowerChar(c: char): (d: char)
    ensures !('A' <= d <= 'Z')
    ensures !('A' <= c <= 'Z') ==> d == c
    ensures 'A' <= c <= 'Z' ==> d as int - c as int == 'a' as int - 'A' as int
  {
    if 'A' <= c <= 'Z' then (c as int - 'A' as int + 'a' as int) as char else c
  }

  /** `String.prototype.toLowerCase`, character by character. */
  function Lower(s: string): (r: string)
    ensures |r| == |s|
    ensures forall k :: 0 <= k < |s| ==> r[k] == LowerChar(s[k])
  {
    if s == [] then [] else [LowerChar(s[0])] + Lower(s[1..])
  }

  /** Lower-casing twice is lower-casing once. */
  lemma {:induction false} LowerIdempotent(s: string)
    ensures Lower(Lower(s)) == Lower(s)
  {
    if s != [] {
      LowerIdempotent(s[1..]);
      assert Lower(s)[1..] == Lower(s[1..]);
    }
  }

  // ---------------------------------------------------------------------------
  // Substring search
  // ---------------------------------------------------------------------------

  predicate StartsWith(s: string, prefix: string) {
    |prefix| <= |s| && s[..|prefix|] == prefix
  }

  /** `String.prototype.includes`: `q` starts at some position of `s`. */
  predicate Includes(s: string, q: string) {
    StartsWith(s, q) || (s != [] && Includes(s[1..], q))
  }

  /** `q` occurs in `s` at some offset. */
  ghost predicate OccursIn(q: string, s: string) {
    exists i :: 0 <= i <= |s| && StartsWith(s[i..], q)
  }

  /** `Includes` holds exactly when `q` occurs at some offset of `s`. */
  lemma {:induction false} IncludesIff(s: string, q: string)
    ensures Includes(s, q) <==> OccursIn(q, s)
  {
    if StartsWith(s, q) {
      assert s[0..] == s;
    } else if s != [] {
      IncludesIff(s[1..], q);
      if Includes(s[1..], q) {
        var i :| 0 <= i <= |s[1..]| && StartsWith(s[1..][i..], q);
        assert s[1..][i..] == s[i + 1..];
      } else {
        forall i | 0 <= i <= |s| ensures !StartsWith(s[i..], q) {
          if i == 0 {
            assert s[0..] == s;
          } else {
            assert s[1..][i - 1..] == s[i..];
          }
        }
      }
    } else {
      assert forall i :: 0 <= i <= |s| ==> s[i..] == s;
    }
  }

  /** Every string includes itself surrounded by anything. */
  lemma IncludesInfix(prefix: string, q: string, suffix: string)
    ensures Includes(prefix + q + suffix, q)
  {
    var s := prefix + q + suffix;
    assert s[|prefix|..][..|q|] == q;
    IncludesIff(s, q);
  }

  /** Every string includes the empty string. */
  lemma IncludesEmpty(s: string)
    ensures Includes(s, "")
  {
    assert StartsWith(s, "");
  }

  // ---------------------------------------------------------------------------
  // Trimming
  // ---------------------------------------------------------------------------

  /**
   * The characters `String.prototype.trim` removes: the ECMAScript WhiteSpace
   * (tab, vertical tab, form feed, space, no-break space, the byte-order mark and
   * the Unicode space separators) and LineTerminator characters.
   */
  predicate IsSpace(c: char) {
    c == '\t' || c == '\n' || c == '\U{B}' || c == '\U{C}' || c == '\r' || c == ' '
    || c == '\U{A0}' || c == '\U{1680}' || ('\U{2000}' <= c <= '\U{200A}')
    || c == '\U{2028}' || c == '\U{2029}' || c == '\U{202F}' || c == '\U{205F}'
    || c == '\U{3000}' || c == '\U{FEFF}'
  }

  /** How many white-space characters `s` starts with. */
  function LeadingSpace(s: string): (n: nat)
    ensures n <= |s|
  {
    if s != [] && IsSpace(s[0]) then 1 + LeadingSpace(s[1..]) else 0
  }

  /** How many white-space characters `s` ends with. */
  function TrailingSpace(s: string): (n: nat)
    ensures n <= |s|
  {
    if s != [] && IsSpace(s[|s| - 1]) then 1 + TrailingSpace(s[..|s| - 1]) else 0
  }

  /** `LeadingSpace` counts the longest all-white-space prefix. */
  lemma {:induction false} LeadingSpaceSpec(s: string)
    ensures forall k :: 0 <= k < LeadingSpace(s) ==> IsSpace(s[k])
    ensures LeadingSpace(s) < |s| ==> !IsSpace(s[LeadingSpace(s)])
  {
    if s != [] && IsSpace(s[0]) {
      var t := s[1..];
      LeadingSpaceSpec(t);
      forall k | 1 <= k < LeadingSpace(s) ensures IsSpace(s[k]) {
        assert s[k] == t[k - 1];
      }
      if LeadingSpace(s) < |s| {
        assert s[LeadingSpace(s)] == t[LeadingSpace(t)];
      }
    }
  }

  /** `TrailingSpace` counts the longest all-white-space suffix. */
  lemma {:induction false} TrailingSpaceSpec(s: string)
    ensures forall k :: |s| - TrailingSpace(s) <= k < |s| ==> IsSpace(s[k])
    ensures TrailingSpace(s) < |s| ==> !IsSpace(s[|s| - 1 - TrailingSpace(s)])
  {
    if s != [] && IsSpace(s[|s| - 1]) {
      var t := s[..|s| - 1];
      TrailingSpaceSpec(t);
      forall k | |s| - TrailingSpace(s) <= k < |s| - 1 ensures IsSpace(s[k]) {
        assert s[k] == t[k];
      }
      if TrailingSpace(s) < |s| {
        assert s[|s| - 1 - TrailingSpace(s)] == t[|t| - 1 - TrailingSpace(t)];
      }
    }
  }

  /** `String.prototype.trim`: `s` without its leading and its trailing white space. */
  function Trim(s: string): (r: string) {
    var t := s[LeadingSpace(s)..];
    t[..|t| - TrailingSpace(t)]
  }

  /** `trim` keeps one stretch of `s`, the one after its leading white space. */
  lemma TrimSlice(s: string)
    ensures LeadingSpace(s) + |Trim(s)| <= |s|
    ensures Trim(s) == s[LeadingSpace(s)..LeadingSpace(s) + |Trim(s)|]
  {
    var i := LeadingSpace(s);
    var t := s[i..];
    assert Trim(s) == t[..|t| - TrailingSpace(t)];
  }

  /** What `trim` drops after the stretch it keeps is white space. */
  lemma TrimDropsTrailingSpace(s: string)
    ensures forall k :: LeadingSpace(s) + |Trim(s)| <= k < |s| ==> IsSpace(s[k])
  {
    var i := LeadingSpace(s);
    var t := s[i..];
    TrailingSpaceSpec(t);
    assert |Trim(s)| == |t| - TrailingSpace(t);
    forall k | i + |Trim(s)| <= k < |s| ensures IsSpace(s[k]) {
      assert s[k] == t[k - i];
    }
  }

  /** What `trim` keeps neither starts nor ends with white space. */
  lemma TrimEnds(s: string)
    ensures Trim(s) != [] ==> !IsSpace(Trim(s)[0]) && !IsSpace(Trim(s)[|Trim(s)| - 1])
  {
    var i := LeadingSpace(s);
    var t := s[i..];
    var r := Trim(s);
    if r != [] {
      LeadingSpaceSpec(s);
      TrailingSpaceSpec(t);
      assert r[0] == s[i];
      assert r[|r| - 1] == t[|t| - 1 - TrailingSpace(t)];
    }
  }

  /**
   * `trim` keeps the stretch of `s` between its leading and its trailing white
   * space, and what it keeps neither starts nor ends with white space.
   */
  lemma TrimSpec(s: string)
    ensures LeadingSpace(s) + |Trim(s)| <= |s|
    ensures Trim(s) == s[LeadingSpace(s)..LeadingSpace(s) + |Trim(s)|]
    ensures forall k :: 0 <= k < LeadingSpace(s) ==> IsSpace(s[k])
    ensures forall k :: LeadingSpace(s) + |Trim(s)| <= k < |s| ==> IsSpace(s[k])
    ensures Trim(s) != [] ==> !IsSpace(Trim(s)[0]) && !IsSpace(Trim(s)[|Trim(s)| - 1])
  {
    TrimSlice(s);
    LeadingSpaceSpec(s);
    TrimDropsTrailingSpace(s);
    TrimEnds(s);
  }

  /** `trim` gives the empty string exactly when `s` is all white space. */
  lemma TrimEmptyIff(s: string)
    ensures Trim(s) == [] <==> forall k :: 0 <= k < |s| ==> IsSpace(s[k])
  {
    TrimSpec(s);
    if Trim(s) != [] {
      assert s[LeadingSpace(s)] == Trim(s)[0];
    }
  }

  /** Trimming a trimmed string changes nothing. */
  lemma TrimIdempotent(s: string)
    ensures Trim(Trim(s)) == Trim(s)
  {
    TrimSpec(s);
    var r := Trim(s);
    if r != [] {
      assert LeadingSpace(r) == 0;
      assert TrailingSpace(r) == 0;
    }
  }

  // ---------------------------------------------------------------------------
  // Decimal rendering
  // ---------------------------------------------------------------------------

  function DigitChar(d: nat): (c: char)
    requires d < 10
    ensures '0' <= c <= '9' && c as int - '0' as int == d
  {
    (d + '0' as int) as char
  }

  /** A non-negative integer as a template literal renders it: decimal digits, no leading zero. */
  function Decimal(n: nat): (r: string)
    ensures r != []
    ensures forall k :: 0 <= k < |r| ==> '0' <= r[k] <= '9'
    ensures r[0] == '0' ==> n == 0
    decreases n
  {
    if n < 10 then [DigitChar(n)] else Decimal(n / 10) + [DigitChar(n % 10)]
  }

  /** The value of a string of decimal digits. */
  function DecimalValue(s: string): (n: nat)
    requires forall k :: 0 <= k < |s| ==> '0' <= s[k] <= '9'
  {
    if s == [] then 0 else DecimalValue(s[..|s| - 1]) * 10 + (s[|s| - 1] as int - '0' as int)
  }

  /** Reading the rendered digits back gives the number. */
  lemma {:induction false} DecimalRoundTrip(n: nat)
    ensures DecimalValue(Decimal(n)) == n
    decreases n
  {
    if n >= 10 {
      DecimalRoundTrip(n / 10);
      var r := Decimal(n);
      assert r[..|r| - 1] == Decimal(n / 10);
    }
  }
}
