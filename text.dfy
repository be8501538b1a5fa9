/**
 * The handful of Python string operations the SDK relies on, over `seq<char>`:
 * substring containment (`needle in s`), slicing from an index (`s[3:]`),
 * `rstrip()` and `str()` of a non-negative integer.
 */
module Text {

  /** Python's `needle in s` for strings: `needle` occurs as a contiguous run of `s`. */
  predicate Contains(needle: string, s: string)
    decreases |s|
  {
    needle <= s || (|s| > 0 && Contains(needle, s[1..]))
  }

  /** `needle` occurs in `s` starting at index i. */
  predicate OccursAt(needle: string, s: string, i: nat) {
    i + |needle| <= |s| && s[i..i + |needle|] == needle
  }

  /** `Contains` agrees with the textbook definition: `needle` occurs at some index of `s`. */
  lemma {:induction false} ContainsIffOccurs(needle: string, s: string)
    ensures Contains(needle, s) <==> exists i: nat :: OccursAt(needle, s, i)
    decreases |s|
  {
    if needle <= s {
      assert OccursAt(needle, s, 0);
    } else if |s| > 0 {
      ContainsIffOccurs(needle, s[1..]);
      if exists i: nat :: OccursAt(needle, s, i) {
        var i: nat :| OccursAt(needle, s, i);
        assert i != 0;
        assert s[1..][i - 1..i - 1 + |needle|] == s[i..i + |needle|];
        assert OccursAt(needle, s[1..], i - 1);
      }
      if Contains(needle, s[1..]) {
        var i: nat :| OccursAt(needle, s[1..], i);
        assert i + 1 + |needle| <= |s|;
        assert s[1..][i..i + |needle|] == s[i + 1..i + 1 + |needle|];
        assert OccursAt(needle, s, i + 1);
      }
    }
  }

  /** For a one-character needle, containment is plain membership. */
  lemma {:induction false} ContainsChar(c: char, s: string)
    ensures Contains([c], s) <==> c in s
    decreases |s|
  {
    if |s| > 0 {
      ContainsChar(c, s[1..]);
      assert s == [s[0]] + s[1..];
    }
  }

  /** Python's `s[k:]`: the suffix from index k, empty when k is past the end. */
  function DropPrefix(s: string, k: nat): (r: string)
    ensures |r| == if k <= |s| then |s| - k else 0
    ensures forall i :: 0 <= i < |r| ==> r[i] == s[k + i]
  {
    if k <= |s| then s[k..] else []
  }

  /** The characters for which Python's `str.isspace()` holds. */
  predicate IsSpace(c: char) {
    c == ' ' || ('\t' <= c <= '\r') || ('\U{1c}' <= c <= '\U{1f}') ||
    c == '\U{85}' || c == '\U{a0}' || c == '\U{1680}' || ('\U{2000}' <= c <= '\U{200a}') ||
    c == '\U{2028}' || c == '\U{2029}' || c == '\U{202f}' || c == '\U{205f}' || c == '\U{3000}'
  }

  /** Python's `s.rstrip()`: the longest prefix of `s` that does not end in whitespace. */
  function RStrip(s: string): (r: string)
    ensures r <= s
    ensures r == [] || !IsSpace(r[|r| - 1])
    ensures forall i :: |r| <= i < |s| ==> IsSpace(s[i])
  {
    if |s| > 0 && IsSpace(s[|s| - 1]) then RStrip(s[..|s| - 1]) else s
  }

  /** The decimal digit character for d < 10. */
  function DigitChar(d: nat): (c: char)
    requires d < 10
    ensures '0' <= c <= '9'
  {
    (48 + d) as char
  }

  /** Python's `str(n)` for a non-negative integer: its decimal digits, no leading zero. */
  function Decimal(n: nat): (r: string)
    ensures |r| > 0
    ensures forall i :: 0 <= i < |r| ==> '0' <= r[i] <= '9'
    ensures |r| > 1 ==> r[0] != '0'
  {
    if n < 10 then [DigitChar(n)] else Decimal(n / 10) + [DigitChar(n % 10)]
  }

  /** Reads a string of decimal digits back as a number (the inverse of `Decimal`). */
  function ParseDecimal(s: string): nat
    requires forall i :: 0 <= i < |s| ==> '0' <= s[i] <= '9'
  {
    if s == [] then 0
    else 10 * ParseDecimal(s[..|s| - 1]) + ((s[|s| - 1] as int) - 48)
  }

  /** Round trip: the digits `str(n)` writes read back as `n`. */
  lemma {:induction false} DecimalRoundTrip(n: nat)
    ensures ParseDecimal(Decimal(n)) == n
  {
    if n >= 10 {
      DecimalRoundTrip(n / 10);
      var s := Decimal(n);
      assert s[..|s| - 1] == Decimal(n / 10);
    }
  }

  /** Distinct numbers are written as distinct strings. */
  lemma DecimalInjective(m: nat, n: nat)
    requires m != n
    ensures Decimal(m) != Decimal(n)
  {
    DecimalRoundTrip(m);
    DecimalRoundTrip(n);
  }
}
