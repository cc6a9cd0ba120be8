/** The few java.lang.String operations the service relies on, restricted to
    what the service needs: ASCII lower-casing, prefix tests, `trim`, the `%d`
    rendering of integers and the rendering of a null string in a
    concatenation. */
module Text {
  import opened Wrappers

  /** Character.toLowerCase restricted to ASCII letters. */
  function LowerChar(c: char): (r: char)
    ensures 'A' <= c <= 'Z' ==> r as int == c as int + 32
    ensures !('A' <= c <= 'Z') ==> r == c
  {
    if 'A' <= c <= 'Z' then (c as int + 32) as char else c
  }

  /** String.toLowerCase(Locale.ROOT) on ASCII text: each character lowered
      in place. */
  function ToLowerAscii(s: string): (r: string)
    ensures |r| == |s|
    ensures forall i :: 0 <= i < |s| ==> r[i] == LowerChar(s[i])
  {
    seq(|s|, i requires 0 <= i < |s| => LowerChar(s[i]))
  }

  predicate StartsWith(s: string, prefix: string) {
    |prefix| <= |s| && s[..|prefix|] == prefix
  }

  /** A character that String.trim removes: code point at most U+0020. */
  predicate IsTrimmable(c: char) {
    c <= ' '
  }

  /** Number of trimmable characters at the start of `s`. */
  function LeadingBlanks(s: string): (n: nat)
    ensures n <= |s|
    ensures forall i :: 0 <= i < n ==> IsTrimmable(s[i])
    ensures n < |s| ==> !IsTrimmable(s[n])
  {
    if |s| == 0 || !IsTrimmable(s[0]) then 0 else 1 + LeadingBlanks(s[1..])
  }

  /** Number of trimmable characters at the end of `s`. */
  function TrailingBlanks(s: string): (n: nat)
    ensures n <= |s|
    ensures forall i :: |s| - n <= i < |s| ==> IsTrimmable(s[i])
    ensures n < |s| ==> !IsTrimmable(s[|s| - 1 - n])
  {
    if |s| == 0 || !IsTrimmable(s[|s| - 1]) then 0 else 1 + TrailingBlanks(s[..|s| - 1])
  }

  /** String.trim: `s` without its leading and trailing trimmable characters. */
  function Trim(s: string): (r: string)
    ensures |r| <= |s|
    ensures r != [] ==> !IsTrimmable(r[0]) && !IsTrimmable(r[|r| - 1])
  {
    var lead := LeadingBlanks(s);
    if lead == |s| then [] else
      var trail := TrailingBlanks(s);
      assert trail < |s| - lead by {
        assert !IsTrimmable(s[lead]);
      }
      s[lead..|s| - trail]
  }

  /** `trim().isEmpty()` holds exactly for the strings made only of trimmable
      characters. */
  lemma TrimEmptyIffBlank(s: string)
    ensures Trim(s) == [] <==> forall i :: 0 <= i < |s| ==> IsTrimmable(s[i])
  {
    var lead := LeadingBlanks(s);
    if lead < |s| {
      var trail := TrailingBlanks(s);
      assert trail < |s| - lead by {
        assert !IsTrimmable(s[lead]);
      }
      assert Trim(s)[0] == s[lead];
    }
  }

  function DigitChar(d: nat): (c: char)
    requires d < 10
    ensures '0' <= c <= '9'
  {
    "0123456789"[d]
  }

  predicate IsDigit(c: char) {
    '0' <= c <= '9'
  }

  /** Decimal digits of a natural number, most significant first. */
  function NatToDecimal(n: nat): (r: string)
    ensures |r| > 0
    ensures forall i :: 0 <= i < |r| ==> IsDigit(r[i])
    ensures |r| > 1 ==> r[0] != '0'
  {
    if n < 10 then [DigitChar(n)] else NatToDecimal(n / 10) + [DigitChar(n % 10)]
  }

  /** `%d` / string concatenation of a Java int: a minus sign for negative
      values, then the decimal digits. */
  function IntToDecimal(i: int): (r: string)
    ensures |r| > 0
    ensures i < 0 <==> r[0] == '-'
  {
    if i < 0 then "-" + NatToDecimal(-i) else NatToDecimal(i)
  }

  /** Value of a string of decimal digits (the reading a JSON parser gives). */
  function DecimalValue(s: string): (n: nat)
    requires forall i :: 0 <= i < |s| ==> IsDigit(s[i])
  {
    if s == [] then 0 else
      assert IsDigit(s[|s| - 1]);
      10 * DecimalValue(s[..|s| - 1]) + (s[|s| - 1] as int - '0' as int)
  }

  /** Reading back the digits gives the number that was written. */
  lemma {:induction false} NatToDecimalRoundTrip(n: nat)
    ensures DecimalValue(NatToDecimal(n)) == n
  {
    var r := NatToDecimal(n);
    if n >= 10 {
      NatToDecimalRoundTrip(n / 10);
      assert r[..|r| - 1] == NatToDecimal(n / 10);
      assert r[|r| - 1] == DigitChar(n % 10);
    }
  }

  /** Java renders a null String operand of `+` as "null". */
  function Concat(prefix: string, detail: Option<string>): (r: string)
    ensures StartsWith(r, prefix)
    ensures detail.Some? ==> r[|prefix|..] == detail.value
    ensures detail.None? ==> r[|prefix|..] == "null"
  {
    prefix + detail.GetOr("null")
  }
}
