/**
 * Machine integers and the base-10 text that strconv.FormatInt and
 * strconv.FormatUint produce for them.
 */
module Numbers {
  import opened Wrappers

  const TWO_53: int := 0x20_0000_0000_0000
  const TWO_63: int := 0x8000_0000_0000_0000
  const TWO_64: int := 0x1_0000_0000_0000_0000

  type byte = b: int | 0 <= b < 0x100
  type int64 = x: int | -0x8000_0000_0000_0000 <= x < 0x8000_0000_0000_0000
  type uint64 = x: int | 0 <= x < 0x1_0000_0000_0000_0000

  /** Go's conversion uint64(i): the same 64 bits read as unsigned. */
  function ToUnsigned(i: int64): (u: uint64)
    ensures u % TWO_64 == i % TWO_64
    ensures 0 <= i ==> u == i
  {
    if i < 0 then i + TWO_64 else i
  }

  /** Go's conversion int64(u): the same 64 bits read as two's complement. */
  function ToSigned(u: uint64): (i: int64)
    ensures i % TWO_64 == u % TWO_64
    ensures u < TWO_63 ==> i == u
  {
    if u < TWO_63 then u else u - TWO_64
  }

  /** The two reinterpretations are inverse to each other. */
  lemma ReinterpretInverse(i: int64, u: uint64)
    ensures ToSigned(ToUnsigned(i)) == i
    ensures ToUnsigned(ToSigned(u)) == u
  {
  }

  /** A real number with no fractional part. */
  predicate IsIntegral(r: real) {
    r.Floor as real == r
  }

  function DigitChar(d: int): (c: char)
    requires 0 <= d < 10
    ensures '0' <= c <= '9'
  {
    ('0' as int + d) as char
  }

  predicate IsDigits(s: string) {
    |s| > 0 && forall i :: 0 <= i < |s| ==> '0' <= s[i] <= '9'
  }

  /** Decimal digits of n, most significant first, no leading zero. */
  function NatText(n: nat): (s: string)
    ensures IsDigits(s)
    ensures |s| > 1 ==> s[0] != '0'
    decreases n
  {
    if n < 10 then [DigitChar(n)] else NatText(n / 10) + [DigitChar(n % 10)]
  }

  /** strconv.FormatInt(i, 10) and strconv.FormatUint(u, 10). */
  function FormatInt(i: int): (s: string)
    ensures |s| > 0
    ensures (s[0] == '-') <==> i < 0
    ensures IsDigits(if i < 0 then s[1..] else s)
    ensures var d := if i < 0 then s[1..] else s; |d| > 1 ==> d[0] != '0'
  {
    if i < 0 then "-" + NatText(-i) else NatText(i)
  }

  /** The value of a string of decimal digits (reference reading of NatText). */
  function DigitsValue(s: string): nat
    requires IsDigits(s)
  {
    if |s| == 1 then s[0] as int - '0' as int
    else 10 * DigitsValue(s[..|s| - 1]) + (s[|s| - 1] as int - '0' as int)
  }

  /** Reads base-10 integer text with an optional leading minus sign. */
  function ParseInt(s: string): Option<int> {
    if |s| > 0 && s[0] == '-' then
      if IsDigits(s[1..]) then Some(0 - DigitsValue(s[1..]) as int) else None
    else if IsDigits(s) then Some(DigitsValue(s)) else None
  }

  lemma {:induction false} NatTextValue(n: nat)
    ensures DigitsValue(NatText(n)) == n
    decreases n
  {
    if n >= 10 {
      NatTextValue(n / 10);
      var s := NatText(n);
      assert s[..|s| - 1] == NatText(n / 10);
    }
  }

  /** FormatInt writes exactly the base-10 text of its argument. */
  lemma FormatIntReadsBack(i: int)
    ensures ParseInt(FormatInt(i)) == Some(i)
  {
    var s := FormatInt(i);
    if i < 0 {
      NatTextValue(-i);
      assert s == "-" + NatText(-i);
      assert s[1..] == NatText(-i);
    } else {
      NatTextValue(i);
      assert s == NatText(i);
      assert s[0] != '-';
    }
  }
}
