/** Decimal rendering as fmt's `%d` does it, its inverse, and strings.Join. */
module Text {
  import opened Wrappers

  predicate IsDigit(c: char) { '0' <= c <= '9' }

  predicate AllDigits(s: string) { forall i :: 0 <= i < |s| ==> IsDigit(s[i]) }

  function DigitChar(d: nat): (c: char)
    requires d < 10
    ensures IsDigit(c)
  {
    (d + '0' as int) as char
  }

  function DigitValue(c: char): (d: nat)
    requires IsDigit(c)
    ensures d < 10
  {
    c as int - '0' as int
  }

  /** The decimal digits of `n`, most significant first, with no leading zero. */
  function NatToDecimal(n: nat): (s: string)
    ensures 1 <= |s|
    ensures AllDigits(s)
    ensures n < 10 <==> |s| == 1
    decreases n
  {
    if n < 10 then [DigitChar(n)] else NatToDecimal(n / 10) + [DigitChar(n % 10)]
  }

  /** `fmt.Sprintf("%d", i)`: a minus sign for negative numbers, then the digits. */
  function IntToDecimal(i: int): (s: string)
    ensures 1 <= |s|
    ensures forall k :: 0 <= k < |s| ==> IsDigit(s[k]) || s[k] == '-'
    ensures (i < 0) <==> s[0] == '-'
  {
    if i < 0 then "-" + NatToDecimal(-i) else NatToDecimal(i)
  }

  /** The number a string of digits denotes. */
  function DecimalValue(s: string): nat
    requires AllDigits(s)
  {
    if s == [] then 0 else DecimalValue(s[..|s| - 1]) * 10 + DigitValue(s[|s| - 1])
  }

  /** Reads back what IntToDecimal writes: an optional minus sign and at least one digit. */
  function ParseInt(s: string): Option<int>
  {
    if 1 <= |s| && s[0] == '-' then
      if 2 <= |s| && AllDigits(s[1..]) then Some(0 - DecimalValue(s[1..]) as int) else None
    else if 1 <= |s| && AllDigits(s) then Some(DecimalValue(s))
    else None
  }

  lemma {:induction false} DecimalRoundTrip(n: nat)
    ensures DecimalValue(NatToDecimal(n)) == n
    decreases n
  {
    if n >= 10 {
      var s := NatToDecimal(n);
      assert s[..|s| - 1] == NatToDecimal(n / 10);
      DecimalRoundTrip(n / 10);
    }
  }

  lemma IntRoundTrip(i: int)
    ensures ParseInt(IntToDecimal(i)) == Some(i)
  {
    if i < 0 {
      var s := IntToDecimal(i);
      assert s[1..] == NatToDecimal(-i);
      DecimalRoundTrip(-i);
    } else {
      DecimalRoundTrip(i);
    }
  }

  /** `strings.Join(parts, sep)`. */
  function Join(parts: seq<string>, sep: string): (s: string)
    ensures parts == [] ==> s == ""
    ensures |parts| == 1 ==> s == parts[0]
  {
    if parts == [] then ""
    else if |parts| == 1 then parts[0]
    else parts[0] + sep + Join(parts[1..], sep)
  }

  /** Position of the first occurrence of `c` in `s`, or |s| when there is none. */
  function IndexOf(s: string, c: char): (k: nat)
    ensures k <= |s|
    ensures forall j :: 0 <= j < k ==> s[j] != c
    ensures k < |s| ==> s[k] == c
  {
    if s == [] then 0 else if s[0] == c then 0 else 1 + IndexOf(s[1..], c)
  }

  lemma {:induction false} IndexOfAfterPrefix(a: string, b: string, c: char)
    requires forall j :: 0 <= j < |a| ==> a[j] != c
    ensures IndexOf(a + b, c) == |a| + IndexOf(b, c)
    decreases |a|
  {
    if a != [] {
      assert (a + b)[1..] == a[1..] + b;
      IndexOfAfterPrefix(a[1..], b, c);
    } else {
      assert a + b == b;
    }
  }
}
