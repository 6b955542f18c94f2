/**
 * The "%d" verb of fmt.Sprintf on a Go int, and its inverse, used for the
 * "host:port" addresses the portal hands out.
 */
module Decimal {
  import opened Wrappers

  predicate IsDigit(c: char) { '0' <= c <= '9' }

  predicate AllDigits(s: string) { forall i :: 0 <= i < |s| ==> IsDigit(s[i]) }

  function DigitChar(d: nat): (c: char)
    requires d < 10
    ensures IsDigit(c)
  {
    ('0' as int + d) as char
  }

  function DigitValue(c: char): (d: nat)
    requires IsDigit(c)
    ensures d < 10 && DigitChar(d) == c
  {
    c as int - '0' as int
  }

  /** Decimal digits of n, most significant first, without leading zeros. */
  function FormatNat(n: nat): (s: string)
    ensures |s| > 0 && AllDigits(s)
    ensures s[0] == '0' ==> n == 0
  {
    if n < 10 then [DigitChar(n)] else FormatNat(n / 10) + [DigitChar(n % 10)]
  }

  /** The value of a string of decimal digits. */
  function DigitsValue(s: string): nat
    requires AllDigits(s)
  {
    if |s| == 0 then 0 else 10 * DigitsValue(s[..|s| - 1]) + DigitValue(s[|s| - 1])
  }

  lemma {:induction false} DigitsValueOfFormat(n: nat)
    ensures DigitsValue(FormatNat(n)) == n
  {
    if n >= 10 {
      var s := FormatNat(n);
      assert s[..|s| - 1] == FormatNat(n / 10);
      DigitsValueOfFormat(n / 10);
    }
  }

  /** Reads back an optionally negative decimal integer. */
  function ParseInt(s: string): Option<int>
  {
    if |s| > 0 && AllDigits(s) then Some(DigitsValue(s) as int)
    else if |s| > 1 && s[0] == '-' && AllDigits(s[1..]) then Some(-(DigitsValue(s[1..]) as int))
    else None
  }

  /** fmt.Sprintf("%d", n): a minus sign for negative n, then the digits. */
  function FormatInt(n: int): (s: string)
    ensures ParseInt(s) == Some(n)
    ensures ':' !in s
    ensures |s| > 0 && (s[0] == '-' <==> n < 0)
    ensures var d := if n < 0 then s[1..] else s;
      |d| > 0 && AllDigits(d) && (d[0] == '0' ==> d == "0")
  {
    if n < 0 then
      DigitsValueOfFormat(-n);
      var s := "-" + FormatNat(-n);
      assert s[1..] == FormatNat(-n);
      assert !IsDigit(s[0]);
      s
    else
      DigitsValueOfFormat(n);
      FormatNat(n)
  }

  /** Position of the last occurrence of c in s. */
  function LastIndexOf(s: string, c: char): (r: Option<nat>)
    ensures r.Some? ==> r.value < |s| && s[r.value] == c && c !in s[r.value + 1..]
    ensures r.None? ==> c !in s
  {
    if |s| == 0 then None
    else if s[|s| - 1] == c then Some(|s| - 1)
    else
      var r := LastIndexOf(s[..|s| - 1], c);
      assert s == s[..|s| - 1] + [s[|s| - 1]];
      r
  }

  /** Splits "host:port" at its last colon; the inverse of HostPort. */
  function SplitHostPort(addr: string): Option<(string, int)>
  {
    match LastIndexOf(addr, ':')
    case None => None
    case Some(i) =>
      match ParseInt(addr[i + 1..])
      case None => None
      case Some(port) => Some((addr[..i], port))
  }

  /** fmt.Sprintf("%s:%d", host, port); the host is not bracketed. */
  function HostPort(host: string, port: int): (addr: string)
    ensures addr == host + ":" + FormatInt(port)
    ensures SplitHostPort(addr) == Some((host, port))
  {
    var digits := FormatInt(port);
    var addr := host + ":" + digits;
    assert addr[|host|] == ':';
    assert addr[|host| + 1..] == digits;
    assert addr[..|host|] == host;
    var i := LastIndexOf(addr, ':');
    assert i.Some? && i.value == |host| by {
      assert ':' in addr;
    }
    addr
  }
}
