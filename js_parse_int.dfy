/**
 * ECMAScript's global `parseInt(string)` with no radix argument, on the
 * strings a query parameter can carry, and the decimal rendering a
 * template literal gives a non-negative integer (`${page}`). A result of
 * `None` is `NaN`.
 */
module JsParseInt {
  import opened Wrappers
  import opened JsText

  /** The value of `c` as a digit of base `radix` (10 or 16), if it is one. */
  function DigitValue(c: char, radix: nat): (d: Option<nat>)
    ensures d.Some? ==> d.value < radix
  {
    if '0' <= c <= '9' && (c as int) - ('0' as int) < radix then Some((c as int) - ('0' as int))
    else if radix == 16 && 'a' <= c <= 'f' then Some((c as int) - ('a' as int) + 10)
    else if radix == 16 && 'A' <= c <= 'F' then Some((c as int) - ('A' as int) + 10)
    else None
  }

  predicate IsDigit(c: char, radix: nat) {
    DigitValue(c, radix).Some?
  }

  /** The string with its leading `\s` characters removed. */
  function TrimStart(s: string): (t: string)
    ensures |t| <= |s| && t == s[|s| - |t|..]
    ensures t != [] ==> !IsJsSpace(t[0])
    ensures s != [] && !IsJsSpace(s[0]) ==> t == s
  {
    if s != [] && IsJsSpace(s[0]) then TrimStart(s[1..]) else s
  }

  /** The length of the longest prefix of `s` made of digits of `radix`. */
  function DigitRun(s: string, radix: nat): (n: nat)
    ensures n <= |s|
    ensures forall i :: 0 <= i < n ==> IsDigit(s[i], radix)
    ensures n < |s| ==> !IsDigit(s[n], radix)
  {
    if s == [] || !IsDigit(s[0], radix) then 0 else 1 + DigitRun(s[1..], radix)
  }

  /** The number the digit string `ds` denotes in base `radix`. */
  function ValueOf(ds: string, radix: nat): nat
    requires forall i :: 0 <= i < |ds| ==> IsDigit(ds[i], radix)
  {
    if ds == [] then 0
    else
      assert IsDigit(ds[|ds| - 1], radix);
      ValueOf(ds[..|ds| - 1], radix) * radix + DigitValue(ds[|ds| - 1], radix).value
  }

  /**
   * `parseInt(s)`: skip leading whitespace, take one optional sign, a
   * `0x`/`0X` prefix switches to base 16, then read the longest run of
   * digits; no digit at all gives `NaN`.
   */
  function ParseInt(s: string): Option<int> {
    var t := TrimStart(s);
    var negative := t != [] && t[0] == '-';
    var u := if t != [] && (t[0] == '-' || t[0] == '+') then t[1..] else t;
    var hex := |u| >= 2 && u[0] == '0' && (u[1] == 'x' || u[1] == 'X');
    var radix := if hex then 16 else 10;
    var body := if hex then u[2..] else u;
    var n := DigitRun(body, radix);
    if n == 0 then None
    else
      var v: int := ValueOf(body[..n], radix);
      var signed: int := if negative then -v else v;
      Some(signed)
  }

  /**
   * `parseInt(q) || fallback` on an optional query parameter: `NaN` (an
   * absent or unparseable value) and zero both give the fallback.
   */
  function IntOr(q: Option<string>, fallback: int): (n: int)
    ensures n == fallback || (q.Some? && ParseInt(q.value) == Some(n) && n != 0)
    ensures q.None? ==> n == fallback
    ensures q.Some? && ParseInt(q.value).Some? && ParseInt(q.value).value != 0 ==> n == ParseInt(q.value).value
  {
    if q.None? then fallback
    else match ParseInt(q.value)
      case None => fallback
      case Some(v) => if v == 0 then fallback else v
  }

  function DigitChar(d: nat): (c: char)
    requires d < 10
    ensures DigitValue(c, 10) == Some(d)
  {
    ('0' as int + d) as char
  }

  /** The decimal rendering of a non-negative integer, without leading zeros. */
  function ToDecimal(n: nat): (s: string)
    ensures |s| >= 1
    ensures forall i :: 0 <= i < |s| ==> IsDigit(s[i], 10)
    ensures n >= 1 ==> s[0] != '0'
  {
    if n < 10 then [DigitChar(n)] else ToDecimal(n / 10) + [DigitChar(n % 10)]
  }

  lemma {:induction false} ValueOfToDecimal(n: nat)
    ensures ValueOf(ToDecimal(n), 10) == n
  {
    if n >= 10 {
      var s := ToDecimal(n);
      assert s[..|s| - 1] == ToDecimal(n / 10);
      ValueOfToDecimal(n / 10);
    }
  }

  /**
   * Round trip: `parseInt` reads back the integer a positive number was
   * rendered as, whatever non-digit text follows it (`"2"`, `"2.5"`,
   * `"2&x"` all give 2).
   */
  lemma ParseIntOfDecimal(n: nat, rest: string)
    requires n >= 1
    requires rest != [] ==> !IsDigit(rest[0], 10)
    ensures ParseInt(ToDecimal(n) + rest) == Some(n)
  {
    var ds := ToDecimal(n);
    var s := ds + rest;
    assert s[0] == ds[0];
    assert !IsJsSpace(s[0]);
    assert TrimStart(s) == s;
    DigitRunPrefix(ds, rest);
    assert s[..|ds|] == ds;
    ValueOfToDecimal(n);
  }

  lemma {:induction false} DigitRunPrefix(ds: string, rest: string)
    requires forall i :: 0 <= i < |ds| ==> IsDigit(ds[i], 10)
    requires rest != [] ==> !IsDigit(rest[0], 10)
    ensures DigitRun(ds + rest, 10) == |ds|
  {
    if ds != [] {
      assert (ds + rest)[1..] == ds[1..] + rest;
      DigitRunPrefix(ds[1..], rest);
    } else {
      assert ds + rest == rest;
    }
  }

  /** The page numbers the dashboard requests are read back unchanged. */
  lemma QueryRoundTrip(n: nat, fallback: int)
    requires n >= 1
    ensures IntOr(Some(ToDecimal(n)), fallback) == n
  {
    ParseIntOfDecimal(n, "");
    assert ToDecimal(n) + "" == ToDecimal(n);
  }
}
