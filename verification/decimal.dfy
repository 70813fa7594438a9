/** Decimal and hexadecimal digit strings and the two JavaScript number
    parsers the dashboard relies on, `parseInt` (default radix) and
    `parseFloat`. */
module Decimal {
  import opened Wrappers
  import opened Text

  predicate AllDigits(s: string) {
    forall i :: 0 <= i < |s| ==> IsDigit(s[i])
  }

  function DigitValue(c: char): nat
    requires IsDigit(c)
  {
    c as int - '0' as int
  }

  function DigitChar(d: nat): (c: char)
    requires d < 10
    ensures IsDigit(c) && DigitValue(c) == d
  {
    ('0' as int + d) as char
  }

  function Pow10(k: nat): (p: nat)
    ensures p >= 1
  {
    if k == 0 then 1 else 10 * Pow10(k - 1)
  }

  /** The number a string of decimal digits denotes; leading zeros are allowed. */
  function Value(ds: string): nat
    requires AllDigits(ds)
  {
    if |ds| == 0 then 0 else Value(ds[..|ds| - 1]) * 10 + DigitValue(ds[|ds| - 1])
  }

  /** Reading `a + b` is reading `a`, shifting it by `|b|` places, and adding `b`. */
  lemma {:induction false} ValueAppend(a: string, b: string)
    requires AllDigits(a) && AllDigits(b)
    ensures AllDigits(a + b)
    ensures Value(a + b) == Value(a) * Pow10(|b|) + Value(b)
  {
    if |b| > 0 {
      var b' := b[..|b| - 1];
      var d := DigitValue(b[|b| - 1]);
      assert (a + b)[..|a + b| - 1] == a + b';
      ValueAppend(a, b');
      ShiftStep(Value(a), Pow10(|b'|), Value(b'), d);
    } else {
      assert a + b == a;
    }
  }

  /** `k` digits denote less than `10^k`. */
  lemma {:induction false} ValueBound(ds: string)
    requires AllDigits(ds)
    ensures Value(ds) < Pow10(|ds|)
  {
    if |ds| > 0 {
      ValueBound(ds[..|ds| - 1]);
    }
  }

  /** A leading zero does not change the value. */
  lemma ValueLeadingZero(ds: string)
    requires AllDigits(ds)
    ensures AllDigits("0" + ds) && Value("0" + ds) == Value(ds)
  {
    assert Value("0") == 0 by {
      assert "0"[..0] == "";
    }
    ValueAppend("0", ds);
  }

  lemma ShiftStep(x: nat, p: nat, y: nat, d: nat)
    ensures (x * p + y) * 10 + d == x * (10 * p) + (y * 10 + d)
  {
    calc {
      (x * p + y) * 10 + d;
      x * p * 10 + y * 10 + d;
      x * (10 * p) + (y * 10 + d);
    }
  }

  /** `String(n)`: the decimal digits of `n`, with no leading zero
      unless `n` is zero itself. */
  function FromNat(n: nat): (r: string)
    ensures |r| >= 1 && AllDigits(r)
    ensures Value(r) == n
    ensures r[0] == '0' ==> n == 0
  {
    if n < 10 then [DigitChar(n)]
    else
      var r := FromNat(n / 10) + [DigitChar(n % 10)];
      assert r[..|r| - 1] == FromNat(n / 10);
      r
  }

  /** The length of the run of digits `s` starts with. */
  function DigitRun(s: string): (k: nat)
    ensures k <= |s| && AllDigits(s[..k])
    ensures k < |s| ==> !IsDigit(s[k])
  {
    if |s| > 0 && IsDigit(s[0]) then
      var k := 1 + DigitRun(s[1..]);
      assert s[..k] == [s[0]] + s[1..][..k - 1];
      k
    else 0
  }

  /** A digit string followed by a non-digit (or nothing) has exactly its
      own length as leading run. */
  lemma {:induction false} DigitRunOfDigits(ds: string, rest: string)
    requires AllDigits(ds)
    requires |rest| == 0 || !IsDigit(rest[0])
    ensures DigitRun(ds + rest) == |ds|
  {
    if |ds| > 0 {
      assert (ds + rest)[1..] == ds[1..] + rest;
      DigitRunOfDigits(ds[1..], rest);
    } else {
      assert ds + rest == rest;
    }
  }

  /** Leading whitespace trimming leaves a string that starts with a digit alone. */
  lemma TrimStartAtDigit(s: string)
    requires |s| > 0 && IsDigit(s[0])
    ensures TrimStart(s) == s
  {
    DigitNotWhitespace(s[0]);
  }

  lemma DigitRunAll(ds: string)
    requires AllDigits(ds)
    ensures DigitRun(ds) == |ds|
  {
    DigitRunOfDigits(ds, "");
    assert ds + "" == ds;
  }

  function Negate(x: Option<real>): Option<real> {
    match x
    case None => None
    case Some(v) => Some(-v)
  }

  /** The integer the leading digits of `u` denote, if there are any. */
  function LeadingInt(u: string): Option<nat> {
    var k := DigitRun(u);
    if k == 0 then None else Some(Value(u[..k]))
  }

  predicate IsHexDigit(c: char) {
    IsDigit(c) || 'a' <= c <= 'f' || 'A' <= c <= 'F'
  }

  predicate AllHexDigits(s: string) {
    forall i :: 0 <= i < |s| ==> IsHexDigit(s[i])
  }

  function HexDigitValue(c: char): (v: nat)
    requires IsHexDigit(c)
    ensures v < 16
    ensures IsDigit(c) ==> v == DigitValue(c)
  {
    if IsDigit(c) then DigitValue(c)
    else if 'a' <= c <= 'f' then c as int - 'a' as int + 10
    else c as int - 'A' as int + 10
  }

  /** The number a string of hexadecimal digits denotes. */
  function HexValue(hs: string): nat
    requires AllHexDigits(hs)
  {
    if |hs| == 0 then 0 else HexValue(hs[..|hs| - 1]) * 16 + HexDigitValue(hs[|hs| - 1])
  }

  /** The length of the run of hexadecimal digits `s` starts with. */
  function HexRun(s: string): (k: nat)
    ensures k <= |s| && AllHexDigits(s[..k])
    ensures k < |s| ==> !IsHexDigit(s[k])
  {
    if |s| > 0 && IsHexDigit(s[0]) then
      var k := 1 + HexRun(s[1..]);
      assert s[..k] == [s[0]] + s[1..][..k - 1];
      k
    else 0
  }

  lemma {:induction false} HexRunAll(hs: string)
    requires AllHexDigits(hs)
    ensures HexRun(hs) == |hs|
  {
    if |hs| > 0 {
      HexRunAll(hs[1..]);
    }
  }

  /** The integer the leading hexadecimal digits of `u` denote, if any. */
  function LeadingHex(u: string): Option<nat> {
    var k := HexRun(u);
    if k == 0 then None else Some(HexValue(u[..k]))
  }

  /** `u` opens with the "0x" or "0X" that switches `parseInt` to base 16. */
  predicate HexPrefixed(u: string) {
    |u| >= 2 && u[0] == '0' && (u[1] == 'x' || u[1] == 'X')
  }

  /** The unsigned part `parseInt` reads: hexadecimal after a "0x"
      prefix, decimal otherwise. */
  function LeadingMagnitude(u: string): Option<nat> {
    if HexPrefixed(u) then LeadingHex(u[2..]) else LeadingInt(u)
  }

  /** `parseInt(s)` with no radix: leading whitespace skipped, one
      optional sign, then either "0x"/"0X" and the longest run of
      hexadecimal digits or the longest run of decimal digits; no digits
      at all gives NaN, here `None`. A number is read only when the first
      non-blank character is a digit or a sign, and only a minus sign makes
      it negative. */
  function ParseInt(s: string): (r: Option<int>)
    ensures r.Some? ==> var t := TrimStart(s);
      |t| > 0 && (IsDigit(t[0]) || t[0] == '-' || t[0] == '+')
    ensures r.Some? && r.value < 0 ==> TrimStart(s)[0] == '-'
  {
    var t := TrimStart(s);
    if |t| > 0 && (t[0] == '-' || t[0] == '+') then
      match LeadingMagnitude(t[1..])
      case None => None
      case Some(n) => Some(if t[0] == '-' then -(n as int) else n)
    else
      match LeadingMagnitude(t)
      case None => None
      case Some(n) => Some(n)
  }

  /** A non-empty run of digits reads back as its value. */
  lemma ParseIntOfDigits(ds: string)
    requires |ds| > 0 && AllDigits(ds)
    ensures ParseInt(ds) == Some(Value(ds) as int)
  {
    TrimStartAtDigit(ds);
    DigitNotWhitespace(ds[0]);
    assert !HexPrefixed(ds) by {
      if |ds| >= 2 {
        assert IsDigit(ds[1]);
      }
    }
    DigitRunAll(ds);
    assert ds[..|ds|] == ds;
    assert LeadingMagnitude(ds) == Some(Value(ds));
  }

  /** "0x" or "0X" followed by hexadecimal digits reads as their base-16
      value. */
  lemma ParseIntOfHex(x: char, hs: string)
    requires x == 'x' || x == 'X'
    requires |hs| > 0 && AllHexDigits(hs)
    ensures ParseInt(['0', x] + hs) == Some(HexValue(hs) as int)
  {
    var s := ['0', x] + hs;
    TrimStartAtDigit(s);
    DigitNotWhitespace(s[0]);
    assert s[2..] == hs;
    HexRunAll(hs);
    assert hs[..|hs|] == hs;
  }

  /** `parseInt("0x1F")` is 31, not the 0 a decimal reading would give. */
  lemma ParseIntHexExample()
    ensures ParseInt("0x1F") == Some(31)
  {
    HexValueOf1F();
    assert "0x1F" == ['0', 'x'] + "1F";
    ParseIntOfHex('x', "1F");
  }

  lemma HexValueOf1F()
    ensures AllHexDigits("1F") && HexValue("1F") == 31
  {
    assert "1F"[..1] == "1";
    assert "1"[..0] == "";
  }

  /** A "0x" prefix with no hexadecimal digit after it gives NaN, not the
      0 its leading zero would give in base 10. */
  lemma ParseIntBareHexPrefix(x: char, rest: string)
    requires x == 'x' || x == 'X'
    requires |rest| == 0 || !IsHexDigit(rest[0])
    ensures ParseInt(['0', x] + rest).None?
  {
    var s := ['0', x] + rest;
    TrimStartAtDigit(s);
    DigitNotWhitespace(s[0]);
    assert s[2..] == rest;
  }

  /** The digits after a leading '.', if `rest` starts with one. */
  function FractionDigits(rest: string): (ds: string)
    ensures AllDigits(ds)
  {
    if |rest| > 0 && rest[0] == '.' then rest[1..][..DigitRun(rest[1..])] else ""
  }

  /** The number "0." followed by the digits `fd` denotes. */
  function FractionValue(fd: string): real
    requires AllDigits(fd)
  {
    Value(fd) as real / Pow10(|fd|) as real
  }

  /** The number "I.F" denotes for digit strings I and F. */
  function DecimalValue(ip: string, fp: string): real
    requires AllDigits(ip) && AllDigits(fp)
  {
    Value(ip) as real + FractionValue(fp)
  }

  /** The longest prefix of `u` of the form digits, optionally followed by
      '.' and more digits, read as a non-negative number. */
  function LeadingDecimal(u: string): Option<real> {
    var k := DigitRun(u);
    var fd := FractionDigits(u[k..]);
    if k == 0 && |fd| == 0 then None
    else Some(DecimalValue(u[..k], fd))
  }

  /** Text without a digit holds no decimal prefix. */
  lemma NoDigitsNoDecimal(u: string)
    requires forall i :: 0 <= i < |u| ==> !IsDigit(u[i])
    ensures LeadingDecimal(u).None?
  {
  }

  /** Without a digit in `s`, neither the trimmed text nor what follows
      its first character holds a decimal prefix. */
  lemma NoDigitsAfterTrim(s: string)
    ensures (forall i :: 0 <= i < |s| ==> !IsDigit(s[i])) ==>
      var t := TrimStart(s);
      LeadingDecimal(t).None? && (|t| > 0 ==> LeadingDecimal(t[1..]).None?)
  {
    if forall i :: 0 <= i < |s| ==> !IsDigit(s[i]) {
      var t := TrimStart(s);
      NoDigitsNoDecimal(t);
      if |t| > 0 {
        NoDigitsNoDecimal(t[1..]);
      }
    }
  }

  /** `parseFloat(s)` on the decimal forms: leading whitespace skipped,
      one optional sign, then the longest prefix `LeadingDecimal` reads;
      a prefix with no digit at all gives NaN, here `None`. */
  function ParseFloat(s: string): (r: Option<real>)
    ensures r.Some? ==> var t := TrimStart(s);
      |t| > 0 && (IsDigit(t[0]) || t[0] == '-' || t[0] == '+' || t[0] == '.')
    ensures (forall i :: 0 <= i < |s| ==> !IsDigit(s[i])) ==> r.None?
  {
    NoDigitsAfterTrim(s);
    var t := TrimStart(s);
    if |t| > 0 && t[0] == '-' then Negate(LeadingDecimal(t[1..]))
    else if |t| > 0 && t[0] == '+' then LeadingDecimal(t[1..])
    else LeadingDecimal(t)
  }

  lemma FractionDigitsOf(fp: string)
    requires AllDigits(fp)
    ensures FractionDigits("." + fp) == fp
  {
    assert ("." + fp)[1..] == fp;
    DigitRunAll(fp);
    assert fp[..|fp|] == fp;
  }

  lemma LeadingRunOf(ip: string, fp: string)
    requires AllDigits(ip)
    ensures DigitRun(ip + "." + fp) == |ip|
    ensures (ip + "." + fp)[..|ip|] == ip
    ensures (ip + "." + fp)[|ip|..] == "." + fp
  {
    assert ip + "." + fp == ip + ("." + fp);
    DigitRunOfDigits(ip, "." + fp);
  }

  lemma LeadingDecimalParts(u: string, ip: string, fp: string)
    requires |ip| > 0 && AllDigits(ip) && AllDigits(fp)
    requires DigitRun(u) == |ip| && u[..|ip|] == ip
    requires FractionDigits(u[|ip|..]) == fp
    ensures LeadingDecimal(u) == Some(DecimalValue(ip, fp))
  {
  }

  lemma LeadingDecimalOf(ip: string, fp: string)
    requires |ip| > 0 && AllDigits(ip) && AllDigits(fp)
    ensures LeadingDecimal(ip + "." + fp) == Some(DecimalValue(ip, fp))
  {
    LeadingRunOf(ip, fp);
    FractionDigitsOf(fp);
    LeadingDecimalParts(ip + "." + fp, ip, fp);
  }

  /** `parseFloat` of "I.F" with digit strings I and F reads the value
      the two parts denote. */
  lemma ParseFloatOfDecimal(ip: string, fp: string)
    requires |ip| > 0 && AllDigits(ip) && AllDigits(fp)
    ensures ParseFloat(ip + "." + fp)
         == Some(DecimalValue(ip, fp))
  {
    var s := ip + "." + fp;
    assert s[0] == ip[0];
    TrimStartAtDigit(s);
    DigitNotWhitespace(s[0]);
    LeadingDecimalOf(ip, fp);
  }
}
