/** Integer text as JavaScript reads and writes it: the global `parseInt`
    called without a radix (used for the `PORT` setting), and the canonical
    decimal text of a natural number (used for index keys of plain objects).
 */
module Numbers {
  import opened Optional

  /** What `parseInt` yields: an integer, or `NaN` when no digit was found. */
  datatype ParsedInt = Int(value: int) | NaN

  /** The characters `parseInt` skips before the number: the white space and
      line terminators of the ECMAScript grammar (tab, vertical tab, form feed,
      space, no-break space, byte order mark, the space separators and the
      line and paragraph separators). */
  predicate IsWhiteSpace(c: char) {
    || '\t' <= c <= '\r'  // tab, line feed, vertical tab, form feed, carriage return
    || c == ' ' || c == '\U{A0}' || c == '\U{1680}'
    || '\U{2000}' <= c <= '\U{200A}'
    || c == '\U{2028}' || c == '\U{2029}' || c == '\U{202F}' || c == '\U{205F}'
    || c == '\U{3000}' || c == '\U{FEFF}'
  }

  /** Value of a character read as a digit of radix up to 36; 36 when it is no digit at all. */
  function DigitValue(c: char): (d: nat)
    ensures d <= 36
  {
    if '0' <= c <= '9' then (c as int - '0' as int)
    else if 'a' <= c <= 'z' then (c as int - 'a' as int) + 10
    else if 'A' <= c <= 'Z' then (c as int - 'A' as int) + 10
    else 36
  }

  predicate IsDigit(c: char, radix: nat) {
    DigitValue(c) < radix
  }

  predicate AllDigits(s: string, radix: nat) {
    forall i :: 0 <= i < |s| ==> IsDigit(s[i], radix)
  }

  /** `s` without its leading white space. */
  function TrimStart(s: string): (t: string)
    ensures |t| <= |s| && t == s[|s| - |t|..]
  {
    if |s| > 0 && IsWhiteSpace(s[0]) then TrimStart(s[1..]) else s
  }

  /** Length of the longest prefix of `s` made of radix digits. */
  function DigitPrefixLength(s: string, radix: nat): (n: nat)
    ensures n <= |s|
    ensures AllDigits(s[..n], radix)
    ensures n < |s| ==> !IsDigit(s[n], radix)
  {
    if |s| == 0 || !IsDigit(s[0], radix) then 0
    else
      var m := DigitPrefixLength(s[1..], radix);
      assert s[..m + 1] == [s[0]] + s[1..][..m];
      m + 1
  }

  /** The number a digit string denotes, most significant digit first. */
  function Value(ds: string, radix: nat): nat
    requires AllDigits(ds, radix)
  {
    if |ds| == 0 then 0
    else Value(ds[..|ds| - 1], radix) * radix + DigitValue(ds[|ds| - 1])
  }

  /** `s` without one leading `+` or `-`. */
  function WithoutSign(t: string): string {
    if |t| > 0 && (t[0] == '-' || t[0] == '+') then t[1..] else t
  }

  predicate HasHexPrefix(u: string) {
    |u| >= 2 && u[0] == '0' && (u[1] == 'x' || u[1] == 'X')
  }

  /** The magnitude `parseInt` reads once white space and sign are gone:
      radix 16 after a `0x` or `0X` prefix, radix 10 otherwise, over the
      longest run of digits; `None` when that run is empty. */
  function ReadMagnitude(u: string): Option<nat> {
    var radix := if HasHexPrefix(u) then 16 else 10;
    var body := if HasHexPrefix(u) then u[2..] else u;
    var n := DigitPrefixLength(body, radix);
    if n == 0 then None else Some(Value(body[..n], radix))
  }

  /** `parseInt(s)` with no radix argument: skip leading white space, read an
      optional sign, then the magnitude; no digit at all gives `NaN`, and
      whatever follows the digits is ignored. */
  function ParseInt(s: string): ParsedInt
  {
    ParseTrimmed(TrimStart(s))
  }

  /** What `parseInt` reads from text whose leading white space is gone: an
      optional sign, then the magnitude. */
  function ParseTrimmed(t: string): ParsedInt
  {
    match ReadMagnitude(WithoutSign(t))
    case None => NaN
    case Some(m) => Int(if |t| > 0 && t[0] == '-' then -(m as int) else m)
  }

  /** The decimal digit character for a value below ten. */
  function DigitChar(d: nat): (c: char)
    requires d < 10
    ensures IsDigit(c, 10) && DigitValue(c) == d
  {
    ('0' as int + d) as char
  }

  /** Canonical decimal text of `n`: no sign and no leading zero. */
  function Decimal(n: nat): (s: string)
    ensures |s| >= 1
    ensures AllDigits(s, 10)
    ensures s[0] == '0' ==> n == 0
    ensures n == 0 ==> s == "0"
  {
    if n < 10 then [DigitChar(n)]
    else Decimal(n / 10) + [DigitChar(n % 10)]
  }

  /** Reading back the decimal text of `n` gives `n`. */
  lemma {:induction false} ValueOfDecimal(n: nat)
    ensures Value(Decimal(n), 10) == n
  {
    var s := Decimal(n);
    if n < 10 {
      assert s[..0] == [];
    } else {
      ValueOfDecimal(n / 10);
      assert s[..|s| - 1] == Decimal(n / 10);
    }
  }

  /** The longest digit prefix of a digit string followed by a non-digit is that digit string. */
  lemma {:induction false} DigitPrefixOfDigits(ds: string, rest: string, radix: nat)
    requires AllDigits(ds, radix)
    requires rest == [] || !IsDigit(rest[0], radix)
    ensures DigitPrefixLength(ds + rest, radix) == |ds|
  {
    if |ds| > 0 {
      assert (ds + rest)[1..] == ds[1..] + rest;
      DigitPrefixOfDigits(ds[1..], rest, radix);
    }
  }

  /** A decimal digit is neither white space nor a sign. */
  lemma DecimalDigitIsPlain(c: char)
    requires IsDigit(c, 10)
    ensures '0' <= c <= '9'
    ensures !IsWhiteSpace(c) && c != '-' && c != '+'
  {
  }

  /** Text starting with a decimal digit is read from its first character on. */
  lemma ParseIntFromDigit(s: string)
    requires |s| > 0 && IsDigit(s[0], 10)
    ensures ParseInt(s) == match ReadMagnitude(s) case None => NaN case Some(m) => Int(m)
  {
    DecimalDigitIsPlain(s[0]);
    assert TrimStart(s) == s;
    assert WithoutSign(s) == s;
  }

  lemma ReadMagnitudeOfDecimal(n: nat, rest: string)
    requires rest == [] || !IsDigit(rest[0], 10)
    requires n == 0 && |rest| > 0 ==> rest[0] != 'x' && rest[0] != 'X'
    ensures ReadMagnitude(Decimal(n) + rest) == Some(n)
  {
    var s := Decimal(n) + rest;
    assert s[0] == Decimal(n)[0];
    if |s| >= 2 && s[0] == '0' {
      assert s[1] == rest[0];
    }
    assert !HasHexPrefix(s);
    DigitPrefixOfDigits(Decimal(n), rest, 10);
    assert s[..|Decimal(n)|] == Decimal(n);
    ValueOfDecimal(n);
  }

  /** `parseInt` reads back the decimal text of any natural number, and
      ignores whatever follows it as long as that does not start with a digit
      (or, after a lone `0`, with the `x` of a hexadecimal prefix). */
  lemma ParseIntOfDecimal(n: nat, rest: string)
    requires rest == [] || !IsDigit(rest[0], 10)
    requires n == 0 && |rest| > 0 ==> rest[0] != 'x' && rest[0] != 'X'
    ensures ParseInt(Decimal(n) + rest) == Int(n)
  {
    var s := Decimal(n) + rest;
    assert s[0] == Decimal(n)[0];
    ParseIntFromDigit(s);
    ReadMagnitudeOfDecimal(n, rest);
  }

  lemma {:induction false} TrimStartSkipsWhiteSpace(ws: string, s: string)
    requires forall i :: 0 <= i < |ws| ==> IsWhiteSpace(ws[i])
    ensures TrimStart(ws + s) == TrimStart(s)
  {
    if |ws| > 0 {
      assert (ws + s)[0] == ws[0] && IsWhiteSpace(ws[0]);
      assert (ws + s)[1..] == ws[1..] + s;
      TrimStartSkipsWhiteSpace(ws[1..], s);
      assert TrimStart(ws + s) == TrimStart((ws + s)[1..]);
    } else {
      assert ws + s == s;
    }
  }

  /** Leading white space never changes what `parseInt` reads. */
  lemma ParseIntSkipsWhiteSpace(ws: string, s: string)
    requires forall i :: 0 <= i < |ws| ==> IsWhiteSpace(ws[i])
    ensures ParseInt(ws + s) == ParseInt(s)
  {
    TrimStartSkipsWhiteSpace(ws, s);
  }

  /** The default port text reads as the number it spells. */
  lemma ParseIntDefaultPort()
    ensures ParseInt("3000") == Int(3000)
  {
    assert "3000" == Decimal(3000) + "" by {
      assert Decimal(300) == "300";
    }
    ParseIntOfDecimal(3000, "");
  }

  /** Text after the digits is ignored. */
  lemma ParseIntIgnoresTrailingText()
    ensures ParseInt("80abc") == Int(80)
  {
    assert "80abc" == Decimal(80) + "abc" by {
      assert Decimal(8) == "8";
    }
    ParseIntOfDecimal(80, "abc");
  }

  /** The hexadecimal digits `1F` denote 31. */
  lemma ReadMagnitudeOfHex()
    ensures ReadMagnitude("0x1F") == Some(31)
  {
    var h := "0x1F";
    assert HasHexPrefix(h) && h[2..] == "1F";
    DigitPrefixOfDigits("1F", [], 16);
    assert "1F" + [] == "1F" && "1F"[..2] == "1F";
    assert Value("1F", 16) == 31 by {
      assert "1F"[..1] == "1" && "1"[..0] == [];
    }
  }

  /** A `0x` prefix switches to hexadecimal. */
  lemma ParseIntHexadecimal()
    ensures ParseInt("0x1F") == Int(31)
  {
    assert TrimStart("0x1F") == "0x1F" by {
      TrimStartOfPlain("0x1F");
    }
    assert WithoutSign("0x1F") == "0x1F";
    ReadMagnitudeOfHex();
  }

  /** A leading minus sign negates. */
  lemma ParseIntNegative()
    ensures ParseInt("-12") == Int(-12)
  {
    assert TrimStart("-12") == "-12" by {
      TrimStartOfPlain("-12");
    }
    assert WithoutSign("-12") == "12" == Decimal(12) + "" by {
      assert Decimal(1) == "1";
    }
    ReadMagnitudeOfDecimal(12, "");
  }

  /** Text that has no digit where the magnitude starts is read as no number. */
  lemma ReadMagnitudeWithoutDigit(u: string)
    requires u == [] || !IsDigit(u[0], 10)
    ensures ReadMagnitude(u) == None
  {
    assert !HasHexPrefix(u);
  }

  /** Text with no digit where the number should start is `NaN`, whatever
      white space precedes it. */
  lemma ParseIntWithoutDigits(ws: string, rest: string)
    requires forall i :: 0 <= i < |ws| ==> IsWhiteSpace(ws[i])
    requires rest == [] || (!IsDigit(rest[0], 10) && !IsWhiteSpace(rest[0]) && rest[0] != '-' && rest[0] != '+')
    ensures ParseInt(ws + rest) == NaN
  {
    ParseIntSkipsWhiteSpace(ws, rest);
    assert TrimStart(rest) == rest;
    assert WithoutSign(rest) == rest;
    ReadMagnitudeWithoutDigit(rest);
  }

  /** Text that does not start with white space has none to trim. */
  lemma TrimStartOfPlain(t: string)
    requires |t| > 0 && !IsWhiteSpace(t[0])
    ensures TrimStart(t) == t
  {
  }

  /** `parseInt` gives `NaN` exactly when no magnitude follows the white space and sign. */
  lemma ParseIntIsNaN(s: string)
    ensures ParseInt(s) == NaN <==> ReadMagnitude(WithoutSign(TrimStart(s))) == None
  {
  }

  /** A sign is not white space, so signed text has none to trim. */
  lemma TrimStartOfSigned(sign: char, rest: string)
    requires sign == '-' || sign == '+'
    ensures TrimStart([sign] + rest) == [sign] + rest
  {
    var t := [sign] + rest;
    assert t[0] == sign;
    TrimStartOfPlain(t);
  }

  /** Dropping the sign of signed text leaves the text after it. */
  lemma WithoutSignOfSigned(sign: char, rest: string)
    requires sign == '-' || sign == '+'
    ensures WithoutSign([sign] + rest) == rest
  {
    var t := [sign] + rest;
    assert t[0] == sign && t[1..] == rest;
  }

  /** A sign followed by no digit reads as `NaN`. */
  lemma ParseIntOfSignAlone(sign: char, rest: string)
    requires sign == '-' || sign == '+'
    requires rest == [] || !IsDigit(rest[0], 10)
    ensures ParseInt([sign] + rest) == NaN
  {
    TrimStartOfSigned(sign, rest);
    WithoutSignOfSigned(sign, rest);
    ReadMagnitudeWithoutDigit(rest);
    ParseIntIsNaN([sign] + rest);
  }

  /** A sign with no digit after it is `NaN` too. */
  lemma ParseIntSignWithoutDigits(ws: string, sign: char, rest: string)
    requires forall i :: 0 <= i < |ws| ==> IsWhiteSpace(ws[i])
    requires sign == '-' || sign == '+'
    requires rest == [] || !IsDigit(rest[0], 10)
    ensures ParseInt(ws + ([sign] + rest)) == NaN
  {
    ParseIntSkipsWhiteSpace(ws, [sign] + rest);
    ParseIntOfSignAlone(sign, rest);
  }
}
