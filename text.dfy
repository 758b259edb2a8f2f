/**
 * The JavaScript text handling the setup form relies on: `String.prototype.trim`
 * for the server address and `parseInt(text) || 19132` for the port
 * (sections 22.1.3.32 and 19.2.5 of ECMA-262). Numbers are unbounded integers
 * here; `None` stands for NaN.
 */
module JsText {
  import opened Wrappers

  /** The port stored when none is given. */
  const DefaultPort: int := 19132

  /** JavaScript WhiteSpace and LineTerminator code points, which `trim` and `parseInt` skip. */
  predicate IsJsSpace(c: char)
  {
    || c == '\t' || c == '\n' || c == '\U{B}' || c == '\U{C}' || c == '\r' || c == ' '
    || c == '\U{A0}' || c == '\U{1680}' || ('\U{2000}' <= c <= '\U{200A}')
    || c == '\U{2028}' || c == '\U{2029}' || c == '\U{202F}' || c == '\U{205F}'
    || c == '\U{3000}' || c == '\U{FEFF}'
  }

  predicate AllSpace(w: string)
  {
    forall i :: 0 <= i < |w| ==> IsJsSpace(w[i])
  }

  /** `trimStart`: the suffix left once every leading space is dropped. */
  function TrimStart(s: string): (r: string)
    ensures |r| <= |s| && r == s[|s| - |r|..]
    ensures AllSpace(s[..|s| - |r|])
    ensures r == [] || !IsJsSpace(r[0])
  {
    if s != [] && IsJsSpace(s[0]) then TrimStart(s[1..]) else s
  }

  /** `trimEnd`: the prefix left once every trailing space is dropped. */
  function TrimEnd(s: string): (r: string)
    ensures |r| <= |s| && r == s[..|r|]
    ensures AllSpace(s[|r|..])
    ensures r == [] || !IsJsSpace(r[|r| - 1])
  {
    if s != [] && IsJsSpace(s[|s| - 1]) then TrimEnd(s[..|s| - 1]) else s
  }

  /** `trim`: no space is left at either end, and nothing is left of a blank text. */
  function Trim(s: string): (r: string)
    ensures r == [] || (!IsJsSpace(r[0]) && !IsJsSpace(r[|r| - 1]))
    ensures r == [] <==> AllSpace(s)
  {
    var t := TrimStart(s);
    var r := TrimEnd(t);
    assert r == [] ==> AllSpace(s) by {
      if r == [] {
        assert s == s[..|s| - |t|] + t;
        assert t == t[|r|..];
      }
    }
    r
  }

  /** Spaces in front of a text that does not start with one are all that trimStart removes. */
  lemma {:induction false} TrimStartSkips(w: string, t: string)
    requires AllSpace(w)
    requires t == [] || !IsJsSpace(t[0])
    ensures TrimStart(w + t) == t
  {
    if w != [] {
      assert (w + t)[1..] == w[1..] + t;
      TrimStartSkips(w[1..], t);
    } else {
      assert w + t == t;
    }
  }

  /** Spaces behind a text that does not end with one are all that trimEnd removes. */
  lemma {:induction false} TrimEndSkips(t: string, w: string)
    requires AllSpace(w)
    requires t == [] || !IsJsSpace(t[|t| - 1])
    ensures TrimEnd(t + w) == t
  {
    if w != [] {
      assert (t + w)[..|t + w| - 1] == t + w[..|w| - 1];
      TrimEndSkips(t, w[..|w| - 1]);
    } else {
      assert t + w == t;
    }
  }

  /** trim removes exactly the surrounding spaces, whatever the text between them. */
  lemma TrimExact(w1: string, t: string, w2: string)
    requires AllSpace(w1) && AllSpace(w2)
    requires t == [] || (!IsJsSpace(t[0]) && !IsJsSpace(t[|t| - 1]))
    ensures Trim(w1 + t + w2) == t
  {
    if t == [] {
      assert w1 + t + w2 == w1 + w2;
      assert AllSpace(w1 + w2) by {
        forall i | 0 <= i < |w1 + w2| ensures IsJsSpace((w1 + w2)[i]) {
          if i >= |w1| { assert (w1 + w2)[i] == w2[i - |w1|]; }
        }
      }
    } else {
      assert w1 + t + w2 == w1 + (t + w2);
      TrimStartSkips(w1, t + w2);
      TrimEndSkips(t, w2);
    }
  }

  /** Trimming twice is trimming once. */
  lemma TrimIdempotent(s: string)
    ensures Trim(Trim(s)) == Trim(s)
  {
    var r := Trim(s);
    assert [] + r + [] == r;
    TrimExact([], r, []);
  }

  /** The value of a digit in any radix up to 36; 36 for a character that is no digit. */
  function DigitValue(c: char): (d: nat)
    ensures d <= 36
    ensures d < 10 <==> '0' <= c <= '9'
  {
    if '0' <= c <= '9' then c as int - '0' as int
    else if 'a' <= c <= 'z' then c as int - 'a' as int + 10
    else if 'A' <= c <= 'Z' then c as int - 'A' as int + 10
    else 36
  }

  /** The length of the longest prefix of s made of digits of the radix. */
  function DigitRun(s: string, radix: nat): (k: nat)
    ensures k <= |s|
    ensures forall i :: 0 <= i < k ==> DigitValue(s[i]) < radix
    ensures k == |s| || DigitValue(s[k]) >= radix
  {
    if s == [] || DigitValue(s[0]) >= radix then 0 else 1 + DigitRun(s[1..], radix)
  }

  /** The number that a digit string denotes, most significant digit first. */
  function DigitsValue(s: string, radix: nat): nat
  {
    if s == [] then 0 else DigitsValue(s[..|s| - 1], radix) * radix + DigitValue(s[|s| - 1])
  }

  /** The sign at the front of a numeral: whether it is negative, and the text after the sign. */
  function ParseSign(t: string): (bool, string)
  {
    if |t| > 0 && (t[0] == '-' || t[0] == '+') then (t[0] == '-', t[1..]) else (false, t)
  }

  /** The radix selected by a `0x`/`0X` prefix, and the text after the prefix. */
  function ParseRadix(u: string): (nat, string)
  {
    if |u| >= 2 && u[0] == '0' && (u[1] == 'x' || u[1] == 'X') then (16, u[2..]) else (10, u)
  }

  /** The value of the longest run of digits at the front of d; none at all is NaN. */
  function ParseDigits(d: string, radix: nat): Option<nat>
  {
    var k := DigitRun(d, radix);
    if k == 0 then None else Some(DigitsValue(d[..k], radix))
  }

  /** parseInt on a text with no leading space: sign, radix prefix, digits. */
  function ParseNumeral(t: string): Option<int>
  {
    var sign := ParseSign(t);
    var prefix := ParseRadix(sign.1);
    var digits := ParseDigits(prefix.1, prefix.0);
    if digits.None? then None
    else if sign.0 then Some(-(digits.value as int))
    else Some(digits.value as int)
  }

  /**
   * `parseInt(s)` without a radix: leading spaces skipped, an optional sign,
   * a `0x`/`0X` prefix selecting radix 16, then the longest run of digits;
   * no digit at all gives NaN (`None`).
   */
  function ParseInt(s: string): (n: Option<int>)
    ensures TrimStart(s) == [] ==> n.None?
  {
    ParseNumeral(TrimStart(s))
  }

  function DigitChar(d: nat): (c: char)
    requires d < 10
    ensures DigitValue(c) == d
  {
    ('0' as int + d) as char
  }

  /** The decimal numeral of n, without leading zeros. */
  function Decimal(n: nat): (s: string)
    ensures |s| > 0
    ensures forall i :: 0 <= i < |s| ==> DigitValue(s[i]) < 10
    ensures s[0] == '0' ==> n == 0
  {
    if n < 10 then [DigitChar(n)] else Decimal(n / 10) + [DigitChar(n % 10)]
  }

  /** A decimal numeral denotes the number it was written from. */
  lemma {:induction false} DecimalValue(n: nat)
    ensures DigitsValue(Decimal(n), 10) == n
  {
    var s := Decimal(n);
    if n < 10 {
      assert s[..|s| - 1] == [];
    } else {
      assert s[..|s| - 1] == Decimal(n / 10);
      DecimalValue(n / 10);
    }
  }

  /** A run of digits followed by a non-digit is read up to that non-digit. */
  lemma {:induction false} DigitRunStops(d: string, t: string, radix: nat)
    requires forall i :: 0 <= i < |d| ==> DigitValue(d[i]) < radix
    requires t == [] || DigitValue(t[0]) >= radix
    ensures DigitRun(d + t, radix) == |d|
  {
    if d == [] {
      assert d + t == t;
    } else {
      assert (d + t)[1..] == d[1..] + t;
      DigitRunStops(d[1..], t, radix);
    }
  }

  /**
   * t ends the decimal numeral of n: it is empty or starts with a non-digit,
   * and after a lone "0" that non-digit is not the x of a hexadecimal prefix.
   */
  predicate EndsNumeral(n: nat, t: string)
  {
    t == [] || (DigitValue(t[0]) >= 10 && (n == 0 ==> t[0] != 'x' && t[0] != 'X'))
  }

  /** A decimal numeral followed by a non-digit is read as the number it was written from. */
  lemma ReadDecimal(n: nat, t: string)
    requires EndsNumeral(n, t)
    ensures ParseSign(Decimal(n) + t) == (false, Decimal(n) + t)
    ensures ParseRadix(Decimal(n) + t) == (10, Decimal(n) + t)
    ensures ParseDigits(Decimal(n) + t, 10) == Some(n)
  {
    var d := Decimal(n);
    var u := d + t;
    assert u[0] == d[0];
    if u[0] == '0' && |u| >= 2 {
      assert n == 0 && |d| == 1 && u[1] == t[0];
    }
    DigitRunStops(d, t, 10);
    assert u[..|d|] == d;
    DecimalValue(n);
  }

  /** A numeral is read from its first non-space character on. */
  lemma ParseIntAfterSpaces(w: string, u: string)
    requires AllSpace(w)
    requires u != [] && !IsJsSpace(u[0])
    ensures ParseInt(w + u) == ParseNumeral(u)
  {
    TrimStartSkips(w, u);
  }

  /** The numeral of n, with or without a minus sign in front, is read as n or -n. */
  lemma ReadSignedDecimal(n: nat, t: string)
    requires EndsNumeral(n, t)
    ensures ParseNumeral(Decimal(n) + t) == Some(n as int)
    ensures ParseNumeral("-" + Decimal(n) + t) == Some(-(n as int))
  {
    var u := Decimal(n) + t;
    ReadDecimal(n, t);
    var v := "-" + Decimal(n) + t;
    assert v == ['-'] + u;
    assert v[0] == '-' && v[1..] == u;
    assert ParseSign(v) == (true, u);
  }

  /** parseInt reads back a decimal numeral after any spaces and before any non-digit text. */
  lemma ParseIntUnsigned(w: string, n: nat, t: string)
    requires AllSpace(w)
    requires EndsNumeral(n, t)
    ensures ParseInt(w + Decimal(n) + t) == Some(n as int)
  {
    ReadSignedDecimal(n, t);
    var u := Decimal(n) + t;
    assert u[0] == Decimal(n)[0];
    assert w + Decimal(n) + t == w + u;
    ParseIntAfterSpaces(w, u);
  }

  /** parseInt reads back a negated decimal numeral after any spaces and before any non-digit text. */
  lemma ParseIntNegative(w: string, n: nat, t: string)
    requires AllSpace(w)
    requires EndsNumeral(n, t)
    ensures ParseInt(w + "-" + Decimal(n) + t) == Some(-(n as int))
  {
    var d := Decimal(n);
    var signed := "-" + d;
    var v := signed + t;
    assert v[0] == '-';
    assert (w + "-") + d == w + signed;
    assert (w + signed) + t == w + v;
    ReadSignedDecimal(n, t);
    ParseIntAfterSpaces(w, v);
  }

  /** `parseInt(text) || 19132`: NaN and zero give the default port, any other number is kept. */
  function PortOrDefault(text: string): (port: int)
    ensures port != 0
    ensures port == DefaultPort || ParseInt(text) == Some(port)
    ensures ParseInt(text).None? ==> port == DefaultPort
    ensures ParseInt(text).Some? && ParseInt(text).value != 0 ==> port == ParseInt(text).value
  {
    match ParseInt(text)
    case Some(n) => if n == 0 then DefaultPort else n
    case None => DefaultPort
  }

  /** A port typed in decimal is the port stored; a blank field or zero stores the default. */
  lemma PortRoundTrip(n: nat, w1: string, w2: string)
    requires AllSpace(w1) && AllSpace(w2)
    ensures n != 0 ==> PortOrDefault(w1 + Decimal(n) + w2) == n
    ensures PortOrDefault(w1) == DefaultPort
    ensures PortOrDefault(w1 + "0" + w2) == DefaultPort
  {
    if w2 != [] {
      assert IsJsSpace(w2[0]);
    }
    ParseIntUnsigned(w1, n, w2);
    ParseIntUnsigned(w1, 0, w2);
    assert Decimal(0) == "0";
    TrimStartSkips(w1, []);
    assert w1 + [] == w1;
  }
}
