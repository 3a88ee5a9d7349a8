/**
 * The few JavaScript string operations the core relies on:
 * `String.prototype.trim`, `parseInt(s, 10)` and `Buffer.toString('hex')`.
 */
module JsText {
  import opened Wrappers

  /**
   * An ECMAScript WhiteSpace or LineTerminator code point (what `trim` and
   * `parseInt` skip): TAB, LF, VT, FF, CR and SPACE below U+0080, then
   * NBSP, the Unicode space separators, LS, PS and the byte order mark.
   */
  predicate IsJsSpace(c: char) {
    || ('\t' <= c <= '\r') || c == ' ' || c == '\U{A0}' || c == '\U{1680}'
    || ('\U{2000}' <= c <= '\U{200A}')
    || c == '\U{2028}' || c == '\U{2029}' || c == '\U{202F}' || c == '\U{205F}'
    || c == '\U{3000}' || c == '\U{FEFF}'
  }

  predicate AllSpace(s: string) {
    forall i :: 0 <= i < |s| ==> IsJsSpace(s[i])
  }

  /** Neither the first nor the last character is white space. */
  predicate NoEdgeSpace(s: string) {
    s == [] || (!IsJsSpace(s[0]) && !IsJsSpace(s[|s| - 1]))
  }

  /** The index of the first character at or after `i` that is not white space, or `|s|`. */
  function SkipSpace(s: string, i: nat): (k: nat)
    requires i <= |s|
    ensures i <= k <= |s|
    ensures forall j :: i <= j < k ==> IsJsSpace(s[j])
    ensures k == |s| || !IsJsSpace(s[k])
    decreases |s| - i
  {
    if i < |s| && IsJsSpace(s[i]) then SkipSpace(s, i + 1) else i
  }

  /** The index just past the last character before `k` that is not white space, or 0. */
  function SkipSpaceBack(s: string, k: nat): (e: nat)
    requires k <= |s|
    ensures e <= k
    ensures forall j :: e <= j < k ==> IsJsSpace(s[j])
    ensures e == 0 || !IsJsSpace(s[e - 1])
  {
    if k > 0 && IsJsSpace(s[k - 1]) then SkipSpaceBack(s, k - 1) else k
  }

  /** Drops leading white space: the result is the longest suffix not starting with it. */
  function TrimStart(s: string): (r: string)
    ensures |r| <= |s| && r == s[|s| - |r|..]
    ensures forall j :: 0 <= j < |s| - |r| ==> IsJsSpace(s[j])
    ensures r == [] || !IsJsSpace(r[0])
  {
    s[SkipSpace(s, 0)..]
  }

  /** Drops trailing white space: the result is the longest prefix not ending with it. */
  function TrimEnd(s: string): (r: string)
    ensures |r| <= |s| && r == s[..|r|]
    ensures forall j :: |r| <= j < |s| ==> IsJsSpace(s[j])
    ensures r == [] || !IsJsSpace(r[|r| - 1])
  {
    s[..SkipSpaceBack(s, |s|)]
  }

  /** `s.trim()`: leading and then trailing white space dropped. */
  function Trim(s: string): (r: string)
    ensures |r| <= |s|
    ensures NoEdgeSpace(r)
  {
    var t := TrimStart(s);
    var r := TrimEnd(t);
    assert r != [] ==> r[0] == t[0];
    r
  }

  /**
   * The trimmed value is the middle of `s` between a white-space prefix
   * and a white-space suffix: trimming cuts white space and nothing else.
   */
  lemma TrimKeepsMiddle(s: string)
    ensures var i, r := |s| - |TrimStart(s)|, Trim(s);
      && i + |r| <= |s| && r == s[i..i + |r|]
      && (forall j :: 0 <= j < i ==> IsJsSpace(s[j]))
      && (forall j :: i + |r| <= j < |s| ==> IsJsSpace(s[j]))
  {
    var t := TrimStart(s);
    var r := TrimEnd(t);
    var i := |s| - |t|;
    assert t == s[i..] && r == t[..|r|];
    assert r == s[i..i + |r|];
    forall j | i + |r| <= j < |s|
      ensures IsJsSpace(s[j])
    {
      assert s[j] == t[j - i];
    }
  }

  /** Trimming a trimmed string changes nothing, so sanitising twice is sanitising once. */
  lemma TrimOfTrimmed(s: string)
    requires NoEdgeSpace(s)
    ensures Trim(s) == s
  {
  }

  lemma TrimIdempotent(s: string)
    ensures Trim(Trim(s)) == Trim(s)
  {
    TrimOfTrimmed(Trim(s));
  }

  // ---------------------------------------------------------------- length

  /** The UTF-16 code units a code point takes: two above U+FFFF. */
  function CodeUnits(c: char): (n: nat)
    ensures 1 <= n <= 2
  {
    if c <= '\U{FFFF}' then 1 else 2
  }

  /** `s.length`: the number of UTF-16 code units, which Joi's `min` and `max` count. */
  function Utf16Length(s: string): (n: nat)
    ensures |s| <= n <= 2 * |s|
  {
    if s == [] then 0 else CodeUnits(s[0]) + Utf16Length(s[1..])
  }

  /** Text within the basic multilingual plane has as many code units as characters. */
  lemma {:induction false} Utf16LengthOfBasicPlane(s: string)
    requires forall i :: 0 <= i < |s| ==> s[i] <= '\U{FFFF}'
    ensures Utf16Length(s) == |s|
  {
    if s != [] {
      assert forall i :: 0 <= i < |s[1..]| ==> s[1..][i] == s[i + 1];
      Utf16LengthOfBasicPlane(s[1..]);
    }
  }

  /** One character outside the basic plane is two code units. */
  lemma Utf16LengthOfAstral(c: char)
    requires c > '\U{FFFF}'
    ensures |[c]| == 1 && Utf16Length([c]) == 2
  {
    assert [c][1..] == [];
  }

  // ---------------------------------------------------------------- parseInt

  predicate IsDigit(c: char) {
    '0' <= c <= '9'
  }

  predicate AllDigits(s: string) {
    forall i :: 0 <= i < |s| ==> IsDigit(s[i])
  }

  function DigitValue(c: char): (d: nat)
    requires IsDigit(c)
    ensures d < 10
  {
    (c as int) - ('0' as int)
  }

  function DigitChar(d: nat): (c: char)
    requires d < 10
    ensures IsDigit(c) && DigitValue(c) == d
  {
    ((d + ('0' as int)) as char)
  }

  /** The index just past the run of decimal digits that starts at `i`. */
  function SkipDigits(s: string, i: nat): (k: nat)
    requires i <= |s|
    ensures i <= k <= |s|
    ensures forall j :: i <= j < k ==> IsDigit(s[j])
    ensures k == |s| || !IsDigit(s[k])
    decreases |s| - i
  {
    if i < |s| && IsDigit(s[i]) then SkipDigits(s, i + 1) else i
  }

  /** The value of a string of decimal digits, most significant first. */
  function DigitsValue(d: string): nat
    requires AllDigits(d)
  {
    if d == [] then 0 else DigitsValue(d[..|d| - 1]) * 10 + DigitValue(d[|d| - 1])
  }

  predicate IsSign(c: char) {
    c == '-' || c == '+'
  }

  function Pow10(n: nat): (p: nat)
    ensures p >= 1
  {
    if n == 0 then 1 else 10 * Pow10(n - 1)
  }

  /** A run of digits is worth less than ten to the power of its length. */
  lemma {:induction false} DigitsValueBelow(d: string)
    requires AllDigits(d)
    ensures DigitsValue(d) < Pow10(|d|)
  {
    if d != [] {
      DigitsValueBelow(d[..|d| - 1]);
    }
  }

  /** The leading digit is worth its value times ten to the power of the digits after it. */
  lemma {:induction false} DigitsValueLeading(d: string)
    requires d != [] && AllDigits(d)
    ensures DigitsValue(d) == DigitValue(d[0]) * Pow10(|d| - 1) + DigitsValue(d[1..])
  {
    var n := |d|;
    if n == 1 {
      assert d[..0] == [] && d[1..] == [];
    } else {
      var init, tail := d[..n - 1], d[1..];
      DigitsValueLeading(init);
      assert init[0] == d[0] && init[1..] == tail[..n - 2] && tail[n - 2] == d[n - 1];
      var v0, p, x := DigitValue(d[0]), Pow10(n - 2), DigitsValue(tail[..n - 2]);
      assert DigitsValue(init) == v0 * p + x;
      assert DigitsValue(tail) == x * 10 + DigitValue(d[n - 1]);
      Shift(v0, p, x, DigitValue(d[n - 1]));
    }
  }

  lemma Shift(v0: int, p: int, x: int, last: int)
    ensures (v0 * p + x) * 10 + last == v0 * (10 * p) + (x * 10 + last)
  {
  }

  /**
   * `parseInt(s, 10)`; `None` stands for NaN. Leading white space is
   * skipped, one `+` or `-` is accepted, then the longest run of decimal
   * digits is read and the rest ignored; no digit at all gives NaN.
   */
  function ParseInt(s: string): (r: Option<int>)
    // NaN exactly when no digit follows the white space and the optional sign.
    ensures var i := SkipSpace(s, 0); var j := if i < |s| && IsSign(s[i]) then i + 1 else i;
      r.None? <==> j == |s| || !IsDigit(s[j])
    // A negative result needs a minus sign in front of the digits.
    ensures r.Some? && r.value < 0 ==> s[SkipSpace(s, 0)] == '-'
  {
    var i := SkipSpace(s, 0);
    var signed := i < |s| && IsSign(s[i]);
    var j := if signed then i + 1 else i;
    var k := SkipDigits(s, j);
    if k == j then None
    else if signed && s[i] == '-' then Some(-(DigitsValue(s[j..k]) as int))
    else Some(DigitsValue(s[j..k]))
  }

  /** The decimal rendering of a natural number, without leading zeros. */
  function DecimalString(n: nat): (r: string)
    ensures r != [] && AllDigits(r)
    decreases n
  {
    if n < 10 then [DigitChar(n)] else DecimalString(n / 10) + [DigitChar(n % 10)]
  }

  lemma {:induction false} DigitsValueOfDecimal(n: nat)
    ensures DigitsValue(DecimalString(n)) == n
    decreases n
  {
    if n >= 10 {
      var d := DecimalString(n);
      assert d[..|d| - 1] == DecimalString(n / 10);
      DigitsValueOfDecimal(n / 10);
    }
  }

  /** parseInt reads back every decimal rendering: it is a left inverse of DecimalString. */
  lemma ParseIntOfDecimal(n: nat)
    ensures ParseInt(DecimalString(n)) == Some(n)
  {
    var d := DecimalString(n);
    NotSpace(d[0]);
    DigitIsNoSign(d[0]);
    ParseIntOfNumeral(d, 0, 0, |d|);
    assert d[0..|d|] == d;
    DigitsValueOfDecimal(n);
  }

  /**
   * Text made of white space up to `i`, then an optional sign, then
   * decimal digits from `j` up to `k`, where a non-digit or the end
   * follows, parses to the value of those digits, negated after a minus;
   * whatever comes after them is ignored.
   */
  lemma ParseIntOfNumeral(s: string, i: nat, j: nat, k: nat)
    requires i <= j < k <= |s|
    requires forall m :: 0 <= m < i ==> IsJsSpace(s[m])
    requires !IsJsSpace(s[i])
    requires j == if IsSign(s[i]) then i + 1 else i
    requires forall m :: j <= m < k ==> IsDigit(s[m])
    requires k == |s| || !IsDigit(s[k])
    ensures AllDigits(s[j..k])
    ensures var v := DigitsValue(s[j..k]);
      ParseInt(s) == Some(if s[i] == '-' then -(v as int) else v)
  {
    SkipSpaceStops(s, i);
    DigitsStop(s, j, k);
  }

  /** Digits and signs are not white space. */
  lemma NotSpace(c: char)
    requires IsDigit(c) || IsSign(c)
    ensures !IsJsSpace(c)
  {
  }

  lemma DigitIsNoSign(c: char)
    requires IsDigit(c)
    ensures !IsSign(c)
  {
  }

  lemma {:induction false} DigitsStop(s: string, j: nat, k: nat)
    requires j <= k <= |s| && forall m :: j <= m < k ==> IsDigit(s[m])
    requires k == |s| || !IsDigit(s[k])
    ensures SkipDigits(s, j) == k
    decreases k - j
  {
    if j < k {
      DigitsStop(s, j + 1, k);
    }
  }

  lemma SkipSpaceStops(s: string, i: nat)
    requires i <= |s| && forall m :: 0 <= m < i ==> IsJsSpace(s[m])
    requires i == |s| || !IsJsSpace(s[i])
    ensures SkipSpace(s, 0) == i
  {
  }

  /** Leading white space before text that does not start with it is exactly what is skipped. */
  lemma TrimStartSkipsSpace(lead: string, rest: string)
    requires AllSpace(lead)
    requires rest == [] || !IsJsSpace(rest[0])
    ensures TrimStart(lead + rest) == rest
  {
    var s := lead + rest;
    assert forall m :: 0 <= m < |lead| ==> IsJsSpace(s[m]);
    assert |lead| < |s| ==> !IsJsSpace(s[|lead|]);
    SkipSpaceStops(s, |lead|);
  }

  /** Text that starts with neither white space, a sign nor a digit is not a number. */
  lemma ParseIntOfNonNumeric(s: string)
    requires s != [] && !IsJsSpace(s[0]) && !IsSign(s[0]) && !IsDigit(s[0])
    ensures ParseInt(s).None?
  {
    assert SkipSpace(s, 0) == 0;
  }

  // ---------------------------------------------------------------- hex

  newtype byte = x: int | 0 <= x < 256

  predicate IsLowerHex(c: char) {
    ('0' <= c <= '9') || ('a' <= c <= 'f')
  }

  /** The lower-case hex digit of a nibble. */
  function HexDigit(d: nat): (c: char)
    requires d < 16
    ensures IsLowerHex(c)
  {
    if d < 10 then (d + '0' as int) as char else (d - 10 + 'a' as int) as char
  }

  /** `buffer.toString('hex')`: two lower-case hex digits per byte, high nibble first. */
  function HexOfBytes(b: seq<byte>): (r: string)
    ensures |r| == 2 * |b|
    ensures forall i :: 0 <= i < |r| ==> IsLowerHex(r[i])
  {
    if b == [] then ""
    else [HexDigit(b[0] as int / 16), HexDigit(b[0] as int % 16)] + HexOfBytes(b[1..])
  }

  /** Distinct bytes give distinct hex strings: the encoding loses nothing. */
  lemma {:induction false} HexOfBytesInjective(a: seq<byte>, b: seq<byte>)
    requires HexOfBytes(a) == HexOfBytes(b)
    ensures a == b
  {
    if a != [] {
      var ha, hb := HexOfBytes(a), HexOfBytes(b);
      assert b != [];
      var x, y := a[0] as int, b[0] as int;
      assert HexDigit(x / 16) == ha[0] == hb[0] == HexDigit(y / 16);
      assert HexDigit(x % 16) == ha[1] == hb[1] == HexDigit(y % 16);
      assert x == 16 * (x / 16) + x % 16 && y == 16 * (y / 16) + y % 16;
      assert ha[2..] == HexOfBytes(a[1..]) && hb[2..] == HexOfBytes(b[1..]);
      HexOfBytesInjective(a[1..], b[1..]);
    }
  }
}
