/**
 * The few JavaScript string operations the core relies on, stated over
 * `string` (a sequence of Unicode scalar values):
 * `String.prototype.trim`, `charCodeAt` (UTF-16 code units),
 * `Number.prototype.toString` in base 10 and base 16, and `padStart`.
 */
module Text {

  /** WhiteSpace and LineTerminator code points, which `trim` removes. */
  predicate IsJsWhitespace(c: char) {
    var u := c as int;
    || u == 0x09 || u == 0x0B || u == 0x0C || u == 0x20 || u == 0xA0 || u == 0xFEFF
    || u == 0x1680 || (0x2000 <= u <= 0x200A) || u == 0x202F || u == 0x205F || u == 0x3000
    || u == 0x0A || u == 0x0D || u == 0x2028 || u == 0x2029
  }

  predicate IsBlank(s: string) {
    forall i :: 0 <= i < |s| ==> IsJsWhitespace(s[i])
  }

  /** Drops the leading whitespace. */
  function TrimStart(s: string): string {
    if |s| > 0 && IsJsWhitespace(s[0]) then TrimStart(s[1..]) else s
  }

  /** Drops the trailing whitespace. */
  function TrimEnd(s: string): string {
    if |s| > 0 && IsJsWhitespace(s[|s| - 1]) then TrimEnd(s[..|s| - 1]) else s
  }

  /** `s.trim()` */
  function Trim(s: string): string {
    TrimEnd(TrimStart(s))
  }

  /** What `TrimStart` leaves is a suffix of `s`, the part dropped is whitespace, and it does
      not start with whitespace. */
  lemma {:induction false} TrimStartShape(s: string)
    ensures var r := TrimStart(s);
      && |r| <= |s| && r == s[|s| - |r|..]
      && IsBlank(s[..|s| - |r|])
      && (r == [] || !IsJsWhitespace(r[0]))
  {
    if |s| > 0 && IsJsWhitespace(s[0]) {
      TrimStartShape(s[1..]);
      var r := TrimStart(s[1..]);
      assert s[1..][..|s| - 1 - |r|] == s[1..|s| - |r|];
    }
  }

  /** What `TrimEnd` leaves is a prefix of `s`, the part dropped is whitespace, and it does
      not end with whitespace. */
  lemma {:induction false} TrimEndShape(s: string)
    ensures var r := TrimEnd(s);
      && |r| <= |s| && r == s[..|r|]
      && IsBlank(s[|r|..])
      && (r == [] || !IsJsWhitespace(r[|r| - 1]))
  {
    if |s| > 0 && IsJsWhitespace(s[|s| - 1]) {
      TrimEndShape(s[..|s| - 1]);
      var r := TrimEnd(s[..|s| - 1]);
      assert s[..|s| - 1][|r|..] == s[|r|..|s| - 1];
    }
  }

  /** `s.trim()` is the infix of `s` that starts at offset `i`, with only whitespace removed
      around it, and it neither starts nor ends with whitespace. */
  lemma TrimIsInfix(s: string) returns (i: nat)
    ensures i + |Trim(s)| <= |s| && Trim(s) == s[i..i + |Trim(s)|]
    ensures IsBlank(s[..i]) && IsBlank(s[i + |Trim(s)|..])
    ensures Trim(s) == [] || (!IsJsWhitespace(Trim(s)[0]) && !IsJsWhitespace(Trim(s)[|Trim(s)| - 1]))
  {
    var t := TrimStart(s);
    var r := TrimEnd(t);
    TrimStartShape(s);
    TrimEndShape(t);
    i := |s| - |t|;
    assert s[i + |r|..] == t[|r|..];
    if r != [] {
      assert r[0] == t[0];
    }
  }

  /** `!s.trim()` holds exactly when `s` is empty or consists of whitespace only. */
  lemma TrimEmptyIffBlank(s: string)
    ensures Trim(s) == [] <==> IsBlank(s)
  {
    var _ := TrimIsInfix(s);
    if Trim(s) == [] {
      var t := TrimStart(s);
      TrimStartShape(s);
      TrimEndShape(t);
      assert t[0..] == t;
      assert s == s[..|s| - |t|] + t;
    }
  }

  /** Trimming twice is trimming once. */
  lemma TrimIdempotent(s: string)
    ensures Trim(Trim(s)) == Trim(s)
  {
    var r := Trim(s);
    var _ := TrimIsInfix(s);
    assert TrimStart(r) == r;
  }

  /** The UTF-16 code units of `s`, which is what JavaScript's `length` counts and `charCodeAt` reads. */
  function CodeUnits(s: string): (r: seq<int>)
    ensures |r| >= |s|
    ensures forall k :: 0 <= k < |r| ==> 0 <= r[k] < 0x1_0000
  {
    if s == [] then []
    else
      var c := s[0] as int;
      var head := if c < 0x1_0000 then [c]
                  else [0xD800 + (c - 0x1_0000) / 0x400, 0xDC00 + (c - 0x1_0000) % 0x400];
      head + CodeUnits(s[1..])
  }

  /** A string of characters from the Basic Multilingual Plane has one code unit per character. */
  lemma {:induction false} CodeUnitsOfBmp(s: string)
    requires forall k :: 0 <= k < |s| ==> (s[k] as int) < 0x1_0000
    ensures CodeUnits(s) == seq(|s|, k requires 0 <= k < |s| => s[k] as int)
  {
    if s != [] {
      CodeUnitsOfBmp(s[1..]);
    }
  }

  function DecimalDigit(d: nat): char
    requires d < 10
  {
    "0123456789"[d]
  }

  /** `n.toString()` for a non-negative integer. */
  function Decimal(n: nat): (r: string)
    ensures |r| >= 1
    ensures forall k :: 0 <= k < |r| ==> '0' <= r[k] <= '9'
  {
    if n < 10 then [DecimalDigit(n)] else Decimal(n / 10) + [DecimalDigit(n % 10)]
  }

  /** A number below `10^k` has at most `k` decimal digits (`k` at least one: zero has one). */
  lemma {:induction false} DecimalLength(n: nat, k: nat)
    requires k >= 1 && n < Power10(k)
    ensures |Decimal(n)| <= k
  {
    assert Power10(1) == 10;
    if n >= 10 {
      assert n / 10 < Power10(k - 1);
      DecimalLength(n / 10, k - 1);
    }
  }

  function Power10(k: nat): nat {
    if k == 0 then 1 else 10 * Power10(k - 1)
  }

  function HexDigit(d: nat): char
    requires d < 16
  {
    "0123456789abcdef"[d]
  }

  predicate IsHexDigit(c: char) {
    ('0' <= c <= '9') || ('a' <= c <= 'f')
  }

  function HexValue(c: char): (v: nat)
    requires IsHexDigit(c)
    ensures v < 16
  {
    if '0' <= c <= '9' then c as int - '0' as int else c as int - 'a' as int + 10
  }

  /** `n.toString(16)` for a non-negative integer: lower-case digits, no leading zeros. */
  function Hex(n: nat): (r: string)
    ensures |r| >= 1
    ensures forall k :: 0 <= k < |r| ==> IsHexDigit(r[k])
  {
    if n < 16 then [HexDigit(n)] else Hex(n / 16) + [HexDigit(n % 16)]
  }

  /** Reads a string of hexadecimal digits back as a number. */
  function ParseHex(s: string): nat
    requires forall k :: 0 <= k < |s| ==> IsHexDigit(s[k])
  {
    if s == [] then 0 else ParseHex(s[..|s| - 1]) * 16 + HexValue(s[|s| - 1])
  }

  lemma HexValueOfDigit(d: nat)
    requires d < 16
    ensures IsHexDigit(HexDigit(d)) && HexValue(HexDigit(d)) == d
  {
  }

  /** `toString(16)` loses nothing: parsing the digits gives the number back. */
  lemma {:induction false} ParseHexOfHex(n: nat)
    ensures ParseHex(Hex(n)) == n
  {
    var h := Hex(n);
    if n < 16 {
      HexValueOfDigit(n);
    } else {
      HexValueOfDigit(n % 16);
      assert h[..|h| - 1] == Hex(n / 16);
      ParseHexOfHex(n / 16);
    }
  }

  /** Two numbers print to the same hexadecimal string only if they are equal. */
  lemma HexInjective(a: nat, b: nat)
    ensures Hex(a) == Hex(b) <==> a == b
  {
    if Hex(a) == Hex(b) {
      ParseHexOfHex(a);
      ParseHexOfHex(b);
    }
  }

  /** `s.padStart(width, fill)` */
  function PadStart(s: string, width: nat, fill: char): (r: string)
    ensures |r| == if |s| < width then width else |s|
    ensures r[|r| - |s|..] == s
    ensures forall k :: 0 <= k < |r| - |s| ==> r[k] == fill
  {
    if |s| < width then seq(width - |s|, _ => fill) + s else s
  }
}
