// The text encodings under the hash chain and the cipher contexts: UTF-8, decimal integers,
// zero-padded fields and the 36-character form of a UUID. Each is shown to be undone or injective.
module Text {
  import opened Wrappers

  type Byte = b: int | 0 <= b < 256
  type Bytes = seq<Byte>

  // --- UTF-8 (RFC 3629, section 3) ---

  function EncodeChar(c: char): (r: Bytes)
    ensures 1 <= |r| <= 4
  {
    var x := c as int;
    if x < 0x80 then [x]
    else if x < 0x800 then [0xC0 + x / 64, 0x80 + x % 64]
    else if x < 0x10000 then [0xE0 + x / 4096, 0x80 + x / 64 % 64, 0x80 + x % 64]
    else [0xF0 + x / 262144, 0x80 + x / 4096 % 64, 0x80 + x / 64 % 64, 0x80 + x % 64]
  }

  // str.encode("utf-8")
  function Encode(s: string): Bytes {
    if s == [] then [] else EncodeChar(s[0]) + Encode(s[1..])
  }

  predicate IsScalar(x: int) {
    0 <= x < 0xD800 || 0xE000 <= x < 0x110000
  }

  // The code point spelled by the 1 to 4 bytes of one character.
  function CodePoint(e: Bytes): int
    requires 1 <= |e| <= 4
  {
    if |e| == 1 then e[0]
    else if |e| == 2 then (e[0] as int - 0xC0) * 64 + (e[1] as int - 0x80)
    else if |e| == 3 then (e[0] as int - 0xE0) * 4096 + (e[1] as int - 0x80) * 64 + (e[2] as int - 0x80)
    else (e[0] as int - 0xF0) * 262144 + (e[1] as int - 0x80) * 4096 + (e[2] as int - 0x80) * 64 + (e[3] as int - 0x80)
  }

  function LengthFrom(lead: Byte): nat {
    if lead < 0x80 then 1 else if lead < 0xE0 then 2 else if lead < 0xF0 then 3 else 4
  }

  // bytes.decode("utf-8"); continuation bytes are taken as given.
  function Decode(b: Bytes): Option<string> {
    if b == [] then Some("")
    else
      var n := LengthFrom(b[0]);
      if |b| < n then None
      else
        var x := CodePoint(b[..n]);
        if !IsScalar(x) then None
        else match Decode(b[n..])
          case None => None
          case Some(rest) => Some([x as char] + rest)
  }

  lemma Base64Digits(x: nat)
    ensures x == x / 64 * 64 + x % 64
    ensures x / 64 == x / 4096 * 64 + x / 64 % 64
    ensures x / 4096 == x / 262144 * 64 + x / 4096 % 64
  {
  }

  lemma CodePointOfChar(c: char)
    ensures CodePoint(EncodeChar(c)) == c as int && LengthFrom(EncodeChar(c)[0]) == |EncodeChar(c)|
  {
    Base64Digits(c as int);
  }

  lemma DecodeOneChar(c: char, rest: Bytes)
    ensures Decode(EncodeChar(c) + rest) == match Decode(rest)
                                            case None => None
                                            case Some(t) => Some([c] + t)
  {
    var e := EncodeChar(c);
    CodePointOfChar(c);
    var b := e + rest;
    assert b[0] == e[0] && b[..|e|] == e && b[|e|..] == rest;
  }

  lemma {:induction false} DecodeEncode(s: string)
    ensures Decode(Encode(s)) == Some(s)
  {
    if s != [] {
      DecodeEncode(s[1..]);
      DecodeOneChar(s[0], Encode(s[1..]));
      assert s == [s[0]] + s[1..];
    }
  }

  lemma EncodeInjective(s: string, t: string)
    requires Encode(s) == Encode(t)
    ensures s == t
  {
    DecodeEncode(s);
    DecodeEncode(t);
  }

  // Characters below 128 are encoded as themselves, byte for byte.
  lemma {:induction false} EncodeAsciiPrefix(s: string, k: nat)
    requires k <= |s| && forall i :: 0 <= i < k ==> s[i] as int < 0x80
    ensures |Encode(s)| >= k && forall i :: 0 <= i < k ==> Encode(s)[i] == s[i] as int
  {
    if k > 0 {
      EncodeAsciiPrefix(s[1..], k - 1);
    }
  }

  // --- Decimal integers ---

  function Digit(n: nat): (c: char)
    requires n < 10
    ensures IsDigit(c) && DigitValue(c) == n
  {
    ('0' as int + n) as char
  }

  predicate IsDigit(c: char) { '0' <= c <= '9' }

  function DigitValue(c: char): (n: nat)
    requires IsDigit(c)
    ensures n < 10
  {
    c as int - '0' as int
  }

  predicate AllDigits(s: string) { forall i :: 0 <= i < |s| ==> IsDigit(s[i]) }

  function ValueOf(s: string): nat
    requires AllDigits(s)
  {
    if s == [] then 0 else 10 * ValueOf(s[..|s| - 1]) + DigitValue(s[|s| - 1])
  }

  function Natural(n: nat): (s: string)
    ensures |s| > 0 && AllDigits(s) && ValueOf(s) == n
    decreases n
  {
    if n < 10 then
      var s := [Digit(n)];
      assert s[..0] == [];
      s
    else
      var p := Natural(n / 10);
      var s := p + [Digit(n % 10)];
      assert s[..|s| - 1] == p;
      s
  }

  // str(n) for a Python int.
  function Decimal(n: int): string {
    if n < 0 then "-" + Natural(-n) else Natural(n)
  }

  lemma DecimalInjective(a: int, b: int)
    requires Decimal(a) == Decimal(b)
    ensures a == b
  {
    assert a < 0 <==> Decimal(a)[0] == '-';
    assert b < 0 <==> Decimal(b)[0] == '-';
    if a < 0 && b < 0 {
      assert Decimal(a)[1..] == Natural(-a) && Decimal(b)[1..] == Natural(-b);
    }
  }

  // --- Zero-padded decimal fields (strftime's %Y, %m, ..., %f) ---

  function Pow10(w: nat): nat { if w == 0 then 1 else 10 * Pow10(w - 1) }

  function Padded(n: nat, w: nat): (s: string)
    ensures |s| == w && AllDigits(s)
  {
    if w == 0 then "" else Padded(n / 10, w - 1) + [Digit(n % 10)]
  }

  lemma {:induction false} PaddedInjective(a: nat, b: nat, w: nat)
    requires a < Pow10(w) && b < Pow10(w)
    requires Padded(a, w) == Padded(b, w)
    ensures a == b
  {
    if w > 0 {
      var s, t := Padded(a, w), Padded(b, w);
      assert s[..w - 1] == Padded(a / 10, w - 1) && t[..w - 1] == Padded(b / 10, w - 1);
      assert s[w - 1] == Digit(a % 10) && t[w - 1] == Digit(b % 10);
      PaddedInjective(a / 10, b / 10, w - 1);
    }
  }

  // The digits spell the number.
  lemma {:induction false} PaddedValue(n: nat, w: nat)
    requires n < Pow10(w)
    ensures ValueOf(Padded(n, w)) == n
  {
    if w > 0 {
      PaddedValue(n / 10, w - 1);
      assert Padded(n, w)[..w - 1] == Padded(n / 10, w - 1);
    }
  }

  // --- UUIDs ---

  type Nibble = n: nat | n < 16
  // A UUID as its 32 hexadecimal digits.
  type Uuid = u: seq<Nibble> | |u| == 32 witness seq(32, _ => 0)

  function HexDigit(n: Nibble): (c: char)
    ensures (n < 10 ==> c as int == '0' as int + n) && (n >= 10 ==> c as int == 'a' as int + n - 10)
  {
    if n < 10 then ('0' as int + n) as char else ('a' as int + n - 10) as char
  }

  predicate IsHyphenAt(i: nat) { i == 8 || i == 13 || i == 18 || i == 23 }

  // Where in the text the k-th hexadecimal digit stands.
  function TextPosition(k: nat): nat {
    if k < 8 then k else if k < 12 then k + 1 else if k < 16 then k + 2 else if k < 20 then k + 3 else k + 4
  }

  function DigitIndex(i: nat): nat {
    if i < 8 then i else if i < 13 then i - 1 else if i < 18 then i - 2 else if i < 23 then i - 3 else i - 4
  }

  // str(uuid): lower-case digits in groups of 8-4-4-4-12.
  function UuidText(u: Uuid): (s: string)
    ensures |s| == 36
    ensures forall i :: 0 <= i < 36 ==> s[i] == '-' || '0' <= s[i] <= '9' || 'a' <= s[i] <= 'f'
  {
    seq(36, i requires 0 <= i < 36 => if IsHyphenAt(i) then '-' else HexDigit(u[DigitIndex(i)]))
  }

  lemma UuidTextInjective(u: Uuid, v: Uuid)
    requires UuidText(u) == UuidText(v)
    ensures u == v
  {
    forall k | 0 <= k < 32 ensures u[k] == v[k] {
      var i := TextPosition(k);
      assert !IsHyphenAt(i) && DigitIndex(i) == k;
      assert UuidText(u)[i] == HexDigit(u[k]) && UuidText(v)[i] == HexDigit(v[k]);
    }
  }

  // The hexadecimal digits in a text, in order, whatever stands between them.
  function DigitsIn(s: string): seq<nat> {
    if s == "" then []
    else
      var c := s[|s| - 1];
      DigitsIn(s[..|s| - 1]) +
      if '0' <= c <= '9' then [c as int - '0' as int] else if 'a' <= c <= 'f' then [c as int - 'a' as int + 10] else []
  }

  // The digits stand in order, with hyphens after the 8th, 12th, 16th and 20th.
  lemma UuidTextReads(u: Uuid)
    ensures DigitsIn(UuidText(u)) == u
    ensures forall i :: 0 <= i < 36 ==> (UuidText(u)[i] == '-' <==> i in {8, 13, 18, 23})
  {
    UuidTextReadsUpTo(u, 36);
    assert UuidText(u)[..36] == UuidText(u) && u[..32] == u;
  }

  lemma {:induction false} UuidTextReadsUpTo(u: Uuid, i: nat)
    requires i <= 36
    ensures var n := if i <= 8 then i else if i <= 13 then i - 1 else if i <= 18 then i - 2 else if i <= 23 then i - 3 else i - 4;
            DigitsIn(UuidText(u)[..i]) == u[..n]
  {
    if i > 0 {
      UuidTextReadsUpTo(u, i - 1);
      assert UuidText(u)[..i][..i - 1] == UuidText(u)[..i - 1];
      assert UuidText(u)[..i][i - 1] == UuidText(u)[i - 1];
    }
  }
}
