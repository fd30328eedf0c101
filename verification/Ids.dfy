// UUIDs and their canonical text, `str(uuid)`: 32 hexadecimal digits grouped
// 8-4-4-4-12 by dashes.

module Ids {

  function Pow16(w: nat): (r: nat)
    ensures r > 0
  {
    if w == 0 then 1 else 16 * Pow16(w - 1)
  }

  type Bits128 = n: nat | n < Pow16(32) witness 0

  datatype Uuid = Uuid(bits: Bits128)

  function HexDigit(d: nat): char
    requires d < 16
  {
    "0123456789abcdef"[d]
  }

  function Hex(n: nat, width: nat): (r: string)
    ensures |r| == width
    ensures '/' !in r
  {
    if width == 0 then "" else Hex(n / 16, width - 1) + [HexDigit(n % 16)]
  }

  function Text(u: Uuid): (r: string)
    ensures |r| == 36
    ensures '/' !in r
  {
    var h := Hex(u.bits, 32);
    h[..8] + "-" + h[8..12] + "-" + h[12..16] + "-" + h[16..20] + "-" + h[20..]
  }

  // ----- reading the text back -----

  predicate LowerHex(c: char) {
    '0' <= c <= '9' || 'a' <= c <= 'f'
  }

  function DigitValue(c: char): nat
    requires LowerHex(c)
  {
    if c <= '9' then c as nat - '0' as nat else 10 + (c as nat - 'a' as nat)
  }

  // Most significant digit first, base 16.
  function Number(digits: string): nat
    requires forall c :: c in digits ==> LowerHex(c)
  {
    if digits == "" then 0
    else 16 * Number(digits[..|digits| - 1]) + DigitValue(digits[|digits| - 1])
  }

  lemma DigitIs(d: nat)
    requires d < 16
    ensures LowerHex(HexDigit(d)) && DigitValue(HexDigit(d)) == d
  {
  }

  lemma {:induction false} HexNumber(n: nat, width: nat)
    requires n < Pow16(width)
    ensures forall c :: c in Hex(n, width) ==> LowerHex(c)
    ensures Number(Hex(n, width)) == n
  {
    hide HexDigit, LowerHex, DigitValue;
    if width > 0 {
      HexNumber(n / 16, width - 1);
      DigitIs(n % 16);
      var front := Hex(n / 16, width - 1);
      assert Hex(n, width)[..width - 1] == front;
    }
  }

  // The text without its dashes.
  function Digits(text: string): string
    requires |text| == 36
  {
    text[..8] + text[9..13] + text[14..18] + text[19..23] + text[24..]
  }

  lemma DigitsOfText(u: Uuid)
    ensures Digits(Text(u)) == Hex(u.bits, 32)
  {
    hide Hex;
    var h, t := Hex(u.bits, 32), Text(u);
    assert t[..8] == h[..8] && t[9..13] == h[8..12] && t[14..18] == h[12..16];
    assert t[19..23] == h[16..20] && t[24..] == h[20..];
    assert h == h[..8] + h[8..12] + h[12..16] + h[16..20] + h[20..];
  }

  lemma DashesOfText(u: Uuid)
    ensures Text(u)[8] == Text(u)[13] == Text(u)[18] == Text(u)[23] == '-'
  {
    hide Hex;
  }

  // The text is 32 lower-case hexadecimal digits and four dashes, grouped 8-4-4-4-12, and
  // the digits are the number that the UUID is.
  lemma TextReads(u: Uuid)
    ensures var t := Text(u);
            && t[8] == t[13] == t[18] == t[23] == '-'
            && (forall c :: c in Digits(t) ==> LowerHex(c))
            && Number(Digits(t)) == u.bits
  {
    hide Text, Hex, Digits, Number, LowerHex;
    DigitsOfText(u);
    DashesOfText(u);
    HexNumber(u.bits, 32);
  }

  // So different UUIDs never print alike.
  lemma TextInjective(u: Uuid, v: Uuid)
    requires Text(u) == Text(v)
    ensures u == v
  {
    hide Text, Number;
    TextReads(u);
    TextReads(v);
  }
}
