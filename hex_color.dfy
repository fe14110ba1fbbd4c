/** The colour value `changeColor` derives from its argument: `parseInt(value, 16)`
    restricted to strings of hex digits, stored in a 24-bit `THREE.Color`. */
module HexColor {
  import opened Ascii

  /** The blue the component starts with (`new THREE.Color(0x0000ff)`). */
  const DefaultColor: int := 0x0000ff

  /** The palette offered to the colour selector: Azul, Magenta, Cian. */
  const Palette: seq<(string, int)> := [("Azul", 0x0000ff), ("Magenta", 0xff00ff), ("Cian", 0x00ffff)]

  /** Number of distinct 24-bit RGB values. */
  const ColorSpace: int := 0x100_0000

  predicate IsHexDigit(c: char) {
    '0' <= c <= '9' || 'a' <= c <= 'f' || 'A' <= c <= 'F'
  }

  predicate AllHexDigits(s: string) {
    forall i :: 0 <= i < |s| ==> IsHexDigit(s[i])
  }

  /** A string `parseInt(_, 16)` reads completely: one or more hex digits. */
  predicate IsHexNumeral(s: string) {
    |s| > 0 && AllHexDigits(s)
  }

  function DigitValue(c: char): (d: nat)
    requires IsHexDigit(c)
    ensures d < 16
    ensures '0' <= c <= '9' ==> d == c as int - '0' as int
    ensures 'a' <= c <= 'f' ==> d == c as int - 'a' as int + 10
    ensures 'A' <= c <= 'F' ==> d == c as int - 'A' as int + 10
  {
    if '0' <= c <= '9' then c as int - '0' as int
    else if 'a' <= c <= 'f' then c as int - 'a' as int + 10
    else c as int - 'A' as int + 10
  }

  /** The lower-case digit for a value below 16. */
  function HexChar(d: nat): (c: char)
    requires d < 16
    ensures IsHexDigit(c) && !IsUpper(c)
    ensures DigitValue(c) == d
  {
    if d < 10 then (d + '0' as int) as char else (d - 10 + 'a' as int) as char
  }

  function Pow16(k: nat): (p: nat)
    ensures p >= 1
  {
    if k == 0 then 1 else 16 * Pow16(k - 1)
  }

  /** The positional base-16 value of a digit string, most significant digit first. */
  function HexValue(s: string): (n: nat)
    requires AllHexDigits(s)
    ensures n < Pow16(|s|)
  {
    if s == [] then 0 else 16 * HexValue(s[..|s| - 1]) + DigitValue(s[|s| - 1])
  }

  /** The inverse direction: `width` lower-case digits spelling `n` modulo 16^width. */
  function ToHex(n: nat, width: nat): (s: string)
    ensures |s| == width && AllHexDigits(s) && NoUpper(s)
  {
    if width == 0 then [] else ToHex(n / 16, width - 1) + [HexChar(n % 16)]
  }

  /** The colour `THREE.Color.set(parseInt(value, 16))` ends up holding: the low 24 bits. */
  function ColorValue(value: string): (c: int)
    requires IsHexNumeral(value)
    ensures 0 <= c < ColorSpace
    ensures |value| <= 6 ==> c == HexValue(value)
  {
    ShortNumeralFits(value);
    HexValue(value) % ColorSpace
  }

  /** Six digits or fewer never exceed 24 bits. */
  lemma ShortNumeralFits(s: string)
    requires AllHexDigits(s)
    ensures |s| <= 6 ==> HexValue(s) < ColorSpace
  {
    if |s| <= 6 {
      Pow16Six();
      Pow16Monotone(|s|, 6);
    }
  }

  lemma Pow16Six()
    ensures Pow16(6) == ColorSpace
  {
  }

  lemma {:induction false} Pow16Monotone(j: nat, k: nat)
    requires j <= k
    ensures Pow16(j) <= Pow16(k)
  {
    if j < k {
      Pow16Monotone(j, k - 1);
    }
  }

  /** Reading back the digits of a value that fits the width gives the value. */
  lemma {:induction false} HexRoundTrip(n: nat, width: nat)
    requires n < Pow16(width)
    ensures HexValue(ToHex(n, width)) == n
  {
    if width > 0 {
      var s := ToHex(n, width);
      assert s[..|s| - 1] == ToHex(n / 16, width - 1);
      HexRoundTrip(n / 16, width - 1);
    }
  }

  /** Writing back the value of lower-case digits, at their own width, gives the digits. */
  lemma {:induction false} HexDigitsRoundTrip(s: string)
    requires AllHexDigits(s) && NoUpper(s)
    ensures ToHex(HexValue(s), |s|) == s
  {
    if s != [] {
      var init, last := s[..|s| - 1], s[|s| - 1];
      var x, d := HexValue(init), DigitValue(last);
      assert HexValue(s) == 16 * x + d;
      SplitLastDigit(x, d);
      assert ToHex(HexValue(s), |s|) == ToHex(x, |init|) + [HexChar(d)];
      HexDigitsRoundTrip(init);
      assert HexChar(d) == last;
      assert s == init + [last];
    }
  }

  lemma SplitLastDigit(x: nat, d: nat)
    requires d < 16
    ensures (16 * x + d) / 16 == x && (16 * x + d) % 16 == d
  {
  }

  /** Upper- and lower-case digits read the same. */
  lemma {:induction false} HexValueIgnoresCase(s: string)
    requires AllHexDigits(s)
    ensures AllHexDigits(Lower(s)) && HexValue(Lower(s)) == HexValue(s)
  {
    if s != [] {
      var init := s[..|s| - 1];
      assert Lower(s)[..|s| - 1] == Lower(init);
      HexValueIgnoresCase(init);
    }
  }

  /** Beyond six digits only the last six matter: the stored colour drops the higher ones. */
  lemma ColorValueKeepsLastSix(s: string)
    requires IsHexNumeral(s) && |s| > 6
    ensures IsHexNumeral(s[|s| - 6..])
    ensures ColorValue(s) == ColorValue(s[|s| - 6..])
  {
    var a, t := s[..|s| - 6], s[|s| - 6..];
    assert s == a + t;
    HexValueSplit(a, t);
    Pow16Six();
    ShortNumeralFits(t);
    AddMultipleMod(HexValue(a), HexValue(t));
  }

  lemma {:induction false} AddMultipleMod(k: nat, y: nat)
    requires y < ColorSpace
    ensures (k * ColorSpace + y) % ColorSpace == y
  {
    if k > 0 {
      AddMultipleMod(k - 1, y);
      assert k * ColorSpace + y == ((k - 1) * ColorSpace + y) + ColorSpace;
    }
  }

  /** The value of joined digit strings: the first part shifted by the length of the second. */
  lemma {:induction false} HexValueSplit(a: string, b: string)
    requires AllHexDigits(a) && AllHexDigits(b)
    ensures AllHexDigits(a + b)
    ensures HexValue(a + b) == HexValue(a) * Pow16(|b|) + HexValue(b)
  {
    if b == [] {
      assert a + b == a;
    } else {
      var init, c := b[..|b| - 1], b[|b| - 1];
      assert b == init + [c];
      assert a + b == (a + init) + [c];
      HexValueSplit(a, init);
      HexValueAppend(a + init, c);
      HexValueAppend(init, c);
      ShiftOneDigit(HexValue(a), Pow16(|init|), HexValue(init), DigitValue(c),
        HexValue(a + b), Pow16(|b|), HexValue(b));
    }
  }

  /** The arithmetic of HexValueSplit's step: one more digit on the right multiplies
      the weight of the left part by 16. */
  lemma ShiftOneDigit(x: int, p: int, y: int, d: int, joined: int, weight: int, right: int)
    requires joined == 16 * (x * p + y) + d
    requires weight == 16 * p && right == 16 * y + d
    ensures joined == x * weight + right
  {
    assert 16 * (x * p) == x * (16 * p);
  }

  /** The decimal spelling `String(n)` gives a number, most significant digit first. */
  function Decimal(n: nat): (s: string)
    ensures |s| > 0 && AllHexDigits(s)
    ensures forall i :: 0 <= i < |s| ==> '0' <= s[i] <= '9'
  {
    if n < 10 then [(n + '0' as int) as char]
    else Decimal(n / 10) + [(n % 10 + '0' as int) as char]
  }

  /** `parseInt(value, 16)` given a number first spells it in decimal and then reads those
      digits in base 16: the palette's Azul 0x0000ff is misread as 0x255. */
  lemma AzulMisread()
    ensures ColorValue(Decimal(Palette[0].1)) == 0x255 != Palette[0].1
  {
    assert Decimal(2) == "2";
    assert Decimal(25) == "25";
    assert Decimal(255) == "255";
    assert HexValue("2") == 0x2;
    assert "25"[..1] == "2";
    assert HexValue("25") == 0x25;
    assert "255"[..2] == "25";
    assert HexValue("255") == 0x255;
  }

  /** Magenta 0xff00ff is spelt "16711935", whose last six hex digits give 0x711935. */
  lemma MagentaMisread()
    ensures ColorValue(Decimal(Palette[1].1)) == 0x711935 != Palette[1].1
  {
    MagentaSpelling();
    ColorValueKeepsLastSix("16711935");
    assert "16711935"[2..] == "711935";
    MagentaTail();
  }

  /** The decimal spelling of 0xff00ff, digit by digit. */
  lemma MagentaSpelling()
    ensures Decimal(0xff00ff) == "16711935"
  {
    assert Decimal(1) == "1";
    assert Decimal(16) == "16";
    assert Decimal(167) == "167";
    assert Decimal(1671) == "1671";
    assert Decimal(16711) == "16711";
    assert Decimal(167119) == "167119";
    assert Decimal(1671193) == "1671193";
    assert Decimal(16711935) == "16711935";
  }

  /** The base-16 reading of the last six of those digits, one digit at a time. */
  lemma MagentaTail()
    ensures HexValue("711935") == 0x711935
  {
    var d1 := [] + ['7'];
    var d2 := d1 + ['1'];
    var d3 := d2 + ['1'];
    var d4 := d3 + ['9'];
    var d5 := d4 + ['3'];
    var d6 := d5 + ['5'];
    HexValueAppend([], '7');
    HexValueAppend(d1, '1');
    HexValueAppend(d2, '1');
    HexValueAppend(d3, '9');
    HexValueAppend(d4, '3');
    HexValueAppend(d5, '5');
    assert d6 == "711935";
  }

  /** Appending a digit shifts the value one place and adds the digit. */
  lemma HexValueAppend(s: string, c: char)
    requires AllHexDigits(s) && IsHexDigit(c)
    ensures AllHexDigits(s + [c])
    ensures HexValue(s + [c]) == 16 * HexValue(s) + DigitValue(c)
  {
    assert (s + [c])[..|s|] == s;
  }

  /** Cian 0x00ffff is spelt "65535" and misread as 0x65535. */
  lemma CianMisread()
    ensures ColorValue(Decimal(Palette[2].1)) == 0x65535 != Palette[2].1
  {
    assert Decimal(6) == "6";
    assert Decimal(65) == "65";
    assert Decimal(655) == "655";
    assert Decimal(6553) == "6553";
    assert Decimal(65535) == "65535";
    var d1 := [] + ['6'];
    var d2 := d1 + ['5'];
    var d3 := d2 + ['5'];
    var d4 := d3 + ['3'];
    var d5 := d4 + ['5'];
    HexValueAppend([], '6');
    HexValueAppend(d1, '5');
    HexValueAppend(d2, '5');
    HexValueAppend(d3, '3');
    HexValueAppend(d4, '5');
    assert d5 == "65535";
  }

  /** Every palette entry, written as six hex digits, is read back as that very colour. */
  lemma PaletteRoundTrip(k: nat)
    requires k < |Palette|
    ensures IsHexNumeral(ToHex(Palette[k].1, 6))
    ensures ColorValue(ToHex(Palette[k].1, 6)) == Palette[k].1
  {
    Pow16Six();
    HexRoundTrip(Palette[k].1, 6);
  }
}
