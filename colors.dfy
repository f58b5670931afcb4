/**
 * JavaFX colours as the core uses them: the 32-bit `hashCode` (0xRRGGBBAA),
 * its `Integer.toHexString` text, the left zero padding to eight digits the
 * FXML writers apply to it, and the `TRANSPARENT` constant the property
 * panels refuse.
 */
module Colors {

  /** A colour with its four channels already rounded to 0..255, as JavaFX
      does before packing them into `hashCode`. */
  datatype Color = Color(red: int, green: int, blue: int, opacity: int)

  predicate Channel(v: int) { 0 <= v < 256 }

  predicate Valid(c: Color) {
    Channel(c.red) && Channel(c.green) && Channel(c.blue) && Channel(c.opacity)
  }

  const TRANSPARENT: Color := Color(0, 0, 0, 0)
  const BLACK: Color := Color(0, 0, 0, 255)
  const RED: Color := Color(255, 0, 0, 255)
  const GRAY: Color := Color(128, 128, 128, 255)

  const TWO32: int := 0x1_0000_0000
  const TWO31: int := 0x8000_0000

  /** Reinterprets a value in [0, 2^32) as a Java `int` (two's complement). */
  function ToInt32(u: int): (r: int)
    requires 0 <= u < TWO32
    ensures -TWO31 <= r < TWO31
    ensures (r - u) % TWO32 == 0
  {
    if u < TWO31 then u else u - TWO32
  }

  /** The unsigned reading `Integer.toHexString` uses. */
  function ToUint32(i: int): (u: int)
    requires -TWO31 <= i < TWO31
    ensures 0 <= u < TWO32
    ensures (u - i) % TWO32 == 0
  {
    if i < 0 then i + TWO32 else i
  }

  function Packed(c: Color): (u: int)
    requires Valid(c)
    ensures 0 <= u < TWO32
  {
    ((c.red * 256 + c.green) * 256 + c.blue) * 256 + c.opacity
  }

  /** `Color.hashCode()`: red in the top byte, opacity in the lowest. */
  function HashCode(c: Color): (h: int)
    requires Valid(c)
    ensures -TWO31 <= h < TWO31
    ensures ToUint32(h) == Packed(c)
  {
    ToInt32(Packed(c))
  }

  /** The hash is zero exactly for the fully transparent black, so the
      panels' test "not TRANSPARENT and hash != 0" accepts the same colours
      as "hash != 0" alone, whether TRANSPARENT is compared by reference or
      by value. */
  lemma HashZeroIffTransparent(c: Color)
    requires Valid(c)
    ensures HashCode(c) == 0 <==> c == TRANSPARENT
  {
    if HashCode(c) == 0 {
      assert Packed(c) == 0;
      assert c.opacity == 0 && c.blue == 0 && c.green == 0 && c.red == 0;
    }
  }

  lemma ShiftByte(x: int, o: int)
    requires 0 <= o < 256
    ensures (x * 256 + o) / 256 == x && (x * 256 + o) % 256 == o
  {
  }

  lemma PackedInjective(a: Color, b: Color)
    requires Valid(a) && Valid(b) && Packed(a) == Packed(b)
    ensures a == b
  {
    var xa, xb := (a.red * 256 + a.green) * 256 + a.blue, (b.red * 256 + b.green) * 256 + b.blue;
    ShiftByte(xa, a.opacity);
    ShiftByte(xb, b.opacity);
    var ya, yb := a.red * 256 + a.green, b.red * 256 + b.green;
    ShiftByte(ya, a.blue);
    ShiftByte(yb, b.blue);
    ShiftByte(a.red, a.green);
    ShiftByte(b.red, b.green);
  }

  // ---------------------------------------------------------------------
  // Hexadecimal text

  function HexDigit(d: int): (ch: char)
    requires 0 <= d < 16
  {
    "0123456789abcdef"[d]
  }

  function DigitValue(ch: char): int
  {
    if '0' <= ch <= '9' then ch as int - '0' as int
    else if 'a' <= ch <= 'f' then ch as int - 'a' as int + 10
    else 0
  }

  predicate IsHexDigit(ch: char) { '0' <= ch <= '9' || 'a' <= ch <= 'f' }

  /** Digits of n with no leading zeros; the empty text for 0. */
  function HexDigits(n: nat): (s: seq<char>)
    decreases n
  {
    if n == 0 then [] else HexDigits(n / 16) + [HexDigit(n % 16)]
  }

  /** The number a hexadecimal text denotes. */
  function HexValue(s: seq<char>): nat
  {
    if s == [] then 0 else 16 * HexValue(s[..|s| - 1]) + DigitValue(s[|s| - 1])
  }

  /** `Integer.toHexString(i)`: the unsigned value, lower case, "0" for 0. */
  function ToHexString(i: int): (s: seq<char>)
    requires -TWO31 <= i < TWO31
  {
    var u := ToUint32(i);
    if u == 0 then "0" else HexDigits(u)
  }

  lemma {:induction false} HexDigitsFacts(n: nat, k: nat)
    requires n < Pow16(k)
    ensures |HexDigits(n)| <= k
    ensures forall j :: 0 <= j < |HexDigits(n)| ==> IsHexDigit(HexDigits(n)[j])
    ensures HexValue(HexDigits(n)) == n
    decreases n
  {
    if n != 0 {
      assert k > 0;
      var q, d := n / 16, n % 16;
      assert n == 16 * q + d;
      assert Pow16(k) == 16 * Pow16(k - 1);
      assert q < Pow16(k - 1);
      HexDigitsFacts(q, k - 1);
      var s := HexDigits(n);
      assert s == HexDigits(q) + [HexDigit(d)];
      assert s[..|s| - 1] == HexDigits(q);
      assert DigitValue(HexDigit(d)) == d;
    }
  }

  function Pow16(k: nat): (p: nat)
    ensures p >= 1
  {
    if k == 0 then 1 else 16 * Pow16(k - 1)
  }

  /** `Integer.toHexString` of an int has between one and eight digits, all
      of them lower-case hexadecimal, and reads back as the unsigned value. */
  lemma ToHexStringFacts(i: int)
    requires -TWO31 <= i < TWO31
    ensures 1 <= |ToHexString(i)| <= 8
    ensures forall j :: 0 <= j < |ToHexString(i)| ==> IsHexDigit(ToHexString(i)[j])
    ensures HexValue(ToHexString(i)) == ToUint32(i)
  {
    var u := ToUint32(i);
    assert Pow16(8) == TWO32;
    if u != 0 {
      HexDigitsFacts(u, 8);
    } else {
      assert HexValue("0") == 16 * HexValue([]) + DigitValue('0');
    }
  }

  // ---------------------------------------------------------------------
  // Zero padding

  function Zeros(n: nat): (z: seq<char>)
    ensures |z| == n && forall j :: 0 <= j < n ==> z[j] == '0'
  {
    if n == 0 then [] else Zeros(n - 1) + ['0']
  }

  /** Left-padding with '0' to at least eight characters. */
  function PadTo8(s: seq<char>): (r: seq<char>)
  {
    if |s| < 8 then Zeros(8 - |s|) + s else s
  }

  /** Zeros on the left change no hexadecimal value. */
  lemma {:induction false} LeadingZerosKeepValue(n: nat, s: seq<char>)
    ensures HexValue(Zeros(n) + s) == HexValue(s) + 0 * n
    decreases |s|
  {
    if s == [] {
      ZerosValue(n);
      assert Zeros(n) + s == Zeros(n);
    } else {
      var t := Zeros(n) + s;
      assert t[..|t| - 1] == Zeros(n) + s[..|s| - 1];
      LeadingZerosKeepValue(n, s[..|s| - 1]);
    }
  }

  lemma {:induction false} ZerosValue(n: nat)
    ensures HexValue(Zeros(n)) == 0
  {
    if n > 0 {
      assert Zeros(n)[..n - 1] == Zeros(n - 1);
      ZerosValue(n - 1);
    }
  }

  /** Padding gives exactly eight characters for anything of at most eight,
      keeps the original text as its suffix and keeps its value. */
  lemma PadTo8Facts(s: seq<char>)
    ensures |s| <= 8 ==> |PadTo8(s)| == 8
    ensures |s| > 8 ==> PadTo8(s) == s
    ensures |PadTo8(s)| >= |s| && PadTo8(s)[|PadTo8(s)| - |s|..] == s
    ensures forall j :: 0 <= j < |PadTo8(s)| - |s| ==> PadTo8(s)[j] == '0'
    ensures HexValue(PadTo8(s)) == HexValue(s)
  {
    if |s| < 8 {
      LeadingZerosKeepValue(8 - |s|, s);
    }
  }

  /** The eight-digit colour code the FXML writers emit. */
  function HexCode(c: Color): (r: seq<char>)
    requires Valid(c)
  {
    PadTo8(ToHexString(HashCode(c)))
  }

  /** The eight-digit code is always eight digits long and reads back as the
      packed channels, so it determines the colour. */
  lemma HexCodeFacts(c: Color)
    requires Valid(c)
    ensures |HexCode(c)| == 8
    ensures HexValue(HexCode(c)) == Packed(c)
    ensures forall j :: 0 <= j < 8 ==> IsHexDigit(HexCode(c)[j])
  {
    var h := ToHexString(HashCode(c));
    ToHexStringFacts(HashCode(c));
    PadTo8Facts(h);
    var p := PadTo8(h);
    forall j | 0 <= j < 8
      ensures IsHexDigit(p[j])
    {
      if j >= 8 - |h| {
        assert p[j] == p[8 - |h|..][j - (8 - |h|)];
      }
    }
  }

  lemma HexCodeInjective(a: Color, b: Color)
    requires Valid(a) && Valid(b) && HexCode(a) == HexCode(b)
    ensures a == b
  {
    HexCodeFacts(a);
    HexCodeFacts(b);
    PackedInjective(a, b);
  }

  /** The padding loop the FXML writers share: prepend '0' until there are
      eight characters. */
  method LeftPadZeros(s: seq<char>) returns (r: seq<char>)
    ensures r == PadTo8(s)
  {
    r := s;
    while |r| < 8
      invariant |r| >= |s| && (|r| > |s| ==> |r| <= 8)
      invariant r == Zeros(|r| - |s|) + s
      decreases 8 - |r|
    {
      r := "0" + r;
      assert Zeros(|r| - |s|) == ['0'] + Zeros(|r| - |s| - 1) by {
        ZerosCons(|r| - |s| - 1);
      }
    }
  }

  lemma {:induction false} ZerosCons(n: nat)
    ensures Zeros(n + 1) == ['0'] + Zeros(n)
  {
    if n > 0 {
      ZerosCons(n - 1);
    }
  }

  /** `Color.toString()`: "0x" followed by two hexadecimal digits per
      channel, which is the padded hash code. */
  function ColorToString(c: Color): (r: seq<char>)
    requires Valid(c)
  {
    "0x" + Hex2(c.red) + Hex2(c.green) + Hex2(c.blue) + Hex2(c.opacity)
  }

  function Hex2(v: int): seq<char>
    requires Channel(v)
  {
    [HexDigit(v / 16), HexDigit(v % 16)]
  }

  lemma Hex2Facts(v: int)
    requires Channel(v)
    ensures |Hex2(v)| == 2 && HexValue(Hex2(v)) == v
    ensures IsHexDigit(Hex2(v)[0]) && IsHexDigit(Hex2(v)[1])
  {
    var h := Hex2(v);
    assert h[..1] == [HexDigit(v / 16)];
    assert [HexDigit(v / 16)][..0] == [];
    assert HexValue([HexDigit(v / 16)]) == v / 16;
  }

  /** The value of a concatenation: the left part shifted by the right's length. */
  lemma {:induction false} HexValueAppend(a: seq<char>, b: seq<char>)
    ensures HexValue(a + b) == HexValue(a) * Pow16(|b|) + HexValue(b)
    decreases |b|
  {
    if b == [] {
      assert a + b == a;
    } else {
      var t := a + b;
      var b' := b[..|b| - 1];
      assert t[..|t| - 1] == a + b';
      HexValueAppend(a, b');
      var va, p, d := HexValue(a), Pow16(|b'|), DigitValue(b[|b| - 1]);
      assert Pow16(|b|) == 16 * p;
      assert HexValue(b) == 16 * HexValue(b') + d;
      assert HexValue(t) == 16 * (va * p + HexValue(b')) + d;
      MulShift16(va, p);
    }
  }

  lemma MulShift16(x: int, y: int)
    ensures 16 * (x * y) == x * (16 * y)
  {
  }

  lemma ColorToStringIsHexCode(c: Color)
    requires Valid(c)
    ensures ColorToString(c) == "0x" + HexCode(c)
  {
    var t := ChannelDigits(c);
    ChannelDigitsFacts(c);
    HexCodeFacts(c);
    HexValueInjective8(t, HexCode(c));
    assert ColorToString(c) == "0x" + t;
  }

  function ChannelDigits(c: Color): seq<char>
    requires Valid(c)
  {
    Hex2(c.red) + Hex2(c.green) + Hex2(c.blue) + Hex2(c.opacity)
  }

  lemma ChannelDigitsFacts(c: Color)
    requires Valid(c)
    ensures |ChannelDigits(c)| == 8 && HexValue(ChannelDigits(c)) == Packed(c)
    ensures forall j :: 0 <= j < 8 ==> IsHexDigit(ChannelDigits(c)[j])
  {
    var r, g, b, o := Hex2(c.red), Hex2(c.green), Hex2(c.blue), Hex2(c.opacity);
    Hex2Facts(c.red); Hex2Facts(c.green); Hex2Facts(c.blue); Hex2Facts(c.opacity);
    assert Pow16(2) == 256;
    HexValueAppend(r, g);
    assert HexValue(r + g) == c.red * 256 + c.green;
    HexValueAppend(r + g, b);
    assert HexValue(r + g + b) == (c.red * 256 + c.green) * 256 + c.blue;
    HexValueAppend(r + g + b, o);
  }

  /** Two eight-digit hexadecimal texts with the same value are equal. */
  lemma {:induction false} HexValueInjective8(a: seq<char>, b: seq<char>)
    requires |a| == |b| && HexValue(a) == HexValue(b)
    requires forall j :: 0 <= j < |a| ==> IsHexDigit(a[j])
    requires forall j :: 0 <= j < |b| ==> IsHexDigit(b[j])
    ensures a == b
    decreases |a|
  {
    if a != [] {
      var n := |a|;
      assert DigitValue(a[n - 1]) < 16 && DigitValue(b[n - 1]) < 16;
      assert DigitValue(a[n - 1]) == DigitValue(b[n - 1]);
      assert a[n - 1] == b[n - 1];
      HexValueInjective8(a[..n - 1], b[..n - 1]);
      assert a == a[..n - 1] + [a[n - 1]];
      assert b == b[..n - 1] + [b[n - 1]];
    }
  }
}
