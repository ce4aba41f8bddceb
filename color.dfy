// `Color` and `Colors` (include/vkdl/graphics/color.h): an RGBA colour of
// four bytes, and the named colours as 32-bit words.
module Color {
  type u8 = x: int | 0 <= x < 256
  type u32 = x: int | 0 <= x < 0x1_0000_0000

  /** `Colors`: each named colour is the word whose bytes, in memory order on
      a little-endian host, are r, g, b, a. */
  const Transparent: u32 := 0x00000000
  const WhiteTransparent: u32 := 0x00FFFFFF
  const Maroon: u32 := 0xFF000080
  const DarkRed: u32 := 0xFF00008B
  const Brown: u32 := 0xFF2A2AA5
  const Firebrick: u32 := 0xFF2222B2
  const Crimson: u32 := 0xFF3C14DC
  const Red: u32 := 0xFF0000FF
  const Tomato: u32 := 0xFF4763FF
  const Coral: u32 := 0xFF507FFF
  const IndianRed: u32 := 0xFF5C5CCD
  const LightCoral: u32 := 0xFF8080F0
  const DarkSalmon: u32 := 0xFF7A96E9
  const Salmon: u32 := 0xFF7280FA
  const LightSalmon: u32 := 0xFF7AA0FF
  const OrangeRed: u32 := 0xFF0045FF
  const DarkOrange: u32 := 0xFF008CFF
  const Orange: u32 := 0xFF00A5FF
  const Gold: u32 := 0xFF00D7FF
  const DarkGoldenRod: u32 := 0xFF0B86B8
  const GoldenRod: u32 := 0xFF20A5DA
  const PaleGoldenRod: u32 := 0xFFAAE8EE
  const DarkKhaki: u32 := 0xFF6BB7BD
  const Khaki: u32 := 0xFF8CE6F0
  const Olive: u32 := 0xFF008080
  const Yellow: u32 := 0xFF00FFFF
  const YellowGreen: u32 := 0xFF32CD9A
  const DarkOliveGreen: u32 := 0xFF2F6B55
  const OliveDrab: u32 := 0xFF238E6B
  const LawnGreen: u32 := 0xFF00FC7C
  const ChartReuse: u32 := 0xFF00FF7F
  const GreenYellow: u32 := 0xFF2FFFAD
  const DarkGreen: u32 := 0xFF006400
  const Green: u32 := 0xFF008000
  const ForestGreen: u32 := 0xFF228B22
  const Lime: u32 := 0xFF00FF00
  const LimeGreen: u32 := 0xFF32CD32
  const LightGreen: u32 := 0xFF90EE90
  const PaleGreen: u32 := 0xFF98FB98
  const DarkSeaGreen: u32 := 0xFF8FBC8F
  const MediumSpringGreen: u32 := 0xFF9AFA00
  const SpringGreen: u32 := 0xFF7FFF00
  const SeaGreen: u32 := 0xFF578B2E
  const MediumAquaMarine: u32 := 0xFFAACD66
  const MediumSeaGreen: u32 := 0xFF71B33C
  const LightSeaGreen: u32 := 0xFFAAB220
  const DarkSlateGray: u32 := 0xFF4F4F2F
  const Teal: u32 := 0xFF808000
  const DarkCyan: u32 := 0xFF8B8B00
  const Aqua: u32 := 0xFFFFFF00
  const Cyan: u32 := 0xFFFFFF00
  const LightCyan: u32 := 0xFFFFFFE0
  const DarkTurquoise: u32 := 0xFFD1CE00
  const Turquoise: u32 := 0xFFD0E040
  const MediumTurquoise: u32 := 0xFFCCD148
  const PaleTurquoise: u32 := 0xFFEEEEAF
  const AquaMarine: u32 := 0xFFD4FF7F
  const PowderBlue: u32 := 0xFFE6E0B0
  const CadetBlue: u32 := 0xFFA09E5F
  const SteelBlue: u32 := 0xFFB48246
  const CornFlowerBlue: u32 := 0xFFED9564
  const DeepSkyBlue: u32 := 0xFFFFBF00
  const DodgerBlue: u32 := 0xFFFF901E
  const LightBlue: u32 := 0xFFE6D8AD
  const SkyBlue: u32 := 0xFFEBCE87
  const LightSkyBlue: u32 := 0xFFFACE87
  const MidnightBlue: u32 := 0xFF701919
  const Navy: u32 := 0xFF800000
  const DarkBlue: u32 := 0xFF8B0000
  const MediumBlue: u32 := 0xFFCD0000
  const Blue: u32 := 0xFFFF0000
  const RoyalBlue: u32 := 0xFFE16941
  const BlueViolet: u32 := 0xFFE22B8A
  const Indigo: u32 := 0xFF82004B
  const DarkSlateBlue: u32 := 0xFF8B3D48
  const SlateBlue: u32 := 0xFFCD5A6A
  const MediumSlateBlue: u32 := 0xFFEE687B
  const MediumPurple: u32 := 0xFFDB7093
  const DarkMagenta: u32 := 0xFF8B008B
  const DarkViolet: u32 := 0xFFD30094
  const DarkOrchid: u32 := 0xFFCC3299
  const MediumOrchid: u32 := 0xFFD355BA
  const Purple: u32 := 0xFF800080
  const Thistle: u32 := 0xFFD8BFD8
  const Plum: u32 := 0xFFDDA0DD
  const Violet: u32 := 0xFFEE82EE
  const Magenta: u32 := 0xFFFF00FF
  const Orchid: u32 := 0xFFD670DA
  const MediumVioletRed: u32 := 0xFF8515C7
  const PaleCioletRed: u32 := 0xFF9370DB
  const DeepPink: u32 := 0xFF9314FF
  const HotPink: u32 := 0xFFB469FF
  const LightPink: u32 := 0xFFC1B6FF
  const Pink: u32 := 0xFFCBC0FF
  const AntiqueWhite: u32 := 0xFFD7EBFA
  const Beige: u32 := 0xFFDCF5F5
  const Bisque: u32 := 0xFFC4E4FF
  const BlanchedAlmond: u32 := 0xFFCDEBFF
  const Wheat: u32 := 0xFFB3DEF5
  const CornSilk: u32 := 0xFFDCF8FF
  const LemonChiffon: u32 := 0xFFCDFAFF
  const LightGoldenRodYellow: u32 := 0xFFD2FAFA
  const LightYellow: u32 := 0xFFE0FFFF
  const SaddleBrown: u32 := 0xFF13458B
  const Sienna: u32 := 0xFF2D52A0
  const Chocolate: u32 := 0xFF1E69D2
  const Peru: u32 := 0xFF3F85CD
  const SandyBrown: u32 := 0xFF60A4F4
  const BurlyWood: u32 := 0xFF87B8DE
  const Tan: u32 := 0xFF8CB4D2
  const RosyBrown: u32 := 0xFF8F8FBC
  const Moccasin: u32 := 0xFFB5E4FF
  const NavajoWhite: u32 := 0xFFADDEFF
  const PeachPuff: u32 := 0xFFB9DAFF
  const MistyRose: u32 := 0xFFE1E4FF
  const LavenderBlush: u32 := 0xFFF5F0FF
  const Linen: u32 := 0xFFE6F0FA
  const OldLace: u32 := 0xFFE6F5FD
  const PapayaWhip: u32 := 0xFFD5EFFF
  const SeaShell: u32 := 0xFFEEF5FF
  const MintCream: u32 := 0xFFFAFFF5
  const SlateGray: u32 := 0xFF908070
  const LightSlateGray: u32 := 0xFF998877
  const LightSteelBlue: u32 := 0xFFDEC4B0
  const Lavender: u32 := 0xFFFAE6E6
  const FloralWhite: u32 := 0xFFF0FAFF
  const AliceBlue: u32 := 0xFFFFF8F0
  const GhostWhite: u32 := 0xFFFFF8F8
  const Honeydew: u32 := 0xFFF0FFF0
  const Ivory: u32 := 0xFFF0FFFF
  const Azure: u32 := 0xFFFFFFF0
  const Snow: u32 := 0xFFFAFAFF
  const Black: u32 := 0xFF000000
  const DimGray: u32 := 0xFF696969
  const Gray: u32 := 0xFF808080
  const DarkGray: u32 := 0xFFA9A9A9
  const Silver: u32 := 0xFFC0C0C0
  const LightGray: u32 := 0xFFD3D3D3
  const Gainsboro: u32 := 0xFFDCDCDC
  const WhiteSmoke: u32 := 0xFFF5F5F5
  const White: u32 := 0xFFFFFFFF

  datatype Color = Color(r: u8, g: u8, b: u8, a: u8)

  /** The word a colour occupies in memory on a little-endian host. */
  function Word(c: Color): (w: u32)
  {
    c.r + 0x100 * c.g + 0x1_0000 * c.b + 0x100_0000 * c.a
  }

  /** `Color(Colors)`: the word's bytes reinterpreted as r, g, b, a. */
  function FromColors(w: u32): (c: Color)
    ensures Word(c) == w
  {
    Color(w % 0x100, w / 0x100 % 0x100, w / 0x1_0000 % 0x100, w / 0x100_0000)
  }

  /** The `uint8_t` constructor with its defaulted alpha. */
  function Rgb(r: u8, g: u8, b: u8): (c: Color)
    ensures c.r == r && c.g == g && c.b == b && c.a == 255
  {
    Color(r, g, b, 255)
  }

  type i32 = x: int | -0x8000_0000 <= x < 0x8000_0000

  /** The low byte of a 32-bit integer, as a cast to `uint8_t` keeps it. */
  function LowByte(x: i32): (b: u8)
    ensures (x - b) % 0x100 == 0
  {
    x % 0x100
  }

  /** The `int32_t` constructor keeps the low 8 bits of each argument. */
  function FromInts(r: i32, g: i32, b: i32, a: i32): (c: Color)
    ensures (c.r - r) % 0x100 == 0 && (c.g - g) % 0x100 == 0
    ensures (c.b - b) % 0x100 == 0 && (c.a - a) % 0x100 == 0
  {
    Color(LowByte(r), LowByte(g), LowByte(b), LowByte(a))
  }

  /** `==` compares the four components, `!=` negates it. */
  predicate Eq(x: Color, y: Color) { x.r == y.r && x.g == y.g && x.b == y.b && x.a == y.a }
  predicate NotEq(x: Color, y: Color) { !Eq(x, y) }

  /** Dividing 256 q + d by 256 gives q, remainder d. */
  lemma DivMod256(q: int, d: int)
    requires 0 <= d < 0x100
    ensures (0x100 * q + d) / 0x100 == q && (0x100 * q + d) % 0x100 == d
  {
  }

  /** Reinterpretation and the memory word are inverse to each other. */
  lemma WordRoundTrip(c: Color, w: u32)
    ensures FromColors(Word(c)) == c
    ensures Word(FromColors(w)) == w
  {
    var x := c.b + 0x100 * c.a;
    var y := c.g + 0x100 * x;
    assert Word(c) == c.r + 0x100 * y;
    DivMod256(y, c.r);
    DivMod256(x, c.g);
    DivMod256(c.a, c.b);
    assert Word(c) / 0x1_0000 == (Word(c) / 0x100) / 0x100;
    assert Word(c) / 0x100_0000 == (Word(c) / 0x1_0000) / 0x100;
  }

  /** The low byte of an argument already in 0..255 is the argument, and
      arguments that differ by a multiple of 256 give the same byte. */
  lemma LowByteFacts(x: i32, y: i32)
    ensures 0 <= x < 256 ==> LowByte(x) == x
    ensures (x - y) % 0x100 == 0 ==> LowByte(x) == LowByte(y)
  {
  }

  /** `==` is equality of colours, `!=` its negation. */
  lemma EqualityIsComponentwise(x: Color, y: Color)
    ensures Eq(x, y) <==> x == y
    ensures NotEq(x, y) <==> x != y
  {
  }

  /** Red reads as (255, 0, 0, 255) and Blue as (0, 0, 255, 255): the
      first byte in memory is red. */
  lemma RedAndBlue()
    ensures FromColors(Red) == Color(255, 0, 0, 255)
    ensures FromColors(Blue) == Color(0, 0, 255, 255)
  {
    WordRoundTrip(Color(255, 0, 0, 255), Red);
    WordRoundTrip(Color(0, 0, 255, 255), Blue);
  }

  /** Transparent is all zero, and Aqua and Cyan are one colour. */
  lemma TransparentAndAquaCyan()
    ensures FromColors(Transparent) == Color(0, 0, 0, 0)
    ensures Aqua == Cyan
  {
    WordRoundTrip(Color(0, 0, 0, 0), Transparent);
  }

  /** White is 255 in every component. */
  lemma WhiteIsAllOnes()
    ensures FromColors(White) == Color(255, 255, 255, 255)
  {
    WordRoundTrip(Color(255, 255, 255, 255), White);
  }
}
