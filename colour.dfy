// Packed 32-bit colours of the Mandelbrot renderer: the RRGGBBxx word the
// renderer interpolates on, and the 8-bit RGBA colour it stores in the image.
// Words are Go uint32 values, modelled as integers in [0, 2^32) with every
// arithmetic step reduced modulo 2^32 where Go wraps.

module Colour {

  const WordModulus: int := 0x1_0000_0000

  /** A Go uint32. */
  type Word = x: int | 0 <= x < 0x1_0000_0000

  /** A Go uint8. */
  type Byte = x: int | 0 <= x < 0x100

  /** An 8-bit-per-channel colour, as Go's color.RGBA. */
  datatype Rgba = Rgba(r: Byte, g: Byte, b: Byte, a: Byte)

  /** The zero value of a pixel of a fresh RGBA image. */
  const Transparent: Rgba := Rgba(0, 0, 0, 0)

  /** uint32 wrap-around. */
  function Wrap(x: int): Word
  {
    x % WordModulus
  }

  /** Reference layout of a packed word: red in bits 31-24, green in 23-16,
      blue in 15-8 and an arbitrary low byte in 7-0. */
  function Packed(r: Byte, g: Byte, b: Byte, low: Byte): Word
  {
    r * 0x100_0000 + g * 0x1_0000 + b * 0x100 + low
  }

  /** uint32ToRgba: red, green and blue are the three high bytes of the word,
      the low byte is dropped and alpha is always fully opaque. Each channel
      is written as the shift and the 0xff mask of the source. */
  function ToRgba(col: Word): (c: Rgba)
    ensures c.a == 0xff
    ensures Packed(c.r, c.g, c.b, col % 0x100) == col
  {
    var r := (col / 0x100_0000) % 0x100;
    var g := (col / 0x1_0000) % 0x100;
    var b := (col / 0x100) % 0x100;
    assert col / 0x1_0000 == (col / 0x100) / 0x100;
    assert col / 0x100_0000 == (col / 0x1_0000) / 0x100;
    assert col == (col / 0x100) * 0x100 + col % 0x100;
    assert col / 0x100 == (col / 0x1_0000) * 0x100 + b;
    assert col / 0x1_0000 == (col / 0x100_0000) * 0x100 + g;
    Rgba(r, g, b, 0xff)
  }

  /** Three bytes written in base 256 determine the bytes. */
  lemma ChannelsUnique(r: Byte, g: Byte, b: Byte, r': Byte, g': Byte, b': Byte)
    requires r * 0x1_0000 + g * 0x100 + b == r' * 0x1_0000 + g' * 0x100 + b'
    ensures r == r' && g == g' && b == b'
  {
    assert (r - r') * 0x1_0000 == (g' - g) * 0x100 + (b' - b);
    assert r == r';
    assert (g - g') * 0x100 == b' - b;
  }

  /** The low byte of x * 256 + low is low. */
  lemma LowByte(x: nat, low: Byte)
    ensures (x * 0x100 + low) % 0x100 == low
  {
  }

  /** Unpacking a word laid out as Packed gives back its three channels. */
  lemma UnpackPacked(r: Byte, g: Byte, b: Byte, low: Byte)
    ensures ToRgba(Packed(r, g, b, low)) == Rgba(r, g, b, 0xff)
  {
    var col := Packed(r, g, b, low);
    var c := ToRgba(col);
    LowByte(r * 0x1_0000 + g * 0x100 + b, low);
    assert (c.r * 0x1_0000 + c.g * 0x100 + c.b) * 0x100 == (r * 0x1_0000 + g * 0x100 + b) * 0x100;
    ChannelsUnique(c.r, c.g, c.b, r, g, b);
  }

  /** Two words unpack to the same colour exactly when they agree above the
      low byte. */
  lemma LowByteIgnored(c: Word, d: Word)
    ensures ToRgba(c) == ToRgba(d) <==> c / 0x100 == d / 0x100
  {
    var u, v := ToRgba(c), ToRgba(d);
    assert c / 0x100 == u.r * 0x1_0000 + u.g * 0x100 + u.b;
    assert d / 0x100 == v.r * 0x1_0000 + v.g * 0x100 + v.b;
    if c / 0x100 == d / 0x100 {
      ChannelsUnique(u.r, u.g, u.b, v.r, v.g, v.b);
    }
  }

  /** linearInterpolation on packed words: 1 - mu, both products and the sum
      each wrap modulo 2^32 as uint32 arithmetic does. */
  function LinearInterpolation(c1: Word, c2: Word, mu: Word): (r: Word)
    ensures mu == 0 ==> r == c1
    ensures mu == 1 ==> r == c2
  {
    var rest := Wrap(1 - mu);
    assert mu == 0 ==> rest == 1 && c1 * rest == c1 && c2 * mu == 0;
    assert mu == 1 ==> rest == 0 && c1 * rest == 0 && c2 * mu == c2;
    Wrap(Wrap(c1 * rest) + Wrap(c2 * mu))
  }
}
