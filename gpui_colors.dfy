// Colours of the GPUI web renderer: four 8-bit channels packed into one
// little-endian u32 for the GPU, saturating brightening, and the quad
// instance builders that store packed colours.

module GpuiWeb {
  import opened Bytes
  /// `pack_color`: alpha in the top byte, then blue, green, and red in the
  /// low byte, so that the u32's little-endian bytes read R, G, B, A. The
  /// four shifted bytes do not overlap, so their bitwise or is their sum.
  function PackColor(r: Byte, g: Byte, b: Byte, a: Byte): (packed: nat)
    ensures packed < U32Modulus
  {
    a * 0x100_0000 + b * 0x1_0000 + g * 0x100 + r
  }

  /// Byte `k` of a u32, counting from the least significant.
  function Channel(packed: nat, k: nat): Byte
  {
    if k == 0 then packed % 256 else Channel(packed / 256, k - 1)
  }

  datatype Color = Color(r: Byte, g: Byte, b: Byte, a: Byte)

  /// `Color::rgb`: an opaque colour.
  function Rgb(r: Byte, g: Byte, b: Byte): (c: Color)
    ensures c.a == 255 && c == Rgba(r, g, b, 255)
  {
    Color(r, g, b, 255)
  }

  /// `Color::rgba`: the four channels as given.
  function Rgba(r: Byte, g: Byte, b: Byte, a: Byte): (c: Color)
    ensures c.r == r && c.g == g && c.b == b && c.a == a
  {
    Color(r, g, b, a)
  }

  /// `Color::pack`.
  function Pack(c: Color): nat
  {
    PackColor(c.r, c.g, c.b, c.a)
  }

  /// The colour whose packed form is `packed`.
  function Unpack(packed: nat): Color
  {
    Color(Channel(packed, 0), Channel(packed, 1), Channel(packed, 2), Channel(packed, 3))
  }

  /// Each channel can be read back from the packed value ...
  lemma UnpackPack(c: Color)
    ensures Unpack(Pack(c)) == c
  {
    var p := Pack(c);
    var q1 := c.a * 0x1_0000 + c.b * 0x100 + c.g;
    var q2 := c.a * 0x100 + c.b;
    assert p == 256 * q1 + c.r && p / 256 == q1;
    assert q1 == 256 * q2 + c.g && q1 / 256 == q2;
    assert q2 / 256 == c.a;
    assert Channel(p, 2) == Channel(q1, 1) == Channel(q2, 0);
    assert Channel(p, 3) == Channel(q1, 2) == Channel(q2, 1) == Channel(c.a, 0);
    assert Channel(p, 0) == c.r && Channel(p, 1) == c.g && Channel(p, 2) == c.b && Channel(p, 3) == c.a;
  }

  /// ... and every u32 is the packed form of exactly one colour.
  lemma PackUnpack(packed: nat)
    requires packed < U32Modulus
    ensures Pack(Unpack(packed)) == packed
  {
    var q1 := packed / 256;
    var q2 := q1 / 256;
    var q3 := q2 / 256;
    assert packed == 256 * q1 + packed % 256;
    assert q1 == 256 * q2 + q1 % 256;
    assert q2 == 256 * q3 + q2 % 256;
    assert q3 < 256;
    assert Channel(packed, 2) == Channel(q1, 1) == Channel(q2, 0);
    assert Channel(packed, 3) == Channel(q1, 2) == Channel(q2, 1) == Channel(q3, 0);
    assert Channel(packed, 1) == Channel(q1, 0);
    assert Channel(q3, 0) == q3;
    var c := Unpack(packed);
    assert c == Color(packed % 256, q1 % 256, q2 % 256, q3);
    assert packed == c.a * 0x100_0000 + c.b * 0x1_0000 + c.g * 0x100 + c.r;
  }

  lemma PackInjective(c: Color, d: Color)
    requires Pack(c) == Pack(d)
    ensures c == d
  {
    UnpackPack(c);
    UnpackPack(d);
  }

  /// `u8::saturating_add`: the sum, or 255 when the sum does not fit.
  function SaturatingAdd(x: Byte, amount: Byte): (s: Byte)
    ensures s >= x && s >= amount
    ensures s == x + amount || (s == 255 && x + amount > 255)
  {
    if x + amount > 255 then 255 else x + amount
  }

  /// `Color::brighten`: adds `amount` to red, green and blue, saturating
  /// at 255; alpha is kept.
  function Brighten(c: Color, amount: Byte): (d: Color)
    ensures d.a == c.a
    ensures d.r >= c.r && d.g >= c.g && d.b >= c.b
    ensures d.r == Min(c.r + amount, 255) && d.g == Min(c.g + amount, 255) && d.b == Min(c.b + amount, 255)
  {
    Color(SaturatingAdd(c.r, amount), SaturatingAdd(c.g, amount), SaturatingAdd(c.b, amount), c.a)
  }

  /// Brightening by nothing changes nothing, white stays white, and two
  /// brightenings are one by the (saturated) total.
  lemma BrightenProperties(c: Color, first: Byte, second: Byte)
    ensures Brighten(c, 0) == c
    ensures Brighten(Rgb(255, 255, 255), first) == Rgb(255, 255, 255)
    ensures Brighten(Brighten(c, first), second) == Brighten(c, SaturatingAdd(first, second))
  {
  }

  /// Per-quad instance data. Floats are carried as reals and never
  /// computed with; the alignment padding is not modelled.
  datatype Quad = Quad(
    bounds: seq<real>,
    background: UInt32,
    borderColor: UInt32,
    borderWidths: seq<real>,
    cornerRadii: seq<real>)

  /// `Quad::new`: grey, opaque background, no border and square corners.
  function NewQuad(x: real, y: real, w: real, h: real): (q: Quad)
    ensures q.bounds == [x, y, w, h]
    ensures Unpack(q.background) == Rgb(128, 128, 128) && q.background == 0xFF80_8080
    ensures Unpack(q.borderColor) == Rgba(0, 0, 0, 0) && q.borderColor == 0
    ensures q.borderWidths == [0.0, 0.0, 0.0, 0.0] && q.cornerRadii == [0.0, 0.0, 0.0, 0.0]
  {
    UnpackPack(Rgb(128, 128, 128));
    Quad([x, y, w, h], PackColor(128, 128, 128, 255), 0, [0.0, 0.0, 0.0, 0.0], [0.0, 0.0, 0.0, 0.0])
  }

  function WithBackground(q: Quad, r: Byte, g: Byte, b: Byte, a: Byte): (q': Quad)
    ensures Unpack(q'.background) == Rgba(r, g, b, a)
    ensures q'.bounds == q.bounds && q'.borderColor == q.borderColor
    ensures q'.borderWidths == q.borderWidths && q'.cornerRadii == q.cornerRadii
  {
    UnpackPack(Rgba(r, g, b, a));
    q.(background := PackColor(r, g, b, a))
  }

  /// `with_border`: the same width on all four sides, and the border colour.
  function WithBorder(q: Quad, width: real, r: Byte, g: Byte, b: Byte, a: Byte): (q': Quad)
    ensures q'.borderWidths == [width, width, width, width]
    ensures Unpack(q'.borderColor) == Rgba(r, g, b, a)
    ensures q'.bounds == q.bounds && q'.background == q.background && q'.cornerRadii == q.cornerRadii
  {
    UnpackPack(Rgba(r, g, b, a));
    q.(borderWidths := [width, width, width, width], borderColor := PackColor(r, g, b, a))
  }

  /// `with_corner_radius`: the same radius at all four corners.
  function WithCornerRadius(q: Quad, radius: real): (q': Quad)
    ensures q' == WithCornerRadii(q, radius, radius, radius, radius)
  {
    q.(cornerRadii := [radius, radius, radius, radius])
  }

  /// `with_corner_radii`: top-left, top-right, bottom-right, bottom-left.
  function WithCornerRadii(q: Quad, tl: real, tr: real, br: real, bl: real): (q': Quad)
    ensures q'.cornerRadii == [tl, tr, br, bl]
    ensures q'.bounds == q.bounds && q'.background == q.background
    ensures q'.borderColor == q.borderColor && q'.borderWidths == q.borderWidths
  {
    q.(cornerRadii := [tl, tr, br, bl])
  }

  /// The builders touch disjoint fields, so their order does not matter,
  /// and a later background replaces an earlier one.
  lemma BuildersCommute(q: Quad, width: real, radius: real, c: Color, d: Color)
    ensures WithBorder(WithBackground(q, c.r, c.g, c.b, c.a), width, d.r, d.g, d.b, d.a)
         == WithBackground(WithBorder(q, width, d.r, d.g, d.b, d.a), c.r, c.g, c.b, c.a)
    ensures WithCornerRadius(WithBackground(q, c.r, c.g, c.b, c.a), radius)
         == WithBackground(WithCornerRadius(q, radius), c.r, c.g, c.b, c.a)
    ensures WithBackground(WithBackground(q, c.r, c.g, c.b, c.a), d.r, d.g, d.b, d.a)
         == WithBackground(q, d.r, d.g, d.b, d.a)
  {
  }
}
