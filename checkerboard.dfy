// The WebGPU texture example's generated image: a checkerboard of warm
// orange and deep blue tiles.

module TextureExample {
  import opened Bytes
  import opened Raster

  const LightPixel: seq<Byte> := [255, 180, 100, 255]
  const DarkPixel: seq<Byte> := [40, 60, 120, 255]

  /// The tile containing (x, y) is light when its column and row indices
  /// add up to an even number.
  predicate IsLight(x: nat, y: nat, tileSize: nat)
    requires tileSize > 0
  {
    (x / tileSize + y / tileSize) % 2 == 0
  }

  function PixelAt(x: nat, y: nat, tileSize: nat): seq<Byte>
    requires tileSize > 0
  {
    if IsLight(x, y, tileSize) then LightPixel else DarkPixel
  }

  /// The pixels of row y, left to right.
  function Row(y: nat, width: nat, tileSize: nat): seq<seq<Byte>>
    requires tileSize > 0
  {
    seq(width, x requires 0 <= x < width => PixelAt(x, y, tileSize))
  }

  /// The rows of the image, top to bottom.
  function Rows(width: nat, height: nat, tileSize: nat): seq<seq<seq<Byte>>>
    requires tileSize > 0
  {
    seq(height, y requires 0 <= y < height => Row(y, width, tileSize))
  }

  /// The image's bytes: its rows concatenated into pixels, and the pixels
  /// into bytes.
  function ImageBytes(width: nat, height: nat, tileSize: nat): seq<Byte>
    requires tileSize > 0
  {
    Concat(Concat(Rows(width, height, tileSize)))
  }

  /// `generate_checkerboard`: rows top to bottom, pixels left to right.
  /// A zero tile size would divide by zero, and the byte count is
  /// computed in u32.
  method GenerateCheckerboard(width: nat, height: nat, tileSize: nat) returns (data: seq<Byte>)
    requires tileSize > 0 && width * height * 4 < U32Modulus
    ensures data == ImageBytes(width, height, tileSize)
    ensures |data| == width * height * 4
  {
    ImageLength(width, height, tileSize);
    ghost var rows := Rows(width, height, tileSize);
    data := [];
    for y := 0 to height
      invariant data == Concat(Concat(rows[..y]))
    {
      ghost var before := data;
      data := AppendRow(data, y, width, tileSize);
      assert rows[..y + 1][..y] == rows[..y];
      ConcatAppend(Concat(rows[..y]), rows[y]);
    }
    assert rows[..height] == rows;
  }

  /// The inner loop of `generate_checkerboard`: the pixels of row y.
  method AppendRow(prefix: seq<Byte>, y: nat, width: nat, tileSize: nat) returns (data: seq<Byte>)
    requires tileSize > 0
    ensures data == prefix + Concat(Row(y, width, tileSize))
  {
    ghost var row := Row(y, width, tileSize);
    data := prefix;
    for x := 0 to width
      invariant data == prefix + Concat(row[..x])
    {
      var tileX := x / tileSize;
      var tileY := y / tileSize;
      var isLight := (tileX + tileY) % 2 == 0;
      if isLight {
        data := data + [255, 180, 100, 255];
      } else {
        data := data + [40, 60, 120, 255];
      }
      assert row[..x + 1][..x] == row[..x];
      assert row[x] == PixelAt(x, y, tileSize);
    }
    assert row[..width] == row;
  }

  /// Four bytes for each of the width * height pixels, the empty image
  /// included.
  lemma ImageLength(width: nat, height: nat, tileSize: nat)
    requires tileSize > 0
    ensures |ImageBytes(width, height, tileSize)| == width * height * 4
  {
    var rows := Rows(width, height, tileSize);
    ConcatLength(rows, width);
    ConcatLengths(rows, 4);
    ConcatLength(Concat(rows), 4);
  }

  /// The image is row-major, four bytes per pixel: pixel (x, y) sits at
  /// offset 4 * (y * width + x).
  lemma CheckerboardLayout(width: nat, height: nat, tileSize: nat, x: nat, y: nat)
    requires tileSize > 0 && x < width && y < height
    ensures |ImageBytes(width, height, tileSize)| == 4 * (height * width)
    ensures 4 * (y * width + x) + 4 <= 4 * (height * width)
    ensures ImageBytes(width, height, tileSize)[4 * (y * width + x)..4 * (y * width + x) + 4] == PixelAt(x, y, tileSize)
  {
    var rows := Rows(width, height, tileSize);
    assert rows[y][x] == PixelAt(x, y, tileSize);
    RowMajorLayout(rows, width, x, y, y * width + x, height * width);
  }

  /// Adding a tile's width moves to the next tile column.
  lemma NextTile(x: nat, tileSize: nat)
    requires tileSize > 0
    ensures (x + tileSize) / tileSize == x / tileSize + 1
  {
    var q := x / tileSize;
    var r := x % tileSize;
    assert x + tileSize == (q + 1) * tileSize + r;
    DivUnique(tileSize, q + 1, r);
  }

  /// Every pixel is opaque, pixels in the same tile agree, and tiles next
  /// to each other, across or down, have different colours.
  lemma CheckerboardProperties(x: nat, y: nat, x2: nat, y2: nat, tileSize: nat)
    requires tileSize > 0
    ensures PixelAt(x, y, tileSize)[3] == 255
    ensures x / tileSize == x2 / tileSize && y / tileSize == y2 / tileSize ==>
      PixelAt(x, y, tileSize) == PixelAt(x2, y2, tileSize)
    ensures PixelAt(x + tileSize, y, tileSize) != PixelAt(x, y, tileSize)
    ensures PixelAt(x, y + tileSize, tileSize) != PixelAt(x, y, tileSize)
  {
    NextTile(x, tileSize);
    NextTile(y, tileSize);
  }
}
