// The advanced GPUI web tests: the drag-preview items and their position
// builders, and the 64 x 64 sprite test image, stored as BGRA bytes.

module AdvancedTests {
  import opened Bytes

  /// A point in pixels; floats are carried as reals.
  datatype Point = Point(x: real, y: real)

  const Origin: Point := Point(0.0, 0.0)

  /// `labelText` is the source's `label` field (`label` is a keyword here).
  datatype DragItem = DragItem(id: nat, color: UInt32, labelText: string, position: Point)
  datatype FancyDragItem = FancyDragItem(position: Point)
  datatype RedDragItem = RedDragItem(position: Point)

  function NewDragItem(id: nat, color: UInt32, labelText: string): (d: DragItem)
    ensures d.id == id && d.color == color && d.labelText == labelText && d.position == Origin
  {
    DragItem(id, color, labelText, Origin)
  }

  /// `DragItem::with_position`: the new position, everything else kept.
  function DragItemWithPosition(d: DragItem, position: Point): (e: DragItem)
    ensures e.position == position
    ensures e.id == d.id && e.color == d.color && e.labelText == d.labelText
  {
    d.(position := position)
  }

  function FancyWithPosition(d: FancyDragItem, position: Point): (e: FancyDragItem)
    ensures e.position == position
  {
    d.(position := position)
  }

  /// The red drag item's own `with_position`, a second entry point with the
  /// same behaviour as the fancy one's.
  function RedWithPosition(d: RedDragItem, position: Point): (e: RedDragItem)
    ensures e.position == position
  {
    d.(position := position)
  }

  /// The last position set wins, and setting the current one changes nothing.
  lemma WithPositionLastWins(d: DragItem, p: Point, q: Point)
    ensures DragItemWithPosition(DragItemWithPosition(d, p), q) == DragItemWithPosition(d, q)
    ensures DragItemWithPosition(d, d.position) == d
    ensures FancyWithPosition(FancyDragItem(p), q) == FancyDragItem(q)
    ensures RedWithPosition(RedDragItem(p), q) == RedDragItem(q)
  {
  }

  const ImageSize: nat := 64
  const CellSize: nat := 8
  const ImageBytes: nat := 64 * 64 * 4

  datatype Rgb = Rgb(r: Byte, g: Byte, b: Byte)

  /// The eight cell colours, by (cell column + cell row) mod 8: red, green,
  /// blue, yellow, magenta, cyan, orange, purple.
  function Palette(k: nat): Rgb
  {
    match k
    case 0 => Rgb(255, 0, 0)
    case 1 => Rgb(0, 255, 0)
    case 2 => Rgb(0, 0, 255)
    case 3 => Rgb(255, 255, 0)
    case 4 => Rgb(255, 0, 255)
    case 5 => Rgb(0, 255, 255)
    case 6 => Rgb(255, 128, 0)
    case 7 => Rgb(128, 0, 255)
    case _ => Rgb(255, 255, 255)
  }

  /// The colour of the 8 x 8 cell holding pixel (x, y).
  function CellColor(x: nat, y: nat): Rgb
  {
    Palette((x / CellSize + y / CellSize) % 8)
  }

  /// The stored bytes of pixel (x, y): red and blue swapped, so that the
  /// RGBA image's memory reads B, G, R, A; alpha is opaque.
  function TestPixel(x: nat, y: nat): (px: seq<Byte>)
    ensures |px| == 4
  {
    var c := CellColor(x, y);
    [c.b, c.g, c.r, 255]
  }

  /// The byte offset of pixel (x, y) in the row-major image.
  function Offset(x: nat, y: nat): nat
  {
    4 * (ImageSize * y + x)
  }

  /// `put_pixel` on the 64 x 64 image buffer: writes the four bytes of
  /// pixel (x, y) and nothing else.
  method PutPixel(img: array<Byte>, x: nat, y: nat, px: seq<Byte>)
    requires img.Length == ImageBytes && x < ImageSize && y < ImageSize && |px| == 4
    modifies img
    ensures forall c | 0 <= c < 4 :: img[Offset(x, y) + c] == px[c]
    ensures forall k | 0 <= k < img.Length && !(Offset(x, y) <= k < Offset(x, y) + 4) :: img[k] == old(img[k])
  {
    var base := 4 * (ImageSize * y + x);
    img[base] := px[0];
    img[base + 1] := px[1];
    img[base + 2] := px[2];
    img[base + 3] := px[3];
  }

  /// All pixels of rows above y, and of row y left of x, are written.
  ghost predicate Filled(img: array<Byte>, x: nat, y: nat)
    requires img.Length == ImageBytes
    reads img
  {
    forall x', y', c | 0 <= x' < ImageSize && 0 <= y' < ImageSize && 0 <= c < 4 &&
      (y' < y || (y' == y && x' < x)) ::
      img[Offset(x', y') + c] == TestPixel(x', y')[c]
  }

  /// `create_test_image`: a zeroed 64 x 64 RGBA buffer filled pixel by
  /// pixel, rows top to bottom.
  method CreateTestImage() returns (img: array<Byte>)
    ensures fresh(img) && img.Length == ImageBytes
    ensures forall x, y, c | 0 <= x < ImageSize && 0 <= y < ImageSize && 0 <= c < 4 ::
      img[Offset(x, y) + c] == TestPixel(x, y)[c]
  {
    img := new Byte[ImageBytes](_ => 0);
    for y := 0 to ImageSize
      invariant Filled(img, 0, y)
    {
      for x := 0 to ImageSize
        invariant Filled(img, x, y)
      {
        PaintPixel(img, x, y);
      }
    }
  }

  /// The body of the inner loop: pixel (x, y) gets its cell's palette
  /// colour, stored blue first.
  method PaintPixel(img: array<Byte>, x: nat, y: nat)
    requires img.Length == ImageBytes && x < ImageSize && y < ImageSize && Filled(img, x, y)
    modifies img
    ensures Filled(img, x + 1, y)
  {
    var cellX := x / 8;
    var cellY := y / 8;
    var rgb := match (cellX + cellY) % 8
      case 0 => (255, 0, 0)
      case 1 => (0, 255, 0)
      case 2 => (0, 0, 255)
      case 3 => (255, 255, 0)
      case 4 => (255, 0, 255)
      case 5 => (0, 255, 255)
      case 6 => (255, 128, 0)
      case 7 => (128, 0, 255)
      case _ => (255, 255, 255);
    var (r, g, b) := rgb;
    assert [b, g, r, 255] == TestPixel(x, y);
    PutPixel(img, x, y, [b, g, r, 255]);
  }

  /// The eight palette colours are all different.
  lemma PaletteDistinct(i: nat, j: nat)
    requires i < 8 && j < 8 && i != j
    ensures Palette(i) != Palette(j)
  {
  }

  /// The source's `_ => white` arm is never taken: the index is reduced
  /// modulo 8 first, so every cell gets one of the eight palette colours,
  /// none of which is white.
  lemma WhiteFallbackUnreachable(x: nat, y: nat)
    ensures CellColor(x, y) != Rgb(255, 255, 255)
  {
    var k := (x / CellSize + y / CellSize) % 8;
    assert CellColor(x, y) == Palette(k);
  }

  /// Pixels of one cell share a colour; the cell to the right, and the
  /// one below, have a different colour; stepping one cell right and one
  /// cell up gives the same colour again.
  lemma TestImageCells(x: nat, y: nat, x2: nat, y2: nat)
    ensures x / CellSize == x2 / CellSize && y / CellSize == y2 / CellSize ==> CellColor(x2, y2) == CellColor(x, y)
    ensures CellColor(x + CellSize, y) != CellColor(x, y)
    ensures CellColor(x, y + CellSize) != CellColor(x, y)
    ensures y >= CellSize ==> CellColor(x + CellSize, y - CellSize) == CellColor(x, y)
  {
    var k := (x / CellSize + y / CellSize) % 8;
    assert (x + CellSize) / CellSize == x / CellSize + 1;
    assert (y + CellSize) / CellSize == y / CellSize + 1;
    PaletteDistinct(k, (k + 1) % 8);
    if y >= CellSize {
      assert (y - CellSize) / CellSize == y / CellSize - 1;
      assert (x + CellSize) / CellSize + (y - CellSize) / CellSize == x / CellSize + y / CellSize;
    }
  }
}
