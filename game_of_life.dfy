// The WebGPU game-of-life example: the seeded initial grid, and the
// ping-pong of the two state textures with the compute dispatch size.

module GameOfLife {
  import opened Bytes

  const GridWidth: nat := 128
  const GridHeight: nat := 128
  const WorkgroupSize: nat := 8

  const LcgMultiplier: nat := 6364136223846793005

  /// One step of the 64-bit linear congruential generator, wrapping.
  function LcgNext(rng: nat): (next: nat)
    ensures next < U64Modulus
  {
    (rng * LcgMultiplier + 1) % U64Modulus
  }

  /// The generator state after `n` steps from `seed`.
  function RngAfter(seed: nat, n: nat): nat
  {
    if n == 0 then seed else LcgNext(RngAfter(seed, n - 1))
  }

  /// A cell is alive when the top 31 bits of the state, taken mod 100,
  /// are below 20.
  predicate Alive(rng: nat)
  {
    (rng / 0x2_0000_0000) % 100 < 20
  }

  /// The channel value of cell `i`: the state after i + 1 steps decides it.
  function CellValue(seed: nat, i: nat): (v: Byte)
    ensures v == 0 || v == 255
    ensures v == 255 <==> Alive(RngAfter(seed, i + 1))
  {
    if Alive(RngAfter(seed, i + 1)) then 255 else 0
  }

  /// The RGBA bytes of one cell: its value in the three colour channels,
  /// opaque.
  function CellPixel(v: Byte): seq<Byte>
  {
    [v, v, v, 255]
  }

  /// `generate_random_state`: `width * height` cells in row-major order,
  /// four bytes each. The source multiplies in u32, so the byte count
  /// must fit in 32 bits.
  method GenerateRandomState(width: nat, height: nat, seed: nat) returns (data: seq<Byte>)
    requires width * height * 4 < U32Modulus && seed < U64Modulus
    ensures |data| == width * height * 4
    ensures forall p | 0 <= p < width * height :: data[4 * p..4 * p + 4] == CellPixel(CellValue(seed, p))
  {
    data := [];
    var rng := seed;
    var cells := width * height;
    for i := 0 to cells
      invariant |data| == 4 * i
      invariant rng == RngAfter(seed, i)
      invariant forall p | 0 <= p < i :: data[4 * p..4 * p + 4] == CellPixel(CellValue(seed, p))
    {
      rng := LcgNext(rng);
      var alive := (rng / 0x2_0000_0000) % 100 < 20;
      var value: Byte := if alive then 255 else 0;
      assert [value, value, value, 255] == CellPixel(CellValue(seed, i));
      AppendCell(data, seed, i);
      data := data + [value, value, value, 255];
    }
  }

  /// Appending cell i's pixel to the pixels of cells 0 .. i - 1 gives the
  /// pixels of cells 0 .. i.
  lemma AppendCell(data: seq<Byte>, seed: nat, i: nat)
    requires |data| == 4 * i
    requires forall p | 0 <= p < i :: data[4 * p..4 * p + 4] == CellPixel(CellValue(seed, p))
    ensures var next := data + CellPixel(CellValue(seed, i));
      forall p | 0 <= p < i + 1 :: next[4 * p..4 * p + 4] == CellPixel(CellValue(seed, p))
  {
    var next := data + CellPixel(CellValue(seed, i));
    forall p | 0 <= p < i + 1
      ensures next[4 * p..4 * p + 4] == CellPixel(CellValue(seed, p))
    {
      if p < i {
        assert next[4 * p..4 * p + 4] == data[4 * p..4 * p + 4];
      } else {
        assert next[4 * p..4 * p + 4] == next[|data|..];
      }
    }
  }

  /// Every byte of the grid is 0 or 255, and every fourth one (alpha) is 255.
  lemma RandomStateBytes(seed: nat, cells: nat, data: seq<Byte>)
    requires |data| == 4 * cells
    requires forall p | 0 <= p < cells :: data[4 * p..4 * p + 4] == CellPixel(CellValue(seed, p))
    ensures forall k | 0 <= k < |data| :: data[k] == 0 || data[k] == 255
    ensures forall p | 0 <= p < cells :: data[4 * p + 3] == 255
  {
    forall k | 0 <= k < |data| ensures data[k] == 0 || data[k] == 255 {
      var p := k / 4;
      assert 4 * p <= k < 4 * p + 4;
      var pixel := data[4 * p..4 * p + 4];
      assert pixel == CellPixel(CellValue(seed, p));
      assert data[k] == pixel[k - 4 * p];
    }
    forall p | 0 <= p < cells ensures data[4 * p + 3] == 255 {
      var pixel := data[4 * p..4 * p + 4];
      assert pixel == CellPixel(CellValue(seed, p));
      assert data[4 * p + 3] == pixel[3];
    }
  }

  /// The number of workgroups covering `size` cells: the ceiling of
  /// size / WorkgroupSize.
  function WorkgroupCount(size: nat): (groups: nat)
    ensures groups * WorkgroupSize >= size
    ensures groups == 0 || (groups - 1) * WorkgroupSize < size
  {
    (size + WorkgroupSize - 1) / WorkgroupSize
  }

  /// The simulation's state: which of the two textures holds the current
  /// generation.
  class Simulation {
    var currentRead: nat

    ghost predicate Valid()
      reads this
    {
      currentRead == 0 || currentRead == 1
    }

    constructor ()
      ensures Valid() && currentRead == 0
    {
      currentRead := 0;
    }

    /// One frame: the step reads texture `readIndex`, writes the other,
    /// dispatches `groups`, and the written one becomes current.
    method Render() returns (readIndex: nat, writeIndex: nat, groups: (nat, nat, nat))
      requires Valid()
      modifies this
      ensures Valid()
      ensures readIndex == old(currentRead) && writeIndex == 1 - readIndex
      ensures currentRead == writeIndex && currentRead != old(currentRead)
      ensures groups == (WorkgroupCount(GridWidth), WorkgroupCount(GridHeight), 1)
    {
      readIndex := currentRead;
      writeIndex := 1 - currentRead;
      var groupsX := (GridWidth + WorkgroupSize - 1) / WorkgroupSize;
      var groupsY := (GridHeight + WorkgroupSize - 1) / WorkgroupSize;
      groups := (groupsX, groupsY, 1);
      currentRead := writeIndex;
    }
  }

  /// Two frames bring the same texture back: the index alternates.
  method TwoFrames(sim: Simulation) returns (first: nat, second: nat)
    requires sim.Valid()
    modifies sim
    ensures sim.Valid() && sim.currentRead == old(sim.currentRead)
    ensures first == old(sim.currentRead) && second == 1 - first
  {
    var w1, g1;
    first, w1, g1 := sim.Render();
    var w2, g2;
    second, w2, g2 := sim.Render();
  }

  /// The 128-cell grid needs 16 groups of 8 in each direction, covering it exactly.
  lemma GridDispatch()
    ensures WorkgroupCount(GridWidth) == 16 && WorkgroupCount(GridHeight) == 16
    ensures WorkgroupCount(GridWidth) * WorkgroupSize == GridWidth
  {
  }
}
