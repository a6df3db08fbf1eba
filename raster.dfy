// Images laid out in memory: rows of pixels concatenated into one byte
// sequence, and the arithmetic of row-major offsets.

module Raster {
  /// Sequences laid end to end.
  function Concat<T>(parts: seq<seq<T>>): seq<T>
  {
    if |parts| == 0 then [] else Concat(parts[..|parts| - 1]) + parts[|parts| - 1]
  }

  /// Concatenation distributes over appending lists of parts.
  lemma {:induction false} ConcatAppend<T>(a: seq<seq<T>>, b: seq<seq<T>>)
    ensures Concat(a + b) == Concat(a) + Concat(b)
  {
    if |b| > 0 {
      assert (a + b)[..|a + b| - 1] == a + b[..|b| - 1];
      ConcatAppend(a, b[..|b| - 1]);
    } else {
      assert a + b == a;
    }
  }

  /// Multiplication by a natural number is monotone.
  lemma MulLe(a: nat, b: nat, n: nat)
    requires a <= b
    ensures a * n <= b * n
  {
  }

  /// Parts of equal length n make a sequence of |parts| * n elements.
  lemma {:induction false} ConcatLength<T>(parts: seq<seq<T>>, n: nat)
    requires forall k | 0 <= k < |parts| :: |parts[k]| == n
    ensures |Concat(parts)| == |parts| * n
  {
    if |parts| > 0 {
      var k := |parts| - 1;
      ConcatLength(parts[..k], n);
      assert Concat(parts) == Concat(parts[..k]) + parts[k];
      assert (k + 1) * n == k * n + n;
    }
  }

  /// With parts of equal length n, element j of part i sits at
  /// start + j, where start = i * n.
  lemma {:induction false} ConcatElement<T>(parts: seq<seq<T>>, n: nat, i: nat, j: nat, start: nat)
    requires forall k | 0 <= k < |parts| :: |parts[k]| == n
    requires i < |parts| && j < n && start == i * n
    ensures start + j < |Concat(parts)| && Concat(parts)[start + j] == parts[i][j]
  {
    var k := |parts| - 1;
    var init := parts[..k];
    ConcatLength(init, n);
    assert Concat(parts) == Concat(init) + parts[k];
    if i < k {
      ConcatElement(init, n, i, j, start);
      assert Concat(parts)[start + j] == Concat(init)[start + j];
    } else {
      assert start == |Concat(init)|;
    }
  }

  /// Concatenating parts whose elements all have length n gives elements
  /// of length n.
  lemma {:induction false} ConcatLengths<T>(parts: seq<seq<seq<T>>>, n: nat)
    requires forall i, j | 0 <= i < |parts| && 0 <= j < |parts[i]| :: |parts[i][j]| == n
    ensures forall k | 0 <= k < |Concat(parts)| :: |Concat(parts)[k]| == n
  {
    if |parts| > 0 {
      var k := |parts| - 1;
      ConcatLengths(parts[..k], n);
      assert Concat(parts) == Concat(parts[..k]) + parts[k];
    }
  }

  /// With parts of equal length n, part i is the slice at start = i * n.
  lemma ConcatPart<T>(parts: seq<seq<T>>, n: nat, i: nat, start: nat)
    requires forall k | 0 <= k < |parts| :: |parts[k]| == n
    requires i < |parts| && start == i * n
    ensures |Concat(parts)| == |parts| * n && start + n <= |parts| * n
    ensures Concat(parts)[start..start + n] == parts[i]
  {
    var whole := Concat(parts);
    ConcatLength(parts, n);
    assert start + n <= |parts| * n by {
      MulLe(i + 1, |parts|, n);
      assert (i + 1) * n == start + n;
    }
    forall j | 0 <= j < n ensures whole[start + j] == parts[i][j] {
      ConcatElement(parts, n, i, j, start);
    }
  }

  /// Rows of `width` pixels of four bytes each, laid end to end: pixel x
  /// of row y sits at byte offset 4 * p, where p = y * width + x.
  lemma RowMajorLayout<T>(rows: seq<seq<seq<T>>>, width: nat, x: nat, y: nat, p: nat, total: nat)
    requires forall k | 0 <= k < |rows| :: |rows[k]| == width
    requires forall k, j | 0 <= k < |rows| && 0 <= j < |rows[k]| :: |rows[k][j]| == 4
    requires x < width && y < |rows|
    requires p == y * width + x && total == |rows| * width
    ensures |Concat(Concat(rows))| == 4 * total && 4 * p + 4 <= 4 * total
    ensures Concat(Concat(rows))[4 * p..4 * p + 4] == rows[y][x]
  {
    var pixels := Concat(rows);
    assert |pixels| == total && p < total && pixels[p] == rows[y][x] by {
      ConcatLength(rows, width);
      ConcatElement(rows, width, y, x, y * width);
    }
    assert forall k | 0 <= k < |pixels| :: |pixels[k]| == 4 by {
      ConcatLengths(rows, 4);
    }
    ConcatPart(pixels, 4, p, 4 * p);
  }

  /// Dividing q * d + r by d gives back q when r < d.
  lemma DivUnique(d: nat, q: nat, r: nat)
    requires r < d
    ensures (q * d + r) / d == q
  {
    var a := q * d + r;
    var q2 := a / d;
    assert a == q2 * d + a % d;
    if q2 < q {
      MulLe(q2 + 1, q, d);
      assert false;
    } else if q2 > q {
      MulLe(q + 1, q2, d);
      assert false;
    }
  }
}
