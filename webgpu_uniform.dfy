// The per-frame uniform ring: three GPU buffers of one shared capacity,
// rotated on every use and grown together to a power of two.

module WebgpuUniform {
  import opened Wrappers
  import Text
  import Wgpu

  const UniformBufferCount: nat := 3
  /// Smallest capacity the ring is ever grown to.
  const MinUniformCapacity: nat := 256

  ghost predicate IsPowerOfTwo(n: nat)
    decreases n
  {
    n == 1 || (n > 1 && n % 2 == 0 && IsPowerOfTwo(n / 2))
  }

  /// The first power of two at or above n reached by doubling p.
  function DoubleUntil(p: nat, n: nat): (r: nat)
    requires 1 <= p && IsPowerOfTwo(p)
    ensures IsPowerOfTwo(r) && n <= r && p <= r
    ensures r == p || r / 2 < n
    decreases n - p
  {
    if n <= p then p else DoubleUntil(2 * p, n)
  }

  /// The smallest power of two that is at least n (1 for n = 0).
  function NextPowerOfTwo(n: nat): (r: nat)
    ensures IsPowerOfTwo(r) && n <= r
    ensures r == 1 || r / 2 < n
  {
    DoubleUntil(1, n)
  }

  lemma {:induction false} PowerOfTwoAtLeast(q: nat, n: nat)
    requires IsPowerOfTwo(q) && n <= q
    ensures NextPowerOfTwo(n) <= q
  {
    var r := NextPowerOfTwo(n);
    if r > q {
      PowersOfTwoOrdered(q, r);
    }
  }

  /// Between two powers of two q < r, the larger is at least twice the smaller.
  lemma {:induction false} PowersOfTwoOrdered(q: nat, r: nat)
    requires IsPowerOfTwo(q) && IsPowerOfTwo(r) && q < r
    ensures 2 * q <= r
    decreases r
  {
    if q == 1 {
    } else {
      PowersOfTwoOrdered(q / 2, r / 2);
    }
  }

  /// Capacity the ring is grown to for a request of `size` bytes.
  function GrownCapacity(size: nat): (c: nat)
    ensures IsPowerOfTwo(c) && size <= c && MinUniformCapacity <= c
  {
    NextPowerOfTwo(if size < MinUniformCapacity then MinUniformCapacity else size)
  }

  function RingLabel(i: nat): string
  {
    "Uniform Buffer Ring " + Text.NatToString(i)
  }

  /// The descriptor of ring slot i at a given capacity.
  function RingBufferDescriptor(i: nat, capacity: nat): Wgpu.BufferDescriptor
  {
    Wgpu.BufferDescriptor(Some(RingLabel(i)), capacity, {Wgpu.Uniform, Wgpu.CopyDst}, false)
  }

  class UniformBuffer {
    var buffers: seq<Option<Wgpu.BufferDescriptor>>
    var capacity: nat
    var currentIndex: nat

    /// Every created slot has the ring's current capacity.
    ghost predicate Valid()
      reads this
    {
      |buffers| == UniformBufferCount && currentIndex < UniformBufferCount &&
      forall i | 0 <= i < UniformBufferCount ::
        buffers[i].Some? ==> buffers[i].value == RingBufferDescriptor(i, capacity)
    }

    constructor ()
      ensures Valid()
      ensures buffers == [None, None, None] && capacity == 0 && currentIndex == 0
    {
      buffers := [None, None, None];
      capacity := 0;
      currentIndex := 0;
    }

    /// Rotates to the next slot, growing every slot when `size` does not
    /// fit, and returns the slot index to bind.
    method EnsureCapacity(size: nat) returns (index: nat)
      requires Valid()
      modifies this
      ensures Valid()
      ensures index == currentIndex == (old(currentIndex) + 1) % UniformBufferCount
      ensures buffers[index].Some?
      ensures old(capacity) <= capacity && size <= capacity
      ensures old(capacity) < size ==>
        capacity == GrownCapacity(size) &&
        forall i | 0 <= i < UniformBufferCount :: buffers[i] == Some(RingBufferDescriptor(i, capacity))
      ensures size <= old(capacity) ==>
        capacity == old(capacity) &&
        buffers == old(buffers)[index := Some(RingBufferDescriptor(index, capacity))]
    {
      currentIndex := (currentIndex + 1) % UniformBufferCount;
      if capacity < size {
        var newCapacity := GrownCapacity(size);
        for i := 0 to UniformBufferCount
          invariant |buffers| == UniformBufferCount
          invariant currentIndex == (old(currentIndex) + 1) % UniformBufferCount
          invariant capacity == old(capacity)
          invariant forall j | 0 <= j < i :: buffers[j] == Some(RingBufferDescriptor(j, newCapacity))
        {
          buffers := buffers[i := Some(RingBufferDescriptor(i, newCapacity))];
        }
        capacity := newCapacity;
      } else if buffers[currentIndex].None? {
        buffers := buffers[currentIndex := Some(RingBufferDescriptor(currentIndex, capacity))];
      }
      index := currentIndex;
    }
  }
}
