// The WebGPU context: the hub, the bind-group cache, the uniform ring and
// the timing pool, plus dirty-range tracking of CPU shadow buffers that
// are uploaded just before each submit.

module WebgpuContext {
  import opened Wrappers
  import opened Bytes
  import Blade
  import opened WebgpuHub
  import opened WebgpuTiming
  import opened WebgpuBindGroups
  import opened WebgpuUniform

  datatype Limits = Limits(uniformBufferAlignment: nat, timingSupported: bool)

  /// One queue write of shadow bytes into a GPU buffer at `offset`.
  datatype Upload = Upload(offset: nat, data: seq<Byte>)

  /// The dirty range after marking [offset, offset + size): the smallest
  /// range holding both the existing dirty range and the new one.
  function MergeRange(existing: Option<Range>, offset: nat, size: nat): (r: Range)
    ensures r.start <= offset && offset + size <= r.end
    ensures existing.None? ==> r == Range(offset, offset + size)
    ensures existing.Some? ==>
      r.start <= existing.value.start && existing.value.end <= r.end &&
      (r.start == offset || r.start == existing.value.start) &&
      (r.end == offset + size || r.end == existing.value.end)
  {
    match existing
    case None => Range(offset, offset + size)
    case Some(e) =>
      Range(if e.start <= offset then e.start else offset,
            if e.end >= offset + size then e.end else offset + size)
  }

  predicate UploadCovers(u: Option<Upload>, p: nat)
  {
    u.Some? && u.value.offset <= p < u.value.offset + |u.value.data|
  }

  /// The upload a dirty entry needs: its dirty range cut at the end of the
  /// shadow, or nothing when that is empty or the buffer has no shadow.
  function SyncEntry(e: BufferEntry): (u: Option<Upload>)
    ensures u.Some? ==>
      && e.dirtyRange.Some? && e.shadow.Some?
      && u.value.offset == e.dirtyRange.value.start
      && |u.value.data| > 0
      && u.value.offset + |u.value.data| <= |e.shadow.value|
      && u.value.offset + |u.value.data| <= e.dirtyRange.value.end
      && forall p | u.value.offset <= p < u.value.offset + |u.value.data| ::
           u.value.data[p - u.value.offset] == e.shadow.value[p]
    ensures e.dirtyRange.Some? && e.shadow.Some? ==>
      forall p: nat | e.dirtyRange.value.start <= p < e.dirtyRange.value.end && p < |e.shadow.value| ::
        UploadCovers(u, p)
  {
    match (e.dirtyRange, e.shadow)
    case (Some(range), Some(shadow)) =>
      var end := if range.end <= |shadow| then range.end else |shadow|;
      if range.start < end then Some(Upload(range.start, shadow[range.start..end])) else None
    case _ => None
  }

  /// The uploads of one sync, by buffer slot.
  function UploadsOf(entries: map<nat, BufferEntry>): map<nat, Upload>
  {
    map k | k in entries && SyncEntry(entries[k]).Some? :: SyncEntry(entries[k]).value
  }

  /// The buffer table part-way through the sync: the keys in `todo` are
  /// not yet visited, all others have had their dirty range taken.
  ghost function Cleared(orig: map<nat, BufferEntry>, todo: set<nat>): map<nat, BufferEntry>
  {
    map k | k in orig :: if k in todo then orig[k] else orig[k].(dirtyRange := None)
  }

  /// The uploads of the entries already visited.
  ghost function UploadsExcept(orig: map<nat, BufferEntry>, todo: set<nat>): map<nat, Upload>
  {
    map k | k in orig && k !in todo && SyncEntry(orig[k]).Some? :: SyncEntry(orig[k]).value
  }

  /// Visiting key `k` clears its entry and adds its upload, if any.
  lemma ClearStep(orig: map<nat, BufferEntry>, todo: set<nat>, k: nat)
    requires k in todo && todo <= orig.Keys
    ensures Cleared(orig, todo)[k := orig[k].(dirtyRange := None)] == Cleared(orig, todo - {k})
    ensures SyncEntry(orig[k]).Some? ==>
      UploadsExcept(orig, todo)[k := SyncEntry(orig[k]).value] == UploadsExcept(orig, todo - {k})
    ensures SyncEntry(orig[k]).None? ==> UploadsExcept(orig, todo) == UploadsExcept(orig, todo - {k})
  {
  }

  /// Once every key is visited, every entry is clean and every upload taken.
  lemma ClearDone(orig: map<nat, BufferEntry>)
    ensures Cleared(orig, {}).Keys == orig.Keys
    ensures forall k | k in orig :: Cleared(orig, {})[k] == orig[k].(dirtyRange := None)
    ensures UploadsExcept(orig, {}) == UploadsOf(orig)
  {
  }

  class Context {
    const hub: Hub
    const limits: Limits
    const bindGroupCache: BindGroupCache
    const uniformBuffer: UniformBuffer
    const timingPool: TimingQueryPool

    ghost predicate Valid()
      reads this, hub, hub.buffers, hub.textures, hub.textureViews, hub.samplers
      reads hub.renderPipelines, hub.computePipelines
      reads bindGroupCache, bindGroupCache.deps, uniformBuffer, timingPool
    {
      hub.Valid() && bindGroupCache.Valid() && uniformBuffer.Valid() && timingPool.Valid()
    }

    /// The state a freshly created context starts from (the device and
    /// queue themselves come from the platform layer).
    constructor (limits: Limits)
      ensures Valid() && this.limits == limits
      ensures fresh(hub) && fresh(bindGroupCache) && fresh(uniformBuffer) && fresh(timingPool)
      ensures hub.buffers.entries == map[] && bindGroupCache.groups == map[]
      ensures bindGroupCache.maxSize == BindGroupCacheSize && timingPool.frames == None
    {
      hub := new Hub();
      this.limits := limits;
      bindGroupCache := new BindGroupCache(BindGroupCacheSize);
      uniformBuffer := new UniformBuffer();
      timingPool := new TimingQueryPool();
    }

    /// No ray queries, sample counts 1 and 4, no dual-source blending.
    function Capabilities(): (caps: Blade.Capabilities)
      ensures caps.rayQuery == {} && !caps.dualSourceBlending
      ensures caps.sampleCountMask == 1 + 4
    {
      Blade.Capabilities({}, 0x5, false)
    }

    /// Widens the buffer's dirty range by [offset, offset + size); an
    /// unknown buffer is ignored.
    method MarkBufferDirtyRange(buffer: Buffer, offset: nat, size: nat)
      requires Valid()
      modifies hub.buffers
      ensures Valid()
      ensures buffer.raw.slot !in old(hub.buffers.entries) ==> hub.buffers.entries == old(hub.buffers.entries)
      ensures buffer.raw.slot in old(hub.buffers.entries) ==>
        var e := old(hub.buffers.entries)[buffer.raw.slot];
        hub.buffers.entries == old(hub.buffers.entries)[buffer.raw.slot :=
          e.(dirtyRange := Some(MergeRange(e.dirtyRange, offset, size)))]
    {
      if buffer.raw.slot in hub.buffers.entries {
        var entry := hub.buffers.entries[buffer.raw.slot];
        var merged := MergeRange(entry.dirtyRange, offset, size);
        hub.buffers.Update(buffer.raw.slot, entry.(dirtyRange := Some(merged)));
      }
    }

    /// Marks the whole buffer dirty.
    method MarkBufferDirty(buffer: Buffer)
      requires Valid()
      modifies hub.buffers
      ensures Valid()
      ensures buffer.raw.slot !in old(hub.buffers.entries) ==> hub.buffers.entries == old(hub.buffers.entries)
      ensures buffer.raw.slot in old(hub.buffers.entries) ==>
        var e := old(hub.buffers.entries)[buffer.raw.slot];
        hub.buffers.entries == old(hub.buffers.entries)[buffer.raw.slot :=
          e.(dirtyRange := Some(MergeRange(e.dirtyRange, 0, buffer.size)))]
    {
      MarkBufferDirtyRange(buffer, 0, buffer.size);
    }

    /// The public name for marking a range after writing its shadow bytes.
    method SyncBufferRange(buffer: Buffer, offset: nat, size: nat)
      requires Valid()
      modifies hub.buffers
      ensures Valid()
      ensures buffer.raw.slot !in old(hub.buffers.entries) ==> hub.buffers.entries == old(hub.buffers.entries)
      ensures buffer.raw.slot in old(hub.buffers.entries) ==>
        var e := old(hub.buffers.entries)[buffer.raw.slot];
        hub.buffers.entries == old(hub.buffers.entries)[buffer.raw.slot :=
          e.(dirtyRange := Some(MergeRange(e.dirtyRange, offset, size)))]
    {
      MarkBufferDirtyRange(buffer, offset, size);
    }

    /// Takes every dirty range, returning the queue writes to issue, and
    /// leaves every buffer clean.
    method SyncDirtyBuffers() returns (uploads: map<nat, Upload>)
      requires Valid()
      modifies hub.buffers
      ensures Valid()
      ensures hub.buffers.entries.Keys == old(hub.buffers.entries).Keys
      ensures forall k | k in hub.buffers.entries ::
        hub.buffers.entries[k] == old(hub.buffers.entries)[k].(dirtyRange := None)
      ensures uploads == UploadsOf(old(hub.buffers.entries))
    {
      ghost var orig := hub.buffers.entries;
      var todo := hub.buffers.entries.Keys;
      uploads := map[];
      while todo != {}
        invariant hub.Valid()
        invariant todo <= orig.Keys
        invariant hub.buffers.entries == Cleared(orig, todo)
        invariant uploads == UploadsExcept(orig, todo)
        decreases |todo|
      {
        var k :| k in todo;
        var entry := hub.buffers.entries[k];
        var upload := SyncEntry(entry);
        hub.buffers.Update(k, entry.(dirtyRange := None));
        if upload.Some? {
          uploads := uploads[k := upload.value];
        }
        ClearStep(orig, todo, k);
        todo := todo - {k};
      }
      ClearDone(orig);
    }

    function TimingSupported(): (supported: bool)
      reads this
      ensures supported == limits.timingSupported
    {
      limits.timingSupported
    }

    /// Results of the most recently read-back timing frame.
    function TimingResults(): (results: seq<TimingResult>)
      reads this, timingPool
      ensures results == timingPool.results
    {
      timingPool.Results()
    }

    /// (hits, misses, size) of the bind-group cache.
    function CacheStats(): (stats: (nat, nat, nat))
      reads this, bindGroupCache
      ensures stats == (bindGroupCache.hits, bindGroupCache.misses, |bindGroupCache.groups|)
    {
      bindGroupCache.Stats()
    }

    /// Creates the timing ring on first use when timing is supported.
    method EnsureTimingInitialized()
      requires Valid()
      modifies timingPool
      ensures Valid()
      ensures !limits.timingSupported ==> timingPool.frames == old(timingPool.frames)
      ensures limits.timingSupported && old(timingPool.frames).None? ==>
        timingPool.frames == Some([EmptyFrame, EmptyFrame, EmptyFrame])
      ensures old(timingPool.frames).Some? ==> timingPool.frames == old(timingPool.frames)
      ensures timingPool.currentFrame == old(timingPool.currentFrame)
      ensures timingPool.results == old(timingPool.results)
    {
      if limits.timingSupported {
        timingPool.Init();
      }
    }
  }

  /// A range marked dirty and then synced is uploaded in full, up to the
  /// end of the shadow, and the sync leaves the buffer clean.
  lemma MarkThenSync(e: BufferEntry, offset: nat, size: nat)
    requires e.dirtyRange.None? && e.shadow.Some?
    requires offset < offset + size <= |e.shadow.value|
    ensures SyncEntry(e.(dirtyRange := Some(MergeRange(e.dirtyRange, offset, size)))) ==
      Some(Upload(offset, e.shadow.value[offset..offset + size]))
  {
  }
}
