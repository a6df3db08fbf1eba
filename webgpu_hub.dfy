// Resource storage of the WebGPU backend: generational slot maps keyed by
// typed keys, the copyable resource handles handed to users, and the
// per-frame handle returned by a surface.

module WebgpuHub {
  import opened Wrappers
  import Blade
  import Wgpu
  import opened Bytes

  /// Slot 0 is the default ("null") key of every slot map; no insertion
  /// ever returns it.
  const NullSlot: nat := 0

  /// A slot map. Removing an entry never lets its key come back: the
  /// source's generational keys are modelled by never reusing a slot.
  class SlotMap<V> {
    var entries: map<nat, V>
    var next: nat

    ghost predicate Valid()
      reads this
    {
      0 < next && forall k | k in entries :: NullSlot < k < next
    }

    constructor ()
      ensures Valid() && entries == map[]
    {
      entries := map[];
      next := 1;
    }

    method Insert(v: V) returns (k: nat)
      requires Valid()
      modifies this
      ensures Valid()
      ensures k != NullSlot && k !in old(entries)
      ensures entries == old(entries)[k := v]
    {
      k := next;
      entries := entries[k := v];
      next := next + 1;
    }

    method Remove(k: nat) returns (removed: Option<V>)
      requires Valid()
      modifies this
      ensures Valid()
      ensures entries == old(entries) - {k}
      ensures removed == if k in old(entries) then Some(old(entries)[k]) else None
    {
      removed := if k in entries then Some(entries[k]) else None;
      entries := entries - {k};
    }

    /// Replace the value of a present key (interior mutability in the source).
    method Update(k: nat, v: V)
      requires Valid() && k in entries
      modifies this
      ensures Valid()
      ensures entries == old(entries)[k := v]
    {
      entries := entries[k := v];
    }
  }

  datatype BufferKey = BufferKey(slot: nat)
  datatype TextureKey = TextureKey(slot: nat)
  datatype TextureViewKey = TextureViewKey(slot: nat)
  datatype SamplerKey = SamplerKey(slot: nat)
  datatype RenderPipelineKey = RenderPipelineKey(slot: nat)
  datatype ComputePipelineKey = ComputePipelineKey(slot: nat)

  /// A buffer handle; `hasData` says whether its CPU shadow pointer is non-null.
  datatype Buffer = Buffer(raw: BufferKey, size: nat, hasData: bool)
  datatype Texture = Texture(raw: TextureKey, format: Blade.TextureFormat, targetSize: (nat, nat))
  datatype TextureView = TextureView(raw: TextureViewKey, targetSize: (nat, nat), aspects: Blade.TexelAspects)
  datatype Sampler = Sampler(raw: SamplerKey)

  /// Half-open byte range [start, end).
  datatype Range = Range(start: nat, end: nat)

  datatype BufferEntry = BufferEntry(
    gpu: Wgpu.BufferDescriptor,
    shadow: Option<seq<Byte>>,
    dirtyRange: Option<Range>)

  /// A texture view is either made from a hub texture or is a surface frame's view.
  datatype SurfaceTexture = SurfaceTexture(id: nat)
  datatype TextureViewEntry =
    | ViewOf(texture: TextureKey, desc: Wgpu.TextureViewDescriptor)
    | FrameView(surfaceTexture: SurfaceTexture)

  datatype BindingSlot = BindingSlot(group: nat, binding: nat)
  type SlotList = seq<BindingSlot>
  datatype ShaderDataMapping = ShaderDataMapping(targets: seq<SlotList>)

  /// A bind group layout, as the list of its entries.
  type BindGroupLayout = seq<Wgpu.BindGroupLayoutEntry>

  /// A wgpu render pipeline, represented by the fixed-function state it
  /// was created with. `fragmentTargets` are the colour targets of the
  /// fragment state, `None` when the pipeline has no fragment stage.
  datatype RenderPipelineState = RenderPipelineState(
    vertexBuffers: seq<Wgpu.VertexBufferLayout>,
    primitive: Wgpu.PrimitiveState,
    fragmentTargets: Option<seq<Wgpu.ColorTargetState>>,
    depthStencil: Option<Wgpu.DepthStencilState>)

  datatype RenderPipelineEntry = RenderPipelineEntry(
    raw: RenderPipelineState,
    bindGroupLayouts: seq<BindGroupLayout>)

  datatype ComputePipelineEntry = ComputePipelineEntry(bindGroupLayouts: seq<BindGroupLayout>)

  /// Pipeline handles: the hub key plus what command recording needs.
  datatype ComputePipeline = ComputePipeline(
    raw: ComputePipelineKey,
    wgSize: (nat, nat, nat),
    groupMappings: seq<ShaderDataMapping>)

  datatype RenderPipeline = RenderPipeline(
    raw: RenderPipelineKey,
    topology: Blade.PrimitiveTopology,
    groupMappings: seq<ShaderDataMapping>)

  /// Central storage of every live GPU resource.
  class Hub {
    const buffers: SlotMap<BufferEntry>
    const textures: SlotMap<Wgpu.TextureDescriptor>
    const textureViews: SlotMap<TextureViewEntry>
    const samplers: SlotMap<Wgpu.SamplerDescriptor>
    const renderPipelines: SlotMap<RenderPipelineEntry>
    const computePipelines: SlotMap<ComputePipelineEntry>

    ghost predicate Valid()
      reads this, buffers, textures, textureViews, samplers, renderPipelines, computePipelines
    {
      buffers.Valid() && textures.Valid() && textureViews.Valid() &&
      samplers.Valid() && renderPipelines.Valid() && computePipelines.Valid()
    }

    constructor ()
      ensures Valid()
      ensures buffers.entries == map[] && textures.entries == map[]
      ensures textureViews.entries == map[] && samplers.entries == map[]
      ensures renderPipelines.entries == map[] && computePipelines.entries == map[]
      ensures fresh(buffers) && fresh(textures) && fresh(textureViews)
      ensures fresh(samplers) && fresh(renderPipelines) && fresh(computePipelines)
    {
      buffers := new SlotMap();
      textures := new SlotMap();
      textureViews := new SlotMap();
      samplers := new SlotMap();
      renderPipelines := new SlotMap();
      computePipelines := new SlotMap();
    }
  }

  /// A frame acquired from a surface. `texture` is None when acquisition failed.
  datatype Frame = Frame(
    texture: Option<SurfaceTexture>,
    viewKey: Option<TextureViewKey>,
    targetSize: (nat, nat),
    format: Blade.TextureFormat)
  {
    predicate IsValid()
    {
      texture.Some?
    }

    /// The frame's texture handle: the null texture key with the frame's format and size.
    function FrameTexture(): (t: Texture)
      ensures t.raw.slot == NullSlot
      ensures t.format == format && t.targetSize == targetSize
    {
      Texture(TextureKey(NullSlot), format, targetSize)
    }

    /// The frame's view handle: its stored view key (or the null key), colour aspect.
    function FrameTextureView(): (v: TextureView)
      ensures viewKey.Some? ==> v.raw == viewKey.value
      ensures viewKey.None? ==> v.raw.slot == NullSlot
      ensures v.targetSize == targetSize && v.aspects == {Blade.Color}
    {
      TextureView(viewKey.UnwrapOr(TextureViewKey(NullSlot)), targetSize, {Blade.Color})
    }
  }
}
