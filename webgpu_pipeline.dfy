// Pipeline creation of the WebGPU backend: shader binding and visibility
// translation, bind group layout entries, the group mappings used when
// binding shader data, vertex buffer layout assembly, and the render state
// translation. Shader loading itself is outside the model: what it yields
// (the attribute mappings, the workgroup size, the filled-in group
// infos) is taken as input.

module WebgpuPipeline {
  import opened Wrappers
  import opened Bytes
  import Blade
  import Wgpu
  import opened WebgpuHub
  import opened WebgpuContext
  import opened WebgpuResource

  //---------------------------------------------------------------------------
  // Bindings.
  //---------------------------------------------------------------------------

  /// Storage-texture access: read-write with load and store, write-only
  /// with store alone, read-only otherwise.
  function StorageTextureAccessFor(access: Blade.StorageAccess): (r: Wgpu.StorageTextureAccess)
    ensures r == Wgpu.ReadWrite <==> Blade.Load in access && Blade.Store in access
    ensures r == Wgpu.WriteOnly <==> Blade.Load !in access && Blade.Store in access
    ensures r == Wgpu.ReadOnly <==> Blade.Store !in access
  {
    if Blade.Load in access && Blade.Store in access then Wgpu.ReadWrite
    else if Blade.Store in access then Wgpu.WriteOnly
    else Wgpu.ReadOnly
  }

  const SampledFloatTexture := Wgpu.SampledTexture(true, Wgpu.D2, false)
  const UniformBinding := Wgpu.Buffer(Wgpu.UniformBuffer, false, None)

  /// Acceleration structures are a panic in the source.
  function MapBindingType(binding: Blade.ShaderBinding, access: Blade.StorageAccess): (r: Wgpu.BindingType)
    requires !binding.AccelerationStructure?
    ensures binding.Texture? && access == {} ==> r == SampledFloatTexture
    ensures binding.Texture? && access != {} ==>
      r.StorageTexture? && r.access == StorageTextureAccessFor(access) && r.viewDimension == Wgpu.D2
    ensures binding.TextureArray? ==> r == SampledFloatTexture
    ensures binding.Sampler? <==> r == Wgpu.FilteringSampler
    ensures binding.Buffer? && access == {} ==> r == UniformBinding
    ensures binding.Buffer? && access != {} ==>
      r == Wgpu.Buffer(Wgpu.StorageBuffer(Blade.Store !in access), false, None)
    ensures binding.BufferArray? ==> r == Wgpu.Buffer(Wgpu.StorageBuffer(true), false, None)
    ensures binding.Plain? ==> r == UniformBinding
    ensures r.Buffer? ==> !r.hasDynamicOffset && r.minBindingSize.None?
  {
    match binding
    case Texture =>
      if access == {} then SampledFloatTexture
      else Wgpu.StorageTexture(StorageTextureAccessFor(access), Wgpu.Rgba8Unorm, Wgpu.D2)
    case TextureArray(_) => SampledFloatTexture
    case Sampler => Wgpu.FilteringSampler
    case Buffer =>
      if access == {} then UniformBinding
      else Wgpu.Buffer(Wgpu.StorageBuffer(Blade.Store !in access), false, None)
    case BufferArray(_) => Wgpu.Buffer(Wgpu.StorageBuffer(true), false, None)
    case Plain(_) => UniformBinding
  }

  /// Exactly the stages the Blade visibility names.
  function MapShaderVisibility(visibility: Blade.ShaderVisibility): (r: Wgpu.ShaderStages)
    ensures Wgpu.VertexStage in r <==> Blade.VertexStage in visibility
    ensures Wgpu.FragmentStage in r <==> Blade.FragmentStage in visibility
    ensures Wgpu.ComputeStage in r <==> Blade.ComputeStage in visibility
  {
    var stages: Wgpu.ShaderStages := {};
    var stages := if Blade.VertexStage in visibility then stages + {Wgpu.VertexStage} else stages;
    var stages := if Blade.FragmentStage in visibility then stages + {Wgpu.FragmentStage} else stages;
    if Blade.ComputeStage in visibility then stages + {Wgpu.ComputeStage} else stages
  }

  /// Array bindings with a non-zero count carry it; a zero count and every
  /// other binding give no count.
  function BindingCount(binding: Blade.ShaderBinding): (r: Option<nat>)
    ensures r.Some? <==> (binding.TextureArray? || binding.BufferArray?) && binding.count != 0
    ensures r.Some? ==> r.value == binding.count
  {
    match binding
    case TextureArray(count) => if count == 0 then None else Some(count)
    case BufferArray(count) => if count == 0 then None else Some(count)
    case _ => None
  }

  /// Only the bindings of a group some stage uses, and only those paired
  /// with an access entry, are translated; an acceleration structure among
  /// them is a panic in the source.
  predicate LayoutSupported(layout: Blade.ShaderDataLayout, info: Blade.ShaderDataInfo)
  {
    info.visibility != {} ==>
      forall i | 0 <= i < Min(|layout.bindings|, |info.bindingAccess|) :: !layout.bindings[i].1.AccelerationStructure?
  }

  /// The entries of a group's bind group layout: none for a group no stage
  /// uses; otherwise one per (binding, access) pair, numbered from 0.
  function BindGroupLayoutEntries(layout: Blade.ShaderDataLayout, info: Blade.ShaderDataInfo): (r: BindGroupLayout)
    requires LayoutSupported(layout, info)
    ensures info.visibility == {} ==> r == []
    ensures info.visibility != {} ==> |r| == Min(|layout.bindings|, |info.bindingAccess|)
    ensures forall i | 0 <= i < |r| ::
      && r[i].binding == i
      && r[i].visibility == MapShaderVisibility(info.visibility)
      && r[i].ty == MapBindingType(layout.bindings[i].1, info.bindingAccess[i])
      && r[i].count == BindingCount(layout.bindings[i].1)
  {
    if info.visibility == {} then []
    else
      var visibility := MapShaderVisibility(info.visibility);
      seq(Min(|layout.bindings|, |info.bindingAccess|), i requires 0 <= i < Min(|layout.bindings|, |info.bindingAccess|) =>
        Wgpu.BindGroupLayoutEntry(i, visibility,
          MapBindingType(layout.bindings[i].1, info.bindingAccess[i]),
          BindingCount(layout.bindings[i].1)))
  }

  predicate LayoutsSupported(layouts: seq<Blade.ShaderDataLayout>, infos: seq<Blade.ShaderDataInfo>)
  {
    forall g | 0 <= g < Min(|layouts|, |infos|) :: LayoutSupported(layouts[g], infos[g])
  }

  /// One layout per (layout, info) pair.
  function BindGroupLayouts(layouts: seq<Blade.ShaderDataLayout>, infos: seq<Blade.ShaderDataInfo>): (r: seq<BindGroupLayout>)
    requires LayoutsSupported(layouts, infos)
    ensures |r| == Min(|layouts|, |infos|)
    ensures forall g | 0 <= g < |r| :: r[g] == BindGroupLayoutEntries(layouts[g], infos[g])
  {
    seq(Min(|layouts|, |infos|), g requires 0 <= g < Min(|layouts|, |infos|) =>
      BindGroupLayoutEntries(layouts[g], infos[g]))
  }

  /// Binding b of group g goes to exactly one wgpu slot: group g, binding b.
  function GroupMappings(layouts: seq<Blade.ShaderDataLayout>): (r: seq<ShaderDataMapping>)
    ensures |r| == |layouts|
    ensures forall g | 0 <= g < |r| :: |r[g].targets| == |layouts[g].bindings|
    ensures forall g, b | 0 <= g < |r| && 0 <= b < |r[g].targets| :: r[g].targets[b] == [BindingSlot(g, b)]
  {
    seq(|layouts|, g requires 0 <= g < |layouts| =>
      ShaderDataMapping(seq(|layouts[g].bindings|, b requires 0 <= b < |layouts[g].bindings| => [BindingSlot(g, b)])))
  }

  //---------------------------------------------------------------------------
  // Render state.
  //---------------------------------------------------------------------------

  function MapPrimitiveTopology(x: Blade.PrimitiveTopology): (r: Wgpu.PrimitiveTopology)
    ensures BladePrimitiveTopology(r) == x
  {
    match x
    case PointList => Wgpu.PointList
    case LineList => Wgpu.LineList
    case LineStrip => Wgpu.LineStrip
    case TriangleList => Wgpu.TriangleList
    case TriangleStrip => Wgpu.TriangleStrip
  }

  function BladePrimitiveTopology(x: Wgpu.PrimitiveTopology): Blade.PrimitiveTopology
  {
    match x
    case PointList => Blade.PointList
    case LineList => Blade.LineList
    case LineStrip => Blade.LineStrip
    case TriangleList => Blade.TriangleList
    case TriangleStrip => Blade.TriangleStrip
  }

  function MapFrontFace(x: Blade.FrontFace): (r: Wgpu.FrontFace)
    ensures BladeFrontFace(r) == x
  {
    match x
    case Ccw => Wgpu.Ccw
    case Cw => Wgpu.Cw
  }

  function BladeFrontFace(x: Wgpu.FrontFace): Blade.FrontFace
  {
    match x
    case Ccw => Blade.Ccw
    case Cw => Blade.Cw
  }

  function MapFace(x: Blade.Face): (r: Wgpu.Face)
    ensures BladeFace(r) == x
  {
    match x
    case Front => Wgpu.Front
    case Back => Wgpu.Back
  }

  function BladeFace(x: Wgpu.Face): Blade.Face
  {
    match x
    case Front => Blade.Front
    case Back => Blade.Back
  }

  function MapStencilOperation(x: Blade.StencilOperation): (r: Wgpu.StencilOperation)
    ensures BladeStencilOperation(r) == x
  {
    match x
    case Keep => Wgpu.Keep
    case Zero => Wgpu.Zero
    case Replace => Wgpu.Replace
    case Invert => Wgpu.Invert
    case IncrementClamp => Wgpu.IncrementClamp
    case DecrementClamp => Wgpu.DecrementClamp
    case IncrementWrap => Wgpu.IncrementWrap
    case DecrementWrap => Wgpu.DecrementWrap
  }

  function BladeStencilOperation(x: Wgpu.StencilOperation): Blade.StencilOperation
  {
    match x
    case Keep => Blade.Keep
    case Zero => Blade.Zero
    case Replace => Blade.Replace
    case Invert => Blade.Invert
    case IncrementClamp => Blade.IncrementClamp
    case DecrementClamp => Blade.DecrementClamp
    case IncrementWrap => Blade.IncrementWrap
    case DecrementWrap => Blade.DecrementWrap
  }

  /// The single-source factors map name for name; the four dual-source
  /// factors are a panic in the source.
  function MapBlendFactor(x: Blade.BlendFactor): (r: Wgpu.BlendFactor)
    requires SingleSource(x)
    ensures BladeBlendFactor(r) == x
  {
    match x
    case FactorZero => Wgpu.FactorZero
    case One => Wgpu.One
    case Src => Wgpu.Src
    case OneMinusSrc => Wgpu.OneMinusSrc
    case SrcAlpha => Wgpu.SrcAlpha
    case OneMinusSrcAlpha => Wgpu.OneMinusSrcAlpha
    case Dst => Wgpu.Dst
    case OneMinusDst => Wgpu.OneMinusDst
    case DstAlpha => Wgpu.DstAlpha
    case OneMinusDstAlpha => Wgpu.OneMinusDstAlpha
    case SrcAlphaSaturated => Wgpu.SrcAlphaSaturated
    case Constant => Wgpu.Constant
    case OneMinusConstant => Wgpu.OneMinusConstant
  }

  function BladeBlendFactor(x: Wgpu.BlendFactor): Blade.BlendFactor
  {
    match x
    case FactorZero => Blade.FactorZero
    case One => Blade.One
    case Src => Blade.Src
    case OneMinusSrc => Blade.OneMinusSrc
    case SrcAlpha => Blade.SrcAlpha
    case OneMinusSrcAlpha => Blade.OneMinusSrcAlpha
    case Dst => Blade.Dst
    case OneMinusDst => Blade.OneMinusDst
    case DstAlpha => Blade.DstAlpha
    case OneMinusDstAlpha => Blade.OneMinusDstAlpha
    case SrcAlphaSaturated => Blade.SrcAlphaSaturated
    case Constant => Blade.Constant
    case OneMinusConstant => Blade.OneMinusConstant
  }

  function MapBlendOperation(x: Blade.BlendOperation): (r: Wgpu.BlendOperation)
    ensures BladeBlendOperation(r) == x
  {
    match x
    case Add => Wgpu.Add
    case Subtract => Wgpu.Subtract
    case ReverseSubtract => Wgpu.ReverseSubtract
    case Min => Wgpu.Min
    case Max => Wgpu.Max
  }

  function BladeBlendOperation(x: Wgpu.BlendOperation): Blade.BlendOperation
  {
    match x
    case Add => Blade.Add
    case Subtract => Blade.Subtract
    case ReverseSubtract => Blade.ReverseSubtract
    case Min => Blade.Min
    case Max => Blade.Max
  }

  function MapVertexFormat(x: Blade.VertexFormat): (r: Wgpu.VertexFormat)
    ensures BladeVertexFormat(r) == x
  {
    match x
    case F32 => Wgpu.Float32
    case F32Vec2 => Wgpu.Float32x2
    case F32Vec3 => Wgpu.Float32x3
    case F32Vec4 => Wgpu.Float32x4
    case U32 => Wgpu.Uint32
    case U32Vec2 => Wgpu.Uint32x2
    case U32Vec3 => Wgpu.Uint32x3
    case U32Vec4 => Wgpu.Uint32x4
    case I32 => Wgpu.Sint32
    case I32Vec2 => Wgpu.Sint32x2
    case I32Vec3 => Wgpu.Sint32x3
    case I32Vec4 => Wgpu.Sint32x4
  }

  function BladeVertexFormat(x: Wgpu.VertexFormat): Blade.VertexFormat
  {
    match x
    case Float32 => Blade.F32
    case Float32x2 => Blade.F32Vec2
    case Float32x3 => Blade.F32Vec3
    case Float32x4 => Blade.F32Vec4
    case Uint32 => Blade.U32
    case Uint32x2 => Blade.U32Vec2
    case Uint32x3 => Blade.U32Vec3
    case Uint32x4 => Blade.U32Vec4
    case Sint32 => Blade.I32
    case Sint32x2 => Blade.I32Vec2
    case Sint32x3 => Blade.I32Vec3
    case Sint32x4 => Blade.I32Vec4
  }

  predicate SingleSource(f: Blade.BlendFactor)
  {
    !(f.Src1? || f.OneMinusSrc1? || f.Src1Alpha? || f.OneMinusSrc1Alpha?)
  }

  predicate BlendSupported(blend: Option<Blade.BlendState>)
  {
    blend.Some? ==>
      SingleSource(blend.value.color.srcFactor) && SingleSource(blend.value.color.dstFactor) &&
      SingleSource(blend.value.alpha.srcFactor) && SingleSource(blend.value.alpha.dstFactor)
  }

  function MapBlendComponent(c: Blade.BlendComponent): (r: Wgpu.BlendComponent)
    requires SingleSource(c.srcFactor) && SingleSource(c.dstFactor)
    ensures BladeBlendFactor(r.srcFactor) == c.srcFactor && BladeBlendFactor(r.dstFactor) == c.dstFactor
    ensures BladeBlendOperation(r.operation) == c.operation
  {
    Wgpu.BlendComponent(MapBlendFactor(c.srcFactor), MapBlendFactor(c.dstFactor), MapBlendOperation(c.operation))
  }

  function MapStencilFaceState(s: Blade.StencilFaceState): (r: Wgpu.StencilFaceState)
    ensures BladeCompareFunction(r.compare) == s.compare
    ensures BladeStencilOperation(r.failOp) == s.failOp
    ensures BladeStencilOperation(r.depthFailOp) == s.depthFailOp
    ensures BladeStencilOperation(r.passOp) == s.passOp
  {
    Wgpu.StencilFaceState(MapCompareFunction(s.compare), MapStencilOperation(s.failOp),
      MapStencilOperation(s.depthFailOp), MapStencilOperation(s.passOp))
  }

  function BladeBlendComponent(c: Wgpu.BlendComponent): Blade.BlendComponent
  {
    Blade.BlendComponent(BladeBlendFactor(c.srcFactor), BladeBlendFactor(c.dstFactor), BladeBlendOperation(c.operation))
  }

  function BladeStencilFaceState(s: Wgpu.StencilFaceState): Blade.StencilFaceState
  {
    Blade.StencilFaceState(BladeCompareFunction(s.compare), BladeStencilOperation(s.failOp),
      BladeStencilOperation(s.depthFailOp), BladeStencilOperation(s.passOp))
  }

  function BladeDepthBias(b: Wgpu.DepthBiasState): Blade.DepthBiasState
  {
    Blade.DepthBiasState(b.constant, b.slopeScale, b.clamp)
  }

  /// Wireframe is drawn with lines, everything else filled.
  function PolygonModeFor(wireframe: bool): (r: Wgpu.PolygonMode)
    ensures r == Wgpu.Line <==> wireframe
    ensures r == Wgpu.Fill <==> !wireframe
  {
    if wireframe then Wgpu.Line else Wgpu.Fill
  }

  function MapPrimitiveState(p: Blade.PrimitiveState): (r: Wgpu.PrimitiveState)
    ensures BladePrimitiveTopology(r.topology) == p.topology
    ensures BladeFrontFace(r.frontFace) == p.frontFace
    ensures r.cullMode.Some? <==> p.cullMode.Some?
    ensures r.cullMode.Some? ==> BladeFace(r.cullMode.value) == p.cullMode.value
    ensures r.unclippedDepth == p.unclippedDepth
    ensures r.polygonMode == PolygonModeFor(p.wireframe)
  {
    Wgpu.PrimitiveState(
      MapPrimitiveTopology(p.topology),
      MapFrontFace(p.frontFace),
      if p.cullMode.Some? then Some(MapFace(p.cullMode.value)) else None,
      p.unclippedDepth,
      PolygonModeFor(p.wireframe))
  }

  /// The colour channels wgpu knows (red, green, blue, alpha): unknown
  /// mask bits are dropped.
  const ColorWritesAll: nat := 0xF

  /// `from_bits_truncate` keeps the four channel bits and drops every bit
  /// above them: the dropped part is a multiple of 16.
  function ColorTargetFor(t: Blade.ColorTargetState): (r: Wgpu.ColorTargetState)
    requires BlendSupported(t.blend)
    ensures BladeTextureFormat(r.format) == Some(t.format)
    ensures r.blend.Some? <==> t.blend.Some?
    ensures r.blend.Some? ==>
      BladeBlendComponent(r.blend.value.color) == t.blend.value.color &&
      BladeBlendComponent(r.blend.value.alpha) == t.blend.value.alpha
    ensures r.writeMask <= ColorWritesAll
    ensures r.writeMask + (ColorWritesAll + 1) * (t.writeMask / (ColorWritesAll + 1)) == t.writeMask
    ensures t.writeMask <= ColorWritesAll ==> r.writeMask == t.writeMask
  {
    TextureFormatRoundTrip(t.format);
    Wgpu.ColorTargetState(
      MapTextureFormat(t.format),
      if t.blend.Some? then
        Some(Wgpu.BlendState(MapBlendComponent(t.blend.value.color), MapBlendComponent(t.blend.value.alpha)))
      else None,
      t.writeMask % (ColorWritesAll + 1))
  }

  function DepthStencilFor(ds: Blade.DepthStencilState): (r: Wgpu.DepthStencilState)
    ensures BladeTextureFormat(r.format) == Some(ds.format)
    ensures r.depthWriteEnabled == ds.depthWriteEnabled
    ensures BladeCompareFunction(r.depthCompare) == ds.depthCompare
    ensures BladeStencilFaceState(r.stencil.front) == ds.stencil.front
    ensures BladeStencilFaceState(r.stencil.back) == ds.stencil.back
    ensures r.stencil.readMask == ds.stencil.readMask && r.stencil.writeMask == ds.stencil.writeMask
    ensures BladeDepthBias(r.bias) == ds.bias
  {
    TextureFormatRoundTrip(ds.format);
    Wgpu.DepthStencilState(
      MapTextureFormat(ds.format),
      ds.depthWriteEnabled,
      MapCompareFunction(ds.depthCompare),
      Wgpu.StencilState(MapStencilFaceState(ds.stencil.front), MapStencilFaceState(ds.stencil.back),
        ds.stencil.readMask, ds.stencil.writeMask),
      Wgpu.DepthBiasState(ds.bias.constant, ds.bias.slopeScale, ds.bias.clamp))
  }

  //---------------------------------------------------------------------------
  // Vertex buffers.
  //---------------------------------------------------------------------------

  /// The attribute mappings that read from vertex buffer k, in order.
  function Selected(mappings: seq<Blade.VertexAttributeMapping>, k: nat): (r: seq<Blade.VertexAttributeMapping>)
    ensures |r| <= |mappings|
    ensures forall m :: m in r <==> m in mappings && m.bufferIndex == k
  {
    if |mappings| == 0 then []
    else
      var last := mappings[|mappings| - 1];
      Selected(mappings[..|mappings| - 1], k) + if last.bufferIndex == k then [last] else []
  }

  /// Every mapping into an existing vertex buffer names one of its
  /// attributes (the source indexes the attribute list unchecked).
  predicate MappingsInRange(fetches: seq<Blade.VertexFetchState>, mappings: seq<Blade.VertexAttributeMapping>)
  {
    forall i | 0 <= i < |mappings| && mappings[i].bufferIndex < |fetches| ::
      mappings[i].attributeIndex < |fetches[mappings[i].bufferIndex].layout.attributes|
  }

  /// The wgpu attribute for a mapping, at shader location `location`.
  function AttributeAt(fetch: Blade.VertexFetchState, m: Blade.VertexAttributeMapping, location: nat): Wgpu.VertexAttribute
    requires m.attributeIndex < |fetch.layout.attributes|
  {
    var attrib := fetch.layout.attributes[m.attributeIndex].1;
    Wgpu.VertexAttribute(MapVertexFormat(attrib.format), attrib.offset, location)
  }

  /// Buffer k gets the wgpu attributes of exactly the mappings reading
  /// from it, in order, at shader locations 0, 1, 2, ...
  predicate AttributesOfBuffer(fetch: Blade.VertexFetchState, k: nat, mappings: seq<Blade.VertexAttributeMapping>,
                               attributes: seq<Wgpu.VertexAttribute>)
  {
    var sel := Selected(mappings, k);
    |attributes| == |sel| &&
    forall j | 0 <= j < |attributes| ::
      sel[j].attributeIndex < |fetch.layout.attributes| && attributes[j] == AttributeAt(fetch, sel[j], j)
  }

  method BuildVertexAttributes(fetches: seq<Blade.VertexFetchState>, mappings: seq<Blade.VertexAttributeMapping>)
    returns (attributes: seq<seq<Wgpu.VertexAttribute>>)
    requires MappingsInRange(fetches, mappings)
    ensures |attributes| == |fetches|
    ensures forall k | 0 <= k < |fetches| :: AttributesOfBuffer(fetches[k], k, mappings, attributes[k])
  {
    attributes := [];
    for k := 0 to |fetches|
      invariant |attributes| == k
      invariant forall k' | 0 <= k' < k :: AttributesOfBuffer(fetches[k'], k', mappings, attributes[k'])
    {
      var bufferAttributes := AttributesForBuffer(fetches, k, mappings);
      attributes := attributes + [bufferAttributes];
    }
  }

  /// The inner loop: one pass over the mappings for buffer k.
  method AttributesForBuffer(fetches: seq<Blade.VertexFetchState>, k: nat, mappings: seq<Blade.VertexAttributeMapping>)
    returns (bufferAttributes: seq<Wgpu.VertexAttribute>)
    requires k < |fetches| && MappingsInRange(fetches, mappings)
    ensures AttributesOfBuffer(fetches[k], k, mappings, bufferAttributes)
  {
    var fetch := fetches[k];
    bufferAttributes := [];
    for j := 0 to |mappings|
      invariant AttributesOfBuffer(fetch, k, mappings[..j], bufferAttributes)
    {
      assert mappings[..j + 1][..j] == mappings[..j];
      var mapping := mappings[j];
      if mapping.bufferIndex == k {
        bufferAttributes := bufferAttributes + [AttributeAt(fetch, mapping, |bufferAttributes|)];
      }
    }
    assert mappings[..|mappings|] == mappings;
  }

  /// Layout k: the fetch's stride, per-instance stepping exactly when the
  /// fetch is instanced, and the attributes assembled for buffer k.
  method BuildVertexBufferLayouts(fetches: seq<Blade.VertexFetchState>, attributes: seq<seq<Wgpu.VertexAttribute>>)
    returns (layouts: seq<Wgpu.VertexBufferLayout>)
    requires |attributes| == |fetches|
    ensures |layouts| == |fetches|
    ensures forall k | 0 <= k < |layouts| ::
      && layouts[k].arrayStride == fetches[k].layout.stride
      && (layouts[k].stepMode == Wgpu.StepInstance <==> fetches[k].instanced)
      && layouts[k].attributes == attributes[k]
  {
    layouts := [];
    for k := 0 to |fetches|
      invariant |layouts| == k
      invariant forall k' | 0 <= k' < k ::
        && layouts[k'].arrayStride == fetches[k'].layout.stride
        && (layouts[k'].stepMode == Wgpu.StepInstance <==> fetches[k'].instanced)
        && layouts[k'].attributes == attributes[k']
    {
      var fetch := fetches[k];
      var stepMode := if fetch.instanced then Wgpu.StepInstance else Wgpu.StepVertex;
      layouts := layouts + [Wgpu.VertexBufferLayout(fetch.layout.stride, stepMode, attributes[k])];
    }
  }

  //---------------------------------------------------------------------------
  // Creating and destroying pipelines in the hub.
  //---------------------------------------------------------------------------

  /// `infos` are the group infos after shader loading filled them in, and
  /// `wgSize` is the entry point's workgroup size.
  method CreateComputePipeline(ctx: Context, desc: Blade.ComputePipelineDesc, infos: seq<Blade.ShaderDataInfo>,
                               wgSize: (nat, nat, nat))
    returns (pipeline: ComputePipeline)
    requires ctx.Valid() && LayoutsSupported(desc.dataLayouts, infos)
    modifies ctx.hub.computePipelines
    ensures ctx.Valid()
    ensures pipeline.raw.slot != NullSlot && pipeline.raw.slot !in old(ctx.hub.computePipelines.entries)
    ensures ctx.hub.computePipelines.entries == old(ctx.hub.computePipelines.entries)[pipeline.raw.slot :=
      ComputePipelineEntry(BindGroupLayouts(desc.dataLayouts, infos))]
    ensures pipeline.wgSize == wgSize && pipeline.groupMappings == GroupMappings(desc.dataLayouts)
  {
    var groupMappings := GroupMappings(desc.dataLayouts);
    var bindGroupLayouts := BindGroupLayouts(desc.dataLayouts, infos);
    var slot := ctx.hub.computePipelines.Insert(ComputePipelineEntry(bindGroupLayouts));
    pipeline := ComputePipeline(ComputePipelineKey(slot), wgSize, groupMappings);
  }

  method DestroyComputePipeline(ctx: Context, pipeline: ComputePipeline)
    requires ctx.Valid()
    modifies ctx.hub.computePipelines
    ensures ctx.Valid()
    ensures ctx.hub.computePipelines.entries == old(ctx.hub.computePipelines.entries) - {pipeline.raw.slot}
  {
    var _ := ctx.hub.computePipelines.Remove(pipeline.raw.slot);
  }

  /// The colour targets are translated whether or not there is a fragment
  /// stage, so a dual-source blend factor is a panic either way.
  predicate TargetsSupported(desc: Blade.RenderPipelineDesc)
  {
    forall i | 0 <= i < |desc.colorTargets| :: BlendSupported(desc.colorTargets[i].blend)
  }

  /// The wgpu render pipeline state a Blade descriptor translates to. The
  /// colour targets are attached only through the fragment state, so a
  /// pipeline without a fragment shader has none.
  method BuildRenderState(desc: Blade.RenderPipelineDesc, attributeMappings: seq<Blade.VertexAttributeMapping>)
    returns (state: RenderPipelineState)
    requires TargetsSupported(desc) && MappingsInRange(desc.vertexFetches, attributeMappings)
    ensures state.primitive == MapPrimitiveState(desc.primitive)
    ensures |state.vertexBuffers| == |desc.vertexFetches|
    ensures forall k | 0 <= k < |desc.vertexFetches| ::
      && state.vertexBuffers[k].arrayStride == desc.vertexFetches[k].layout.stride
      && (state.vertexBuffers[k].stepMode == Wgpu.StepInstance <==> desc.vertexFetches[k].instanced)
      && AttributesOfBuffer(desc.vertexFetches[k], k, attributeMappings, state.vertexBuffers[k].attributes)
    ensures state.fragmentTargets.Some? <==> desc.hasFragment
    ensures desc.hasFragment ==> |state.fragmentTargets.value| == |desc.colorTargets|
    ensures desc.hasFragment ==> forall i | 0 <= i < |desc.colorTargets| ::
      state.fragmentTargets.value[i] == ColorTargetFor(desc.colorTargets[i])
    ensures state.depthStencil.Some? <==> desc.depthStencil.Some?
    ensures desc.depthStencil.Some? ==> state.depthStencil.value == DepthStencilFor(desc.depthStencil.value)
  {
    var attributes := BuildVertexAttributes(desc.vertexFetches, attributeMappings);
    var vertexBuffers := BuildVertexBufferLayouts(desc.vertexFetches, attributes);
    var colorTargets := seq(|desc.colorTargets|, i requires 0 <= i < |desc.colorTargets| => ColorTargetFor(desc.colorTargets[i]));
    var depthStencil := if desc.depthStencil.Some? then Some(DepthStencilFor(desc.depthStencil.value)) else None;
    var fragmentTargets := if desc.hasFragment then Some(colorTargets) else None;
    state := RenderPipelineState(vertexBuffers, MapPrimitiveState(desc.primitive), fragmentTargets, depthStencil);
  }

  /// `attributeMappings` are the vertex shader's input mappings.
  method CreateRenderPipeline(ctx: Context, desc: Blade.RenderPipelineDesc, infos: seq<Blade.ShaderDataInfo>,
                              attributeMappings: seq<Blade.VertexAttributeMapping>)
    returns (pipeline: RenderPipeline)
    requires ctx.Valid() && LayoutsSupported(desc.dataLayouts, infos) && TargetsSupported(desc)
    requires MappingsInRange(desc.vertexFetches, attributeMappings)
    modifies ctx.hub.renderPipelines
    ensures ctx.Valid()
    ensures pipeline.raw.slot != NullSlot && pipeline.raw.slot !in old(ctx.hub.renderPipelines.entries)
    ensures pipeline.raw.slot in ctx.hub.renderPipelines.entries
    ensures ctx.hub.renderPipelines.entries.Keys == old(ctx.hub.renderPipelines.entries).Keys + {pipeline.raw.slot}
    ensures forall s | s in old(ctx.hub.renderPipelines.entries) ::
      ctx.hub.renderPipelines.entries[s] == old(ctx.hub.renderPipelines.entries)[s]
    ensures pipeline.topology == desc.primitive.topology
    ensures pipeline.groupMappings == GroupMappings(desc.dataLayouts)
    ensures var entry := ctx.hub.renderPipelines.entries[pipeline.raw.slot];
      && entry.bindGroupLayouts == BindGroupLayouts(desc.dataLayouts, infos)
      && entry.raw.primitive == MapPrimitiveState(desc.primitive)
      && |entry.raw.vertexBuffers| == |desc.vertexFetches|
      && (forall k | 0 <= k < |desc.vertexFetches| ::
            && entry.raw.vertexBuffers[k].arrayStride == desc.vertexFetches[k].layout.stride
            && (entry.raw.vertexBuffers[k].stepMode == Wgpu.StepInstance <==> desc.vertexFetches[k].instanced)
            && AttributesOfBuffer(desc.vertexFetches[k], k, attributeMappings, entry.raw.vertexBuffers[k].attributes))
      && (entry.raw.fragmentTargets.Some? <==> desc.hasFragment)
      && (desc.hasFragment ==> |entry.raw.fragmentTargets.value| == |desc.colorTargets|)
      && (desc.hasFragment ==> forall i | 0 <= i < |desc.colorTargets| ::
            entry.raw.fragmentTargets.value[i] == ColorTargetFor(desc.colorTargets[i]))
      && (entry.raw.depthStencil.Some? <==> desc.depthStencil.Some?)
      && (desc.depthStencil.Some? ==> entry.raw.depthStencil.value == DepthStencilFor(desc.depthStencil.value))
  {
    var groupMappings := GroupMappings(desc.dataLayouts);
    var bindGroupLayouts := BindGroupLayouts(desc.dataLayouts, infos);
    var state := BuildRenderState(desc, attributeMappings);
    var slot := ctx.hub.renderPipelines.Insert(RenderPipelineEntry(state, bindGroupLayouts));
    pipeline := RenderPipeline(RenderPipelineKey(slot), desc.primitive.topology, groupMappings);
  }

  method DestroyRenderPipeline(ctx: Context, pipeline: RenderPipeline)
    requires ctx.Valid()
    modifies ctx.hub.renderPipelines
    ensures ctx.Valid()
    ensures ctx.hub.renderPipelines.entries == old(ctx.hub.renderPipelines.entries) - {pipeline.raw.slot}
  {
    var _ := ctx.hub.renderPipelines.Remove(pipeline.raw.slot);
  }
}
