// Resource creation of the WebGPU backend: the name-for-name translation
// of Blade descriptors into wgpu descriptors, and creating and destroying
// buffers, textures, texture views and samplers in the hub.

module WebgpuResource {
  import opened Wrappers
  import opened Bytes
  import Blade
  import Wgpu
  import opened WebgpuHub
  import opened WebgpuBindGroups
  import opened WebgpuContext

  const U16Max: nat := 0xFFFF

  //---------------------------------------------------------------------------
  // Enum translation. Each map has its inverse beside it.
  //---------------------------------------------------------------------------

  /// The wgpu counterpart of each Blade texture format.
  function MapTextureFormat(format: Blade.TextureFormat): Wgpu.TextureFormat
  {
    match format
    case R8Unorm => Wgpu.R8Unorm
    case Rg8Unorm => Wgpu.Rg8Unorm
    case Rg8Snorm => Wgpu.Rg8Snorm
    case Rgba8Unorm => Wgpu.Rgba8Unorm
    case Rgba8UnormSrgb => Wgpu.Rgba8UnormSrgb
    case Bgra8Unorm => Wgpu.Bgra8Unorm
    case Bgra8UnormSrgb => Wgpu.Bgra8UnormSrgb
    case Rgba8Snorm => Wgpu.Rgba8Snorm
    case R16Float => Wgpu.R16Float
    case Rg16Float => Wgpu.Rg16Float
    case Rgba16Float => Wgpu.Rgba16Float
    case R32Float => Wgpu.R32Float
    case Rg32Float => Wgpu.Rg32Float
    case Rgba32Float => Wgpu.Rgba32Float
    case R32Uint => Wgpu.R32Uint
    case Rg32Uint => Wgpu.Rg32Uint
    case Rgba32Uint => Wgpu.Rgba32Uint
    case Depth32Float => Wgpu.Depth32Float
    case Depth32FloatStencil8Uint => Wgpu.Depth32FloatStencil8
    case Stencil8Uint => Wgpu.Stencil8
    case Bc1Unorm => Wgpu.Bc1RgbaUnorm
    case Bc1UnormSrgb => Wgpu.Bc1RgbaUnormSrgb
    case Bc2Unorm => Wgpu.Bc2RgbaUnorm
    case Bc2UnormSrgb => Wgpu.Bc2RgbaUnormSrgb
    case Bc3Unorm => Wgpu.Bc3RgbaUnorm
    case Bc3UnormSrgb => Wgpu.Bc3RgbaUnormSrgb
    case Bc4Unorm => Wgpu.Bc4RUnorm
    case Bc4Snorm => Wgpu.Bc4RSnorm
    case Bc5Unorm => Wgpu.Bc5RgUnorm
    case Bc5Snorm => Wgpu.Bc5RgSnorm
    case Bc6hUfloat => Wgpu.Bc6hRgbUfloat
    case Bc6hFloat => Wgpu.Bc6hRgbFloat
    case Bc7Unorm => Wgpu.Bc7RgbaUnorm
    case Bc7UnormSrgb => Wgpu.Bc7RgbaUnormSrgb
    case Rgb10a2Unorm => Wgpu.Rgb10a2Unorm
    case Rg11b10Ufloat => Wgpu.Rg11b10Ufloat
    case Rgb9e5Ufloat => Wgpu.Rgb9e5Ufloat
  }

  /// Every Blade texture format has a wgpu counterpart, and the counterpart
  /// determines the format: the map is injective.
  lemma TextureFormatRoundTrip(format: Blade.TextureFormat)
    ensures !MapTextureFormat(format).Other?
    ensures BladeTextureFormat(MapTextureFormat(format)) == Some(format)
  {
  }

  /// The Blade format a wgpu format is the translation of, if any.
  function BladeTextureFormat(format: Wgpu.TextureFormat): Option<Blade.TextureFormat>
  {
    match format
    case R8Unorm => Some(Blade.R8Unorm)
    case Rg8Unorm => Some(Blade.Rg8Unorm)
    case Rg8Snorm => Some(Blade.Rg8Snorm)
    case Rgba8Unorm => Some(Blade.Rgba8Unorm)
    case Rgba8UnormSrgb => Some(Blade.Rgba8UnormSrgb)
    case Bgra8Unorm => Some(Blade.Bgra8Unorm)
    case Bgra8UnormSrgb => Some(Blade.Bgra8UnormSrgb)
    case Rgba8Snorm => Some(Blade.Rgba8Snorm)
    case R16Float => Some(Blade.R16Float)
    case Rg16Float => Some(Blade.Rg16Float)
    case Rgba16Float => Some(Blade.Rgba16Float)
    case R32Float => Some(Blade.R32Float)
    case Rg32Float => Some(Blade.Rg32Float)
    case Rgba32Float => Some(Blade.Rgba32Float)
    case R32Uint => Some(Blade.R32Uint)
    case Rg32Uint => Some(Blade.Rg32Uint)
    case Rgba32Uint => Some(Blade.Rgba32Uint)
    case Depth32Float => Some(Blade.Depth32Float)
    case Depth32FloatStencil8 => Some(Blade.Depth32FloatStencil8Uint)
    case Stencil8 => Some(Blade.Stencil8Uint)
    case Bc1RgbaUnorm => Some(Blade.Bc1Unorm)
    case Bc1RgbaUnormSrgb => Some(Blade.Bc1UnormSrgb)
    case Bc2RgbaUnorm => Some(Blade.Bc2Unorm)
    case Bc2RgbaUnormSrgb => Some(Blade.Bc2UnormSrgb)
    case Bc3RgbaUnorm => Some(Blade.Bc3Unorm)
    case Bc3RgbaUnormSrgb => Some(Blade.Bc3UnormSrgb)
    case Bc4RUnorm => Some(Blade.Bc4Unorm)
    case Bc4RSnorm => Some(Blade.Bc4Snorm)
    case Bc5RgUnorm => Some(Blade.Bc5Unorm)
    case Bc5RgSnorm => Some(Blade.Bc5Snorm)
    case Bc6hRgbUfloat => Some(Blade.Bc6hUfloat)
    case Bc6hRgbFloat => Some(Blade.Bc6hFloat)
    case Bc7RgbaUnorm => Some(Blade.Bc7Unorm)
    case Bc7RgbaUnormSrgb => Some(Blade.Bc7UnormSrgb)
    case Rgb10a2Unorm => Some(Blade.Rgb10a2Unorm)
    case Rg11b10Ufloat => Some(Blade.Rg11b10Ufloat)
    case Rgb9e5Ufloat => Some(Blade.Rgb9e5Ufloat)
    case Other(_) => None
  }

  function MapTextureDimension(dim: Blade.TextureDimension): (r: Wgpu.TextureDimension)
    ensures BladeTextureDimension(r) == dim
  {
    match dim
    case Dim1 => Wgpu.Dim1
    case Dim2 => Wgpu.Dim2
    case Dim3 => Wgpu.Dim3
  }

  function BladeTextureDimension(dim: Wgpu.TextureDimension): Blade.TextureDimension
  {
    match dim
    case Dim1 => Blade.Dim1
    case Dim2 => Blade.Dim2
    case Dim3 => Blade.Dim3
  }

  /// wgpu has no 1D array views: D1Array collapses onto D1; every other
  /// view dimension maps to its namesake.
  function MapTextureViewDimension(dim: Blade.ViewDimension): (r: Wgpu.TextureViewDimension)
    ensures r == Wgpu.D1 <==> dim == Blade.D1 || dim == Blade.D1Array
    ensures dim != Blade.D1Array ==> BladeViewDimension(r) == dim
  {
    match dim
    case D1 => Wgpu.D1
    case D1Array => Wgpu.D1
    case D2 => Wgpu.D2
    case D2Array => Wgpu.D2Array
    case Cube => Wgpu.Cube
    case CubeArray => Wgpu.CubeArray
    case D3 => Wgpu.D3
  }

  function BladeViewDimension(dim: Wgpu.TextureViewDimension): Blade.ViewDimension
  {
    match dim
    case D1 => Blade.D1
    case D2 => Blade.D2
    case D2Array => Blade.D2Array
    case Cube => Blade.Cube
    case CubeArray => Blade.CubeArray
    case D3 => Blade.D3
  }

  /// Pure depth and pure stencil formats view one aspect; every other
  /// format, the combined depth-stencil one included, views all.
  function AspectFromFormat(format: Blade.TextureFormat): (r: Wgpu.TextureAspect)
    ensures r == Wgpu.DepthOnly <==> format == Blade.Depth32Float
    ensures r == Wgpu.StencilOnly <==> format == Blade.Stencil8Uint
    ensures format == Blade.Depth32FloatStencil8Uint ==> r == Wgpu.All
  {
    match format
    case Depth32Float => Wgpu.DepthOnly
    case Stencil8Uint => Wgpu.StencilOnly
    case Depth32FloatStencil8Uint => Wgpu.All
    case _ => Wgpu.All
  }

  function MapAddressMode(mode: Blade.AddressMode): (r: Wgpu.AddressMode)
    ensures BladeAddressMode(r) == mode
  {
    match mode
    case ClampToEdge => Wgpu.ClampToEdge
    case Repeat => Wgpu.Repeat
    case MirrorRepeat => Wgpu.MirrorRepeat
    case ClampToBorder => Wgpu.ClampToBorder
  }

  function BladeAddressMode(mode: Wgpu.AddressMode): Blade.AddressMode
  {
    match mode
    case ClampToEdge => Blade.ClampToEdge
    case Repeat => Blade.Repeat
    case MirrorRepeat => Blade.MirrorRepeat
    case ClampToBorder => Blade.ClampToBorder
  }

  function MapFilterMode(mode: Blade.FilterMode): (r: Wgpu.FilterMode)
    ensures BladeFilterMode(r) == mode
  {
    match mode
    case Nearest => Wgpu.Nearest
    case Linear => Wgpu.Linear
  }

  function BladeFilterMode(mode: Wgpu.FilterMode): Blade.FilterMode
  {
    match mode
    case Nearest => Blade.Nearest
    case Linear => Blade.Linear
  }

  function MapMipmapFilterMode(mode: Blade.FilterMode): (r: Wgpu.MipmapFilterMode)
    ensures BladeMipmapFilterMode(r) == mode
  {
    match mode
    case Nearest => Wgpu.MipNearest
    case Linear => Wgpu.MipLinear
  }

  function BladeMipmapFilterMode(mode: Wgpu.MipmapFilterMode): Blade.FilterMode
  {
    match mode
    case MipNearest => Blade.Nearest
    case MipLinear => Blade.Linear
  }

  /// Shared by samplers and depth-stencil states.
  function MapCompareFunction(func: Blade.CompareFunction): (r: Wgpu.CompareFunction)
    ensures BladeCompareFunction(r) == func
  {
    match func
    case Never => Wgpu.Never
    case Less => Wgpu.Less
    case LessEqual => Wgpu.LessEqual
    case Equal => Wgpu.Equal
    case GreaterEqual => Wgpu.GreaterEqual
    case Greater => Wgpu.Greater
    case NotEqual => Wgpu.NotEqual
    case Always => Wgpu.Always
  }

  function BladeCompareFunction(func: Wgpu.CompareFunction): Blade.CompareFunction
  {
    match func
    case Never => Blade.Never
    case Less => Blade.Less
    case LessEqual => Blade.LessEqual
    case Equal => Blade.Equal
    case GreaterEqual => Blade.GreaterEqual
    case Greater => Blade.Greater
    case NotEqual => Blade.NotEqual
    case Always => Blade.Always
  }

  /// White becomes opaque white; wgpu's extra Zero colour is never produced.
  function MapBorderColor(color: Blade.TextureColor): (r: Wgpu.SamplerBorderColor)
    ensures r != Wgpu.BorderZero
    ensures BladeBorderColor(r) == Some(color)
  {
    match color
    case TransparentBlack => Wgpu.TransparentBlack
    case OpaqueBlack => Wgpu.OpaqueBlack
    case White => Wgpu.OpaqueWhite
  }

  function BladeBorderColor(color: Wgpu.SamplerBorderColor): Option<Blade.TextureColor>
  {
    match color
    case TransparentBlack => Some(Blade.TransparentBlack)
    case OpaqueBlack => Some(Blade.OpaqueBlack)
    case OpaqueWhite => Some(Blade.White)
    case BorderZero => None
  }

  //---------------------------------------------------------------------------
  // Descriptor translation.
  //---------------------------------------------------------------------------

  /// An empty name gives no debug label.
  function Label(name: string): (r: Option<string>)
    ensures r.None? <==> name == []
    ensures r.Some? ==> r.value == name
  {
    if name == [] then None else Some(name)
  }

  /// Every buffer can be copied both ways and bound as storage, uniform,
  /// vertex and index data; only device-local buffers are also indirect
  /// argument buffers. External memory is a panic in the source.
  function BufferUsageFor(memory: Blade.Memory): (r: Wgpu.BufferUsages)
    requires !memory.External?
    ensures forall u: Wgpu.BufferUsage :: u in r <==>
      u in {Wgpu.CopySrc, Wgpu.CopyDst, Wgpu.Storage, Wgpu.Uniform, Wgpu.Vertex, Wgpu.Index} ||
      (u == Wgpu.Indirect && memory == Blade.Device)
  {
    var common := {Wgpu.CopySrc, Wgpu.CopyDst};
    match memory
    case Device => common + {Wgpu.Storage} + {Wgpu.Uniform} + {Wgpu.Vertex} + {Wgpu.Index} + {Wgpu.Indirect}
    case _ => common + {Wgpu.Storage} + {Wgpu.Uniform} + {Wgpu.Vertex} + {Wgpu.Index}
  }

  /// Host-visible buffers get a zero-filled CPU shadow of the buffer's size.
  function ShadowFor(desc: Blade.BufferDesc): (r: Option<seq<Byte>>)
    ensures r.Some? <==> desc.memory == Blade.Upload || desc.memory == Blade.Shared
    ensures r.Some? ==> |r.value| == desc.size && forall i | 0 <= i < |r.value| :: r.value[i] == 0
  {
    match desc.memory
    case Upload => Some(seq(desc.size, _ => 0))
    case Shared => Some(seq(desc.size, _ => 0))
    case _ => None
  }

  function BufferDescriptorFor(desc: Blade.BufferDesc): Wgpu.BufferDescriptor
    requires !desc.memory.External?
  {
    Wgpu.BufferDescriptor(Label(desc.name), desc.size, BufferUsageFor(desc.memory), false)
  }

  /// Copies both ways always; binding, storage and attachment usage exactly
  /// when the Blade usage asks for a resource, storage or render target.
  function TextureUsageFor(usage: Blade.TextureUsage): (r: Wgpu.TextureUsages)
    ensures Wgpu.TexCopySrc in r && Wgpu.TexCopyDst in r
    ensures Wgpu.TextureBinding in r <==> Blade.Resource in usage
    ensures Wgpu.StorageBinding in r <==> Blade.Storage in usage
    ensures Wgpu.RenderAttachment in r <==> Blade.Target in usage
  {
    var usages := {Wgpu.TexCopySrc, Wgpu.TexCopyDst};
    var usages := if Blade.Resource in usage then usages + {Wgpu.TextureBinding} else usages;
    var usages := if Blade.Storage in usage then usages + {Wgpu.StorageBinding} else usages;
    if Blade.Target in usage then usages + {Wgpu.RenderAttachment} else usages
  }

  /// 3D textures take their depth from the extent, all others their layer count.
  function TextureDescriptorFor(desc: Blade.TextureDesc): (r: Wgpu.TextureDescriptor)
    ensures r.size.width == desc.size.width && r.size.height == desc.size.height
    ensures desc.dimension == Blade.Dim3 ==> r.size.depthOrArrayLayers == desc.size.depth
    ensures desc.dimension != Blade.Dim3 ==> r.size.depthOrArrayLayers == desc.arrayLayerCount
    ensures BladeTextureFormat(r.format) == Some(desc.format)
    ensures BladeTextureDimension(r.dimension) == desc.dimension
    ensures r.usage == TextureUsageFor(desc.usage)
  {
    TextureFormatRoundTrip(desc.format);
    Wgpu.TextureDescriptor(
      Label(desc.name),
      Wgpu.Extent3d(desc.size.width, desc.size.height,
        if desc.dimension == Blade.Dim3 then desc.size.depth else desc.arrayLayerCount),
      desc.mipLevelCount,
      desc.sampleCount,
      MapTextureDimension(desc.dimension),
      MapTextureFormat(desc.format),
      TextureUsageFor(desc.usage))
  }

  /// Saturating conversion to u16.
  function ClampU16(x: nat): (r: nat)
    ensures r <= U16Max
    ensures x <= U16Max ==> r == x
    ensures U16Max < x ==> r == U16Max
  {
    if x <= U16Max then x else U16Max
  }

  /// The render-target size a texture handle carries.
  function TargetSize(size: Blade.Extent): (r: (nat, nat))
  {
    (ClampU16(size.width), ClampU16(size.height))
  }

  function TextureViewDescriptorFor(desc: Blade.TextureViewDesc): (r: Wgpu.TextureViewDescriptor)
    ensures r.format.Some? && BladeTextureFormat(r.format.value) == Some(desc.format)
    ensures r.dimension == Some(MapTextureViewDimension(desc.dimension))
    ensures r.aspect == AspectFromFormat(desc.format)
  {
    TextureFormatRoundTrip(desc.format);
    Wgpu.TextureViewDescriptor(
      Label(desc.name),
      Some(MapTextureFormat(desc.format)),
      Some(MapTextureViewDimension(desc.dimension)),
      AspectFromFormat(desc.format),
      desc.subresources.baseMipLevel,
      desc.subresources.mipLevelCount,
      desc.subresources.baseArrayLayer,
      desc.subresources.arrayLayerCount)
  }

  /// WebGPU needs an anisotropy clamp of at least 1, and it is a u16.
  function AnisotropyClamp(x: nat): (r: nat)
    ensures 1 <= r <= U16Max
    ensures 1 <= x <= U16Max ==> r == x
    ensures x == 0 ==> r == 1
    ensures U16Max < x ==> r == U16Max
  {
    var atLeastOne := if x < 1 then 1 else x;
    if atLeastOne <= U16Max then atLeastOne else U16Max
  }

  /// Every field of the wgpu sampler translates back to the Blade field it
  /// came from, except the anisotropy clamp, which is forced into [1, u16::MAX].
  function SamplerDescriptorFor(desc: Blade.SamplerDesc): (r: Wgpu.SamplerDescriptor)
    ensures r.debugLabel.None? <==> desc.name == []
    ensures r.debugLabel.Some? ==> r.debugLabel.value == desc.name
    ensures BladeAddressMode(r.addressModeU) == desc.addressModes.0
    ensures BladeAddressMode(r.addressModeV) == desc.addressModes.1
    ensures BladeAddressMode(r.addressModeW) == desc.addressModes.2
    ensures BladeFilterMode(r.magFilter) == desc.magFilter
    ensures BladeFilterMode(r.minFilter) == desc.minFilter
    ensures BladeMipmapFilterMode(r.mipmapFilter) == desc.mipmapFilter
    ensures r.compare.Some? <==> desc.compare.Some?
    ensures r.compare.Some? ==> BladeCompareFunction(r.compare.value) == desc.compare.value
    ensures r.borderColor.Some? <==> desc.borderColor.Some?
    ensures r.borderColor.Some? ==> BladeBorderColor(r.borderColor.value) == desc.borderColor
    ensures 1 <= r.anisotropyClamp <= U16Max
    ensures 1 <= desc.anisotropyClamp <= U16Max ==> r.anisotropyClamp == desc.anisotropyClamp
    ensures desc.anisotropyClamp == 0 ==> r.anisotropyClamp == 1
    ensures U16Max < desc.anisotropyClamp ==> r.anisotropyClamp == U16Max
  {
    Wgpu.SamplerDescriptor(
      Label(desc.name),
      MapAddressMode(desc.addressModes.0),
      MapAddressMode(desc.addressModes.1),
      MapAddressMode(desc.addressModes.2),
      MapFilterMode(desc.magFilter),
      MapFilterMode(desc.minFilter),
      MapMipmapFilterMode(desc.mipmapFilter),
      if desc.compare.Some? then Some(MapCompareFunction(desc.compare.value)) else None,
      AnisotropyClamp(desc.anisotropyClamp),
      if desc.borderColor.Some? then Some(MapBorderColor(desc.borderColor.value)) else None)
  }

  //---------------------------------------------------------------------------
  // Acceleration structures: WebGPU has none.
  //---------------------------------------------------------------------------

  const AccelerationStructuresUnsupported :=
    Blade.UnsupportedFeatureError("Acceleration structures", "ray_query")

  function BottomLevelAccelerationStructureSizes(meshCount: nat):
    (r: Result<Blade.AccelerationStructureSizes, Blade.UnsupportedFeatureError>)
    ensures r == Err(AccelerationStructuresUnsupported)
  {
    Err(AccelerationStructuresUnsupported)
  }

  /// The top-level query is a separate entry point failing the same way.
  function TopLevelAccelerationStructureSizes(instanceCount: nat):
    (r: Result<Blade.AccelerationStructureSizes, Blade.UnsupportedFeatureError>)
    ensures r == Err(AccelerationStructuresUnsupported)
  {
    Err(AccelerationStructuresUnsupported)
  }

  function AccelerationStructureInstanceBuffer(instanceCount: nat, bottomLevelCount: nat):
    (r: Result<Buffer, Blade.UnsupportedFeatureError>)
    ensures r == Err(AccelerationStructuresUnsupported)
  {
    Err(AccelerationStructuresUnsupported)
  }

  //---------------------------------------------------------------------------
  // Creating and destroying resources in the hub.
  //---------------------------------------------------------------------------

  method CreateBuffer(ctx: Context, desc: Blade.BufferDesc) returns (buffer: Buffer)
    requires ctx.Valid() && !desc.memory.External?
    modifies ctx.hub.buffers
    ensures ctx.Valid()
    ensures buffer.raw.slot != NullSlot && buffer.raw.slot !in old(ctx.hub.buffers.entries)
    ensures ctx.hub.buffers.entries ==
      old(ctx.hub.buffers.entries)[buffer.raw.slot := BufferEntry(BufferDescriptorFor(desc), ShadowFor(desc), None)]
    ensures buffer.size == desc.size
    ensures buffer.hasData <==> desc.memory == Blade.Upload || desc.memory == Blade.Shared
  {
    var gpu := BufferDescriptorFor(desc);
    var shadow := ShadowFor(desc);
    var slot := ctx.hub.buffers.Insert(BufferEntry(gpu, shadow, None));
    buffer := Buffer(BufferKey(slot), desc.size, shadow.Some?);
  }

  /// Marks the whole buffer for upload before the next submit.
  method SyncBuffer(ctx: Context, buffer: Buffer)
    requires ctx.Valid()
    modifies ctx.hub.buffers
    ensures ctx.Valid()
    ensures buffer.raw.slot !in old(ctx.hub.buffers.entries) ==>
      ctx.hub.buffers.entries == old(ctx.hub.buffers.entries)
    ensures buffer.raw.slot in old(ctx.hub.buffers.entries) ==>
      var e := old(ctx.hub.buffers.entries)[buffer.raw.slot];
      ctx.hub.buffers.entries == old(ctx.hub.buffers.entries)[buffer.raw.slot :=
        e.(dirtyRange := Some(MergeRange(e.dirtyRange, 0, buffer.size)))]
  {
    ctx.MarkBufferDirty(buffer);
  }

  /// Drops the cached bind groups using the buffer first, then the buffer.
  method DestroyBuffer(ctx: Context, buffer: Buffer)
    requires ctx.Valid()
    modifies ctx.bindGroupCache, ctx.bindGroupCache.deps, ctx.hub.buffers
    ensures ctx.Valid()
    ensures ctx.bindGroupCache.groups ==
      old(ctx.bindGroupCache.groups) - DependentsOf(old(ctx.bindGroupCache.deps.bufferDeps), buffer.raw)
    ensures forall c | c in ctx.bindGroupCache.groups :: buffer.raw !in BuffersOf(c.bindings)
    ensures ctx.hub.buffers.entries == old(ctx.hub.buffers.entries) - {buffer.raw.slot}
    ensures ctx.bindGroupCache.deps.bufferDeps == old(ctx.bindGroupCache.deps.bufferDeps) - {buffer.raw}
    ensures ctx.bindGroupCache.deps.textureViewDeps == old(ctx.bindGroupCache.deps.textureViewDeps)
    ensures ctx.bindGroupCache.deps.samplerDeps == old(ctx.bindGroupCache.deps.samplerDeps)
    ensures ctx.bindGroupCache.hits == old(ctx.bindGroupCache.hits) && ctx.bindGroupCache.misses == old(ctx.bindGroupCache.misses)
  {
    ctx.bindGroupCache.InvalidateBuffer(buffer.raw);
    var _ := ctx.hub.buffers.Remove(buffer.raw.slot);
  }

  method CreateTexture(ctx: Context, desc: Blade.TextureDesc) returns (texture: Texture)
    requires ctx.Valid()
    modifies ctx.hub.textures
    ensures ctx.Valid()
    ensures texture.raw.slot != NullSlot && texture.raw.slot !in old(ctx.hub.textures.entries)
    ensures ctx.hub.textures.entries ==
      old(ctx.hub.textures.entries)[texture.raw.slot := TextureDescriptorFor(desc)]
    ensures texture.format == desc.format
    ensures texture.targetSize == (ClampU16(desc.size.width), ClampU16(desc.size.height))
  {
    var gpu := TextureDescriptorFor(desc);
    var slot := ctx.hub.textures.Insert(gpu);
    texture := Texture(TextureKey(slot), desc.format, TargetSize(desc.size));
  }

  /// Textures are not tracked by the bind-group cache; only the hub entry goes.
  method DestroyTexture(ctx: Context, texture: Texture)
    requires ctx.Valid()
    modifies ctx.hub.textures
    ensures ctx.Valid()
    ensures ctx.hub.textures.entries == old(ctx.hub.textures.entries) - {texture.raw.slot}
  {
    var _ := ctx.hub.textures.Remove(texture.raw.slot);
  }

  /// `aspects` are the texel aspects of the view's format. The texture
  /// must be live: the source panics on an invalid handle.
  method CreateTextureView(ctx: Context, texture: Texture, desc: Blade.TextureViewDesc, aspects: Blade.TexelAspects)
    returns (view: TextureView)
    requires ctx.Valid() && texture.raw.slot in ctx.hub.textures.entries
    modifies ctx.hub.textureViews
    ensures ctx.Valid()
    ensures view.raw.slot != NullSlot && view.raw.slot !in old(ctx.hub.textureViews.entries)
    ensures ctx.hub.textureViews.entries ==
      old(ctx.hub.textureViews.entries)[view.raw.slot := ViewOf(texture.raw, TextureViewDescriptorFor(desc))]
    ensures view.targetSize == texture.targetSize && view.aspects == aspects
  {
    var gpu := TextureViewDescriptorFor(desc);
    var slot := ctx.hub.textureViews.Insert(ViewOf(texture.raw, gpu));
    view := TextureView(TextureViewKey(slot), texture.targetSize, aspects);
  }

  method DestroyTextureView(ctx: Context, view: TextureView)
    requires ctx.Valid()
    modifies ctx.bindGroupCache, ctx.bindGroupCache.deps, ctx.hub.textureViews
    ensures ctx.Valid()
    ensures ctx.bindGroupCache.groups ==
      old(ctx.bindGroupCache.groups) - DependentsOf(old(ctx.bindGroupCache.deps.textureViewDeps), view.raw)
    ensures forall c | c in ctx.bindGroupCache.groups :: view.raw !in ViewsOf(c.bindings)
    ensures ctx.hub.textureViews.entries == old(ctx.hub.textureViews.entries) - {view.raw.slot}
    ensures ctx.bindGroupCache.deps.textureViewDeps == old(ctx.bindGroupCache.deps.textureViewDeps) - {view.raw}
    ensures ctx.bindGroupCache.deps.bufferDeps == old(ctx.bindGroupCache.deps.bufferDeps)
    ensures ctx.bindGroupCache.deps.samplerDeps == old(ctx.bindGroupCache.deps.samplerDeps)
    ensures ctx.bindGroupCache.hits == old(ctx.bindGroupCache.hits) && ctx.bindGroupCache.misses == old(ctx.bindGroupCache.misses)
  {
    ctx.bindGroupCache.InvalidateTextureView(view.raw);
    var _ := ctx.hub.textureViews.Remove(view.raw.slot);
  }

  method CreateSampler(ctx: Context, desc: Blade.SamplerDesc) returns (sampler: Sampler)
    requires ctx.Valid()
    modifies ctx.hub.samplers
    ensures ctx.Valid()
    ensures sampler.raw.slot != NullSlot && sampler.raw.slot !in old(ctx.hub.samplers.entries)
    ensures ctx.hub.samplers.entries ==
      old(ctx.hub.samplers.entries)[sampler.raw.slot := SamplerDescriptorFor(desc)]
  {
    var gpu := SamplerDescriptorFor(desc);
    var slot := ctx.hub.samplers.Insert(gpu);
    sampler := Sampler(SamplerKey(slot));
  }

  method DestroySampler(ctx: Context, sampler: Sampler)
    requires ctx.Valid()
    modifies ctx.bindGroupCache, ctx.bindGroupCache.deps, ctx.hub.samplers
    ensures ctx.Valid()
    ensures ctx.bindGroupCache.groups ==
      old(ctx.bindGroupCache.groups) - DependentsOf(old(ctx.bindGroupCache.deps.samplerDeps), sampler.raw)
    ensures forall c | c in ctx.bindGroupCache.groups :: sampler.raw !in SamplersOf(c.bindings)
    ensures ctx.hub.samplers.entries == old(ctx.hub.samplers.entries) - {sampler.raw.slot}
    ensures ctx.bindGroupCache.deps.samplerDeps == old(ctx.bindGroupCache.deps.samplerDeps) - {sampler.raw}
    ensures ctx.bindGroupCache.deps.bufferDeps == old(ctx.bindGroupCache.deps.bufferDeps)
    ensures ctx.bindGroupCache.deps.textureViewDeps == old(ctx.bindGroupCache.deps.textureViewDeps)
    ensures ctx.bindGroupCache.hits == old(ctx.bindGroupCache.hits) && ctx.bindGroupCache.misses == old(ctx.bindGroupCache.misses)
  {
    ctx.bindGroupCache.InvalidateSampler(sampler.raw);
    var _ := ctx.hub.samplers.Remove(sampler.raw.slot);
  }
}
