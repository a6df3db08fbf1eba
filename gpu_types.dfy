// Types shared by the WebGPU backend model.
//
// `Blade` holds the backend-independent descriptors and enums that the
// backend receives from the crate root, `Wgpu` the wgpu-side enums and
// descriptors it produces. Both are declared here only as far as the
// backend reads or builds them; GPU objects themselves are represented by
// the descriptor they were created from.

module Blade {
  import opened Wrappers

  datatype TextureFormat =
    | R8Unorm | Rg8Unorm | Rg8Snorm | Rgba8Unorm | Rgba8UnormSrgb
    | Bgra8Unorm | Bgra8UnormSrgb | Rgba8Snorm
    | R16Float | Rg16Float | Rgba16Float
    | R32Float | Rg32Float | Rgba32Float
    | R32Uint | Rg32Uint | Rgba32Uint
    | Depth32Float | Depth32FloatStencil8Uint | Stencil8Uint
    | Bc1Unorm | Bc1UnormSrgb | Bc2Unorm | Bc2UnormSrgb | Bc3Unorm | Bc3UnormSrgb
    | Bc4Unorm | Bc4Snorm | Bc5Unorm | Bc5Snorm | Bc6hUfloat | Bc6hFloat
    | Bc7Unorm | Bc7UnormSrgb
    | Rgb10a2Unorm | Rg11b10Ufloat | Rgb9e5Ufloat

  datatype TexelAspect = Color | Depth | Stencil
  type TexelAspects = set<TexelAspect>

  datatype TextureDimension = Dim1 | Dim2 | Dim3
  datatype ViewDimension = D1 | D1Array | D2 | D2Array | Cube | CubeArray | D3

  datatype AddressMode = ClampToEdge | Repeat | MirrorRepeat | ClampToBorder
  datatype FilterMode = Nearest | Linear
  datatype CompareFunction =
    | Never | Less | Equal | LessEqual | Greater | NotEqual | GreaterEqual | Always
  datatype TextureColor = TransparentBlack | OpaqueBlack | White

  datatype Memory = Device | Upload | Shared | External(handle: nat)

  datatype TextureUsageFlag = Copy | Target | Resource | Storage
  type TextureUsage = set<TextureUsageFlag>

  datatype Extent = Extent(width: nat, height: nat, depth: nat)

  datatype BufferDesc = BufferDesc(name: string, size: nat, memory: Memory)

  datatype TextureDesc = TextureDesc(
    name: string,
    format: TextureFormat,
    size: Extent,
    arrayLayerCount: nat,
    mipLevelCount: nat,
    sampleCount: nat,
    dimension: TextureDimension,
    usage: TextureUsage)

  /// `None` in a count stands for "all remaining"; the source uses NonZeroU32.
  datatype TextureSubresources = TextureSubresources(
    baseMipLevel: nat,
    mipLevelCount: Option<nat>,
    baseArrayLayer: nat,
    arrayLayerCount: Option<nat>)

  datatype TextureViewDesc = TextureViewDesc(
    name: string,
    format: TextureFormat,
    dimension: ViewDimension,
    subresources: TextureSubresources)

  datatype SamplerDesc = SamplerDesc(
    name: string,
    addressModes: (AddressMode, AddressMode, AddressMode),
    magFilter: FilterMode,
    minFilter: FilterMode,
    mipmapFilter: FilterMode,
    compare: Option<CompareFunction>,
    anisotropyClamp: nat,
    borderColor: Option<TextureColor>)

  datatype ShaderBinding =
    | Texture
    | TextureArray(count: nat)
    | Sampler
    | Buffer
    | BufferArray(count: nat)
    | AccelerationStructure
    | Plain(size: nat)

  datatype StorageAccessFlag = Load | Store | Atomic
  type StorageAccess = set<StorageAccessFlag>

  datatype ShaderStage = ComputeStage | VertexStage | FragmentStage
  type ShaderVisibility = set<ShaderStage>

  datatype PrimitiveTopology = PointList | LineList | LineStrip | TriangleList | TriangleStrip
  datatype FrontFace = Ccw | Cw
  datatype Face = Front | Back

  datatype StencilOperation =
    | Keep | Zero | Replace | Invert
    | IncrementClamp | DecrementClamp | IncrementWrap | DecrementWrap

  datatype StencilFaceState = StencilFaceState(
    compare: CompareFunction,
    failOp: StencilOperation,
    depthFailOp: StencilOperation,
    passOp: StencilOperation)

  datatype BlendFactor =
    | FactorZero | One | Src | OneMinusSrc | SrcAlpha | OneMinusSrcAlpha
    | Dst | OneMinusDst | DstAlpha | OneMinusDstAlpha | SrcAlphaSaturated
    | Constant | OneMinusConstant
    | Src1 | OneMinusSrc1 | Src1Alpha | OneMinusSrc1Alpha

  datatype BlendOperation = Add | Subtract | ReverseSubtract | Min | Max

  datatype BlendComponent = BlendComponent(
    srcFactor: BlendFactor,
    dstFactor: BlendFactor,
    operation: BlendOperation)

  datatype BlendState = BlendState(color: BlendComponent, alpha: BlendComponent)

  datatype ColorTargetState = ColorTargetState(
    format: TextureFormat,
    blend: Option<BlendState>,
    writeMask: nat)

  datatype StencilState = StencilState(
    front: StencilFaceState,
    back: StencilFaceState,
    readMask: nat,
    writeMask: nat)

  /// The constant bias is an i32; the slope scale and clamp are f32 values.
  datatype DepthBiasState = DepthBiasState(constant: int, slopeScale: real, clamp: real)

  datatype DepthStencilState = DepthStencilState(
    format: TextureFormat,
    depthWriteEnabled: bool,
    depthCompare: CompareFunction,
    stencil: StencilState,
    bias: DepthBiasState)

  datatype PrimitiveState = PrimitiveState(
    topology: PrimitiveTopology,
    frontFace: FrontFace,
    cullMode: Option<Face>,
    unclippedDepth: bool,
    wireframe: bool)

  datatype VertexFormat =
    | F32 | F32Vec2 | F32Vec3 | F32Vec4
    | U32 | U32Vec2 | U32Vec3 | U32Vec4
    | I32 | I32Vec2 | I32Vec3 | I32Vec4

  datatype VertexAttribute = VertexAttribute(offset: nat, format: VertexFormat)
  datatype VertexLayout = VertexLayout(attributes: seq<(string, VertexAttribute)>, stride: nat)
  datatype VertexFetchState = VertexFetchState(layout: VertexLayout, instanced: bool)

  /// Where the shader's vertex input number i is fetched from.
  datatype VertexAttributeMapping = VertexAttributeMapping(bufferIndex: nat, attributeIndex: nat)

  /// The bindings of one shader data group, by name, in declaration order.
  datatype ShaderDataLayout = ShaderDataLayout(bindings: seq<(string, ShaderBinding)>)

  /// What shader loading found out about a group: the stages using it
  /// and the storage access of each binding.
  datatype ShaderDataInfo = ShaderDataInfo(visibility: ShaderVisibility, bindingAccess: seq<StorageAccess>)

  /// The parts of a render pipeline description the backend translates
  /// itself. Of the shaders only whether a fragment shader is given is
  /// kept: without one the pipeline has no fragment state and so no colour
  /// targets. Multisampling passes straight through to wgpu.
  datatype RenderPipelineDesc = RenderPipelineDesc(
    name: string,
    hasFragment: bool,
    dataLayouts: seq<ShaderDataLayout>,
    vertexFetches: seq<VertexFetchState>,
    primitive: PrimitiveState,
    colorTargets: seq<ColorTargetState>,
    depthStencil: Option<DepthStencilState>)

  datatype ComputePipelineDesc = ComputePipelineDesc(name: string, dataLayouts: seq<ShaderDataLayout>)

  datatype ColorSpace = LinearSpace | SrgbSpace
  datatype DisplaySync = Block | Recent | Tear
  datatype SurfaceConfig = SurfaceConfig(size: Extent, displaySync: DisplaySync)
  datatype AlphaMode = Ignored | PreMultiplied | PostMultiplied
  datatype SurfaceInfo = SurfaceInfo(format: TextureFormat, alpha: AlphaMode)

  datatype Capabilities = Capabilities(
    rayQuery: ShaderVisibility,
    sampleCountMask: nat,
    dualSourceBlending: bool)

  datatype UnsupportedFeatureError = UnsupportedFeatureError(feature: string, capabilityHint: string)

  datatype AccelerationStructureSizes = AccelerationStructureSizes(data: nat, scratch: nat)
}

module Wgpu {
  import opened Wrappers

  /// `Other(id)` stands for the wgpu formats Blade has no name for; they
  /// can only come back from a surface's capability list.
  datatype TextureFormat =
    | R8Unorm | Rg8Unorm | Rg8Snorm | Rgba8Unorm | Rgba8UnormSrgb
    | Bgra8Unorm | Bgra8UnormSrgb | Rgba8Snorm
    | R16Float | Rg16Float | Rgba16Float
    | R32Float | Rg32Float | Rgba32Float
    | R32Uint | Rg32Uint | Rgba32Uint
    | Depth32Float | Depth32FloatStencil8 | Stencil8
    | Bc1RgbaUnorm | Bc1RgbaUnormSrgb | Bc2RgbaUnorm | Bc2RgbaUnormSrgb
    | Bc3RgbaUnorm | Bc3RgbaUnormSrgb | Bc4RUnorm | Bc4RSnorm | Bc5RgUnorm | Bc5RgSnorm
    | Bc6hRgbUfloat | Bc6hRgbFloat | Bc7RgbaUnorm | Bc7RgbaUnormSrgb
    | Rgb10a2Unorm | Rg11b10Ufloat | Rgb9e5Ufloat
    | Other(id: nat)

  datatype TextureDimension = Dim1 | Dim2 | Dim3
  datatype TextureViewDimension = D1 | D2 | D2Array | Cube | CubeArray | D3
  datatype TextureAspect = All | DepthOnly | StencilOnly

  datatype AddressMode = ClampToEdge | Repeat | MirrorRepeat | ClampToBorder
  datatype FilterMode = Nearest | Linear
  datatype MipmapFilterMode = MipNearest | MipLinear
  datatype CompareFunction =
    | Never | Less | Equal | LessEqual | Greater | NotEqual | GreaterEqual | Always
  datatype SamplerBorderColor = TransparentBlack | OpaqueBlack | OpaqueWhite | BorderZero

  datatype BufferUsage =
    | MapRead | MapWrite | CopySrc | CopyDst | Index | Vertex | Uniform
    | Storage | Indirect | QueryResolve
  type BufferUsages = set<BufferUsage>

  datatype TextureUsage = TexCopySrc | TexCopyDst | TextureBinding | StorageBinding | RenderAttachment
  type TextureUsages = set<TextureUsage>

  datatype BufferDescriptor = BufferDescriptor(
    debugLabel: Option<string>,
    size: nat,
    usage: BufferUsages,
    mappedAtCreation: bool)

  datatype Extent3d = Extent3d(width: nat, height: nat, depthOrArrayLayers: nat)

  datatype TextureDescriptor = TextureDescriptor(
    debugLabel: Option<string>,
    size: Extent3d,
    mipLevelCount: nat,
    sampleCount: nat,
    dimension: TextureDimension,
    format: TextureFormat,
    usage: TextureUsages)

  datatype TextureViewDescriptor = TextureViewDescriptor(
    debugLabel: Option<string>,
    format: Option<TextureFormat>,
    dimension: Option<TextureViewDimension>,
    aspect: TextureAspect,
    baseMipLevel: nat,
    mipLevelCount: Option<nat>,
    baseArrayLayer: nat,
    arrayLayerCount: Option<nat>)

  datatype SamplerDescriptor = SamplerDescriptor(
    debugLabel: Option<string>,
    addressModeU: AddressMode,
    addressModeV: AddressMode,
    addressModeW: AddressMode,
    magFilter: FilterMode,
    minFilter: FilterMode,
    mipmapFilter: MipmapFilterMode,
    compare: Option<CompareFunction>,
    anisotropyClamp: nat,
    borderColor: Option<SamplerBorderColor>)

  datatype StorageTextureAccess = ReadOnly | WriteOnly | ReadWrite
  datatype BufferBindingType = UniformBuffer | StorageBuffer(readOnly: bool)

  datatype BindingType =
    | SampledTexture(filterable: bool, viewDimension: TextureViewDimension, multisampled: bool)
    | StorageTexture(access: StorageTextureAccess, format: TextureFormat, viewDimension: TextureViewDimension)
    | FilteringSampler
    | Buffer(ty: BufferBindingType, hasDynamicOffset: bool, minBindingSize: Option<nat>)

  datatype ShaderStage = VertexStage | FragmentStage | ComputeStage
  type ShaderStages = set<ShaderStage>

  datatype BindGroupLayoutEntry = BindGroupLayoutEntry(
    binding: nat,
    visibility: ShaderStages,
    ty: BindingType,
    count: Option<nat>)

  datatype PrimitiveTopology = PointList | LineList | LineStrip | TriangleList | TriangleStrip
  datatype FrontFace = Ccw | Cw
  datatype Face = Front | Back
  datatype PolygonMode = Fill | Line | Point

  datatype StencilOperation =
    | Keep | Zero | Replace | Invert
    | IncrementClamp | DecrementClamp | IncrementWrap | DecrementWrap

  datatype StencilFaceState = StencilFaceState(
    compare: CompareFunction,
    failOp: StencilOperation,
    depthFailOp: StencilOperation,
    passOp: StencilOperation)

  datatype BlendFactor =
    | FactorZero | One | Src | OneMinusSrc | SrcAlpha | OneMinusSrcAlpha
    | Dst | OneMinusDst | DstAlpha | OneMinusDstAlpha | SrcAlphaSaturated
    | Constant | OneMinusConstant

  datatype BlendOperation = Add | Subtract | ReverseSubtract | Min | Max

  datatype BlendComponent = BlendComponent(
    srcFactor: BlendFactor,
    dstFactor: BlendFactor,
    operation: BlendOperation)

  datatype BlendState = BlendState(color: BlendComponent, alpha: BlendComponent)

  datatype ColorTargetState = ColorTargetState(
    format: TextureFormat,
    blend: Option<BlendState>,
    writeMask: nat)

  datatype StencilState = StencilState(
    front: StencilFaceState,
    back: StencilFaceState,
    readMask: nat,
    writeMask: nat)

  /// The constant bias is an i32; the slope scale and clamp are f32 values.
  datatype DepthBiasState = DepthBiasState(constant: int, slopeScale: real, clamp: real)

  datatype DepthStencilState = DepthStencilState(
    format: TextureFormat,
    depthWriteEnabled: bool,
    depthCompare: CompareFunction,
    stencil: StencilState,
    bias: DepthBiasState)

  datatype PrimitiveState = PrimitiveState(
    topology: PrimitiveTopology,
    frontFace: FrontFace,
    cullMode: Option<Face>,
    unclippedDepth: bool,
    polygonMode: PolygonMode)

  datatype VertexFormat =
    | Float32 | Float32x2 | Float32x3 | Float32x4
    | Uint32 | Uint32x2 | Uint32x3 | Uint32x4
    | Sint32 | Sint32x2 | Sint32x3 | Sint32x4

  datatype VertexStepMode = StepVertex | StepInstance

  datatype VertexAttribute = VertexAttribute(format: VertexFormat, offset: nat, shaderLocation: nat)

  datatype VertexBufferLayout = VertexBufferLayout(
    arrayStride: nat,
    stepMode: VertexStepMode,
    attributes: seq<VertexAttribute>)

  datatype PresentMode = AutoVsync | AutoNoVsync | Fifo | FifoRelaxed | Immediate | Mailbox
  datatype CompositeAlphaMode = Auto | Opaque | PreMultiplied | PostMultiplied | Inherit

  datatype SurfaceConfiguration = SurfaceConfiguration(
    usage: TextureUsages,
    format: TextureFormat,
    width: nat,
    height: nat,
    presentMode: PresentMode,
    desiredMaximumFrameLatency: nat,
    alphaMode: CompositeAlphaMode,
    viewFormats: seq<TextureFormat>)
}
