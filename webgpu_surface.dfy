// Surfaces of the WebGPU backend: choosing the surface format from the
// adapter's capabilities, the present mode for a display sync, and
// acquiring frames whose views live in the hub.

module WebgpuSurface {
  import opened Wrappers
  import Blade
  import Wgpu
  import opened WebgpuHub
  import opened WebgpuContext
  import WebgpuResource

  /// The four 8-bit colour formats surfaces are used with.
  const SurfaceFormats: set<Blade.TextureFormat> :=
    {Blade.Bgra8Unorm, Blade.Bgra8UnormSrgb, Blade.Rgba8Unorm, Blade.Rgba8UnormSrgb}

  const WgpuSurfaceFormats: set<Wgpu.TextureFormat> :=
    {Wgpu.Bgra8Unorm, Wgpu.Bgra8UnormSrgb, Wgpu.Rgba8Unorm, Wgpu.Rgba8UnormSrgb}

  /// Linear output is written through an sRGB-encoding format, sRGB output
  /// through a plain one.
  function MapColorSpaceToFormat(colorSpace: Blade.ColorSpace): (r: Blade.TextureFormat)
    ensures r in SurfaceFormats && r != Blade.Rgba8Unorm && r != Blade.Rgba8UnormSrgb
    ensures r == Blade.Bgra8UnormSrgb <==> colorSpace == Blade.LinearSpace
    ensures r == Blade.Bgra8Unorm <==> colorSpace == Blade.SrgbSpace
  {
    match colorSpace
    case LinearSpace => Blade.Bgra8UnormSrgb
    case SrgbSpace => Blade.Bgra8Unorm
  }

  /// The surface's own format map: the four surface formats keep their
  /// name, anything else falls back to Bgra8UnormSrgb.
  function MapTextureFormat(format: Blade.TextureFormat): (r: Wgpu.TextureFormat)
    ensures r in WgpuSurfaceFormats
    ensures format in SurfaceFormats ==> r == WebgpuResource.MapTextureFormat(format)
    ensures format !in SurfaceFormats ==> r == Wgpu.Bgra8UnormSrgb
  {
    match format
    case Bgra8Unorm => Wgpu.Bgra8Unorm
    case Bgra8UnormSrgb => Wgpu.Bgra8UnormSrgb
    case Rgba8Unorm => Wgpu.Rgba8Unorm
    case Rgba8UnormSrgb => Wgpu.Rgba8UnormSrgb
    case _ => Wgpu.Bgra8UnormSrgb
  }

  /// The Blade format of a surface created with wgpu format `format`: the
  /// inverse of MapTextureFormat on the four surface formats, with the
  /// same fallback.
  function BladeSurfaceFormat(format: Wgpu.TextureFormat): (r: Blade.TextureFormat)
    ensures r in SurfaceFormats
    ensures format in WgpuSurfaceFormats ==> MapTextureFormat(r) == format
    ensures format !in WgpuSurfaceFormats ==> r == Blade.Bgra8UnormSrgb
  {
    match format
    case Bgra8Unorm => Blade.Bgra8Unorm
    case Bgra8UnormSrgb => Blade.Bgra8UnormSrgb
    case Rgba8Unorm => Blade.Rgba8Unorm
    case Rgba8UnormSrgb => Blade.Rgba8UnormSrgb
    case _ => Blade.Bgra8UnormSrgb
  }

  /// The configuration a surface starts with: 1x1, FIFO presentation, two
  /// frames of latency, render-attachment usage, and the first supported
  /// format and alpha mode (or Bgra8UnormSrgb and Auto when none is listed).
  function InitialConfiguration(formats: seq<Wgpu.TextureFormat>, alphaModes: seq<Wgpu.CompositeAlphaMode>):
    (config: Wgpu.SurfaceConfiguration)
    ensures config.width == 1 && config.height == 1
    ensures config.presentMode == Wgpu.Fifo && config.desiredMaximumFrameLatency == 2
    ensures config.usage == {Wgpu.RenderAttachment} && config.viewFormats == []
    ensures |formats| > 0 ==> config.format == formats[0]
    ensures |formats| == 0 ==> config.format == Wgpu.Bgra8UnormSrgb
    ensures |alphaModes| > 0 ==> config.alphaMode == alphaModes[0]
    ensures |alphaModes| == 0 ==> config.alphaMode == Wgpu.Auto
  {
    Wgpu.SurfaceConfiguration(
      {Wgpu.RenderAttachment},
      if |formats| > 0 then formats[0] else Wgpu.Bgra8UnormSrgb,
      1, 1,
      Wgpu.Fifo,
      2,
      if |alphaModes| > 0 then alphaModes[0] else Wgpu.Auto,
      [])
  }

  /// Block waits for vertical blank, Recent replaces the queued frame,
  /// Tear presents at once.
  function PresentModeFor(sync: Blade.DisplaySync): (r: Wgpu.PresentMode)
    ensures DisplaySyncOf(r) == Some(sync)
  {
    match sync
    case Block => Wgpu.Fifo
    case Recent => Wgpu.Mailbox
    case Tear => Wgpu.Immediate
  }

  function DisplaySyncOf(mode: Wgpu.PresentMode): Option<Blade.DisplaySync>
  {
    match mode
    case Fifo => Some(Blade.Block)
    case Mailbox => Some(Blade.Recent)
    case Immediate => Some(Blade.Tear)
    case _ => None
  }

  class Surface {
    const hub: Hub
    var config: Wgpu.SurfaceConfiguration
    const format: Blade.TextureFormat

    /// A surface whose adapter supports `formats` and `alphaModes`, in
    /// order of preference.
    constructor (hub: Hub, formats: seq<Wgpu.TextureFormat>, alphaModes: seq<Wgpu.CompositeAlphaMode>)
      ensures this.hub == hub
      ensures config == InitialConfiguration(formats, alphaModes)
      ensures format == BladeSurfaceFormat(config.format)
    {
      this.hub := hub;
      var initial := InitialConfiguration(formats, alphaModes);
      config := initial;
      format := BladeSurfaceFormat(initial.format);
    }

    /// Resizes the surface; nothing else in the configuration changes.
    method Reconfigure(width: nat, height: nat)
      modifies this
      ensures config == old(config).(width := width, height := height)
    {
      config := config.(width := width, height := height);
    }

    /// Surfaces are presented opaque in the format chosen at creation.
    function Info(): (info: Blade.SurfaceInfo)
      reads this
      ensures info.format == format && info.alpha == Blade.Ignored
    {
      Blade.SurfaceInfo(format, Blade.Ignored)
    }

    /// Stores a view of `texture` (the surface's current texture) in the
    /// hub and returns a frame carrying its key and the clamped size.
    method AcquireFrame(texture: SurfaceTexture) returns (frame: Frame)
      requires hub.textureViews.Valid()
      modifies hub.textureViews
      ensures hub.textureViews.Valid()
      ensures frame.viewKey.Some? && frame.viewKey.value.slot != NullSlot
      ensures frame.viewKey.value.slot !in old(hub.textureViews.entries)
      ensures hub.textureViews.entries ==
        old(hub.textureViews.entries)[frame.viewKey.value.slot := FrameView(texture)]
      ensures frame.IsValid() && frame.texture == Some(texture) && frame.format == format
      ensures frame.targetSize == (WebgpuResource.ClampU16(config.width), WebgpuResource.ClampU16(config.height))
    {
      var size := (WebgpuResource.ClampU16(config.width), WebgpuResource.ClampU16(config.height));
      var slot := hub.textureViews.Insert(FrameView(texture));
      frame := Frame(Some(texture), Some(TextureViewKey(slot)), size, format);
    }
  }

  /// `formats` and `alphaModes` are the surface capabilities the adapter
  /// reports; obtaining the platform surface itself is outside the model.
  method CreateSurface(ctx: Context, formats: seq<Wgpu.TextureFormat>, alphaModes: seq<Wgpu.CompositeAlphaMode>)
    returns (surface: Surface)
    ensures fresh(surface) && surface.hub == ctx.hub
    ensures surface.config == InitialConfiguration(formats, alphaModes)
    ensures surface.format in SurfaceFormats
    ensures |formats| > 0 && formats[0] in WgpuSurfaceFormats ==>
      MapTextureFormat(surface.format) == formats[0]
    ensures (|formats| == 0 || formats[0] !in WgpuSurfaceFormats) ==> surface.format == Blade.Bgra8UnormSrgb
  {
    surface := new Surface(ctx.hub, formats, alphaModes);
  }

  /// Applies the size and display sync; the format chosen at creation stays.
  method ReconfigureSurface(ctx: Context, surface: Surface, config: Blade.SurfaceConfig)
    modifies surface
    ensures surface.config == old(surface.config).(
      width := config.size.width, height := config.size.height,
      presentMode := PresentModeFor(config.displaySync))
    ensures surface.config.format == old(surface.config.format)
  {
    surface.config := surface.config.(width := config.size.width, height := config.size.height);
    surface.config := surface.config.(presentMode := PresentModeFor(config.displaySync));
  }
}
