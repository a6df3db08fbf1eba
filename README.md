# Blade WebGPU backend, GPUI web utilities and their tools — a Dafny model

This project models the sequential logic of the `blade` repository's WebGPU port and the tools around it.

- **WebGPU backend of `blade-graphics`** (`src/webgpu/mod.rs`, `resource.rs`, `pipeline.rs`, `surface.rs`):
  - the resource hub of slot maps;
  - the GPU timing query pool with its three-frame ring;
  - the bind-group cache and the dependency tracker that invalidates it;
  - the ring of uniform buffers that grows to powers of two;
  - the context's dirty-range tracking of shadowed buffers;
  - the translation of Blade descriptors into wgpu descriptors (buffers, textures, views, samplers, bind-group layouts, compute and render pipelines, surfaces).
- **Trace analysis scripts** (`scripts/analyze-trace.py`, `scripts/analyze-webgpu-inspector.py`):
  - parent-chain stack walking and self/total accounting of profiler samples;
  - bottleneck categorisation;
  - the summary of a WebGPU Inspector recording.
- **`gpui-util-wasm`**: string truncation, `post_inc`, `Deferred`, the logging adapters, path normalisation, duration formatting, the HTTP stubs and `ArcCow`.
- **`run-wasm-debug`**: its command-line parser and the cargo arguments it builds.
- **Example programs**:
  - the GPUI test harness's category navigation and state reset;
  - the drag items and test image of the advanced tests, and the large text of the stress tests;
  - colour packing and quad builders of the `gpui-web` example;
  - the random initial state, ping-pong and dispatch size of the game of life;
  - the texture example's checkerboard.

## Modelling choices

- **Handles and maps.** Every wgpu object is an opaque token. Each `SlotMap` of the hub is a class holding a Dafny `map` from slot number to entry. Slot 0 is the null key, and insertion returns a fresh non-null key. A Rust `HashMap` is a `map`, and a Python `dict` is an insertion-ordered association list (module `PyDict`).
- **Locks.** The `RwLock`/`Mutex` wrappers vanish, because every operation is sequential.
- **Stateful objects.** Objects whose fields change in place are classes with `modifies` frames: `SlotMap`, `Hub`, `TimingQueryPool`, `DependencyTracker`, `BindGroupCache`, `UniformBuffer`, `Context`, `Surface`, `Deferred`, `TestHarness` and the game-of-life `Simulation`.
- **Context operations.** The operations that `resource.rs`, `pipeline.rs` and `surface.rs` add to `Context` are module-level methods taking the context.
- **Loops.** Loops in the source are loops with invariants (`while` or `for`), and each is proved against a specification function. Examples: `get_full_stack`, `analyze_samples`, the bottleneck categorisation, `sync_dirty_buffers`, `register`, the inspector's dedup and dispatch counting, `generate_random_state`, `generate_checkerboard`, `create_test_image`, `generate_large_text`, `normalize_path` and the argument loop of `Args::parse`.
- **Fixed-width integers.** The u64 wrap of the game-of-life generator, u16 clamping of target sizes, u32 ports and status codes are explicit. Two u64 overflows of the backend are not; they are listed under "Left out".
- **Blade enumerations.** The Blade types that the backend maps from are declared in module `Blade`. The wgpu types it maps to are declared in module `Wgpu`.

## Model

| member | source | states |
|---|---|---|
| WebgpuHub.SlotMap.constructor | blade-graphics/src/webgpu/mod.rs:438-447 | a new slot map is empty |
| WebgpuHub.SlotMap.Insert | blade-graphics/src/webgpu/resource.rs:226-233 | insertion returns a key that is non-null and not yet used, and adds exactly that entry |
| WebgpuHub.SlotMap.Remove | blade-graphics/src/webgpu/resource.rs:247-261 | removal deletes exactly the key and returns the removed value, or None for an unknown key |
| WebgpuHub.SlotMap.Update | blade-graphics/src/webgpu/mod.rs:842-857 | an in-place update of a present key changes only that entry |
| WebgpuHub.Hub.constructor | blade-graphics/src/webgpu/mod.rs:428-447 | all six resource maps of a new hub are empty and distinct |
| WebgpuHub.Frame.FrameTexture | blade-graphics/src/webgpu/mod.rs:955-961 | a frame's texture is the null texture key carrying the frame's format and size |
| WebgpuHub.Frame.FrameTextureView | blade-graphics/src/webgpu/mod.rs:963-969 | a frame's view is its stored view key (null key when absent), with the frame's size and the colour aspect |
| WebgpuTiming.CollectResults | blade-graphics/src/webgpu/mod.rs:247-256 | result i pairs name i with timestamps 2i and 2i+1, and is produced only while timestamp 2i+1 exists |
| WebgpuTiming.TimingQueryPool.constructor | blade-graphics/src/webgpu/mod.rs:143-151 | a new pool is uninitialised at frame 0 with no results |
| WebgpuTiming.TimingQueryPool.Init | blade-graphics/src/webgpu/mod.rs:154-169 | init creates three empty frames once and is a no-op when already initialised |
| WebgpuTiming.TimingQueryPool.BeginPass | blade-graphics/src/webgpu/mod.rs:172-186 | None when uninitialised or when 64 passes are recorded; otherwise returns query index 2·pass_count, appends the name and increments the count |
| WebgpuTiming.TimingQueryPool.ResolveQueryCount | blade-graphics/src/webgpu/mod.rs:189-210 | a resolve happens exactly when the current frame recorded passes, and covers 2·pass_count queries within the frame's query set |
| WebgpuTiming.TimingQueryPool.AdvanceFrame | blade-graphics/src/webgpu/mod.rs:214-264 | the current frame moves to (current+1) mod 3, the frame after it is reset, and the results come from the read-back timestamps; uninitialised pools are unchanged |
| WebgpuTiming.ResultsOf | blade-graphics/src/webgpu/mod.rs:247-256 | the number of results is the smaller of the name count and half the timestamp count |
| WebgpuTiming.ResultsOfAt | blade-graphics/src/webgpu/mod.rs:247-256 | result i is (name i, timestamp 2i, timestamp 2i+1) |
| WebgpuTiming.ResultsOfMeaning | blade-graphics/src/webgpu/mod.rs:247-256 | any result list with that length and those elements is the specified one |
| WebgpuUniform.DoubleUntil | blade-graphics/src/webgpu/mod.rs:729 | doubling a power of two until it reaches n gives the least such power of two at or above its start |
| WebgpuUniform.NextPowerOfTwo | blade-graphics/src/webgpu/mod.rs:729 | `next_power_of_two` is a power of two at least n whose half is below n (or 1) |
| WebgpuUniform.PowerOfTwoAtLeast | blade-graphics/src/webgpu/mod.rs:729 | `next_power_of_two` is the least power of two at or above n |
| WebgpuUniform.PowersOfTwoOrdered | blade-graphics/src/webgpu/mod.rs:729 | distinct powers of two differ by at least a factor of two |
| WebgpuUniform.GrownCapacity | blade-graphics/src/webgpu/mod.rs:729 | the grown capacity, next power of two of max(size, 256), is a power of two at least size and at least 256 |
| WebgpuUniform.UniformBuffer.constructor | blade-graphics/src/webgpu/mod.rs:712-718 | a new ring has three empty slots, capacity 0 and index 0 |
| WebgpuUniform.UniformBuffer.EnsureCapacity | blade-graphics/src/webgpu/mod.rs:723-752 | returns index (old+1) mod 3; growth sets the capacity to the grown capacity and refills all three slots; capacity never decreases and covers size |
| WebgpuBindGroups.AddDependent | blade-graphics/src/webgpu/mod.rs:540-566 | registering a key under a set of resources lists it under each of them and drops no earlier dependent |
| WebgpuBindGroups.DependencyTracker.constructor | blade-graphics/src/webgpu/mod.rs:531-537 | a new tracker has no dependencies |
| WebgpuBindGroups.DependencyTracker.Register | blade-graphics/src/webgpu/mod.rs:540-566 | the key is recorded under every buffer, texture view and sampler it binds; plain data is ignored |
| WebgpuBindGroups.DependencyTracker.Track | blade-graphics/src/webgpu/mod.rs:545-564 | one binding records the key under its own resource kind only |
| WebgpuBindGroups.DependencyTracker.RemoveBuffer | blade-graphics/src/webgpu/mod.rs:574-576 | only the buffer's entry is removed |
| WebgpuBindGroups.DependencyTracker.RemoveTextureView | blade-graphics/src/webgpu/mod.rs:583-585 | only the view's entry is removed |
| WebgpuBindGroups.DependencyTracker.RemoveSampler | blade-graphics/src/webgpu/mod.rs:591-593 | only the sampler's entry is removed |
| WebgpuBindGroups.CoveredByRegister | blade-graphics/src/webgpu/mod.rs:540-566 | registering a new cache key keeps every cached key listed under each resource it binds |
| WebgpuBindGroups.CoveredBySubset | blade-graphics/src/webgpu/mod.rs:682-686 | evicting groups keeps the coverage invariant |
| WebgpuBindGroups.CoveredByInvalidate | blade-graphics/src/webgpu/mod.rs:651-678 | after dropping a resource's dependents, no remaining cached group binds it, and coverage holds without its entry |
| WebgpuBindGroups.BindGroupCache.constructor | blade-graphics/src/webgpu/mod.rs:611-619 | a new cache is empty with zero hits and misses |
| WebgpuBindGroups.BindGroupCache.GetOrCreate | blade-graphics/src/webgpu/mod.rs:623-647 | a hit counts a hit and leaves the map unchanged; a miss counts a miss, registers dependencies, evicts below the limit and inserts the created group, so a miss on a full cache leaves exactly max_size groups and any other miss one more than before; hits+misses counts calls |
| WebgpuBindGroups.BindGroupCache.EvictToFit | blade-graphics/src/webgpu/mod.rs:634-637 | eviction repeats until fewer than max_size groups remain and no further: a full cache is left with exactly max_size − 1 groups, survivors unchanged |
| WebgpuBindGroups.BindGroupCache.EvictOne | blade-graphics/src/webgpu/mod.rs:682-686 | one eviction removes exactly one group and keeps the rest |
| WebgpuBindGroups.BindGroupCache.RemoveGroups | blade-graphics/src/webgpu/mod.rs:651-658 | exactly the dependents are removed from the cache |
| WebgpuBindGroups.BindGroupCache.InvalidateBuffer | blade-graphics/src/webgpu/mod.rs:651-658 | removes every group registered under the buffer and its dependency entry; no remaining group binds it; other groups and counters unchanged |
| WebgpuBindGroups.BindGroupCache.InvalidateTextureView | blade-graphics/src/webgpu/mod.rs:661-668 | the same for a texture view |
| WebgpuBindGroups.BindGroupCache.InvalidateSampler | blade-graphics/src/webgpu/mod.rs:671-678 | the same for a sampler |
| WebgpuBindGroups.BindGroupCache.Stats | blade-graphics/src/webgpu/mod.rs:689-691 | stats are (hits, misses, current size) |
| WebgpuContext.MergeRange | blade-graphics/src/webgpu/mod.rs:842-857 | the new dirty range is the hull of the old range and [offset, offset+size), even when disjoint |
| WebgpuContext.SyncEntry | blade-graphics/src/webgpu/mod.rs:862-877 | a buffer uploads only when dirty and shadowed, and the upload carries exactly the shadow bytes of the dirty range clipped to the shadow |
| WebgpuContext.MarkThenSync | blade-graphics/src/webgpu/mod.rs:842-877 | marking a range of a clean shadowed buffer and syncing uploads exactly that slice of the shadow |
| WebgpuContext.Context.constructor | blade-graphics/src/webgpu/mod.rs:755-771 | a new context has an empty hub, an empty bind-group cache of at most 1024 groups and an uninitialised timing pool |
| WebgpuContext.Context.Capabilities | blade-graphics/src/webgpu/mod.rs:802-811 | no ray query, no dual-source blending, sample counts 1 and 4 |
| WebgpuContext.Context.MarkBufferDirtyRange | blade-graphics/src/webgpu/mod.rs:842-857 | a known buffer's dirty range becomes the merged range; unknown keys change nothing |
| WebgpuContext.Context.MarkBufferDirty | blade-graphics/src/webgpu/mod.rs:815-817 | marks the whole buffer, from 0 to its size |
| WebgpuContext.Context.SyncBufferRange | blade-graphics/src/webgpu/mod.rs:837-839 | marks exactly the given range |
| WebgpuContext.Context.SyncDirtyBuffers | blade-graphics/src/webgpu/mod.rs:862-877 | every dirty range is cleared, nothing else changes, and the uploads are exactly those the specification gives per buffer |
| WebgpuContext.Context.TimingSupported | blade-graphics/src/webgpu/mod.rs:880-882 | timing is supported exactly when the device limits say so |
| WebgpuContext.Context.TimingResults | blade-graphics/src/webgpu/mod.rs:888-891 | returns the pool's last results |
| WebgpuContext.Context.CacheStats | blade-graphics/src/webgpu/mod.rs:894-897 | returns the bind-group cache's statistics |
| WebgpuContext.Context.EnsureTimingInitialized | blade-graphics/src/webgpu/mod.rs:901-906 | initialises the pool only when timing is supported and it is uninitialised |
| WebgpuResource.TextureFormatRoundTrip | blade-graphics/src/webgpu/resource.rs:9-49 | every Blade texture format maps to a wgpu format that maps back to it, so the map is total and injective |
| WebgpuResource.MapTextureDimension | blade-graphics/src/webgpu/resource.rs:51-57 | the dimension map is name-for-name |
| WebgpuResource.MapTextureViewDimension | blade-graphics/src/webgpu/resource.rs:59-69 | name-for-name, except that D1Array maps to D1 |
| WebgpuResource.AspectFromFormat | blade-graphics/src/webgpu/resource.rs:72-79 | DepthOnly exactly for Depth32Float, StencilOnly exactly for Stencil8Uint, All otherwise |
| WebgpuResource.MapAddressMode | blade-graphics/src/webgpu/resource.rs:81-88 | the address-mode map is name-for-name |
| WebgpuResource.MapFilterMode | blade-graphics/src/webgpu/resource.rs:90-95 | the filter map is name-for-name |
| WebgpuResource.MapMipmapFilterMode | blade-graphics/src/webgpu/resource.rs:97-102 | the mipmap filter map is name-for-name |
| WebgpuResource.MapCompareFunction | blade-graphics/src/webgpu/resource.rs:104-115 | the compare map is name-for-name |
| WebgpuResource.MapBorderColor | blade-graphics/src/webgpu/resource.rs:394-398 | border colours map name-for-name and never to Zero |
| WebgpuResource.Label | blade-graphics/src/webgpu/resource.rs:215-219 | an empty name gives no label, a non-empty name gives itself |
| WebgpuResource.BufferUsageFor | blade-graphics/src/webgpu/resource.rs:176-200 | copy, storage, uniform, vertex and index for all memory kinds, plus indirect only for device memory |
| WebgpuResource.ShadowFor | blade-graphics/src/webgpu/resource.rs:201-211 | upload and shared memory get a zero-filled shadow of exactly the buffer size; device memory gets none |
| WebgpuResource.TextureUsageFor | blade-graphics/src/webgpu/resource.rs:267-280 | copy flags always; binding, storage and attachment exactly when resource, storage or target is requested |
| WebgpuResource.TextureDescriptorFor | blade-graphics/src/webgpu/resource.rs:263-296 | depth-or-layers is the depth for 3D textures and the layer count otherwise; format, dimension and usage follow their maps |
| WebgpuResource.ClampU16 | blade-graphics/src/webgpu/resource.rs:305-308 | target sizes clamp to u16::MAX |
| WebgpuResource.TextureViewDescriptorFor | blade-graphics/src/webgpu/resource.rs:329-372 | a view gets the mapped format, view dimension and aspect |
| WebgpuResource.AnisotropyClamp | blade-graphics/src/webgpu/resource.rs:415-416 | the anisotropy clamp lies in [1, 65535] and keeps values already inside |
| WebgpuResource.SamplerDescriptorFor | blade-graphics/src/webgpu/resource.rs:385-426 | the label is the name or none when empty; address modes, filters, compare function and border colour each translate back to the requested value, compare and border present exactly when requested; the anisotropy clamp is the requested value forced into [1, 65535] |
| WebgpuResource.BottomLevelAccelerationStructureSizes | blade-graphics/src/webgpu/resource.rs:125-133 | always the unsupported-feature error |
| WebgpuResource.TopLevelAccelerationStructureSizes | blade-graphics/src/webgpu/resource.rs:138-146 | always the unsupported-feature error |
| WebgpuResource.AccelerationStructureInstanceBuffer | blade-graphics/src/webgpu/resource.rs:151-160 | always the unsupported-feature error |
| WebgpuResource.CreateBuffer | blade-graphics/src/webgpu/resource.rs:175-240 | inserts one entry under a fresh key, with the mapped descriptor, its shadow and no dirty range; the buffer has data exactly for upload or shared memory |
| WebgpuResource.SyncBuffer | blade-graphics/src/webgpu/resource.rs:242-245 | marks the whole buffer dirty |
| WebgpuResource.DestroyBuffer | blade-graphics/src/webgpu/resource.rs:247-261 | drops exactly the cached bind groups that use the buffer and its dependency entry, keeps the other dependency maps and the hit/miss counters, then removes its hub entry |
| WebgpuResource.CreateTexture | blade-graphics/src/webgpu/resource.rs:263-320 | inserts one entry under a fresh key, and the handle's target size is clamped to u16 |
| WebgpuResource.DestroyTexture | blade-graphics/src/webgpu/resource.rs:322-327 | removes exactly the texture's entry |
| WebgpuResource.CreateTextureView | blade-graphics/src/webgpu/resource.rs:329-372 | inserts one view of the texture under a fresh key, keeping the texture's target size |
| WebgpuResource.DestroyTextureView | blade-graphics/src/webgpu/resource.rs:374-383 | drops exactly the cached bind groups that use the view and its dependency entry, keeps the other dependency maps and the hit/miss counters, then removes its hub entry |
| WebgpuResource.CreateSampler | blade-graphics/src/webgpu/resource.rs:385-426 | inserts one sampler descriptor under a fresh key |
| WebgpuResource.DestroySampler | blade-graphics/src/webgpu/resource.rs:428-437 | drops exactly the cached bind groups that use the sampler and its dependency entry, keeps the other dependency maps and the hit/miss counters, then removes its hub entry |
| WebgpuPipeline.StorageTextureAccessFor | blade-graphics/src/webgpu/pipeline.rs:41-61 | ReadWrite exactly with load and store, WriteOnly exactly with store alone, ReadOnly exactly without store |
| WebgpuPipeline.MapBindingType | blade-graphics/src/webgpu/pipeline.rs:36-105 | textures without access are sampled float 2D, otherwise 2D storage textures; buffers without access are uniform, otherwise storage, read-only without store; buffer arrays are read-only storage; plain data is uniform |
| WebgpuPipeline.MapShaderVisibility | blade-graphics/src/webgpu/pipeline.rs:108-120 | exactly the stages whose flag is present |
| WebgpuPipeline.BindingCount | blade-graphics/src/webgpu/pipeline.rs:276-283 | the count is set only for array bindings with a non-zero count |
| WebgpuPipeline.BindGroupLayoutEntries | blade-graphics/src/webgpu/pipeline.rs:253-292 | no entries for empty visibility; otherwise entry i has binding i, the mapped type, the visibility and the array count |
| WebgpuPipeline.BindGroupLayouts | blade-graphics/src/webgpu/pipeline.rs:387-393 | one layout per shader data group |
| WebgpuPipeline.GroupMappings | blade-graphics/src/webgpu/pipeline.rs:365-382 | the target list of group g, binding b is exactly [slot (g, b)] |
| WebgpuPipeline.MapPrimitiveTopology | blade-graphics/src/webgpu/pipeline.rs:123-131 | the topology map is name-for-name |
| WebgpuPipeline.MapFrontFace | blade-graphics/src/webgpu/pipeline.rs:134-139 | the front-face map is name-for-name |
| WebgpuPipeline.MapFace | blade-graphics/src/webgpu/pipeline.rs:142-147 | the face map is name-for-name |
| WebgpuPipeline.MapStencilOperation | blade-graphics/src/webgpu/pipeline.rs:164-175 | the stencil-operation map is name-for-name |
| WebgpuPipeline.MapBlendFactor | blade-graphics/src/webgpu/pipeline.rs:188-211 | the single-source blend factors map name-for-name |
| WebgpuPipeline.MapBlendOperation | blade-graphics/src/webgpu/pipeline.rs:214-222 | the blend-operation map is name-for-name |
| WebgpuPipeline.MapVertexFormat | blade-graphics/src/webgpu/pipeline.rs:234-249 | the vertex-format map is name-for-name |
| WebgpuPipeline.MapBlendComponent | blade-graphics/src/webgpu/pipeline.rs:225-231 | the factors and the operation are mapped componentwise |
| WebgpuPipeline.MapStencilFaceState | blade-graphics/src/webgpu/pipeline.rs:178-185 | compare and the three stencil operations are mapped componentwise |
| WebgpuPipeline.PolygonModeFor | blade-graphics/src/webgpu/pipeline.rs:580-584 | Line exactly for wireframe, Fill otherwise |
| WebgpuPipeline.MapPrimitiveState | blade-graphics/src/webgpu/pipeline.rs:574-586 | topology, front face, optional cull face, unclipped depth and polygon mode are carried over |
| WebgpuPipeline.ColorTargetFor | blade-graphics/src/webgpu/pipeline.rs:530-545 | the format and both blend components translate back to the requested ones, blend present exactly when requested; the write mask keeps the four colour bits and drops exactly a multiple of 16 (`from_bits_truncate`) |
| WebgpuPipeline.DepthStencilFor | blade-graphics/src/webgpu/pipeline.rs:546-562 | format, depth write, depth compare, both stencil faces, the stencil masks and the depth bias all translate back to the requested ones |
| WebgpuPipeline.Selected | blade-graphics/src/webgpu/pipeline.rs:502-515 | buffer k's mappings are exactly those with buffer index k |
| WebgpuPipeline.BuildVertexAttributes | blade-graphics/src/webgpu/pipeline.rs:502-515 | vertex buffer k gets the mappings of buffer k in order, at shader locations 0, 1, 2, … |
| WebgpuPipeline.AttributesForBuffer | blade-graphics/src/webgpu/pipeline.rs:504-514 | the attributes of one buffer satisfy that specification |
| WebgpuPipeline.BuildVertexBufferLayouts | blade-graphics/src/webgpu/pipeline.rs:517-528 | each layout keeps its stride and attributes, and its step mode is Instance exactly when instanced |
| WebgpuPipeline.CreateComputePipeline | blade-graphics/src/webgpu/pipeline.rs:357-431 | inserts a pipeline with one bind-group layout per group under a fresh key, and the handle carries the group mappings and workgroup size |
| WebgpuPipeline.DestroyComputePipeline | blade-graphics/src/webgpu/pipeline.rs:433-436 | removes exactly that entry |
| WebgpuPipeline.BuildRenderState | blade-graphics/src/webgpu/pipeline.rs:502-598 | the render state carries the mapped primitive state, vertex buffers and optional depth-stencil; the translated colour targets are present exactly when there is a fragment shader, and none otherwise |
| WebgpuPipeline.CreateRenderPipeline | blade-graphics/src/webgpu/pipeline.rs:438-618 | inserts one render pipeline under a fresh key, with its layouts and render state, whose colour targets are attached only for a pipeline with a fragment shader; the handle carries the topology and group mappings |
| WebgpuPipeline.DestroyRenderPipeline | blade-graphics/src/webgpu/pipeline.rs:620-623 | removes exactly that entry |
| WebgpuSurface.MapColorSpaceToFormat | blade-graphics/src/webgpu/surface.rs:9-14 | Linear gives Bgra8UnormSrgb and Srgb gives Bgra8Unorm |
| WebgpuSurface.MapTextureFormat | blade-graphics/src/webgpu/surface.rs:17-26 | the four 8-bit RGBA/BGRA formats map to themselves, everything else to Bgra8UnormSrgb |
| WebgpuSurface.BladeSurfaceFormat | blade-graphics/src/webgpu/surface.rs:152-158 | inverts that map on the four formats, with Bgra8UnormSrgb as the fallback |
| WebgpuSurface.InitialConfiguration | blade-graphics/src/webgpu/surface.rs:129-150 | a 1×1 Fifo configuration, render-attachment usage, latency 2, the first supported format and alpha mode (or the defaults) |
| WebgpuSurface.PresentModeFor | blade-graphics/src/webgpu/surface.rs:173-185 | Block gives Fifo, Recent gives Mailbox, Tear gives Immediate, and the map is inverted by the display-sync reading |
| WebgpuSurface.Surface.constructor | blade-graphics/src/webgpu/surface.rs:116-166 | a surface starts with the initial configuration and the Blade reading of its format |
| WebgpuSurface.Surface.Reconfigure | blade-graphics/src/webgpu/mod.rs:923-927 | only width and height change |
| WebgpuSurface.Surface.Info | blade-graphics/src/webgpu/surface.rs:198-203 | the surface reports its format and ignored alpha |
| WebgpuSurface.Surface.AcquireFrame | blade-graphics/src/webgpu/surface.rs:209-226 | inserts one view under a fresh key and returns a valid frame with that key and a size clamped to u16 |
| WebgpuSurface.CreateSurface | blade-graphics/src/webgpu/surface.rs:116-166 | the surface's format reads back to the first supported wgpu format when it is one of the four, else Bgra8UnormSrgb |
| WebgpuSurface.ReconfigureSurface | blade-graphics/src/webgpu/surface.rs:173-185 | sets the size and present mode from the config and keeps the format |
| TraceAnalyzer.GetFullStack | scripts/analyze-trace.py:54-67 | the loop computes the specified parent-chain walk |
| TraceAnalyzer.StackFromEntries | scripts/analyze-trace.py:58-66 | the first entry is the start node, each next entry is the parent of the previous one, and every entry is an unvisited node of the table |
| TraceAnalyzer.StackFromDistinct | scripts/analyze-trace.py:54-67 | no node id repeats |
| TraceAnalyzer.StackFromLength | scripts/analyze-trace.py:54-67 | the walk is no longer than the number of unvisited ids in the table |
| TraceAnalyzer.StackFromLinks | scripts/analyze-trace.py:58-66 | the walk is empty exactly for a falsy, visited or missing id, so id 0 ends it |
| TraceAnalyzer.FullStackShape | scripts/analyze-trace.py:54-67 | a full stack has distinct ids, is no longer than the table and starts at the sampled node |
| TraceAnalyzer.StacksOf | scripts/analyze-trace.py:80-82 | there is one stack per sample |
| TraceAnalyzer.AnalyzeSamples | scripts/analyze-trace.py:70-111 | the loop computes the specified analysis of the samples' stacks |
| TraceAnalyzer.CreditEntries | scripts/analyze-trace.py:93-103 | the inner loop computes the specified crediting of one stack |
| TraceAnalyzer.CreditFromEffect | scripts/analyze-trace.py:93-103 | crediting leaves self metrics alone, credits each unseen name once and counts every adjacent parent/child pair |
| TraceAnalyzer.CreditSampleEffect | scripts/analyze-trace.py:81-103 | one sample credits self metrics only to its leaf, totals once per distinct name, and one call-tree edge per adjacent pair; an empty stack changes nothing |
| TraceAnalyzer.AnalysisMeaning | scripts/analyze-trace.py:70-111 | self samples count leaf occurrences, total samples count containing stacks, times sum the deltas (0 past the end of the delta list), and call-tree counts sum adjacent pairs |
| TraceAnalyzer.SelfBelowTotal | scripts/analyze-trace.py:88-98 | self samples ≤ total samples, and self time ≤ total time for non-negative deltas |
| TraceAnalyzer.AnalyzeSamplesMeaning | scripts/analyze-trace.py:70-111 | for the analysis returned, self_samples[n] ≤ total_samples[n] and self_time[n] ≤ total_time[n] |
| TraceAnalyzer.Classify | scripts/analyze-trace.py:245-262 | a name goes to the first category whose pattern it matches, in the fixed order, or to none |
| TraceAnalyzer.Categorize | scripts/analyze-trace.py:235-262 | the loop builds exactly the specified category lists, and a category key exists only when its list is non-empty |
| TraceAnalyzer.Place | scripts/analyze-trace.py:242-262 | one function is appended to at most one category |
| TraceAnalyzer.InCategoryMeaning | scripts/analyze-trace.py:242-262 | an entry of a category has share ≥ 0.5%, matches that category first, and appears in no other category |
| TraceAnalyzer.InCategoryFrom | scripts/analyze-trace.py:242-262 | an entry of a category is classified into it |
| TraceAnalyzer.Truncate | scripts/analyze-trace.py:136-140 | a short string is kept; otherwise the result has exactly max_len characters ending in "..." (for max_len ≥ 3) |
| TraceAnalyzer.TruncateBelowThree | scripts/analyze-trace.py:136-140 | below max_len 3 the result is longer than max_len: truncate("abcdef", 2) is "abcde..." |
| TraceAnalyzer.FormatTime | scripts/analyze-trace.py:114-121 | seconds at or above 1 000 000 µs, milliseconds at or above 1000 µs, and plain microseconds below that |
| InspectorSummary.FrameCount | scripts/analyze-webgpu-inspector.py:31-33 | the frame count is the maximum frame index + 1, or 0 without markers |
| InspectorSummary.ParseDraws | scripts/analyze-webgpu-inspector.py:35-51 | direct draws come first in match order, followed by the indirect draws |
| InspectorSummary.ParseDispatches | scripts/analyze-webgpu-inspector.py:54-61 | one record per match, whose total workgroups is x·y·z |
| InspectorSummary.ParseBuffers | scripts/analyze-webgpu-inspector.py:64-77 | size-first matches come before label-first matches, each with its size and label |
| InspectorSummary.ParseRecording | scripts/analyze-webgpu-inspector.py:15-90 | the recording holds the parsed records, the frame count and their summary |
| InspectorSummary.DirectDraws | scripts/analyze-webgpu-inspector.py:100 | the direct draws are exactly the draws without a type (both directions) |
| InspectorSummary.IndirectDraws | scripts/analyze-webgpu-inspector.py:101 | the indirect draws are exactly the draws of type indirect (both directions) |
| InspectorSummary.DrawFiltersOrdered | scripts/analyze-webgpu-inspector.py:100-101 | both list comprehensions keep the recording's order: filtering a concatenation concatenates the filtered parts |
| InspectorSummary.DrawFiltersIdempotent | scripts/analyze-webgpu-inspector.py:100-101 | filtering an already filtered list changes nothing |
| InspectorSummary.DrawSplit | scripts/analyze-webgpu-inspector.py:100-105 | direct_draws + indirect_draws = draw_calls |
| InspectorSummary.NoDirectDrawsNoVertices | scripts/analyze-webgpu-inspector.py:107-111 | without direct draws, total vertices and instances are 0 |
| InspectorSummary.DispatchTypesTotal | scripts/analyze-webgpu-inspector.py:120-127 | the dispatch-type counts sum to dispatch_calls |
| InspectorSummary.UniqueBuffersKeys | scripts/analyze-webgpu-inspector.py:134-142 | the dedup keys are exactly the labels, each once |
| InspectorSummary.UniqueBuffersFirstWins | scripts/analyze-webgpu-inspector.py:134-138 | a label's kept size is that of its first occurrence |
| InspectorSummary.UniqueBuffersCount | scripts/analyze-webgpu-inspector.py:140 | buffer_count is the number of distinct labels |
| InspectorSummary.SummaryOf | scripts/analyze-webgpu-inspector.py:93-144 | sections are present exactly when their lists are non-empty; per-frame keys exist only when frame_count > 0; the dispatch types sum to the dispatch calls; the buffer total is the sum of the kept sizes |
| InspectorSummary.CountDispatchTypes | scripts/analyze-webgpu-inspector.py:123-127 | the loop counts "XxYxZ" keys as specified |
| InspectorSummary.DedupBuffers | scripts/analyze-webgpu-inspector.py:135-138 | the loop keeps the first size per label, as specified |
| InspectorSummary.ComputeSummary | scripts/analyze-webgpu-inspector.py:93-144 | computes the specified summary without changing its input |
| UtilLib.Truncate | vendor/gpui-util-wasm/src/lib.rs:65-70 | s itself when short enough, otherwise its prefix of exactly max_chars characters |
| UtilLib.TruncateAndRemoveFront | vendor/gpui-util-wasm/src/lib.rs:73-83 | s itself when short enough, otherwise its suffix of exactly max_chars characters |
| UtilLib.TruncateSplit | vendor/gpui-util-wasm/src/lib.rs:65-83 | a prefix of k characters followed by the suffix of the rest gives back s |
| UtilLib.TruncateIdempotent | vendor/gpui-util-wasm/src/lib.rs:65-83 | both truncations are idempotent |
| UtilLib.PostInc | vendor/gpui-util-wasm/src/lib.rs:86-90 | returns the old value and leaves value + 1 |
| UtilLib.Deferred.constructor | vendor/gpui-util-wasm/src/lib.rs:97-99 | a new guard holds its closure, not yet run |
| UtilLib.Deferred.Drop | vendor/gpui-util-wasm/src/lib.rs:107-112 | dropping runs the held closure once, if still held |
| UtilLib.Deferred.Abort | vendor/gpui-util-wasm/src/lib.rs:102-104 | aborting discards the closure without running it |
| UtilLib.Defer | vendor/gpui-util-wasm/src/lib.rs:18-20 | defer wraps its closure in a fresh guard |
| UtilLib.DeferredLifetime | vendor/gpui-util-wasm/src/lib.rs:93-113 | the closure runs exactly once at drop unless aborted, and then never |
| UtilLib.LogErr | vendor/gpui-util-wasm/src/lib.rs:29-37 | Ok(v) gives Some(v) and logs nothing; Err(e) gives None and logs e's debug text at error level |
| UtilLib.WarnOnErr | vendor/gpui-util-wasm/src/lib.rs:39-47 | Ok(v) gives Some(v) and logs nothing; Err(e) gives None and logs e's debug text at warning level |
| UtilLib.LogNone | vendor/gpui-util-wasm/src/lib.rs:56-61 | the option is returned unchanged, with one warning carrying the message exactly when it is None |
| UtilLib.LogAdapters | vendor/gpui-util-wasm/src/lib.rs:29-61 | log_err and warn_on_err give the same value and log the same text at error and warning level; a failure passed on to log_none is logged twice, a success never |
| UtilPaths.Normalize | vendor/gpui-util-wasm/src/paths.rs:6-20 | the result has no current-dir or parent-dir components and is no longer than its input |
| UtilPaths.NormalizePath | vendor/gpui-util-wasm/src/paths.rs:6-20 | the loop computes the specified normalisation |
| UtilPaths.NormalizeNoDots | vendor/gpui-util-wasm/src/paths.rs:16-19 | a path without dot components is already normal |
| UtilPaths.NormalizeIdempotent | vendor/gpui-util-wasm/src/paths.rs:6-20 | normalisation is idempotent |
| UtilPaths.NormalizeAppend | vendor/gpui-util-wasm/src/paths.rs:6-20 | normalising a concatenation may first normalise the prefix |
| UtilPaths.NormalizeWithoutParent | vendor/gpui-util-wasm/src/paths.rs:10-15 | without parent components, normalisation only drops current-dir components |
| UtilPaths.IsDescendant | vendor/gpui-util-wasm/src/paths.rs:23-25 | true exactly when the ancestor is a strict component-wise prefix |
| UtilPaths.DescendantOrder | vendor/gpui-util-wasm/src/paths.rs:23-25 | being a descendant is irreflexive and transitive |
| UtilPaths.RelativePath | vendor/gpui-util-wasm/src/paths.rs:28-37 | Some(r) exactly when the normalised target starts with the normalised base, and then base joined with r is the normalised target |
| UtilPaths.RelativePathOfDescendant | vendor/gpui-util-wasm/src/paths.rs:23-37 | for normal paths, a descendant's relative path is its remaining components, and a base is relative to itself by the empty path |
| UtilTime.ShownOf | vendor/gpui-util-wasm/src/time.rs:6-25 | hours and minutes at or above 3600 s; minutes and seconds from 60 to 3599 s; seconds and milliseconds from 1 to 59 s; milliseconds below a second when there are any; microseconds otherwise, each part computed by division |
| UtilTime.FormatDuration | vendor/gpui-util-wasm/src/time.rs:6-25 | the text for each of the five ranges: "Hh Mm", "Mm Ss", "S.mmms", "Nms" and "Nµs", with the numbers of each branch |
| UtilTime.SubSecondFormat | vendor/gpui-util-wasm/src/time.rs:20-24 | below a second the text is digits then "ms", below a millisecond digits then "µs", and the digits read back as the duration rounded down to that unit |
| UtilTime.SecondsFormat | vendor/gpui-util-wasm/src/time.rs:18-19 | the seconds form is the seconds, a dot, milliseconds padded to three digits, and "s" |
| UtilHttp.UriFromStr | vendor/gpui-util-wasm/src/http_stubs.rs:14-34 | succeeds exactly for the http://, https://, file:// and data: prefixes, and keeps the input |
| UtilHttp.UriReparse | vendor/gpui-util-wasm/src/http_stubs.rs:14-25 | parsing the stored text of a parsed URI gives the same URI |
| UtilHttp.AsU16 | vendor/gpui-util-wasm/src/http_stubs.rs:56-58 | returns the stored code |
| UtilHttp.FromU16 | vendor/gpui-util-wasm/src/http_stubs.rs:60-66 | Ok exactly for codes below 600, and as_u16 recovers the code |
| UtilHttp.NamedCodes | vendor/gpui-util-wasm/src/http_stubs.rs:52-54 | OK, NOT_FOUND and INTERNAL_SERVER_ERROR are 200, 404 and 500 |
| UtilHttp.HeaderValueFromStr | vendor/gpui-util-wasm/src/http_stubs.rs:80-82 | never fails and keeps the input |
| UtilHttp.AsBytes | vendor/gpui-util-wasm/src/http_stubs.rs:84-86 | the bytes are the UTF-8 encoding of the text, one to four per character |
| UtilHttp.AsciiBytes | vendor/gpui-util-wasm/src/http_stubs.rs:84-86 | for ASCII text the bytes are exactly the characters' codes |
| UtilArcCow.Deref | vendor/gpui-util-wasm/src/arc_cow.rs:24-33 | yields the borrowed value or the Arc's contents |
| UtilArcCow.ReferencesAgree | vendor/gpui-util-wasm/src/arc_cow.rs:35-45 | as_ref and borrow give the dereferenced value, and re-borrowing it or cloning gives an equal ArcCow |
| UtilArcCow.Clone | vendor/gpui-util-wasm/src/arc_cow.rs:15-22 | clone keeps both the variant and the value |
| UtilArcCow.EqEquivalence | vendor/gpui-util-wasm/src/arc_cow.rs:47-53 | equality is reflexive, symmetric and transitive across both variants, as `Eq` requires |
| UtilArcCow.CmpAgreesWithEq | vendor/gpui-util-wasm/src/arc_cow.rs:55-65 | when the value's order agrees with its equality and is antisymmetric, the ArcCow's order compares Equal exactly for equal ArcCows and is antisymmetric |
| UtilArcCow.BorrowedMatchesOwned | vendor/gpui-util-wasm/src/arc_cow.rs:47-71 | Borrowed(x) equals, compares equal to and hashes like Owned(Arc(x)) |
| UtilArcCow.EqualHashEqual | vendor/gpui-util-wasm/src/arc_cow.rs:47-71 | equal ArcCows hash equally, as `Hash` requires of `Eq` |
| UtilArcCow.FromRef | vendor/gpui-util-wasm/src/arc_cow.rs:73-77 | From<&T> gives Borrowed of the value |
| UtilArcCow.FromArc | vendor/gpui-util-wasm/src/arc_cow.rs:79-83 | From<Arc<T>> gives Owned of that Arc |
| UtilArcCow.FromString | vendor/gpui-util-wasm/src/arc_cow.rs:85-89 | From<String> gives Owned of the string |
| RunWasmDebug.ParseU32 | run-wasm-debug/src/main.rs:50-76 | a parsed port fits in u32 |
| RunWasmDebug.ParseU32OfString | run-wasm-debug/src/main.rs:50-76 | every u32 written in decimal parses back to itself |
| RunWasmDebug.Classify | run-wasm-debug/src/main.rs:34-77 | a bare value flag names its field, --release and --port are themselves, a joined flag is that flag, "=" and its value, and an argument is ignored exactly when it matches none of the arms |
| RunWasmDebug.Apply | run-wasm-debug/src/main.rs:33-79 | the loop over the arguments fails only on an invalid port, never clears --release, and returns its start on no arguments |
| RunWasmDebug.SetField | run-wasm-debug/src/main.rs:35-49 | a value flag sets exactly its own field |
| RunWasmDebug.Parse | run-wasm-debug/src/main.rs:22-86 | parsing succeeds exactly when the flags apply without error to the defaults and select an example, bin or package |
| RunWasmDebug.ApplyPort | run-wasm-debug/src/main.rs:50-76 | the port stays within u32 through any flags |
| RunWasmDebug.ParseArgs | run-wasm-debug/src/main.rs:22-86 | the loop computes the specified parse |
| RunWasmDebug.LaterFlagWins | run-wasm-debug/src/main.rs:35-49 | a later flag overrides an earlier one, and a value flag given last sets its field to None |
| RunWasmDebug.ValueFlags | run-wasm-debug/src/main.rs:35-49 | --example, --bin, -p/--package and --profile take a value for their fields |
| RunWasmDebug.PortFlags | run-wasm-debug/src/main.rs:50-76 | a trailing bare --port changes nothing; a non-numeric port, in either form, is an error |
| RunWasmDebug.ClassifyExampleEquals | run-wasm-debug/src/main.rs:55-57 | --example=v sets the example |
| RunWasmDebug.ClassifyBinEquals | run-wasm-debug/src/main.rs:58-60 | --bin=v sets the bin |
| RunWasmDebug.ClassifyShortPackageEquals | run-wasm-debug/src/main.rs:61-63 | -p=v sets the package |
| RunWasmDebug.ClassifyPackageEquals | run-wasm-debug/src/main.rs:64-66 | --package=v sets the package |
| RunWasmDebug.ClassifyProfileEquals | run-wasm-debug/src/main.rs:67-69 | --profile=v sets the profile |
| RunWasmDebug.ClassifyPortEquals | run-wasm-debug/src/main.rs:70-76 | --port=v parses v as the port |
| RunWasmDebug.EqualsForm | run-wasm-debug/src/main.rs:35-77 | a joined flag behaves as its two-token form |
| RunWasmDebug.EqualsForms | run-wasm-debug/src/main.rs:35-77 | each --x=value form sets the same fields as "--x value" |
| RunWasmDebug.NothingSelected | run-wasm-debug/src/main.rs:81-83 | parsing fails without an example, bin or package, even with other flags |
| RunWasmDebug.BinaryName | run-wasm-debug/src/main.rs:88-94 | prefers the example, then the bin, then the package |
| RunWasmDebug.ProfileDir | run-wasm-debug/src/main.rs:96-108 | "release" when release is set, "debug" for the dev profile or none, otherwise the profile name |
| RunWasmDebug.ProfileArgs | run-wasm-debug/src/main.rs:129-134 | --release alone when release is set, otherwise the profile pair if any |
| RunWasmDebug.CargoArgs | run-wasm-debug/src/main.rs:110-137 | starts with build, --target, wasm32-unknown-unknown, then the example, bin, package and profile pairs in that order |
| RunWasmDebug.ReleaseExcludesProfile | run-wasm-debug/src/main.rs:110-137 | with --release the arguments contain no --profile |
| GpuiWebTest.IndexOf | examples/gpui-web-test/main.rs:200-219 | every category has an index below 16 |
| GpuiWebTest.AllAtIndexOf | examples/gpui-web-test/main.rs:200-219 | the list holds each category at its index |
| GpuiWebTest.IndexOfAll | examples/gpui-web-test/main.rs:200-219 | the index of the i-th listed category is i |
| GpuiWebTest.AllCategories | examples/gpui-web-test/main.rs:200-219 | the list has 16 distinct categories and contains every category |
| GpuiWebTest.Name | examples/gpui-web-test/main.rs:221-240 | every category has a non-empty name |
| GpuiWebTest.NamesDistinct | examples/gpui-web-test/main.rs:221-240 | distinct categories have distinct names |
| GpuiWebTest.IsImplemented | examples/gpui-web-test/main.rs:242-245 | always true |
| GpuiWebTest.IndexStepsInverse | examples/gpui-web-test/main.rs:315-337 | the index steps of next and prev undo each other |
| GpuiWebTest.NextOf | examples/gpui-web-test/main.rs:315-323 | next moves from index i to (i+1) mod 16 |
| GpuiWebTest.PrevOf | examples/gpui-web-test/main.rs:325-337 | prev moves to i−1, wrapping the first to the last |
| GpuiWebTest.IndexInjective | examples/gpui-web-test/main.rs:200-219 | categories with equal indices are equal |
| GpuiWebTest.PrevNextInverse | examples/gpui-web-test/main.rs:315-337 | prev after next, and next after prev, is the identity |
| GpuiWebTest.AdvanceIsSum | examples/gpui-web-test/main.rs:315-323 | k index steps advance by k mod 16 |
| GpuiWebTest.WholeRounds | examples/gpui-web-test/main.rs:315-323 | a multiple of 16 steps returns to the start index |
| GpuiWebTest.NextAdvances | examples/gpui-web-test/main.rs:315-323 | k presses of next advance the index by k mod 16 |
| GpuiWebTest.NextCycle | examples/gpui-web-test/main.rs:315-323 | a multiple of 16 presses of next returns to the same category |
| GpuiWebTest.ModifierNames | examples/gpui-web-test/main.rs:405-423 | only the four names appear, each exactly when its key is held, ranked strictly in the order Ctrl, Alt, Shift, Meta |
| GpuiWebTest.ModifierTextEmpty | examples/gpui-web-test/main.rs:405-423 | the joined text is empty exactly when no modifier is held |
| GpuiWebTest.TestHarness.constructor | examples/gpui-web-test/main.rs:285-313 | starts at Quads with the initial state |
| GpuiWebTest.TestHarness.NextCategory | examples/gpui-web-test/main.rs:315-323 | selects the next category and changes nothing else |
| GpuiWebTest.TestHarness.PrevCategory | examples/gpui-web-test/main.rs:325-337 | selects the previous category and changes nothing else |
| GpuiWebTest.TestHarness.ResetState | examples/gpui-web-test/main.rs:339-355 | resets the state, but keeps the selected category, mouse_up_count and the recorded focus event |
| GpuiWebTest.TestHarness.ModifiersChanged | examples/gpui-web-test/main.rs:405-423 | stores the joined modifier text and changes nothing else |
| GameOfLife.LcgNext | blade-graphics/examples/webgpu-game-of-life/main.rs:90 | the generator wraps to u64 |
| GameOfLife.CellValue | blade-graphics/examples/webgpu-game-of-life/main.rs:89-93 | a cell is 255 exactly when the generator after i+1 steps is alive ((rng >> 33) mod 100 < 20), else 0 |
| GameOfLife.GenerateRandomState | blade-graphics/examples/webgpu-game-of-life/main.rs:84-99 | exactly width·height·4 bytes, and pixel p is [v, v, v, 255] for the cell value of p |
| GameOfLife.RandomStateBytes | blade-graphics/examples/webgpu-game-of-life/main.rs:93-95 | every byte is 0 or 255 and every alpha is 255 |
| GameOfLife.WorkgroupCount | blade-graphics/examples/webgpu-game-of-life/main.rs:414-415 | the count is ⌈size/8⌉, so groups·8 ≥ size |
| GameOfLife.Simulation.constructor | blade-graphics/examples/webgpu-game-of-life/main.rs:375 | the simulation starts reading texture 0 |
| GameOfLife.Simulation.Render | blade-graphics/examples/webgpu-game-of-life/main.rs:400-449 | reads current_read, writes 1−current_read, dispatches ⌈grid/8⌉ groups, and then switches current_read |
| GameOfLife.TwoFrames | blade-graphics/examples/webgpu-game-of-life/main.rs:400-449 | two frames read 0 and 1 in turn and return to the start |
| GameOfLife.GridDispatch | blade-graphics/examples/webgpu-game-of-life/main.rs:24-26 | the 128×128 grid needs 16×16 groups, covering it exactly |
| TextureExample.GenerateCheckerboard | blade-graphics/examples/webgpu-texture/main.rs:63-84 | the loops produce the specified image bytes |
| TextureExample.AppendRow | blade-graphics/examples/webgpu-texture/main.rs:67-80 | the inner loop appends one row of pixels |
| TextureExample.ImageLength | blade-graphics/examples/webgpu-texture/main.rs:63-84 | the image has width·height·4 bytes for every size, the empty image included |
| TextureExample.CheckerboardLayout | blade-graphics/examples/webgpu-texture/main.rs:63-84 | the image has width·height·4 bytes, and pixel (x, y) occupies bytes 4·(y·width + x) .. +4 |
| TextureExample.NextTile | blade-graphics/examples/webgpu-texture/main.rs:69-70 | moving one tile size over moves to the next tile |
| TextureExample.CheckerboardProperties | blade-graphics/examples/webgpu-texture/main.rs:69-80 | alpha is 255, pixels in one tile agree, and horizontally or vertically adjacent tiles differ |
| GpuiWeb.PackColor | blade-graphics/examples/gpui-web/main.rs:83-85 | the packed colour fits in u32 |
| GpuiWeb.Rgb | blade-graphics/examples/gpui-web/main.rs:101-103 | rgb sets alpha to 255 |
| GpuiWeb.Rgba | blade-graphics/examples/gpui-web/main.rs:105-107 | rgba keeps its four channels |
| GpuiWeb.UnpackPack | blade-graphics/examples/gpui-web/main.rs:83-85 | shifting and masking recovers every channel of a packed colour |
| GpuiWeb.PackUnpack | blade-graphics/examples/gpui-web/main.rs:83-85 | every u32 is the packing of its four bytes |
| GpuiWeb.PackInjective | blade-graphics/examples/gpui-web/main.rs:109-111 | distinct colours pack differently |
| GpuiWeb.SaturatingAdd | blade-graphics/examples/gpui-web/main.rs:113-120 | the sum, saturated at 255 |
| GpuiWeb.Brighten | blade-graphics/examples/gpui-web/main.rs:113-120 | each of red, green and blue becomes min(channel + amount, 255); alpha is kept |
| GpuiWeb.BrightenProperties | blade-graphics/examples/gpui-web/main.rs:113-120 | brightening by 0 is the identity, white stays white, and two brightenings compose to one by the saturated sum |
| GpuiWeb.NewQuad | blade-graphics/examples/gpui-web/main.rs:50-59 | the quad has the given bounds, the u32 background 0xFF808080 (opaque grey 128, 128, 128), border colour 0 (transparent) and zero widths and radii |
| GpuiWeb.WithBackground | blade-graphics/examples/gpui-web/main.rs:61-64 | changes only the background |
| GpuiWeb.WithBorder | blade-graphics/examples/gpui-web/main.rs:66-70 | sets all four widths equal and the border colour, and changes nothing else |
| GpuiWeb.WithCornerRadius | blade-graphics/examples/gpui-web/main.rs:72-75 | one radius is four equal radii |
| GpuiWeb.WithCornerRadii | blade-graphics/examples/gpui-web/main.rs:77-80 | sets the four radii and changes nothing else |
| GpuiWeb.BuildersCommute | blade-graphics/examples/gpui-web/main.rs:61-80 | the builders touch disjoint fields, so they commute, and a later background wins |
| AdvancedTests.NewDragItem | examples/gpui-web-test/tests/advanced.rs:24-31 | a new item keeps id, colour and label and starts at the origin |
| AdvancedTests.DragItemWithPosition | examples/gpui-web-test/tests/advanced.rs:33-36 | changes only the position |
| AdvancedTests.FancyWithPosition | examples/gpui-web-test/tests/advanced.rs:77-80 | sets the position |
| AdvancedTests.RedWithPosition | examples/gpui-web-test/tests/advanced.rs:128-131 | sets the position |
| AdvancedTests.WithPositionLastWins | examples/gpui-web-test/tests/advanced.rs:33-36 | the last position wins, and setting the current position changes nothing |
| AdvancedTests.TestPixel | examples/gpui-web-test/tests/advanced.rs:639-659 | a pixel has four bytes |
| AdvancedTests.PutPixel | examples/gpui-web-test/tests/advanced.rs:659 | writes the four bytes of pixel (x, y) and nothing else |
| AdvancedTests.CreateTestImage | examples/gpui-web-test/tests/advanced.rs:631-659 | a 64×64 image where every pixel holds the stored bytes [b, g, r, 255] of its palette colour |
| AdvancedTests.PaintPixel | examples/gpui-web-test/tests/advanced.rs:639-659 | one step of the loops extends the painted prefix by one pixel |
| AdvancedTests.PaletteDistinct | examples/gpui-web-test/tests/advanced.rs:644-652 | the eight palette colours are distinct |
| AdvancedTests.WhiteFallbackUnreachable | examples/gpui-web-test/tests/advanced.rs:644-653 | the white fallback arm is never taken: every cell gets one of the eight palette colours |
| AdvancedTests.TestImageCells | examples/gpui-web-test/tests/advanced.rs:639-654 | colours are constant in each 8×8 cell, neighbouring cells differ, and cells along an anti-diagonal agree |
| StressText.PlainWords | examples/gpui-web-test/tests/stress.rs:195-201 | the 41 words contain no space or newline |
| StressText.FirstWords | examples/gpui-web-test/tests/stress.rs:196 | the list starts with "Lorem", "ipsum" |
| StressText.PieceCounts | examples/gpui-web-test/tests/stress.rs:205-209 | each word is followed by one space, and by a newline exactly when i mod 15 = 14 |
| StressText.TextCounts | examples/gpui-web-test/tests/stress.rs:204-210 | n words give n spaces and n/15 newlines |
| StressText.TextGrows | examples/gpui-web-test/tests/stress.rs:204-210 | the text of fewer words is a prefix of the text of more |
| StressText.TextStart | examples/gpui-web-test/tests/stress.rs:204-206 | the text begins with the first two words, each followed by a space |
| StressText.GenerateLargeText | examples/gpui-web-test/tests/stress.rs:194-212 | the loop builds the specified text: 1500 spaces, 100 newlines, beginning "Lorem ipsum " |

## Left out

- GPU and device calls are not modelled: the wgpu create/write/resolve/map/configure/acquire calls themselves, error scopes, naga shader loading (`load_shader` in `pipeline.rs`) and the context creation of `blade-graphics/src/webgpu/platform.rs`. Handles are opaque tokens, and the descriptors handed to wgpu are values.
- `blade-graphics/src/webgpu/command.rs` is not part of this model: it holds type declarations and field-copying conversions only.
- The native (non-canvas) `create_surface` in `surface.rs` is not part of this model. Its format mapping is the same as the canvas path's, which `WebgpuSurface.CreateSurface` models.
- `destroy_surface` does nothing in the source and has no counterpart.
- The fields that `platform.rs` and `pipeline.rs` use on `Limits`, `Context` and pipeline entries but that `mod.rs` does not declare follow the `mod.rs` declarations. The exception is the handles, which carry the group mappings, workgroup size and topology.
- Source panics become preconditions. A caller never meets these panics:
  - `External` buffer memory (`BufferUsageFor`, `CreateBuffer`);
  - acceleration-structure bindings among the translated bindings of a used group (`MapBindingType`, `LayoutSupported`); an unused group or a binding past the end of its access list is never translated and is allowed;
  - the four `Src1*` blend factors (`MapBlendFactor`, `MapBlendComponent`, `ColorTargetFor`);
  - views of a texture that is not in the hub (`CreateTextureView`);
  - the colour targets of a pipeline are translated whether or not it has a fragment shader, so a dual-source blend factor is excluded in both cases (`TargetsSupported`).
  - a vertex attribute mapping whose attribute index is past its buffer's attribute list, which the source indexes unchecked at `pipeline.rs:506` (`MappingsInRange`, required by `BuildVertexAttributes` and `AttributesForBuffer`).
- WebgpuBindGroups.BindGroupCache.constructor: requires max_size ≥ 1, because with 0 the source's eviction loop never ends.
- WebgpuResource.CreateTextureView: the view's texel aspects are a parameter, because `TextureFormat::aspects` (`blade-graphics/src/lib.rs`) is not part of this model.
- WebgpuBindGroups.BindGroupCache.EvictOne: removes an arbitrary group, as the source's `keys().next()` of a `HashMap` does; the model does not fix which one.
- pipeline.rs's own `map_compare_function` (pipeline.rs:150-161) is the same map as resource.rs's and is modelled by `WebgpuResource.MapCompareFunction`.
- Floating point is not modelled as IEEE arithmetic:
  - f32 fields (positions, bounds, widths, radii, the depth bias slope and clamp) are carried as `real` values without arithmetic;
  - multisample state and the sampler's lod clamps are not modelled;
  - the float formatting in `format_time`, the per-frame ratios of the inspector summary, and the percentage share that `Share` and the 0.5 threshold of `InCategoryMeaning` compare are exact rationals, so near the threshold the float comparison in `analyze-trace.py` can decide differently.
- The timestamp-to-duration conversion in `advance_frame` is not modelled; results carry the raw start and end timestamps.
- TraceAnalyzer.FormatTime: states the unit chosen and the exact value, not the `.2f` rounding of the printed text.
- TraceAnalyzer.Classify: lower-casing is ASCII-only. Python's `str.lower` covers all of Unicode.
- The regular-expression scanning of both scripts is not modelled. Their matches are inputs in document order, and the integers are already parsed.
- Not modelled in `analyze-trace.py`: trace loading, `extract_cpu_profile`, `demangle_rust_name`, every `print_*` function and `main`.
- Not modelled in `analyze-webgpu-inspector.py`: file reading, the pipeline-label records (kept as an opaque input list) and `main`.
- WebgpuContext.MergeRange: does not model u64 overflow of `offset + size`; the range end is the exact sum.
- WebgpuUniform.NextPowerOfTwo: does not model u64 overflow of `next_power_of_two` for sizes above 2^63; the result is the exact power of two. `GrownCapacity` and `EnsureCapacity` inherit this.
- The `log` facade's output is modelled as the list of records each adapter writes, and the `Debug` text of an error is a parameter; where the records go is not modelled.
- UtilLib.PostInc: does not model usize overflow, because the counter is unbounded here.
- The identity of the closure in `Deferred` is not modelled: the model records which closures ran, not their effects.
- `LogErrFuture`/`TryFutureExt` and `measure` in `lib.rs` are not modelled: they are async polling and a clock.
- `Stopwatch` in `time.rs` is not modelled: it reads a clock.
- Path component parsing of `std::path` is not modelled. A path is a sequence of components: root, prefix, current dir, parent dir or a name.
- `Arc` identity and reference counting are not modelled: an `Arc` is the value it holds.
- `vendor/gpui-util-wasm/src/size.rs` and `serde.rs` are not part of this model: f64 byte formatting and serde_json wrappers.
- Not modelled in `run-wasm-debug`: `find_wasm_file` (filesystem), `run_wasm_bindgen` and `generate_html` (process spawning and file writing), and `main` (HTTP server).
- Process arguments arrive as a sequence of strings in `run-wasm-debug`; `std::env::args` is not modelled.
- GPUI rendering in `gpui-web-test/main.rs` is not modelled: focus handles, element trees, the `render` methods and event listeners, other than the modifier text they store.
- GpuiWeb.PackColor: the bitwise OR of disjoint shifted bytes is written as their sum, which is equal for bytes.
- Not modelled in `blade-graphics/examples/gpui-web/main.rs`: the quad's padding field, the `Style`/`Element` builders, `layout_element`, `update_hover` and the render loop.
- The `image` crate's `RgbaImage` is an array of bytes in row-major order, 4 per pixel.
- The game of life's shader pipeline, textures and event loop are not modelled, beyond the ping-pong indices and the dispatch size of `render`.
- GameOfLife.GenerateRandomState: requires width·height·4 to fit in u32 and the seed in u64, where the source's `u32` multiply would otherwise overflow.
- TextureExample.GenerateCheckerboard: requires width·height·4 to fit in u32, as above, and a non-zero tile size because of the source's divisions.
- StressText.GenerateLargeText: the `String::with_capacity` hint is not modelled.
