# ZetaRay renderer core: material packing, G-buffer and post-processing owners

This project models three parts of the ZetaRay renderer in Dafny and proves
properties of them.

- **Material packing** (`material.dfy`, on the bitwise model in `bitwise.dfy`).
  The 32-bit word `Material::Packed` holds the material-buffer index in bits
  0-27, the alpha mode in bits 28-29 and the double-sided flag in bit 30.
  `Material` is a class whose three setters OR bits into `Packed`; its
  getters mask them out. The proofs show:
  - each setter writes its own field and leaves the others alone;
  - the setters are idempotent and commute;
  - on a fresh material, calling the three setters in any order reads back
    the index, alpha mode and flag that were set.
- **The render graph as the owners see it** (`render_graph.dfy`). A `Graph`
  class records registered passes, registered resources and declared
  input/output edges, appending each in call order.
- **The G-buffer owner** (`gbuffer.dfy`). `GBufferData` is a class. It holds
  four double-buffered targets in arrays of two halves, three
  single-buffered targets, and per-parity SRV/UAV descriptor tables.
  - `CreateGBuffers` takes each texture from an allocator parameter under its
    source name. It writes every table slot with the target's half of that
    parity.
  - `Register` and `DeclareAdjacencies` do nothing until the TLAS is ready.
    Then they register the pass and its eleven resources, and declare the
    TLAS input and the current half of each target as unordered-access
    outputs.
  - `Update` binds six of the pass's UAV inputs to the current parity's
    table. Curvature's binding is left as it was, as in the source.
- **The post-processing owner** (`post_processor.dfy`). `PostProcessData` is
  a class.
  - `UpdatePasses` resets disabled upscalers and initialises the enabled one,
    TAA before FSR2.
  - `Register` registers the upscaler, once the frame count exceeds 2, plus the
    luminance, final and GUI passes with their resources.
  - `DeclareAdjacencies` declares the upscaler edges with the TAA output
    ping-pong, the luminance-reduction edges, FinalPass's optional
    indirect-diffuse inputs, and the back-buffer/`DUMMY_RES_1` ordering that
    puts the GUI last.
  - `UpdateDescriptors` points the shared display descriptor at the
    upscaler's output (see Findings).
  - `OnWindowSizeChanged` empties the shared display descriptor table; the
    next `UpdatePasses` allocates it again.
  - `Update` runs both updates and points FinalPass's FINAL_LIGHTING input
    at that descriptor when an upscaler is enabled, and at the HDR light
    accumulation otherwise.

The frame count, the frame parity, the back buffer, the TLAS status and the
texture allocator are reached through globals in the source; here they are
parameters. The render graph's own implementation (ordering, barriers) is not
part of this model.

## Model

| member | source | states |
|---|---|---|
| MaterialPacking.Code | ZetaCore/Core/Material.h:16-23 | ALPHA_MODE's values fit in two bits, and only COUNT has the value 3 |
| MaterialPacking.GpuBufferIndexOf | ZetaCore/Core/Material.h:55-58 | `Packed & 0x0fffffff` is exactly the index field, bits 0-27 |
| MaterialPacking.IsDoubleSidedOf | ZetaCore/Core/Material.h:61-64 | `Packed & (1 << 30)` is non-zero exactly when bit 30, the flag field, is set |
| MaterialPacking.AlphaBitsOf | ZetaCore/Core/Material.h:77-79 | bits 28-29 of the word hold the alpha field |
| MaterialPacking.OrIndex | ZetaCore/Core/Material.h:39-43 | with the asserted `idx < 1'000'000`, `Packed \| idx` keeps every set bit, leaves bits 28 and up unchanged and ORs `idx` into the low 28 bits |
| MaterialPacking.OrAlphaMode | ZetaCore/Core/Material.h:45-48 | `Packed \| mode << 28` keeps every set bit, leaves bits 0-27 unchanged and ORs the mode's code into the bits from 28 up |
| MaterialPacking.OrDoubleSided | ZetaCore/Core/Material.h:50-53 | `Packed \| b << 30` keeps every set bit, leaves bits 0-29 unchanged and ORs the flag into bit 30 |
| MaterialPacking.IndexSetterFields | ZetaCore/Core/Material.h:39-43 | the index setter ORs into the index and leaves alpha and flag as they were; on a clear index field the index reads back as set |
| MaterialPacking.AlphaSetterFields | ZetaCore/Core/Material.h:45-48 | the alpha setter ORs into the alpha field and leaves index and flag as they were; on a clear alpha field the mode reads back as set |
| MaterialPacking.FlagSetterFields | ZetaCore/Core/Material.h:50-53 | the flag setter leaves index and alpha as they were; with `true` the flag reads back set, with `false` the word is unchanged |
| MaterialPacking.Apply | ZetaCore/Core/Material.h:39-53 | every setter call is the old word ORed with the bits of that call |
| MaterialPacking.SetterIdempotent | ZetaCore/Core/Material.h:39-53 | calling a setter twice with the same argument is calling it once |
| MaterialPacking.SettersCommute | ZetaCore/Core/Material.h:39-53 | any two setter calls commute |
| MaterialPacking.ApplyAllIsOr | ZetaCore/Core/Material.h:39-53 | a sequence of setter calls ORs the OR of their bits into the word |
| MaterialPacking.BitsOfAllPermutation | ZetaCore/Core/Material.h:39-53 | the bits set by a sequence of calls do not depend on the calls' order |
| MaterialPacking.CanonicalFields | ZetaCore/Core/Material.h:25-64 | on a fresh word, index, alpha mode and flag set once each read back exactly |
| MaterialPacking.RoundTrip | ZetaCore/Core/Material.h:25-64 | on a fresh word, the three setters called once each in any order give the same word as the canonical order, so all three fields read back |
| MaterialPacking.Material.constructor | ZetaCore/Core/Material.h:25-37 | `Packed` is 0 and every texture slot is `uint32_t(-1)` |
| MaterialPacking.Material.SetGpuBufferIndex | ZetaCore/Core/Material.h:39-43 | requires the asserted bound and ORs the index into `Packed` |
| MaterialPacking.Material.SetAlphaMode | ZetaCore/Core/Material.h:45-48 | ORs the shifted alpha mode into `Packed` |
| MaterialPacking.Material.SetDoubleSided | ZetaCore/Core/Material.h:50-53 | ORs the shifted flag into `Packed` |
| MaterialPacking.ConfigureFresh | ZetaCore/Core/Material.h:25-64 | a new material with flag, index and alpha mode set reads back the index and flag through the getters and the alpha mode in bits 28-29 |
| PostProcessor.PingPong | ZetaRay/Scene/SceneRenderer/PostProcessor.cpp:275-276 | the half written this frame (B when `outIdx == 0`) differs from the half read as last frame's |
| PostProcessor.PingPongSwaps | ZetaRay/Scene/SceneRenderer/PostProcessor.cpp:275-276 | the half written in one frame is the half read as previous in the next frame |
| PostProcessor.NextPassState | ZetaRay/Scene/SceneRenderer/PostProcessor.cpp:80-110 | a disabled upscaler ends reset; TAA, when enabled, ends initialised; FSR2 is initialised only when TAA is off; the shared table is reset with a reset pass and allocated when an upscaler is enabled |
| PostProcessor.OnWindowSizeChanged | ZetaRay/Scene/SceneRenderer/PostProcessor.cpp:112-126 | a resize leaves the shared upscaler table empty (line 122) |
| PostProcessor.ResizeThenUpdateReallocates | ZetaRay/Scene/SceneRenderer/PostProcessor.cpp:80-126 | after a resize empties the shared table, the next pass update allocates it again, viewing nothing, exactly when TAA or FSR2 is enabled |
| PostProcessor.NextPassStateIdempotent | ZetaRay/Scene/SceneRenderer/PostProcessor.cpp:80-110 | running the pass update twice with the same settings is running it once |
| PostProcessor.UpdatePasses | ZetaRay/Scene/SceneRenderer/PostProcessor.cpp:80-110 | the new init flags and table are `NextPassState` of the old ones |
| PostProcessor.PostPasses | ZetaRay/Scene/SceneRenderer/PostProcessor.cpp:198-262 | TAA is registered iff frame count > 2 and TAA is on; FSR2 iff frame count > 2 and only FSR2 is on; never both; the last three passes are always luminance reduction, FinalPass and GuiPass |
| PostProcessor.NamedHandlesDistinct | ZetaRay/Scene/SceneRenderer/PostProcessor.cpp:198-254 | handles that name the passes registered this frame are pairwise different |
| PostProcessor.RegisterUpscaler | ZetaRay/Scene/SceneRenderer/PostProcessor.cpp:200-227 | appends the active upscaler pass and its outputs; its handle names it; the other handle is untouched |
| PostProcessor.RegisterFixed | ZetaRay/Scene/SceneRenderer/PostProcessor.cpp:229-261 | appends the three fixed passes with consecutive handles, then the average-luminance buffer, the back buffer and `DUMMY_RES_1` |
| PostProcessor.Register | ZetaRay/Scene/SceneRenderer/PostProcessor.cpp:198-262 | the graph gains exactly `PostPasses` and `PostResourceList`, each stored handle names its pass, and handles of passes not registered keep their values |
| PostProcessor.DeclareUpscaler | ZetaRay/Scene/SceneRenderer/PostProcessor.cpp:270-341 | requires, as the FSR2 block asserts, that FSR2 is initialised when it runs; appends exactly the active upscaler's edges and FinalPass's read of its output |
| PostProcessor.DeclareLum | ZetaRay/Scene/SceneRenderer/PostProcessor.cpp:343-365 | appends exactly the luminance-reduction edges and FinalPass's read of the average luminance |
| PostProcessor.DeclareIndirect | ZetaRay/Scene/SceneRenderer/PostProcessor.cpp:367-387 | appends FinalPass's indirect-diffuse inputs exactly when they are enabled |
| PostProcessor.DeclarePresent | ZetaRay/Scene/SceneRenderer/PostProcessor.cpp:389-405 | appends the back-buffer and `DUMMY_RES_1` edges of FinalPass and GuiPass |
| PostProcessor.DeclareAdjacencies | ZetaRay/Scene/SceneRenderer/PostProcessor.cpp:264-406 | requires the FSR2 block's initialisation assertion; the graph gains exactly `PostEdges`, in source order |
| PostProcessor.InPostEdges | ZetaRay/Scene/SceneRenderer/PostProcessor.cpp:264-406 | an edge is declared exactly when one of the four blocks declares it |
| PostProcessor.TaaPingPongEdges | ZetaRay/Scene/SceneRenderer/PostProcessor.cpp:273-305 | TAA reads last frame's output and `DUMMY_RES_2`, writes this frame's output, that write is its only one, and it never reads the half it writes |
| PostProcessor.UpscalerOutputsGated | ZetaRay/Scene/SceneRenderer/PostProcessor.cpp:270-341 | TAA's outputs appear on no edge unless TAA runs, and FSR2's output on none unless FSR2 runs |
| PostProcessor.FinalReadsActiveUpscaler | ZetaRay/Scene/SceneRenderer/PostProcessor.cpp:270-341 | every FinalPass read of an upscaler output is of the active upscaler's current output, as a shader resource |
| PostProcessor.GuiAfterFinal | ZetaRay/Scene/SceneRenderer/PostProcessor.cpp:389-405 | FinalPass and GuiPass both write the back buffer; `DUMMY_RES_1` is written by FinalPass and read by GuiPass and used by no other edge; GuiPass's only edges are that read and its back-buffer write |
| PostProcessor.LuminanceEdges | ZetaRay/Scene/SceneRenderer/PostProcessor.cpp:270-365 | `DUMMY_RES_2` is read, as unordered access, by luminance reduction and by the active upscaler, and by no other pass or state; luminance reduction writes the average luminance and nothing else, and FinalPass reads it |
| PostProcessor.IndirectInputs | ZetaRay/Scene/SceneRenderer/PostProcessor.cpp:367-387 | FinalPass reads indirect diffuse iff it is enabled and the TLAS is built, and the current temporal cache and spatial variance iff denoising is also on; the stale temporal cache is never named |
| PostProcessor.OutputsRegistered | ZetaRay/Scene/SceneRenderer/PostProcessor.cpp:198-406 | every resource a post-processing pass writes is registered by `Register` in the same frame; every resource a pass reads is too (TAA's previous half, the upscaler output, the average luminance, `DUMMY_RES_1`), unless it is one of the inputs other owners register or `DUMMY_RES_2` |
| PostProcessor.EdgesOnRegisteredPasses | ZetaRay/Scene/SceneRenderer/PostProcessor.cpp:198-406 | every declared edge belongs to a pass `Register` named: luminance reduction, FinalPass, GuiPass, or TAA or FSR2 only when that upscaler runs |
| PostProcessor.UpdateDescriptors | ZetaRay/Scene/SceneRenderer/PostProcessor.cpp:56-78 | as written: under the FSR2 branch's assertions, the display table views FSR2's output if FSR2 is on, else TAA's current output if TAA is on; an empty table, and the table with neither upscaler on, are unchanged |
| PostProcessor.UpdateDescriptorsTaaFirst | ZetaRay/Scene/SceneRenderer/PostProcessor.cpp:56-78 | corrected: the same update with TAA tested first |
| PostProcessor.DescriptorOrdersAgree | ZetaRay/Scene/SceneRenderer/PostProcessor.cpp:56-78 | the two branch orders choose the same view iff not both upscalers are on, or the two outputs share a path id |
| PostProcessor.UpdatePassesReadiesDescriptors | ZetaRay/Scene/SceneRenderer/PostProcessor.cpp:80-110 | after `UpdatePasses` the corrected update's preconditions always hold |
| PostProcessor.UpdatePassesReadiesAdjacencies | ZetaRay/Scene/SceneRenderer/PostProcessor.cpp:80-110 | after `UpdatePasses`, FSR2 is initialised whenever `DeclareAdjacencies` declares its edges, so the assertion at line 330 holds (on the FSR2 pass's flag, see "Left out") |
| PostProcessor.Update | ZetaRay/Scene/SceneRenderer/PostProcessor.cpp:139-181 | as written: the pass update, then the as-written descriptor update, then FINAL_LIGHTING pointed at the upscaler table when TAA or FSR2 is on and at the HDR light accumulation otherwise |
| PostProcessor.UpdateTaaFirst | ZetaRay/Scene/SceneRenderer/PostProcessor.cpp:139-181 | corrected: the same with the TAA-first descriptor update, needing no precondition |
| PostProcessor.BothUpscalersAsWritten | ZetaRay/Scene/SceneRenderer/PostProcessor.cpp:59-65 | with TAA and FSR2 both on after frame 2, the as-written assertions hold iff FSR2 was already initialised; FinalPass then displays FSR2's output, which it is not declared to read |
| PostProcessor.DisplayedIsDeclaredUnlessBoth | ZetaRay/Scene/SceneRenderer/PostProcessor.cpp:139-181 | as written, after frame 2 with at most one upscaler on, FinalPass displays the upscaler output it is declared to read, or the HDR light accumulation when none is on |
| PostProcessor.DisplayedIsDeclared | ZetaRay/Scene/SceneRenderer/PostProcessor.cpp:139-181 | corrected: after frame 2, FinalPass displays the upscaler output it is declared to read (or the HDR light accumulation when none is on), and that read is in the graph |
| PostProcessor.EarlyFramesDisplayUndeclared | ZetaRay/Scene/SceneRenderer/PostProcessor.cpp:160-176 | up to frame 2 with an upscaler on, FinalPass displays a TAA or FSR2 output although no upscaler is registered and no edge names that output |
| GBuffer.TargetNamesInjective | ZetaRay/ZetaRenderer/Default/GBuffer.cpp:41-180 | two textures get the same name iff they are the same target and, if double-buffered, the same half |
| GBuffer.BuffersFromNames | ZetaRay/ZetaRenderer/Default/GBuffer.cpp:27-181 | every texture is the one allocated under its own name; an allocator that gives different names different ids gives the G-buffer distinct ids |
| GBuffer.ViewTable | ZetaRay/ZetaRenderer/Default/GBuffer.cpp:27-181 | a filled table has a slot for every target and no other |
| GBuffer.ViewTableSlots | ZetaRay/ZetaRenderer/Default/GBuffer.cpp:27-181 | slot `t` of the parity-`i` tables views half `i` of `t`; single-buffered targets are viewed by both parities; no slot views the other parity's half of a double-buffered target |
| GBuffer.CreateDoubleBuffered | ZetaRay/ZetaRenderer/Default/GBuffer.cpp:43-59 | half `i` is the created texture and slot `t` of both tables of parity `i` views it; nothing else in the tables changes |
| GBuffer.WriteBothTables | ZetaRay/ZetaRenderer/Default/GBuffer.cpp:164-180 | slot `t` of all four tables views the texture; nothing else changes |
| GBuffer.FilledTable | ZetaRay/ZetaRenderer/Default/GBuffer.cpp:27-181 | whatever a table held before, the seven writes leave exactly the view table |
| GBuffer.CreateGBuffers | ZetaRay/ZetaRenderer/Default/GBuffer.cpp:27-181 | the textures are the allocator's, under the source's names, and all four tables equal the view table of their parity |
| GBuffer.RegisteredHalves | ZetaRay/ZetaRenderer/Default/GBuffer.cpp:239-245 | `n` iterations of the loop register four resources each |
| GBuffer.GBufferResources | ZetaRay/ZetaRenderer/Default/GBuffer.cpp:239-249 | `Register` registers eleven resources |
| GBuffer.GBufferResourcesListed | ZetaRay/ZetaRenderer/Default/GBuffer.cpp:239-249 | the registered resources in order: normal, depth, metallic-roughness and base color of half 0, then of half 1, then motion vector, emissive and curvature |
| GBuffer.GBufferResourcesCover | ZetaRay/ZetaRenderer/Default/GBuffer.cpp:226-250 | both halves of every target are registered, each with its storage |
| GBuffer.DepthInitState | ZetaRay/ZetaRenderer/Default/GBuffer.cpp:236-245 | exactly the two depth buffers are registered with an explicit COMMON initial state |
| GBuffer.Register | ZetaRay/ZetaRenderer/Default/GBuffer.cpp:226-250 | without a ready TLAS nothing changes; otherwise the graph gains the "GBuffer" compute pass, whose handle is stored, and exactly `GBufferResources` |
| GBuffer.GBufferOutputsShape | ZetaRay/ZetaRenderer/Default/GBuffer.cpp:268-274 | every output is an unordered-access write of some target's current half, and every target has one |
| GBuffer.GBufferEdgesShape | ZetaRay/ZetaRenderer/Default/GBuffer.cpp:252-274 | all edges are the pass's; its only input is the TLAS as an acceleration structure; it writes the current half of every target and nothing else |
| GBuffer.OtherHalfUntouched | ZetaRay/ZetaRenderer/Default/GBuffer.cpp:252-274 | with distinct ids, no edge names last frame's half of a double-buffered target |
| GBuffer.OutputsRegistered | ZetaRay/ZetaRenderer/Default/GBuffer.cpp:226-274 | every resource the pass writes is registered by `Register` |
| GBuffer.DeclareOutputs | ZetaRay/ZetaRenderer/Default/GBuffer.cpp:268-274 | appends exactly the seven outputs, in source order |
| GBuffer.DeclareAdjacencies | ZetaRay/ZetaRenderer/Default/GBuffer.cpp:252-274 | without a ready TLAS no edge is added; otherwise exactly `GBufferEdges` is appended |
| GBuffer.BindUavs | ZetaRay/ZetaRenderer/Default/GBuffer.cpp:206-224 | every target but curvature is bound to its own slot of the current parity's UAV table; curvature's binding is left as it was |
| GBuffer.BoundUavsAreDeclaredOutputs | ZetaRay/ZetaRenderer/Default/GBuffer.cpp:206-274 | each UAV input `Update` binds views the texture `DeclareAdjacencies` declares as that target's output |
| GBuffer.Update | ZetaRay/ZetaRenderer/Default/GBuffer.cpp:206-224 | the pass's UAV bindings become `BindUavs` of the old ones |

## Left out

- The render graph's scheduler, its barrier emission and its checks on registrations are not part of this model. `Graph` only records calls.
- D3D12 is left out: descriptor creation details, texture sizes, formats, clear values and creation flags, and resource states at creation. This includes the R32_FLOAT view format of the depth SRV. A descriptor table is modelled as the map from slot to the path id it views.
- `Init` and `Shutdown` of both owners are left out. They create or release D3D12 objects.
- GBuffer `OnWindowSizeChanged` is left out: it only calls `CreateGBuffers`, which is modelled.
- PostProcessor.OnWindowSizeChanged models only the reset of the shared upscaler table to empty. The resizes of the TAA, FSR2 and luminance-reduction passes and the re-created HDR light accumulation RTV and SRV are D3D12 objects and are not modelled.
- RenderGraph.Graph.RegisterRenderPass returns the new pass's position as its handle. The render graph's code is not part of this model, so this is an assumption; the consecutive handles stated by `PostProcessor.RegisterFixed` and the handle equalities of `PostProcessor.Register` and `GBuffer.Register` rest on it.
- GBuffer.CreateGBuffers: texture creation is the parameter `alloc` from name to texture, so the same name always gives the same texture. Distinct path ids follow only for an allocator that gives different names different ids, as `GBuffer.BuffersFromNames` states.
- PostProcessor.Register: the pass callbacks (delegates) are not recorded. Resources are recorded by storage handle and path id.
- PostProcessor.Update: only the pass update, the descriptor update and the FINAL_LIGHTING choice are modelled. Its other descriptor, buffer and input settings (back-buffer RTV, average-luminance address, GUI depth buffer, luminance and TAA signal inputs, FSR2 inputs, indirect-diffuse and denoiser descriptors) are D3D12 plumbing.
- PostProcessor.DeclareUpscaler and PostProcessor.UpdateDescriptors: the assertions at PostProcessor.cpp:64 and :330 check `upscaled.IsInitialized()`, the FSR2 pass's output texture. The model states them on the FSR2 pass's initialised flag, assuming FSR2Pass's `Init` creates that texture and its `Reset` releases it. FSR2Pass's code is not part of this model. The same reading underlies `PostProcessor.UpdatePassesReadiesAdjacencies`, `PostProcessor.BothUpscalersAsWritten` and the Findings row's "the FSR2 branch's assertion fails".
- PostProcessor.UpdateDescriptors: a write through `CPUHandle(0)` of an empty table is not modelled; the model keeps the table empty. In the FSR2 branch the source asserts the table is allocated first.
- PostProcessor.DisplayedIsDeclared and PostProcessor.DisplayedIsDeclaredUnlessBoth hold only after frame 2. Up to frame 2, `Update` already points FINAL_LIGHTING at the upscaler table while no upscaler pass is registered, so FinalPass displays an output nothing in the graph writes; `PostProcessor.EarlyFramesDisplayUndeclared` states this. Whether the source means this as a warm-up is not settled by the code, so it is not listed as a finding.
- PostProcessor.DisplayedIsDeclaredUnlessBoth: with no upscaler on, FinalPass reads the HDR light accumulation through its own SRV without a declared input edge; the model states which view is displayed, not that it is declared.
- `DUMMY_RES::RES_1` and `RES_2` are given the placeholder path ids 0 and 1, and every other id is assumed different from them.
- Material's float factors, its texture-slot indices beyond their initial value, and the structure-size `static_assert` are not modelled.
- MaterialPacking.Material.GpuBufferIndex and MaterialPacking.Material.IsDoubleSided delegate to `GpuBufferIndexOf` and `IsDoubleSidedOf`, whose contracts carry the properties.
- The `uint32_t` word is a natural number below 2^32 with bitwise operations defined on naturals. No setter can carry past bit 31: the index is below 2^28, and the shifted alpha mode and flag stay below 2^31.
- Compositing and direct lighting, which read the G-buffer and feed post-processing, are not part of this model. Their outputs (HDR light accumulation, indirect diffuse, denoiser caches) are path-id parameters.

## Findings

| source | as written | input that shows it | evidently intended | confidence | as-written member | corrected member |
|---|---|---|---|---|---|---|
| ZetaRay/Scene/SceneRenderer/PostProcessor.cpp:59-77 | `UpdateDescriptors` tests `settings.Fsr2` before `settings.TAA`. `UpdatePasses`, `Register`, `DeclareAdjacencies` and `Update` all test TAA first. | TAA and FSR2 both enabled, frame count above 2. `UpdatePasses` initialises only TAA, so the FSR2 branch's assertion fails unless FSR2 was initialised in an earlier frame. If it passes, the display descriptor views FSR2's output, while the graph runs TAA and FinalPass is declared to read TAA's output. | test TAA first, as the other functions do, so the displayed view is the output of the upscaler that runs | medium; not executed | PostProcessor.UpdateDescriptors, PostProcessor.BothUpscalersAsWritten | PostProcessor.UpdateDescriptorsTaaFirst, PostProcessor.DisplayedIsDeclared |
