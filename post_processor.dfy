/**
 * The post-processing owner: TAA or FSR2 upscaling, luminance reduction,
 * the final display pass and the GUI pass.  Per frame it registers its
 * passes and resources with the render graph (`Register`) and declares
 * their edges (`DeclareAdjacencies`); `UpdatePasses` initialises or resets
 * the optional upscaler passes, and `UpdateDescriptors` points the shared
 * display descriptor at the upscaler's output.
 *
 * The frame count, the frame parity `outIdx`, the back buffer and the
 * TLAS status come from global accessors in the source and are parameters
 * here.
 */
module PostProcessor {
  import opened Wrappers
  import opened RenderGraph

  datatype RenderSettings = RenderSettings(
    TAA: bool,
    Fsr2: bool,
    RTIndirectDiffuse: bool,
    DenoiseIndirectDiffuse: bool)

  /** The two halves of a ping-pong pair (`OUTPUT_A`/`OUTPUT_B`, `TEMPORAL_CACHE_COL_LUM_A`/`_B`). */
  datatype Half = A | B

  /** `CurrOutIdx()` is 0 or 1. */
  predicate ValidOutIdx(outIdx: int) {
    outIdx == 0 || outIdx == 1
  }

  /**
   * The halves of a ping-pong pair for frame parity `outIdx`: the one
   * written this frame (`outIdx == 0 ? B : A`) and the one written last frame.
   */
  function PingPong(outIdx: int): (r: (Half, Half))
    ensures r.0 != r.1
    ensures r.0 == B <==> outIdx == 0
  {
    if outIdx == 0 then (B, A) else (A, B)
  }

  /** What one frame writes, the next frame reads as its previous half. */
  lemma PingPongSwaps(outIdx: int)
    requires ValidOutIdx(outIdx)
    ensures PingPong(1 - outIdx).1 == PingPong(outIdx).0
    ensures PingPong(1 - outIdx).0 == PingPong(outIdx).1
  {
  }

  /** Textures owned by this module's passes, and the current back buffer. */
  datatype PostResources = PostResources(
    taaA: Texture,
    taaB: Texture,
    upscaled: Texture,
    avgLum: Texture,
    backBuffer: Texture)

  function TaaOutput(res: PostResources, h: Half): Texture {
    if h == A then res.taaA else res.taaB
  }

  /** Path ids of resources other owners register: G-buffer, lighting, ray tracing. */
  datatype FrameInputs = FrameInputs(
    depth0: PathId,
    depth1: PathId,
    hdrLightAccum: PathId,
    motionVec: PathId,
    indirectLi: PathId,
    temporalCacheA: PathId,
    temporalCacheB: PathId,
    spatialVar: PathId)

  /** `gbuffData.DepthBuffer[outIdx]` */
  function DepthAt(io: FrameInputs, outIdx: int): PathId
    requires ValidOutIdx(outIdx)
  {
    if outIdx == 0 then io.depth0 else io.depth1
  }

  function TemporalCache(io: FrameInputs, h: Half): PathId {
    if h == A then io.temporalCacheA else io.temporalCacheB
  }

  /** Every resource named here has its own path id, and none is a dummy id. */
  predicate DistinctIds(io: FrameInputs, res: PostResources) {
    && res.taaA.id !in {res.taaB.id, res.upscaled.id, res.avgLum.id, res.backBuffer.id, io.depth0, io.depth1,
                        io.hdrLightAccum, io.motionVec, io.indirectLi, io.temporalCacheA, io.temporalCacheB,
                        io.spatialVar, DummyRes1, DummyRes2}
    && res.taaB.id !in {res.upscaled.id, res.avgLum.id, res.backBuffer.id, io.depth0, io.depth1,
                        io.hdrLightAccum, io.motionVec, io.indirectLi, io.temporalCacheA, io.temporalCacheB,
                        io.spatialVar, DummyRes1, DummyRes2}
    && res.upscaled.id !in {res.avgLum.id, res.backBuffer.id, io.depth0, io.depth1,
                            io.hdrLightAccum, io.motionVec, io.indirectLi, io.temporalCacheA, io.temporalCacheB,
                            io.spatialVar, DummyRes1, DummyRes2}
    && res.avgLum.id !in {res.backBuffer.id, io.depth0, io.depth1, io.hdrLightAccum, io.motionVec, io.indirectLi,
                          io.temporalCacheA, io.temporalCacheB, io.spatialVar, DummyRes1, DummyRes2}
    && res.backBuffer.id !in {io.depth0, io.depth1, io.hdrLightAccum, io.motionVec, io.indirectLi,
                              io.temporalCacheA, io.temporalCacheB, io.spatialVar, DummyRes1, DummyRes2}
    && io.depth0 !in {io.depth1, io.hdrLightAccum, io.motionVec, io.indirectLi, io.temporalCacheA,
                      io.temporalCacheB, io.spatialVar, DummyRes1, DummyRes2}
    && io.depth1 !in {io.hdrLightAccum, io.motionVec, io.indirectLi, io.temporalCacheA, io.temporalCacheB,
                      io.spatialVar, DummyRes1, DummyRes2}
    && io.hdrLightAccum !in {io.motionVec, io.indirectLi, io.temporalCacheA, io.temporalCacheB, io.spatialVar,
                             DummyRes1, DummyRes2}
    && io.motionVec !in {io.indirectLi, io.temporalCacheA, io.temporalCacheB, io.spatialVar, DummyRes1, DummyRes2}
    && io.indirectLi !in {io.temporalCacheA, io.temporalCacheB, io.spatialVar, DummyRes1, DummyRes2}
    && io.temporalCacheA !in {io.temporalCacheB, io.spatialVar, DummyRes1, DummyRes2}
    && io.temporalCacheB !in {io.spatialVar, DummyRes1, DummyRes2}
    && io.spatialVar !in {DummyRes1, DummyRes2}
  }

  // ---------------------------------------------------------------------
  // Which upscaler runs

  /** TAA runs once more than two frames have been rendered and it is enabled. */
  predicate UsesTaa(s: RenderSettings, frameCount: nat) {
    frameCount > 2 && s.TAA
  }

  /** FSR2 runs under the same frame-count gate, only when TAA is off. */
  predicate UsesFsr2(s: RenderSettings, frameCount: nat) {
    frameCount > 2 && !s.TAA && s.Fsr2
  }

  // ---------------------------------------------------------------------
  // The passes' init/reset state (`UpdatePasses`)

  /** A descriptor table: empty, or allocated with what its slot 0 views (if written). */
  datatype DescTable = Empty | Allocated(view: Option<PathId>)

  /** FINAL_LIGHTING's source: the shared upscaler table, or the HDR light accumulation's own SRV. */
  datatype LightingSource = UpscalerTable | HdrLightAccumSrv

  datatype PassState = PassState(taaInitialized: bool, fsr2Initialized: bool, taaOrFsr2OutSrv: DescTable)

  /**
   * The state `UpdatePasses` leaves: a disabled pass is reset (and the shared
   * table with it), the enabled pass, TAA before FSR2, is initialised and the
   * shared table allocated.
   */
  function NextPassState(s: RenderSettings, st: PassState): (r: PassState)
    ensures !s.TAA ==> !r.taaInitialized
    ensures !s.Fsr2 ==> !r.fsr2Initialized
    ensures s.TAA ==> r.taaInitialized
    ensures !s.TAA && s.Fsr2 ==> r.fsr2Initialized
    ensures s.TAA && s.Fsr2 ==> r.fsr2Initialized == st.fsr2Initialized
    ensures s.TAA || s.Fsr2 ==> r.taaOrFsr2OutSrv.Allocated?
    ensures (st.taaInitialized && !s.TAA) || (st.fsr2Initialized && !s.Fsr2) ==>
              r.taaOrFsr2OutSrv == (if s.TAA || s.Fsr2 then Allocated(None) else Empty)
    ensures !((st.taaInitialized && !s.TAA) || (st.fsr2Initialized && !s.Fsr2)) ==>
              r.taaOrFsr2OutSrv == (if (s.TAA || s.Fsr2) && st.taaOrFsr2OutSrv.Empty? then Allocated(None)
                                    else st.taaOrFsr2OutSrv)
  {
    var afterFsr2Reset :=
      if !s.Fsr2 && st.fsr2Initialized then st.(fsr2Initialized := false, taaOrFsr2OutSrv := Empty) else st;
    var afterTaaReset :=
      if !s.TAA && afterFsr2Reset.taaInitialized
      then afterFsr2Reset.(taaInitialized := false, taaOrFsr2OutSrv := Empty)
      else afterFsr2Reset;
    var srv := if afterTaaReset.taaOrFsr2OutSrv.Empty? then Allocated(None) else afterTaaReset.taaOrFsr2OutSrv;
    if s.TAA then afterTaaReset.(taaInitialized := true, taaOrFsr2OutSrv := srv)
    else if s.Fsr2 then afterTaaReset.(fsr2Initialized := true, taaOrFsr2OutSrv := srv)
    else afterTaaReset
  }

  /**
   * After a resize empties the shared table, the next `UpdatePasses`
   * allocates it again, viewing nothing, exactly when an upscaler is enabled.
   */
  lemma ResizeThenUpdateReallocates(s: RenderSettings, st: PassState)
    ensures NextPassState(s, st.(taaOrFsr2OutSrv := Empty)).taaOrFsr2OutSrv ==
              (if s.TAA || s.Fsr2 then Allocated(None) else Empty)
  {
  }

  /** Running `UpdatePasses` twice with the same settings is running it once. */
  lemma NextPassStateIdempotent(s: RenderSettings, st: PassState)
    ensures NextPassState(s, NextPassState(s, st)) == NextPassState(s, st)
  {
  }

  // ---------------------------------------------------------------------
  // Registration (`Register`)

  /** The upscaler pass `Register` appends, if any. */
  function UpscalerPasses(s: RenderSettings, frameCount: nat): seq<RenderPass> {
    if UsesTaa(s, frameCount) then [RenderPass("TAA", Compute)]
    else if UsesFsr2(s, frameCount) then [RenderPass("FSR2", Compute)]
    else []
  }

  /** The passes every frame registers, after the upscaler. */
  const FixedPasses: seq<RenderPass> :=
    [RenderPass("LuminanceReduction", Compute), RenderPass("FinalPass", Render), RenderPass("GuiPass", Render)]

  /** The passes `Register` appends, in order. */
  function PostPasses(s: RenderSettings, frameCount: nat): (r: seq<RenderPass>)
    ensures RenderPass("TAA", Compute) in r <==> UsesTaa(s, frameCount)
    ensures RenderPass("FSR2", Compute) in r <==> UsesFsr2(s, frameCount)
    ensures !(RenderPass("TAA", Compute) in r && RenderPass("FSR2", Compute) in r)
    ensures 3 <= |r| <= 4
    ensures r[|r| - 3..] == FixedPasses
  {
    UpscalerPasses(s, frameCount) + FixedPasses
  }

  /** The upscaler outputs `Register` appends, if any. */
  function UpscalerResources(s: RenderSettings, frameCount: nat, res: PostResources): seq<Resource> {
    if UsesTaa(s, frameCount) then [TextureResource(res.taaA), TextureResource(res.taaB)]
    else if UsesFsr2(s, frameCount) then [TextureResource(res.upscaled)]
    else []
  }

  /** The resources `Register` appends, in order. */
  function PostResourceList(s: RenderSettings, frameCount: nat, res: PostResources): seq<Resource> {
    UpscalerResources(s, frameCount, res)
    + [TextureResource(res.avgLum), TextureResource(res.backBuffer), Resource(None, DummyRes1, None)]
  }

  /** The pass handles stored in `PostProcessData`. */
  datatype PassHandles = PassHandles(taa: nat, fsr2: nat, lum: nat, final: nat, gui: nat)

  /** Each handle that `Register` set this frame names its pass. */
  predicate HandlesName(passes: seq<RenderPass>, h: PassHandles, s: RenderSettings, frameCount: nat) {
    && h.lum < |passes| && passes[h.lum] == RenderPass("LuminanceReduction", Compute)
    && h.final < |passes| && passes[h.final] == RenderPass("FinalPass", Render)
    && h.gui < |passes| && passes[h.gui] == RenderPass("GuiPass", Render)
    && (UsesTaa(s, frameCount) ==> h.taa < |passes| && passes[h.taa] == RenderPass("TAA", Compute))
    && (UsesFsr2(s, frameCount) ==> h.fsr2 < |passes| && passes[h.fsr2] == RenderPass("FSR2", Compute))
  }

  /** The handles of the passes registered this frame are pairwise different. */
  predicate HandlesDistinct(h: PassHandles, s: RenderSettings, frameCount: nat) {
    && h.lum != h.final && h.lum != h.gui && h.final != h.gui
    && (UsesTaa(s, frameCount) ==> h.taa !in {h.lum, h.final, h.gui})
    && (UsesFsr2(s, frameCount) ==> h.fsr2 !in {h.lum, h.final, h.gui})
  }

  /** Handles that name passes of different names are different handles. */
  lemma NamedHandlesDistinct(passes: seq<RenderPass>, h: PassHandles, s: RenderSettings, frameCount: nat)
    requires HandlesName(passes, h, s, frameCount)
    ensures HandlesDistinct(h, s, frameCount)
  {
  }

  // ---------------------------------------------------------------------
  // Edges (`DeclareAdjacencies`)

  /** Edges of the active upscaler, and FinalPass's input of its output. */
  function UpscalerEdges(s: RenderSettings, frameCount: nat, outIdx: int, h: PassHandles,
                         io: FrameInputs, res: PostResources): seq<Edge>
    requires ValidOutIdx(outIdx)
  {
    if UsesTaa(s, frameCount) then
      var curr := TaaOutput(res, PingPong(outIdx).0);
      var prev := TaaOutput(res, PingPong(outIdx).1);
      [ In(h.taa, DepthAt(io, outIdx), AllShaderResource),
        In(h.taa, io.hdrLightAccum, AllShaderResource),
        In(h.taa, prev.id, AllShaderResource),
        Out(h.taa, curr.id, UnorderedAccess),
        In(h.taa, DummyRes2, UnorderedAccess),
        In(h.final, curr.id, AllShaderResource) ]
    else if UsesFsr2(s, frameCount) then
      [ In(h.fsr2, DepthAt(io, outIdx), AllShaderResource),
        In(h.fsr2, io.hdrLightAccum, AllShaderResource),
        In(h.fsr2, io.motionVec, AllShaderResource),
        In(h.fsr2, DummyRes2, UnorderedAccess),
        Out(h.fsr2, res.upscaled.id, UnorderedAccess),
        In(h.final, res.upscaled.id, AllShaderResource) ]
    else
      []
  }

  /** Luminance reduction after compositing, and FinalPass's input of the average luminance. */
  function LumEdges(h: PassHandles, io: FrameInputs, res: PostResources): seq<Edge> {
    [ In(h.lum, DummyRes2, UnorderedAccess),
      In(h.lum, io.hdrLightAccum, AllShaderResource),
      Out(h.lum, res.avgLum.id, UnorderedAccess),
      In(h.final, res.avgLum.id, AllShaderResource) ]
  }

  /** FinalPass's inputs from indirect diffuse and its denoiser. */
  function IndirectEdges(s: RenderSettings, outIdx: int, tlasInitialized: bool, h: PassHandles,
                         io: FrameInputs): seq<Edge>
  {
    if s.RTIndirectDiffuse && tlasInitialized then
      [In(h.final, io.indirectLi, AllShaderResource)]
      + (if s.DenoiseIndirectDiffuse then
           [ In(h.final, TemporalCache(io, PingPong(outIdx).0), AllShaderResource),
             In(h.final, io.spatialVar, AllShaderResource) ]
         else [])
    else
      []
  }

  /** FinalPass and GuiPass both draw to the back buffer; DUMMY_RES_1 puts the GUI last. */
  function PresentEdges(h: PassHandles, res: PostResources): seq<Edge> {
    [ Out(h.final, res.backBuffer.id, RenderTarget),
      Out(h.final, DummyRes1, UnorderedAccess),
      In(h.gui, DummyRes1, UnorderedAccess),
      Out(h.gui, res.backBuffer.id, RenderTarget) ]
  }

  /** Every edge `DeclareAdjacencies` appends, in order. */
  function PostEdges(s: RenderSettings, frameCount: nat, outIdx: int, tlasInitialized: bool,
                     h: PassHandles, io: FrameInputs, res: PostResources): seq<Edge>
    requires ValidOutIdx(outIdx)
  {
    UpscalerEdges(s, frameCount, outIdx, h, io, res)
    + LumEdges(h, io, res)
    + IndirectEdges(s, outIdx, tlasInitialized, h, io)
    + PresentEdges(h, res)
  }

  // ---------------------------------------------------------------------
  // The owner's state and its operations

  class PostProcessData {
    var TaaHandle: nat
    var Fsr2PassHandle: nat
    var LumReductionPassHandle: nat
    var FinalPassHandle: nat
    var ImGuiPassHandle: nat
    var TaaInitialized: bool
    var Fsr2Initialized: bool
    var TaaOrFsr2OutSRV: DescTable
    /** What FinalPass's FINAL_LIGHTING descriptor is set to. */
    var FinalLighting: LightingSource

    constructor ()
      ensures !TaaInitialized && !Fsr2Initialized && TaaOrFsr2OutSRV == Empty
    {
      TaaInitialized, Fsr2Initialized, TaaOrFsr2OutSRV := false, false, Empty;
    }

    function Handles(): PassHandles
      reads this
    {
      PassHandles(TaaHandle, Fsr2PassHandle, LumReductionPassHandle, FinalPassHandle, ImGuiPassHandle)
    }

    function State(): PassState
      reads this
    {
      PassState(TaaInitialized, Fsr2Initialized, TaaOrFsr2OutSRV)
    }
  }

  /** The part of `OnWindowSizeChanged` on modelled state: the shared table is emptied. */
  method OnWindowSizeChanged(data: PostProcessData)
    modifies data`TaaOrFsr2OutSRV
    ensures data.TaaOrFsr2OutSRV == Empty
  {
    data.TaaOrFsr2OutSRV := Empty;
  }

  method UpdatePasses(s: RenderSettings, data: PostProcessData)
    modifies data`TaaInitialized, data`Fsr2Initialized, data`TaaOrFsr2OutSRV
    ensures data.State() == NextPassState(s, old(data.State()))
  {
    if !s.Fsr2 && data.Fsr2Initialized {
      data.Fsr2Initialized := false;
      data.TaaOrFsr2OutSRV := Empty;
    }
    if !s.TAA && data.TaaInitialized {
      data.TaaInitialized := false;
      data.TaaOrFsr2OutSRV := Empty;
    }
    if s.TAA {
      if !data.TaaInitialized {
        data.TaaInitialized := true;
      }
      if data.TaaOrFsr2OutSRV.Empty? {
        data.TaaOrFsr2OutSRV := Allocated(None);
      }
    } else if s.Fsr2 {
      if !data.Fsr2Initialized {
        data.Fsr2Initialized := true;
      }
      if data.TaaOrFsr2OutSRV.Empty? {
        data.TaaOrFsr2OutSRV := Allocated(None);
      }
    }
  }

  /** The upscaler part of `Register`: TAA and its two outputs, or FSR2 and its output. */
  method RegisterUpscaler(s: RenderSettings, frameCount: nat, res: PostResources, data: PostProcessData, g: Graph)
    modifies g`passes, g`resources, data`TaaHandle, data`Fsr2PassHandle
    ensures g.passes == old(g.passes) + UpscalerPasses(s, frameCount)
    ensures g.resources == old(g.resources) + UpscalerResources(s, frameCount, res)
    ensures UsesTaa(s, frameCount) ==> data.TaaHandle < |g.passes| && g.passes[data.TaaHandle] == RenderPass("TAA", Compute)
    ensures UsesFsr2(s, frameCount) ==> data.Fsr2PassHandle < |g.passes| && g.passes[data.Fsr2PassHandle] == RenderPass("FSR2", Compute)
    ensures !UsesTaa(s, frameCount) ==> data.TaaHandle == old(data.TaaHandle)
    ensures !UsesFsr2(s, frameCount) ==> data.Fsr2PassHandle == old(data.Fsr2PassHandle)
  {
    if frameCount > 2 {
      if s.TAA {
        data.TaaHandle := g.RegisterRenderPass("TAA", Compute);
        g.RegisterResource(Some(res.taaA.resource), res.taaA.id, None);
        g.RegisterResource(Some(res.taaB.resource), res.taaB.id, None);
      } else if s.Fsr2 {
        data.Fsr2PassHandle := g.RegisterRenderPass("FSR2", Compute);
        g.RegisterResource(Some(res.upscaled.resource), res.upscaled.id, None);
      }
    }
  }

  /** The part of `Register` every frame runs: luminance reduction, FinalPass, GuiPass and their resources. */
  method RegisterFixed(res: PostResources, data: PostProcessData, g: Graph)
    modifies g`passes, g`resources, data`LumReductionPassHandle, data`FinalPassHandle, data`ImGuiPassHandle
    ensures g.passes == old(g.passes) + FixedPasses
    ensures g.resources == old(g.resources)
                           + [TextureResource(res.avgLum), TextureResource(res.backBuffer), Resource(None, DummyRes1, None)]
    ensures data.LumReductionPassHandle == |old(g.passes)|
    ensures data.FinalPassHandle == |old(g.passes)| + 1
    ensures data.ImGuiPassHandle == |old(g.passes)| + 2
  {
    data.LumReductionPassHandle := g.RegisterRenderPass("LuminanceReduction", Compute);
    g.RegisterResource(Some(res.avgLum.resource), res.avgLum.id, None);

    data.FinalPassHandle := g.RegisterRenderPass("FinalPass", Render);

    data.ImGuiPassHandle := g.RegisterRenderPass("GuiPass", Render);

    g.RegisterResource(Some(res.backBuffer.resource), res.backBuffer.id, None);
    g.RegisterResource(None, DummyRes1, None);
  }

  method Register(s: RenderSettings, frameCount: nat, res: PostResources, data: PostProcessData, g: Graph)
    modifies g`passes, g`resources
    modifies data`TaaHandle, data`Fsr2PassHandle, data`LumReductionPassHandle
    modifies data`FinalPassHandle, data`ImGuiPassHandle
    ensures g.passes == old(g.passes) + PostPasses(s, frameCount)
    ensures g.resources == old(g.resources) + PostResourceList(s, frameCount, res)
    ensures HandlesName(g.passes, data.Handles(), s, frameCount)
    ensures !UsesTaa(s, frameCount) ==> data.TaaHandle == old(data.TaaHandle)
    ensures !UsesFsr2(s, frameCount) ==> data.Fsr2PassHandle == old(data.Fsr2PassHandle)
  {
    RegisterUpscaler(s, frameCount, res, data, g);
    ghost var p1 := g.passes;
    RegisterFixed(res, data, g);
    assert g.passes == old(g.passes) + (UpscalerPasses(s, frameCount) + FixedPasses);
    assert g.resources == old(g.resources) + PostResourceList(s, frameCount, res);
    if UsesTaa(s, frameCount) {
      assert g.passes[data.TaaHandle] == p1[data.TaaHandle];
    }
    if UsesFsr2(s, frameCount) {
      assert g.passes[data.Fsr2PassHandle] == p1[data.Fsr2PassHandle];
    }
  }

  /**
   * The upscaler part of `DeclareAdjacencies`. The FSR2 block asserts that
   * FSR2's upscaled output texture is initialised; that texture is taken to
   * exist exactly while the FSR2 pass is initialised, so the assertion is
   * stated on the pass's flag.
   */
  method DeclareUpscaler(s: RenderSettings, frameCount: nat, outIdx: int, io: FrameInputs,
                         res: PostResources, data: PostProcessData, g: Graph)
    requires ValidOutIdx(outIdx)
    requires UsesFsr2(s, frameCount) ==> data.Fsr2Initialized
    modifies g`edges
    ensures g.edges == old(g.edges) + UpscalerEdges(s, frameCount, outIdx, data.Handles(), io, res)
  {
    if frameCount > 2 {
      if s.TAA {
        var taaCurrOut := TaaOutput(res, if outIdx == 0 then B else A);
        var taaPrevOut := TaaOutput(res, if outIdx == 0 then A else B);
        g.AddInput(data.TaaHandle, DepthAt(io, outIdx), AllShaderResource);
        g.AddInput(data.TaaHandle, io.hdrLightAccum, AllShaderResource);
        g.AddInput(data.TaaHandle, taaPrevOut.id, AllShaderResource);
        g.AddOutput(data.TaaHandle, taaCurrOut.id, UnorderedAccess);
        g.AddInput(data.TaaHandle, DummyRes2, UnorderedAccess);
        g.AddInput(data.FinalPassHandle, taaCurrOut.id, AllShaderResource);
      } else if s.Fsr2 {
        g.AddInput(data.Fsr2PassHandle, DepthAt(io, outIdx), AllShaderResource);
        g.AddInput(data.Fsr2PassHandle, io.hdrLightAccum, AllShaderResource);
        g.AddInput(data.Fsr2PassHandle, io.motionVec, AllShaderResource);
        g.AddInput(data.Fsr2PassHandle, DummyRes2, UnorderedAccess);
        g.AddOutput(data.Fsr2PassHandle, res.upscaled.id, UnorderedAccess);
        g.AddInput(data.FinalPassHandle, res.upscaled.id, AllShaderResource);
      }
    }
  }

  /** The luminance-reduction part of `DeclareAdjacencies`. */
  method DeclareLum(io: FrameInputs, res: PostResources, data: PostProcessData, g: Graph)
    modifies g`edges
    ensures g.edges == old(g.edges) + LumEdges(data.Handles(), io, res)
  {
    g.AddInput(data.LumReductionPassHandle, DummyRes2, UnorderedAccess);
    g.AddInput(data.LumReductionPassHandle, io.hdrLightAccum, AllShaderResource);
    g.AddOutput(data.LumReductionPassHandle, res.avgLum.id, UnorderedAccess);
    g.AddInput(data.FinalPassHandle, res.avgLum.id, AllShaderResource);
  }

  /** The indirect-diffuse part of `DeclareAdjacencies`. */
  method DeclareIndirect(s: RenderSettings, outIdx: int, tlasInitialized: bool, io: FrameInputs,
                         data: PostProcessData, g: Graph)
    modifies g`edges
    ensures g.edges == old(g.edges) + IndirectEdges(s, outIdx, tlasInitialized, data.Handles(), io)
  {
    if s.RTIndirectDiffuse && tlasInitialized {
      g.AddInput(data.FinalPassHandle, io.indirectLi, AllShaderResource);
      if s.DenoiseIndirectDiffuse {
        var temporalCacheIdx := if outIdx == 0 then B else A;
        g.AddInput(data.FinalPassHandle, TemporalCache(io, temporalCacheIdx), AllShaderResource);
        g.AddInput(data.FinalPassHandle, io.spatialVar, AllShaderResource);
      }
    }
  }

  /** The back-buffer part of `DeclareAdjacencies`. */
  method DeclarePresent(res: PostResources, data: PostProcessData, g: Graph)
    modifies g`edges
    ensures g.edges == old(g.edges) + PresentEdges(data.Handles(), res)
  {
    g.AddOutput(data.FinalPassHandle, res.backBuffer.id, RenderTarget);
    g.AddOutput(data.FinalPassHandle, DummyRes1, UnorderedAccess);
    g.AddInput(data.ImGuiPassHandle, DummyRes1, UnorderedAccess);
    g.AddOutput(data.ImGuiPassHandle, res.backBuffer.id, RenderTarget);
  }

  method DeclareAdjacencies(s: RenderSettings, frameCount: nat, outIdx: int, tlasInitialized: bool,
                            io: FrameInputs, res: PostResources, data: PostProcessData, g: Graph)
    requires ValidOutIdx(outIdx)
    requires UsesFsr2(s, frameCount) ==> data.Fsr2Initialized
    modifies g`edges
    ensures g.edges == old(g.edges) + PostEdges(s, frameCount, outIdx, tlasInitialized, data.Handles(), io, res)
  {
    DeclareUpscaler(s, frameCount, outIdx, io, res, data, g);
    DeclareLum(io, res, data, g);
    DeclareIndirect(s, outIdx, tlasInitialized, io, data, g);
    DeclarePresent(res, data, g);
  }

  // ---------------------------------------------------------------------
  // The display descriptor (`UpdateDescriptors`)

  /** What the shared table's slot 0 is made to view, as written: FSR2 is tested before TAA. */
  function UpscalerSrvTarget(s: RenderSettings, outIdx: int, res: PostResources): Option<PathId> {
    if s.Fsr2 then Some(res.upscaled.id)
    else if s.TAA then Some(TaaOutput(res, PingPong(outIdx).0).id)
    else None
  }

  /** The same choice with TAA tested first, as `UpdatePasses`, `Register` and `DeclareAdjacencies` do. */
  function UpscalerSrvTargetTaaFirst(s: RenderSettings, outIdx: int, res: PostResources): Option<PathId> {
    if s.TAA then Some(TaaOutput(res, PingPong(outIdx).0).id)
    else if s.Fsr2 then Some(res.upscaled.id)
    else None
  }

  /**
   * The table after creating a view of `target`, if there is one, in slot 0.
   * Writing a view never allocates: an empty table stays empty.
   */
  function WriteView(srv: DescTable, target: Option<PathId>): DescTable {
    if target.Some? && srv.Allocated? then Allocated(target) else srv
  }

  /**
   * The source's assertions before writing: FSR2's upscaled output
   * initialised (stated on the FSR2 pass's flag), the table allocated.
   */
  predicate DescriptorsReadyAsWritten(s: RenderSettings, st: PassState) {
    s.Fsr2 ==> st.fsr2Initialized && st.taaOrFsr2OutSrv.Allocated?
  }

  /**
   * The assertions made for the upscaler that actually runs, TAA first; the
   * table must be allocated before either writes to it.
   */
  predicate DescriptorsReady(s: RenderSettings, st: PassState) {
    && (s.TAA ==> st.taaOrFsr2OutSrv.Allocated?)
    && (!s.TAA && s.Fsr2 ==> st.fsr2Initialized && st.taaOrFsr2OutSrv.Allocated?)
  }

  /** `UpdateDescriptors` as written. */
  method UpdateDescriptors(s: RenderSettings, outIdx: int, res: PostResources, data: PostProcessData)
    requires DescriptorsReadyAsWritten(s, data.State())
    modifies data`TaaOrFsr2OutSRV
    ensures data.TaaOrFsr2OutSRV == WriteView(old(data.TaaOrFsr2OutSRV), UpscalerSrvTarget(s, outIdx, res))
  {
    if s.Fsr2 {
      data.TaaOrFsr2OutSRV := Allocated(Some(res.upscaled.id));
    } else if s.TAA {
      var taaOutIdx := if outIdx == 0 then B else A;
      var taaOut := TaaOutput(res, taaOutIdx);
      if data.TaaOrFsr2OutSRV.Allocated? {
        data.TaaOrFsr2OutSRV := Allocated(Some(taaOut.id));
      }
    }
  }

  /** `UpdateDescriptors` with TAA tested first. */
  method UpdateDescriptorsTaaFirst(s: RenderSettings, outIdx: int, res: PostResources, data: PostProcessData)
    requires DescriptorsReady(s, data.State())
    modifies data`TaaOrFsr2OutSRV
    ensures data.TaaOrFsr2OutSRV == WriteView(old(data.TaaOrFsr2OutSRV), UpscalerSrvTargetTaaFirst(s, outIdx, res))
  {
    if s.TAA {
      var taaOutIdx := if outIdx == 0 then B else A;
      var taaOut := TaaOutput(res, taaOutIdx);
      data.TaaOrFsr2OutSRV := Allocated(Some(taaOut.id));
    } else if s.Fsr2 {
      data.TaaOrFsr2OutSRV := Allocated(Some(res.upscaled.id));
    }
  }

  /** The upscaler output FinalPass is declared to read, if an upscaler runs. */
  function FinalUpscalerInput(s: RenderSettings, frameCount: nat, outIdx: int, res: PostResources): Option<PathId> {
    if UsesTaa(s, frameCount) then Some(TaaOutput(res, PingPong(outIdx).0).id)
    else if UsesFsr2(s, frameCount) then Some(res.upscaled.id)
    else None
  }

  // ---------------------------------------------------------------------
  // What FinalPass displays (`Update`)

  /** `Update`'s choice for FINAL_LIGHTING: the shared table whenever TAA or FSR2 is enabled, whatever the frame count. */
  function FinalLightingSource(s: RenderSettings): LightingSource {
    if s.TAA then UpscalerTable
    else if s.Fsr2 then UpscalerTable
    else HdrLightAccumSrv
  }

  /** The path id FinalPass displays through FINAL_LIGHTING, if the source it points at views one. */
  function DisplayedView(src: LightingSource, srv: DescTable, io: FrameInputs): Option<PathId> {
    match src
    case UpscalerTable => if srv.Allocated? then srv.view else None
    case HdrLightAccumSrv => Some(io.hdrLightAccum)
  }

  /**
   * `Update` as written: the pass update, the as-written descriptor update,
   * then FINAL_LIGHTING.
   */
  method Update(s: RenderSettings, outIdx: int, res: PostResources, data: PostProcessData)
    requires DescriptorsReadyAsWritten(s, NextPassState(s, data.State()))
    modifies data`TaaInitialized, data`Fsr2Initialized, data`TaaOrFsr2OutSRV, data`FinalLighting
    ensures var next := NextPassState(s, old(data.State()));
            && data.TaaInitialized == next.taaInitialized && data.Fsr2Initialized == next.fsr2Initialized
            && data.TaaOrFsr2OutSRV == WriteView(next.taaOrFsr2OutSrv, UpscalerSrvTarget(s, outIdx, res))
            && data.FinalLighting == FinalLightingSource(s)
  {
    UpdatePasses(s, data);
    UpdateDescriptors(s, outIdx, res, data);
    if s.TAA {
      data.FinalLighting := UpscalerTable;
    } else if s.Fsr2 {
      data.FinalLighting := UpscalerTable;
    } else {
      data.FinalLighting := HdrLightAccumSrv;
    }
  }

  /** `Update` with the TAA-first descriptor update; its assertions always hold. */
  method UpdateTaaFirst(s: RenderSettings, outIdx: int, res: PostResources, data: PostProcessData)
    modifies data`TaaInitialized, data`Fsr2Initialized, data`TaaOrFsr2OutSRV, data`FinalLighting
    ensures var next := NextPassState(s, old(data.State()));
            && data.TaaInitialized == next.taaInitialized && data.Fsr2Initialized == next.fsr2Initialized
            && data.TaaOrFsr2OutSRV == WriteView(next.taaOrFsr2OutSrv, UpscalerSrvTargetTaaFirst(s, outIdx, res))
            && data.FinalLighting == FinalLightingSource(s)
  {
    UpdatePassesReadiesDescriptors(s, data.State());
    UpdatePasses(s, data);
    UpdateDescriptorsTaaFirst(s, outIdx, res, data);
    if s.TAA {
      data.FinalLighting := UpscalerTable;
    } else if s.Fsr2 {
      data.FinalLighting := UpscalerTable;
    } else {
      data.FinalLighting := HdrLightAccumSrv;
    }
  }

  /** The two orders agree unless both upscalers are enabled. */
  lemma DescriptorOrdersAgree(s: RenderSettings, outIdx: int, res: PostResources)
    ensures UpscalerSrvTarget(s, outIdx, res) == UpscalerSrvTargetTaaFirst(s, outIdx, res) <==>
            !(s.TAA && s.Fsr2) || res.upscaled.id == TaaOutput(res, PingPong(outIdx).0).id
  {
  }

  /** After `UpdatePasses`, the FSR2 block of `DeclareAdjacencies` finds FSR2 initialised whenever it runs. */
  lemma UpdatePassesReadiesAdjacencies(s: RenderSettings, frameCount: nat, st: PassState)
    ensures UsesFsr2(s, frameCount) ==> NextPassState(s, st).fsr2Initialized
  {
  }

  /** `UpdatePasses` leaves the state the TAA-first descriptor update needs. */
  lemma UpdatePassesReadiesDescriptors(s: RenderSettings, st: PassState)
    ensures DescriptorsReady(s, NextPassState(s, st))
  {
  }

  /**
   * As written, with both upscalers enabled after frame 2: `UpdatePasses` does
   * not initialise FSR2, so the as-written assertion fails unless FSR2 was left
   * initialised by an earlier frame; and when it passes, FinalPass displays
   * FSR2's output while it is declared to read TAA's.
   */
  lemma BothUpscalersAsWritten(s: RenderSettings, frameCount: nat, outIdx: int, tlasInitialized: bool,
                               h: PassHandles, io: FrameInputs, res: PostResources, st: PassState)
    requires s.TAA && s.Fsr2 && frameCount > 2
    requires ValidOutIdx(outIdx) && DistinctIds(io, res)
    ensures DescriptorsReadyAsWritten(s, NextPassState(s, st)) <==> st.fsr2Initialized
    ensures DisplayedView(FinalLightingSource(s),
                          WriteView(NextPassState(s, st).taaOrFsr2OutSrv, UpscalerSrvTarget(s, outIdx, res)), io)
            == Some(res.upscaled.id)
    ensures FinalUpscalerInput(s, frameCount, outIdx, res) != Some(res.upscaled.id)
    ensures In(h.final, res.upscaled.id, AllShaderResource)
              !in PostEdges(s, frameCount, outIdx, tlasInitialized, h, io, res)
  {
  }

  /**
   * As written, after frame 2 with at most one upscaler enabled, FinalPass
   * displays the output it is declared to read: TAA's current half, FSR2's
   * output, or the HDR light accumulation when neither runs.
   */
  lemma DisplayedIsDeclaredUnlessBoth(s: RenderSettings, frameCount: nat, outIdx: int, io: FrameInputs,
                                      res: PostResources, st: PassState)
    requires frameCount > 2 && ValidOutIdx(outIdx) && !(s.TAA && s.Fsr2)
    ensures DisplayedView(FinalLightingSource(s),
                          WriteView(NextPassState(s, st).taaOrFsr2OutSrv, UpscalerSrvTarget(s, outIdx, res)), io)
            == (if s.TAA || s.Fsr2 then FinalUpscalerInput(s, frameCount, outIdx, res) else Some(io.hdrLightAccum))
  {
  }

  /**
   * With TAA tested first, after frame 2 FinalPass always displays the
   * upscaler output it is declared to read, or the HDR light accumulation
   * when no upscaler runs.
   */
  lemma DisplayedIsDeclared(s: RenderSettings, frameCount: nat, outIdx: int, tlasInitialized: bool,
                            h: PassHandles, io: FrameInputs, res: PostResources, st: PassState)
    requires frameCount > 2 && ValidOutIdx(outIdx)
    ensures DisplayedView(FinalLightingSource(s),
                          WriteView(NextPassState(s, st).taaOrFsr2OutSrv, UpscalerSrvTargetTaaFirst(s, outIdx, res)), io)
            == (if s.TAA || s.Fsr2 then FinalUpscalerInput(s, frameCount, outIdx, res) else Some(io.hdrLightAccum))
    ensures FinalUpscalerInput(s, frameCount, outIdx, res).Some? ==>
              In(h.final, FinalUpscalerInput(s, frameCount, outIdx, res).value, AllShaderResource)
                in PostEdges(s, frameCount, outIdx, tlasInitialized, h, io, res)
  {
  }

  /**
   * In the first frames (frame count at most 2) `Update` already points
   * FINAL_LIGHTING at the upscaler table when an upscaler is enabled, but no
   * upscaler pass is registered: even with TAA tested first, FinalPass
   * displays an upscaler output that no edge of the frame names.
   */
  lemma EarlyFramesDisplayUndeclared(s: RenderSettings, frameCount: nat, outIdx: int, tlasInitialized: bool,
                                     h: PassHandles, io: FrameInputs, res: PostResources, st: PassState)
    requires frameCount <= 2 && (s.TAA || s.Fsr2)
    requires ValidOutIdx(outIdx) && DistinctIds(io, res)
    ensures var shown := DisplayedView(FinalLightingSource(s),
                                       WriteView(NextPassState(s, st).taaOrFsr2OutSrv,
                                                 UpscalerSrvTargetTaaFirst(s, outIdx, res)), io);
            && shown.Some? && shown.value in {res.taaA.id, res.taaB.id, res.upscaled.id}
            && FinalUpscalerInput(s, frameCount, outIdx, res).None?
            && forall e | e in PostEdges(s, frameCount, outIdx, tlasInitialized, h, io, res) :: Some(e.id) != shown
  {
    UpscalerOutputsGated(s, frameCount, outIdx, tlasInitialized, h, io, res);
  }

  // ---------------------------------------------------------------------
  // Properties of the declared edges

  /** An edge is declared exactly when one of the four blocks declares it. */
  lemma InPostEdges(e: Edge, s: RenderSettings, frameCount: nat, outIdx: int, tlasInitialized: bool,
                    h: PassHandles, io: FrameInputs, res: PostResources)
    requires ValidOutIdx(outIdx)
    ensures e in PostEdges(s, frameCount, outIdx, tlasInitialized, h, io, res) <==>
              || e in UpscalerEdges(s, frameCount, outIdx, h, io, res)
              || e in LumEdges(h, io, res)
              || e in IndirectEdges(s, outIdx, tlasInitialized, h, io)
              || e in PresentEdges(h, res)
  {
  }

  /** TAA reads last frame's output and writes this frame's, never both at once. */
  lemma TaaPingPongEdges(s: RenderSettings, frameCount: nat, outIdx: int, tlasInitialized: bool,
                         h: PassHandles, io: FrameInputs, res: PostResources)
    requires ValidOutIdx(outIdx) && DistinctIds(io, res) && HandlesDistinct(h, s, frameCount)
    requires UsesTaa(s, frameCount)
    ensures var es := PostEdges(s, frameCount, outIdx, tlasInitialized, h, io, res);
            var curr := TaaOutput(res, PingPong(outIdx).0);
            var prev := TaaOutput(res, PingPong(outIdx).1);
            && In(h.taa, prev.id, AllShaderResource) in es
            && Out(h.taa, curr.id, UnorderedAccess) in es
            && In(h.taa, DummyRes2, UnorderedAccess) in es
            && (forall e | e in es && e.pass == h.taa && e.dir == Output :: e == Out(h.taa, curr.id, UnorderedAccess))
            && (forall e | e in es && e.pass == h.taa && e.dir == Input :: e.id != curr.id)
  {
    var es := PostEdges(s, frameCount, outIdx, tlasInitialized, h, io, res);
    var curr := TaaOutput(res, PingPong(outIdx).0);
    var prev := TaaOutput(res, PingPong(outIdx).1);
    var u := UpscalerEdges(s, frameCount, outIdx, h, io, res);
    assert In(h.taa, prev.id, AllShaderResource) == u[2];
    InPostEdges(In(h.taa, prev.id, AllShaderResource), s, frameCount, outIdx, tlasInitialized, h, io, res);
    assert Out(h.taa, curr.id, UnorderedAccess) == u[3];
    InPostEdges(Out(h.taa, curr.id, UnorderedAccess), s, frameCount, outIdx, tlasInitialized, h, io, res);
    assert In(h.taa, DummyRes2, UnorderedAccess) == u[4];
    InPostEdges(In(h.taa, DummyRes2, UnorderedAccess), s, frameCount, outIdx, tlasInitialized, h, io, res);
    forall e | e in es && e.pass == h.taa
      ensures e.dir == Output ==> e == Out(h.taa, curr.id, UnorderedAccess)
      ensures e.dir == Input ==> e.id != curr.id
    {
      InPostEdges(e, s, frameCount, outIdx, tlasInitialized, h, io, res);
      assert e !in LumEdges(h, io, res) && e !in IndirectEdges(s, outIdx, tlasInitialized, h, io);
      assert e !in PresentEdges(h, res);
    }
  }

  /** Upscaler outputs appear in the graph only when their upscaler runs. */
  lemma UpscalerOutputsGated(s: RenderSettings, frameCount: nat, outIdx: int, tlasInitialized: bool,
                             h: PassHandles, io: FrameInputs, res: PostResources)
    requires ValidOutIdx(outIdx) && DistinctIds(io, res)
    ensures var es := PostEdges(s, frameCount, outIdx, tlasInitialized, h, io, res);
            && (!UsesTaa(s, frameCount) ==> forall e | e in es :: e.id != res.taaA.id && e.id != res.taaB.id)
            && (!UsesFsr2(s, frameCount) ==> forall e | e in es :: e.id != res.upscaled.id)
  {
    var es := PostEdges(s, frameCount, outIdx, tlasInitialized, h, io, res);
    var u := UpscalerEdges(s, frameCount, outIdx, h, io, res);
    forall e | e in es
      ensures !UsesTaa(s, frameCount) ==> e.id != res.taaA.id && e.id != res.taaB.id
      ensures !UsesFsr2(s, frameCount) ==> e.id != res.upscaled.id
    {
      InPostEdges(e, s, frameCount, outIdx, tlasInitialized, h, io, res);
      if e in u {
        assert UsesTaa(s, frameCount) || UsesFsr2(s, frameCount);
      } else {
        assert e.id !in {res.taaA.id, res.taaB.id, res.upscaled.id};
      }
    }
  }

  /** Of the upscaler outputs, FinalPass reads exactly the active upscaler's, as a shader resource. */
  lemma FinalReadsActiveUpscaler(s: RenderSettings, frameCount: nat, outIdx: int, tlasInitialized: bool,
                                 h: PassHandles, io: FrameInputs, res: PostResources)
    requires ValidOutIdx(outIdx) && DistinctIds(io, res) && HandlesDistinct(h, s, frameCount)
    ensures var es := PostEdges(s, frameCount, outIdx, tlasInitialized, h, io, res);
            forall e | e in es && e.pass == h.final && e.dir == Input &&
                       e.id in {res.taaA.id, res.taaB.id, res.upscaled.id} ::
              Some(e.id) == FinalUpscalerInput(s, frameCount, outIdx, res) && e.state == AllShaderResource
  {
    var es := PostEdges(s, frameCount, outIdx, tlasInitialized, h, io, res);
    var u := UpscalerEdges(s, frameCount, outIdx, h, io, res);
    forall e | e in es && e.pass == h.final && e.dir == Input && e.id in {res.taaA.id, res.taaB.id, res.upscaled.id}
      ensures Some(e.id) == FinalUpscalerInput(s, frameCount, outIdx, res) && e.state == AllShaderResource
    {
      InPostEdges(e, s, frameCount, outIdx, tlasInitialized, h, io, res);
      assert e !in LumEdges(h, io, res) && e !in IndirectEdges(s, outIdx, tlasInitialized, h, io);
      assert e !in PresentEdges(h, res);
      assert e == u[|u| - 1];
    }
  }

  /** DUMMY_RES_1 is written by FinalPass and read by GuiPass only, so the GUI is drawn last. */
  lemma GuiAfterFinal(s: RenderSettings, frameCount: nat, outIdx: int, tlasInitialized: bool,
                      h: PassHandles, io: FrameInputs, res: PostResources)
    requires ValidOutIdx(outIdx) && DistinctIds(io, res) && HandlesDistinct(h, s, frameCount)
    ensures var es := PostEdges(s, frameCount, outIdx, tlasInitialized, h, io, res);
            && Out(h.final, res.backBuffer.id, RenderTarget) in es
            && Out(h.gui, res.backBuffer.id, RenderTarget) in es
            && Out(h.final, DummyRes1, UnorderedAccess) in es
            && In(h.gui, DummyRes1, UnorderedAccess) in es
            && (forall e | e in es && e.id == DummyRes1 ::
                  e == Out(h.final, DummyRes1, UnorderedAccess) || e == In(h.gui, DummyRes1, UnorderedAccess))
            && (forall e | e in es && e.pass == h.gui ::
                  e == In(h.gui, DummyRes1, UnorderedAccess) || e == Out(h.gui, res.backBuffer.id, RenderTarget))
  {
    var es := PostEdges(s, frameCount, outIdx, tlasInitialized, h, io, res);
    var p := PresentEdges(h, res);
    InPostEdges(p[0], s, frameCount, outIdx, tlasInitialized, h, io, res);
    InPostEdges(p[1], s, frameCount, outIdx, tlasInitialized, h, io, res);
    InPostEdges(p[2], s, frameCount, outIdx, tlasInitialized, h, io, res);
    InPostEdges(p[3], s, frameCount, outIdx, tlasInitialized, h, io, res);
    forall e | e in es && (e.id == DummyRes1 || e.pass == h.gui)
      ensures e in p
    {
      InPostEdges(e, s, frameCount, outIdx, tlasInitialized, h, io, res);
      assert e !in UpscalerEdges(s, frameCount, outIdx, h, io, res);
      assert e !in LumEdges(h, io, res) && e !in IndirectEdges(s, outIdx, tlasInitialized, h, io);
    }
  }

  /**
   * DUMMY_RES_2 is only read, as unordered access, by luminance reduction and
   * the active upscaler; luminance reduction writes the average luminance only,
   * and FinalPass reads it.
   */
  lemma LuminanceEdges(s: RenderSettings, frameCount: nat, outIdx: int, tlasInitialized: bool,
                       h: PassHandles, io: FrameInputs, res: PostResources)
    requires ValidOutIdx(outIdx) && DistinctIds(io, res) && HandlesDistinct(h, s, frameCount)
    ensures var es := PostEdges(s, frameCount, outIdx, tlasInitialized, h, io, res);
            && In(h.lum, DummyRes2, UnorderedAccess) in es
            && Out(h.lum, res.avgLum.id, UnorderedAccess) in es
            && (UsesTaa(s, frameCount) ==> In(h.taa, DummyRes2, UnorderedAccess) in es)
            && (UsesFsr2(s, frameCount) ==> In(h.fsr2, DummyRes2, UnorderedAccess) in es)
            && (forall e | e in es && e.id == DummyRes2 ::
                  && e.dir == Input && e.state == UnorderedAccess
                  && (e.pass == h.lum || (UsesTaa(s, frameCount) && e.pass == h.taa)
                      || (UsesFsr2(s, frameCount) && e.pass == h.fsr2)))
            && (forall e | e in es && e.pass == h.lum && e.dir == Output :: e == Out(h.lum, res.avgLum.id, UnorderedAccess))
            && In(h.final, res.avgLum.id, AllShaderResource) in es
  {
    var es := PostEdges(s, frameCount, outIdx, tlasInitialized, h, io, res);
    var u := UpscalerEdges(s, frameCount, outIdx, h, io, res);
    var l := LumEdges(h, io, res);
    InPostEdges(l[0], s, frameCount, outIdx, tlasInitialized, h, io, res);
    InPostEdges(l[2], s, frameCount, outIdx, tlasInitialized, h, io, res);
    InPostEdges(l[3], s, frameCount, outIdx, tlasInitialized, h, io, res);
    if UsesTaa(s, frameCount) {
      assert In(h.taa, DummyRes2, UnorderedAccess) == u[4];
      InPostEdges(In(h.taa, DummyRes2, UnorderedAccess), s, frameCount, outIdx, tlasInitialized, h, io, res);
    } else if UsesFsr2(s, frameCount) {
      assert In(h.fsr2, DummyRes2, UnorderedAccess) == u[3];
      InPostEdges(In(h.fsr2, DummyRes2, UnorderedAccess), s, frameCount, outIdx, tlasInitialized, h, io, res);
    }
    forall e | e in es && (e.id == DummyRes2 || e.pass == h.lum)
      ensures e.id == DummyRes2 ==>
                && e.dir == Input && e.state == UnorderedAccess
                && (e.pass == h.lum || (UsesTaa(s, frameCount) && e.pass == h.taa)
                    || (UsesFsr2(s, frameCount) && e.pass == h.fsr2))
      ensures e.pass == h.lum && e.dir == Output ==> e == Out(h.lum, res.avgLum.id, UnorderedAccess)
    {
      InPostEdges(e, s, frameCount, outIdx, tlasInitialized, h, io, res);
      assert e !in IndirectEdges(s, outIdx, tlasInitialized, h, io) && e !in PresentEdges(h, res);
      if e in u {
        assert e.pass != h.lum;
      }
    }
  }

  /** FinalPass reads indirect diffuse and its denoiser's current temporal cache only when they are enabled. */
  lemma IndirectInputs(s: RenderSettings, frameCount: nat, outIdx: int, tlasInitialized: bool,
                       h: PassHandles, io: FrameInputs, res: PostResources)
    requires ValidOutIdx(outIdx) && DistinctIds(io, res)
    ensures var es := PostEdges(s, frameCount, outIdx, tlasInitialized, h, io, res);
            && (In(h.final, io.indirectLi, AllShaderResource) in es <==> s.RTIndirectDiffuse && tlasInitialized)
            && (In(h.final, TemporalCache(io, PingPong(outIdx).0), AllShaderResource) in es <==>
                  s.RTIndirectDiffuse && tlasInitialized && s.DenoiseIndirectDiffuse)
            && (In(h.final, io.spatialVar, AllShaderResource) in es <==>
                  s.RTIndirectDiffuse && tlasInitialized && s.DenoiseIndirectDiffuse)
            && (forall e | e in es :: e.id != TemporalCache(io, PingPong(outIdx).1))
  {
    var es := PostEdges(s, frameCount, outIdx, tlasInitialized, h, io, res);
    var i := IndirectEdges(s, outIdx, tlasInitialized, h, io);
    var cache := TemporalCache(io, PingPong(outIdx).0);
    var stale := TemporalCache(io, PingPong(outIdx).1);
    assert cache != stale;
    forall e | e in es
      ensures e.id in {io.indirectLi, cache, io.spatialVar} ==> e in i
      ensures e.id != stale
    {
      InPostEdges(e, s, frameCount, outIdx, tlasInitialized, h, io, res);
      if e !in i {
        assert e.id !in {io.indirectLi, cache, stale, io.spatialVar};
      }
    }
    InPostEdges(In(h.final, io.indirectLi, AllShaderResource), s, frameCount, outIdx, tlasInitialized, h, io, res);
    InPostEdges(In(h.final, cache, AllShaderResource), s, frameCount, outIdx, tlasInitialized, h, io, res);
    InPostEdges(In(h.final, io.spatialVar, AllShaderResource), s, frameCount, outIdx, tlasInitialized, h, io, res);
  }

  /**
   * The path ids of resources other owners register: the G-buffer's depth
   * and motion vectors, the lighting and indirect-diffuse outputs, the
   * denoiser's caches, and `DUMMY_RES_2`.
   */
  function ExternalIds(io: FrameInputs): set<PathId> {
    {io.depth0, io.depth1, io.hdrLightAccum, io.motionVec, io.indirectLi, io.temporalCacheA, io.temporalCacheB,
     io.spatialVar, DummyRes2}
  }

  /**
   * Every resource a pass writes was registered this frame, and every
   * resource a pass reads was too, unless another owner registers it.
   */
  lemma OutputsRegistered(s: RenderSettings, frameCount: nat, outIdx: int, tlasInitialized: bool,
                          h: PassHandles, io: FrameInputs, res: PostResources)
    requires ValidOutIdx(outIdx)
    ensures forall e | e in PostEdges(s, frameCount, outIdx, tlasInitialized, h, io, res) && e.dir == Output ::
              e.id in Ids(PostResourceList(s, frameCount, res))
    ensures forall e | e in PostEdges(s, frameCount, outIdx, tlasInitialized, h, io, res) ::
              e.id in Ids(PostResourceList(s, frameCount, res)) || e.id in ExternalIds(io)
  {
    var rs := PostResourceList(s, frameCount, res);
    forall e | e in PostEdges(s, frameCount, outIdx, tlasInitialized, h, io, res)
      ensures e.dir == Output ==> e.id in Ids(rs)
      ensures e.id in Ids(rs) || e.id in ExternalIds(io)
    {
      InPostEdges(e, s, frameCount, outIdx, tlasInitialized, h, io, res);
      if e.dir == Output || e.id !in ExternalIds(io) {
        var k := if e.id == res.avgLum.id then |rs| - 3 else if e.id == res.backBuffer.id then |rs| - 2
                 else if e.id == DummyRes1 then |rs| - 1 else if e.id == res.taaB.id && UsesTaa(s, frameCount) then 1 else 0;
        assert rs[k].id == e.id;
      }
    }
  }

  /**
   * Every edge belongs to a pass `Register` named this frame: luminance
   * reduction, FinalPass, GuiPass, or the upscaler that runs.
   */
  lemma EdgesOnRegisteredPasses(passes: seq<RenderPass>, s: RenderSettings, frameCount: nat, outIdx: int,
                                tlasInitialized: bool, h: PassHandles, io: FrameInputs, res: PostResources)
    requires ValidOutIdx(outIdx) && HandlesName(passes, h, s, frameCount)
    ensures forall e | e in PostEdges(s, frameCount, outIdx, tlasInitialized, h, io, res) ::
              && e.pass < |passes|
              && (|| e.pass == h.lum || e.pass == h.final || e.pass == h.gui
                  || (UsesTaa(s, frameCount) && e.pass == h.taa)
                  || (UsesFsr2(s, frameCount) && e.pass == h.fsr2))
  {
    forall e | e in PostEdges(s, frameCount, outIdx, tlasInitialized, h, io, res)
      ensures e.pass < |passes|
      ensures || e.pass == h.lum || e.pass == h.final || e.pass == h.gui
              || (UsesTaa(s, frameCount) && e.pass == h.taa)
              || (UsesFsr2(s, frameCount) && e.pass == h.fsr2)
    {
      InPostEdges(e, s, frameCount, outIdx, tlasInitialized, h, io, res);
    }
  }
}
