/**
 * The G-buffer owner: seven render targets, four of them double-buffered
 * (one half per frame parity), two descriptor tables per parity, and one
 * compute pass that writes them all.  `CreateGBuffers` fills the textures
 * and the tables' slots, `Register` and `DeclareAdjacencies` record the pass
 * with the render graph, and `Update` points the pass's UAV inputs at the
 * current parity's table.
 *
 * Texture creation is a parameter `alloc` from texture name to texture; the
 * frame parity, the TLAS's readiness and its path id are parameters.
 */
module GBuffer {
  import opened Wrappers
  import opened RenderGraph

  /** GBufferData::GBUFFER: the targets, each also a slot of every descriptor table. */
  datatype Target = BaseColor | Normal | MetallicRoughness | MotionVector | EmissiveColor | Depth | Curvature

  const AllTargets: set<Target> :=
    {BaseColor, Normal, MetallicRoughness, MotionVector, EmissiveColor, Depth, Curvature}

  /** Targets kept for the current and the previous frame. */
  predicate DoubleBuffered(t: Target) {
    t == BaseColor || t == Normal || t == MetallicRoughness || t == Depth
  }

  /** The decimal digit `%d` prints for a half index. */
  function Digit(i: nat): char
    requires i < 2
  {
    if i == 0 then '0' else '1'
  }

  /** The name `CreateGBuffers` gives to half `i` of target `t` (single-buffered targets ignore `i`). */
  function TargetName(t: Target, i: nat): string
    requires i < 2
  {
    match t
    case BaseColor => "GBuffer_BaseColor_" + [Digit(i)]
    case Normal => "GBuffer_Normal_" + [Digit(i)]
    case MetallicRoughness => "GBuffer_MR_" + [Digit(i)]
    case MotionVector => "GBuffer_MV"
    case EmissiveColor => "GBuffer_Emissive"
    case Depth => "Depth_" + [Digit(i)]
    case Curvature => "GBuffer_Curvature"
  }

  /** Length and ninth character of a name: enough to tell the targets' names apart. */
  function NameSignature(n: string): (nat, char) {
    (|n|, if |n| > 8 then n[8] else ' ')
  }

  function TargetSignature(t: Target): (nat, char) {
    match t
    case BaseColor => (19, 'B')
    case Normal => (16, 'N')
    case MetallicRoughness => (12, 'M')
    case MotionVector => (10, 'M')
    case EmissiveColor => (16, 'E')
    case Depth => (7, ' ')
    case Curvature => (17, 'C')
  }

  /** Two textures get the same name exactly when they are the same texture. */
  lemma TargetNamesInjective(t1: Target, i1: nat, t2: Target, i2: nat)
    requires i1 < 2 && i2 < 2
    ensures TargetName(t1, i1) == TargetName(t2, i2) <==> t1 == t2 && (DoubleBuffered(t1) ==> i1 == i2)
  {
    var n1, n2 := TargetName(t1, i1), TargetName(t2, i2);
    assert NameSignature(n1) == TargetSignature(t1);
    assert NameSignature(n2) == TargetSignature(t2);
    if n1 == n2 && t1 == t2 && DoubleBuffered(t1) {
      assert n1[|n1| - 1] == Digit(i1) && n2[|n2| - 1] == Digit(i2);
    }
  }

  /** The G-buffer textures as values. */
  datatype Buffers = Buffers(
    baseColor: seq<Texture>,
    normal: seq<Texture>,
    metallicRoughness: seq<Texture>,
    depthBuffer: seq<Texture>,
    motionVec: Texture,
    emissiveColor: Texture,
    curvature: Texture)
  {
    predicate WellFormed() {
      |baseColor| == 2 && |normal| == 2 && |metallicRoughness| == 2 && |depthBuffer| == 2
    }

    /** Half `i` of target `t`; a single-buffered target is its own both halves. */
    function TextureAt(t: Target, i: nat): Texture
      requires WellFormed() && i < 2
    {
      match t
      case BaseColor => baseColor[i]
      case Normal => normal[i]
      case MetallicRoughness => metallicRoughness[i]
      case MotionVector => motionVec
      case EmissiveColor => emissiveColor
      case Depth => depthBuffer[i]
      case Curvature => curvature
    }

    /** Different textures have different path ids. */
    predicate DistinctIds()
      requires WellFormed()
    {
      forall t1, i1, t2, i2 | i1 < 2 && i2 < 2 && TextureAt(t1, i1).id == TextureAt(t2, i2).id ::
        t1 == t2 && (DoubleBuffered(t1) ==> i1 == i2)
    }
  }

  /** The textures `CreateGBuffers` obtains from the allocator. */
  function BuffersFrom(alloc: string -> Texture): (b: Buffers)
    ensures b.WellFormed()
  {
    Buffers(
      [alloc(TargetName(BaseColor, 0)), alloc(TargetName(BaseColor, 1))],
      [alloc(TargetName(Normal, 0)), alloc(TargetName(Normal, 1))],
      [alloc(TargetName(MetallicRoughness, 0)), alloc(TargetName(MetallicRoughness, 1))],
      [alloc(TargetName(Depth, 0)), alloc(TargetName(Depth, 1))],
      alloc(TargetName(MotionVector, 0)),
      alloc(TargetName(EmissiveColor, 0)),
      alloc(TargetName(Curvature, 0)))
  }

  /** Each texture is the one allocated under its own name; an allocator that keeps names apart keeps ids apart. */
  lemma BuffersFromNames(alloc: string -> Texture)
    ensures forall t, i | i < 2 :: BuffersFrom(alloc).TextureAt(t, i) == alloc(TargetName(t, i))
    ensures (forall n1, n2 | alloc(n1).id == alloc(n2).id :: n1 == n2) ==> BuffersFrom(alloc).DistinctIds()
  {
    var b := BuffersFrom(alloc);
    forall t, i | i < 2
      ensures b.TextureAt(t, i) == alloc(TargetName(t, i))
    {
    }
    if forall n1, n2 | alloc(n1).id == alloc(n2).id :: n1 == n2 {
      forall t1, i1, t2, i2 | i1 < 2 && i2 < 2 && b.TextureAt(t1, i1).id == b.TextureAt(t2, i2).id
        ensures t1 == t2 && (DoubleBuffered(t1) ==> i1 == i2)
      {
        assert TargetName(t1, i1) == TargetName(t2, i2);
        TargetNamesInjective(t1, i1, t2, i2);
      }
    }
  }

  // ---------------------------------------------------------------------
  // Descriptor tables (`CreateGBuffers`)

  lemma InAllTargets(t: Target)
    ensures t in AllTargets
  {
    match t
    case BaseColor =>
    case Normal =>
    case MetallicRoughness =>
    case MotionVector =>
    case EmissiveColor =>
    case Depth =>
    case Curvature =>
  }

  /** What the slots of the tables of parity `i` view once `CreateGBuffers` has run. */
  function ViewTable(b: Buffers, i: nat): (r: map<Target, PathId>)
    requires b.WellFormed() && i < 2
    ensures r.Keys == AllTargets
  {
    map t | t in AllTargets :: b.TextureAt(t, i).id
  }

  /**
   * Each slot views its own target; single-buffered targets are viewed by
   * both parities' tables; a double-buffered target's half `i` is viewed by
   * tables `i` only.
   */
  lemma ViewTableSlots(b: Buffers)
    requires b.WellFormed() && b.DistinctIds()
    ensures forall t, i | i < 2 :: t in ViewTable(b, i) && ViewTable(b, i)[t] == b.TextureAt(t, i).id
    ensures forall t | !DoubleBuffered(t) :: ViewTable(b, 0)[t] == ViewTable(b, 1)[t]
    ensures forall t, u, i: nat | i < 2 && DoubleBuffered(u) :: ViewTable(b, i)[t] != b.TextureAt(u, 1 - i).id
  {
    forall t, i | i < 2
      ensures t in ViewTable(b, i) && ViewTable(b, i)[t] == b.TextureAt(t, i).id
    {
      InAllTargets(t);
    }
    forall t, u, i: nat | i < 2 && DoubleBuffered(u)
      ensures ViewTable(b, i)[t] != b.TextureAt(u, 1 - i).id
    {
      InAllTargets(t);
      assert ViewTable(b, i)[t] == b.TextureAt(t, i).id;
    }
  }

  // ---------------------------------------------------------------------
  // Registration (`Register`)

  /** What one iteration of `Register`'s loop registers: half `i` of the double-buffered targets. */
  function HalfResources(b: Buffers, i: nat): seq<Resource>
    requires b.WellFormed() && i < 2
  {
    [ TextureResource(b.normal[i]),
      Resource(Some(b.depthBuffer[i].resource), b.depthBuffer[i].id, Some(Common)),
      TextureResource(b.metallicRoughness[i]),
      TextureResource(b.baseColor[i]) ]
  }

  /** What the first `n` iterations of the loop register. */
  function RegisteredHalves(b: Buffers, n: nat): (r: seq<Resource>)
    requires b.WellFormed() && n <= 2
    ensures |r| == 4 * n
  {
    if n == 0 then [] else RegisteredHalves(b, n - 1) + HalfResources(b, n - 1)
  }

  /** Everything `Register` registers when the TLAS is ready. */
  function GBufferResources(b: Buffers): (r: seq<Resource>)
    requires b.WellFormed()
    ensures |r| == 11
  {
    RegisteredHalves(b, 2)
    + [TextureResource(b.motionVec), TextureResource(b.emissiveColor), TextureResource(b.curvature)]
  }

  /** `Register`'s resources written out, each texture by its target and half. */
  lemma GBufferResourcesListed(b: Buffers)
    requires b.WellFormed()
    ensures GBufferResources(b) ==
      [ TextureResource(b.TextureAt(Normal, 0)),
        Resource(Some(b.TextureAt(Depth, 0).resource), b.TextureAt(Depth, 0).id, Some(Common)),
        TextureResource(b.TextureAt(MetallicRoughness, 0)),
        TextureResource(b.TextureAt(BaseColor, 0)),
        TextureResource(b.TextureAt(Normal, 1)),
        Resource(Some(b.TextureAt(Depth, 1).resource), b.TextureAt(Depth, 1).id, Some(Common)),
        TextureResource(b.TextureAt(MetallicRoughness, 1)),
        TextureResource(b.TextureAt(BaseColor, 1)),
        TextureResource(b.TextureAt(MotionVector, 0)),
        TextureResource(b.TextureAt(EmissiveColor, 0)),
        TextureResource(b.TextureAt(Curvature, 0)) ]
  {
    assert RegisteredHalves(b, 1) == HalfResources(b, 0);
    assert RegisteredHalves(b, 2) == HalfResources(b, 0) + HalfResources(b, 1);
  }

  /** Both halves of every target are registered, each with its storage. */
  lemma GBufferResourcesCover(b: Buffers)
    requires b.WellFormed()
    ensures forall t, i | i < 2 :: b.TextureAt(t, i).id in Ids(GBufferResources(b))
    ensures forall r | r in GBufferResources(b) :: r.handle.Some?
  {
    var rs := GBufferResources(b);
    GBufferResourcesListed(b);
    forall t, i | i < 2
      ensures b.TextureAt(t, i).id in Ids(rs)
    {
      var k := match t
        case Normal => 4 * i
        case Depth => 4 * i + 1
        case MetallicRoughness => 4 * i + 2
        case BaseColor => 4 * i + 3
        case MotionVector => 8
        case EmissiveColor => 9
        case Curvature => 10;
      assert rs[k] in rs && rs[k].id == b.TextureAt(t, i).id;
    }
  }

  /** With distinct ids, exactly the depth buffers are registered with an explicit (COMMON) initial state. */
  lemma DepthInitState(b: Buffers)
    requires b.WellFormed() && b.DistinctIds()
    ensures forall r | r in GBufferResources(b) ::
              r.initState == (if r.id in {b.TextureAt(Depth, 0).id, b.TextureAt(Depth, 1).id} then Some(Common) else None)
  {
    GBufferResourcesListed(b);
    var rs := GBufferResources(b);
    var depths := {b.TextureAt(Depth, 0).id, b.TextureAt(Depth, 1).id};
    forall r | r in rs
      ensures r.initState == (if r.id in depths then Some(Common) else None)
    {
      var k :| 0 <= k < |rs| && rs[k] == r;
      if k != 1 && k != 5 {
        assert r.initState == None && r.id !in depths;
      }
    }
  }

  // ---------------------------------------------------------------------
  // Edges (`DeclareAdjacencies`)

  /** The outputs `DeclareAdjacencies` declares: the `outIdx` half of each target, in its order. */
  function GBufferOutputs(b: Buffers, h: nat, outIdx: nat): seq<Edge>
    requires b.WellFormed() && outIdx < 2
  {
    [ Out(h, b.TextureAt(BaseColor, outIdx).id, UnorderedAccess),
      Out(h, b.TextureAt(Normal, outIdx).id, UnorderedAccess),
      Out(h, b.TextureAt(MetallicRoughness, outIdx).id, UnorderedAccess),
      Out(h, b.TextureAt(MotionVector, outIdx).id, UnorderedAccess),
      Out(h, b.TextureAt(EmissiveColor, outIdx).id, UnorderedAccess),
      Out(h, b.TextureAt(Depth, outIdx).id, UnorderedAccess),
      Out(h, b.TextureAt(Curvature, outIdx).id, UnorderedAccess) ]
  }

  /** The edges `DeclareAdjacencies` appends when the TLAS is ready. */
  function GBufferEdges(b: Buffers, h: nat, outIdx: nat, tlasId: PathId): seq<Edge>
    requires b.WellFormed() && outIdx < 2
  {
    [In(h, tlasId, RaytracingAccelerationStructure)] + GBufferOutputs(b, h, outIdx)
  }

  /** Every output is an unordered-access write of one target's `outIdx` half, and every target has one. */
  lemma GBufferOutputsShape(b: Buffers, h: nat, outIdx: nat)
    requires b.WellFormed() && outIdx < 2
    ensures var os := GBufferOutputs(b, h, outIdx);
            && (forall e | e in os :: e.pass == h && e.dir == Output && e.state == UnorderedAccess)
            && (forall t :: Out(h, b.TextureAt(t, outIdx).id, UnorderedAccess) in os)
            && (forall e | e in os :: exists t :: e.id == b.TextureAt(t, outIdx).id)
  {
    var os := GBufferOutputs(b, h, outIdx);
    forall e | e in os
      ensures exists t :: e.id == b.TextureAt(t, outIdx).id
    {
      if e == os[0] { assert e.id == b.TextureAt(BaseColor, outIdx).id; }
      else if e == os[1] { assert e.id == b.TextureAt(Normal, outIdx).id; }
      else if e == os[2] { assert e.id == b.TextureAt(MetallicRoughness, outIdx).id; }
      else if e == os[3] { assert e.id == b.TextureAt(MotionVector, outIdx).id; }
      else if e == os[4] { assert e.id == b.TextureAt(EmissiveColor, outIdx).id; }
      else if e == os[5] { assert e.id == b.TextureAt(Depth, outIdx).id; }
      else { assert e.id == b.TextureAt(Curvature, outIdx).id; }
    }
  }

  /**
   * The pass's only input is the TLAS; it writes the `outIdx` half of every
   * target, all as unordered access, and nothing else.
   */
  lemma GBufferEdgesShape(b: Buffers, h: nat, outIdx: nat, tlasId: PathId)
    requires b.WellFormed() && outIdx < 2
    ensures var es := GBufferEdges(b, h, outIdx, tlasId);
            && (forall e | e in es :: e.pass == h)
            && (forall e | e in es && e.dir == Input :: e == In(h, tlasId, RaytracingAccelerationStructure))
            && In(h, tlasId, RaytracingAccelerationStructure) in es
            && (forall t :: Out(h, b.TextureAt(t, outIdx).id, UnorderedAccess) in es)
            && (forall e | e in es && e.dir == Output ::
                  e.state == UnorderedAccess && exists t :: e.id == b.TextureAt(t, outIdx).id)
  {
    var os := GBufferOutputs(b, h, outIdx);
    GBufferOutputsShape(b, h, outIdx);
    var es := GBufferEdges(b, h, outIdx, tlasId);
    assert forall e | e in es :: e == In(h, tlasId, RaytracingAccelerationStructure) || e in os;
  }

  /** With distinct ids, no edge names the other parity's half of a double-buffered target. */
  lemma OtherHalfUntouched(b: Buffers, h: nat, outIdx: nat, tlasId: PathId)
    requires b.WellFormed() && b.DistinctIds() && outIdx < 2
    requires forall t, i | i < 2 :: tlasId != b.TextureAt(t, i).id
    ensures forall e, t | e in GBufferEdges(b, h, outIdx, tlasId) && DoubleBuffered(t) ::
              e.id != b.TextureAt(t, 1 - outIdx).id
  {
    var es := GBufferEdges(b, h, outIdx, tlasId);
    forall e, t | e in es && DoubleBuffered(t)
      ensures e.id != b.TextureAt(t, 1 - outIdx).id
    {
      if e != es[0] {
        var u :| e.id == b.TextureAt(u, outIdx).id;
      }
    }
  }

  /** Every resource the pass writes is one `Register` registered. */
  lemma OutputsRegistered(b: Buffers, h: nat, outIdx: nat, tlasId: PathId)
    requires b.WellFormed() && outIdx < 2
    ensures forall e | e in GBufferEdges(b, h, outIdx, tlasId) && e.dir == Output :: e.id in Ids(GBufferResources(b))
  {
    GBufferResourcesCover(b);
    GBufferEdgesShape(b, h, outIdx, tlasId);
  }

  // ---------------------------------------------------------------------
  // UAV bindings (`Update`)

  /** A descriptor: slot `slot` of the UAV table of parity `table`. */
  datatype DescRef = DescRef(table: nat, slot: Target)

  /** The targets `Update` binds: all but curvature. */
  const BoundTargets: set<Target> := AllTargets - {Curvature}

  /** The pass's UAV inputs after `Update`, from those before. */
  function BindUavs(bound: map<Target, DescRef>, outIdx: nat): (r: map<Target, DescRef>)
    ensures forall t | t in BoundTargets :: t in r && r[t] == DescRef(outIdx, t)
    ensures Curvature in r <==> Curvature in bound
    ensures Curvature in r ==> r[Curvature] == bound[Curvature]
  {
    bound[BaseColor := DescRef(outIdx, BaseColor)][Normal := DescRef(outIdx, Normal)]
         [MetallicRoughness := DescRef(outIdx, MetallicRoughness)][MotionVector := DescRef(outIdx, MotionVector)]
         [EmissiveColor := DescRef(outIdx, EmissiveColor)][Depth := DescRef(outIdx, Depth)]
  }

  /**
   * Each UAV input `Update` binds views, in the current tables, the texture
   * `DeclareAdjacencies` declares as the pass's output for that target.
   */
  lemma BoundUavsAreDeclaredOutputs(b: Buffers, bound: map<Target, DescRef>, h: nat, outIdx: nat, tlasId: PathId)
    requires b.WellFormed() && outIdx < 2
    ensures forall t | t in BoundTargets ::
              var d := BindUavs(bound, outIdx)[t];
              && d.table < 2 && d.slot in ViewTable(b, d.table)
              && Out(h, ViewTable(b, d.table)[d.slot], UnorderedAccess) in GBufferEdges(b, h, outIdx, tlasId)
  {
    GBufferEdgesShape(b, h, outIdx, tlasId);
  }

  // ---------------------------------------------------------------------
  // The owner's state and its operations

  class GBufferData {
    const BaseColor: array<Texture>
    const Normal: array<Texture>
    const MetallicRoughness: array<Texture>
    const DepthBuffer: array<Texture>
    var MotionVec: Texture
    var EmissiveColor: Texture
    var Curvature: Texture
    /** Per parity, what each slot views. */
    const SrvDescTable: array<map<Target, PathId>>
    const UavDescTable: array<map<Target, PathId>>
    var GBufferPassHandle: nat
    /** The pass's UAV inputs and the descriptors they are set to. */
    var PassUav: map<Target, DescRef>

    predicate Valid() {
      && BaseColor.Length == 2 && Normal.Length == 2 && MetallicRoughness.Length == 2 && DepthBuffer.Length == 2
      && SrvDescTable.Length == 2 && UavDescTable.Length == 2
      && BaseColor != Normal && BaseColor != MetallicRoughness && BaseColor != DepthBuffer
      && Normal != MetallicRoughness && Normal != DepthBuffer && MetallicRoughness != DepthBuffer
      && SrvDescTable != UavDescTable
    }

    constructor ()
      ensures Valid() && PassUav == map[]
      ensures forall i | 0 <= i < 2 :: SrvDescTable[i] == map[] && UavDescTable[i] == map[]
    {
      BaseColor := new Texture[2];
      Normal := new Texture[2];
      MetallicRoughness := new Texture[2];
      DepthBuffer := new Texture[2];
      SrvDescTable := new map<Target, PathId>[2](_ => map[]);
      UavDescTable := new map<Target, PathId>[2](_ => map[]);
      PassUav := map[];
    }

    /** The array holding the halves of a double-buffered target. */
    function Halves(t: Target): array<Texture>
      requires DoubleBuffered(t)
    {
      match t
      case BaseColor => BaseColor
      case Normal => Normal
      case MetallicRoughness => MetallicRoughness
      case Depth => DepthBuffer
    }

    function Snapshot(): (b: Buffers)
      requires Valid()
      reads this, BaseColor, Normal, MetallicRoughness, DepthBuffer
      ensures b.WellFormed()
    {
      Buffers([BaseColor[0], BaseColor[1]], [Normal[0], Normal[1]],
              [MetallicRoughness[0], MetallicRoughness[1]], [DepthBuffer[0], DepthBuffer[1]],
              MotionVec, EmissiveColor, Curvature)
    }
  }

  /**
   * One double-buffered block of `CreateGBuffers`: half `i` is the texture
   * created under its name, written into slot `t` of tables `i`.
   */
  method CreateDoubleBuffered(data: GBufferData, t: Target, created: Buffers)
    requires data.Valid() && DoubleBuffered(t) && created.WellFormed()
    modifies data.Halves(t), data.UavDescTable, data.SrvDescTable
    ensures data.Halves(t)[0] == created.TextureAt(t, 0) && data.Halves(t)[1] == created.TextureAt(t, 1)
    ensures data.UavDescTable[0] == old(data.UavDescTable[0])[t := created.TextureAt(t, 0).id]
    ensures data.UavDescTable[1] == old(data.UavDescTable[1])[t := created.TextureAt(t, 1).id]
    ensures data.SrvDescTable[0] == old(data.SrvDescTable[0])[t := created.TextureAt(t, 0).id]
    ensures data.SrvDescTable[1] == old(data.SrvDescTable[1])[t := created.TextureAt(t, 1).id]
  {
    var halves := data.Halves(t);
    for i := 0 to 2
      invariant forall j | 0 <= j < i :: halves[j] == created.TextureAt(t, j)
      invariant forall j | 0 <= j < 2 ::
                  data.UavDescTable[j] == if j < i then old(data.UavDescTable[j])[t := created.TextureAt(t, j).id]
                                          else old(data.UavDescTable[j])
      invariant forall j | 0 <= j < 2 ::
                  data.SrvDescTable[j] == if j < i then old(data.SrvDescTable[j])[t := created.TextureAt(t, j).id]
                                          else old(data.SrvDescTable[j])
    {
      halves[i] := created.TextureAt(t, i);
      data.UavDescTable[i] := data.UavDescTable[i][t := halves[i].id];
      data.SrvDescTable[i] := data.SrvDescTable[i][t := halves[i].id];
    }
  }

  /** One single-buffered block of `CreateGBuffers`: write the texture into slot `t` of both parities' tables. */
  method WriteBothTables(data: GBufferData, t: Target, tex: Texture)
    requires data.Valid()
    modifies data.UavDescTable, data.SrvDescTable
    ensures data.UavDescTable[0] == old(data.UavDescTable[0])[t := tex.id]
    ensures data.UavDescTable[1] == old(data.UavDescTable[1])[t := tex.id]
    ensures data.SrvDescTable[0] == old(data.SrvDescTable[0])[t := tex.id]
    ensures data.SrvDescTable[1] == old(data.SrvDescTable[1])[t := tex.id]
  {
    data.UavDescTable[0] := data.UavDescTable[0][t := tex.id];
    data.UavDescTable[1] := data.UavDescTable[1][t := tex.id];
    data.SrvDescTable[0] := data.SrvDescTable[0][t := tex.id];
    data.SrvDescTable[1] := data.SrvDescTable[1][t := tex.id];
  }

  /** Table `m` after `CreateGBuffers`' seven writes for parity `i`, in its order. */
  ghost function Written(m: map<Target, PathId>, b: Buffers, i: nat): map<Target, PathId>
    requires b.WellFormed() && i < 2
  {
    m[BaseColor := b.TextureAt(BaseColor, i).id][Normal := b.TextureAt(Normal, i).id]
     [MetallicRoughness := b.TextureAt(MetallicRoughness, i).id]
     [MotionVector := b.motionVec.id][EmissiveColor := b.emissiveColor.id]
     [Depth := b.TextureAt(Depth, i).id][Curvature := b.curvature.id]
  }

  /** Whatever a table held before, the seven writes leave exactly the view table. */
  lemma FilledTable(m: map<Target, PathId>, b: Buffers, i: nat)
    requires b.WellFormed() && i < 2
    ensures Written(m, b, i) == ViewTable(b, i)
  {
    forall t: Target
      ensures t in AllTargets
    {
      InAllTargets(t);
    }
  }

  /**
   * `CreateGBuffers`: each texture is the one `alloc` gives for its name, and
   * every slot of both parities' tables views its target's half of that parity.
   */
  method CreateGBuffers(data: GBufferData, alloc: string -> Texture)
    requires data.Valid()
    modifies data.BaseColor, data.Normal, data.MetallicRoughness, data.DepthBuffer
    modifies data.UavDescTable, data.SrvDescTable, data`MotionVec, data`EmissiveColor, data`Curvature
    ensures data.Snapshot() == BuffersFrom(alloc)
    ensures data.UavDescTable[0] == ViewTable(data.Snapshot(), 0) && data.UavDescTable[1] == ViewTable(data.Snapshot(), 1)
    ensures data.SrvDescTable[0] == ViewTable(data.Snapshot(), 0) && data.SrvDescTable[1] == ViewTable(data.Snapshot(), 1)
  {
    ghost var u0, u1, s0, s1 := data.UavDescTable[0], data.UavDescTable[1], data.SrvDescTable[0], data.SrvDescTable[1];
    var created := BuffersFrom(alloc);

    CreateDoubleBuffered(data, BaseColor, created);
    CreateDoubleBuffered(data, Normal, created);
    CreateDoubleBuffered(data, MetallicRoughness, created);

    data.MotionVec := created.motionVec;
    WriteBothTables(data, MotionVector, data.MotionVec);

    data.EmissiveColor := created.emissiveColor;
    WriteBothTables(data, EmissiveColor, data.EmissiveColor);

    CreateDoubleBuffered(data, Depth, created);

    data.Curvature := created.curvature;
    WriteBothTables(data, Curvature, data.Curvature);

    assert data.Snapshot() == created;
    FilledTable(u0, created, 0);
    FilledTable(u1, created, 1);
    FilledTable(s0, created, 0);
    FilledTable(s1, created, 1);
  }

  method Register(data: GBufferData, tlasReady: bool, g: Graph)
    requires data.Valid()
    modifies g`passes, g`resources, data`GBufferPassHandle
    ensures !tlasReady ==> g.passes == old(g.passes) && g.resources == old(g.resources)
                           && data.GBufferPassHandle == old(data.GBufferPassHandle)
    ensures tlasReady ==> && g.passes == old(g.passes) + [RenderPass("GBuffer", Compute)]
                          && data.GBufferPassHandle == |old(g.passes)|
                          && g.resources == old(g.resources) + GBufferResources(data.Snapshot())
  {
    if !tlasReady {
      return;
    }

    data.GBufferPassHandle := g.RegisterRenderPass("GBuffer", Compute);
    ghost var passes, handle := g.passes, data.GBufferPassHandle;

    for i := 0 to 2
      invariant g.passes == passes && data.GBufferPassHandle == handle
      invariant g.resources == old(g.resources) + RegisteredHalves(data.Snapshot(), i)
    {
      g.RegisterResource(Some(data.Normal[i].resource), data.Normal[i].id, None);
      g.RegisterResource(Some(data.DepthBuffer[i].resource), data.DepthBuffer[i].id, Some(Common));
      g.RegisterResource(Some(data.MetallicRoughness[i].resource), data.MetallicRoughness[i].id, None);
      g.RegisterResource(Some(data.BaseColor[i].resource), data.BaseColor[i].id, None);
    }

    g.RegisterResource(Some(data.MotionVec.resource), data.MotionVec.id, None);
    g.RegisterResource(Some(data.EmissiveColor.resource), data.EmissiveColor.id, None);
    g.RegisterResource(Some(data.Curvature.resource), data.Curvature.id, None);
  }

  /** The output part of `DeclareAdjacencies`. */
  method DeclareOutputs(data: GBufferData, outIdx: nat, g: Graph)
    requires data.Valid() && outIdx < 2
    modifies g`edges
    ensures g.edges == old(g.edges) + GBufferOutputs(data.Snapshot(), data.GBufferPassHandle, outIdx)
  {
    g.AddOutput(data.GBufferPassHandle, data.BaseColor[outIdx].id, UnorderedAccess);
    g.AddOutput(data.GBufferPassHandle, data.Normal[outIdx].id, UnorderedAccess);
    g.AddOutput(data.GBufferPassHandle, data.MetallicRoughness[outIdx].id, UnorderedAccess);
    g.AddOutput(data.GBufferPassHandle, data.MotionVec.id, UnorderedAccess);
    g.AddOutput(data.GBufferPassHandle, data.EmissiveColor.id, UnorderedAccess);
    g.AddOutput(data.GBufferPassHandle, data.DepthBuffer[outIdx].id, UnorderedAccess);
    g.AddOutput(data.GBufferPassHandle, data.Curvature.id, UnorderedAccess);
  }

  method DeclareAdjacencies(data: GBufferData, outIdx: nat, tlasReady: bool, tlasId: PathId, g: Graph)
    requires data.Valid() && outIdx < 2
    modifies g`edges
    ensures g.edges == old(g.edges)
                       + (if tlasReady then GBufferEdges(data.Snapshot(), data.GBufferPassHandle, outIdx, tlasId) else [])
  {
    if !tlasReady {
      return;
    }

    g.AddInput(data.GBufferPassHandle, tlasId, RaytracingAccelerationStructure);
    DeclareOutputs(data, outIdx, g);
  }

  method Update(data: GBufferData, outIdx: nat)
    requires outIdx < 2
    modifies data`PassUav
    ensures data.PassUav == BindUavs(old(data.PassUav), outIdx)
  {
    data.PassUav := data.PassUav[BaseColor := DescRef(outIdx, BaseColor)];
    data.PassUav := data.PassUav[Normal := DescRef(outIdx, Normal)];
    data.PassUav := data.PassUav[MetallicRoughness := DescRef(outIdx, MetallicRoughness)];
    data.PassUav := data.PassUav[MotionVector := DescRef(outIdx, MotionVector)];
    data.PassUav := data.PassUav[EmissiveColor := DescRef(outIdx, EmissiveColor)];
    data.PassUav := data.PassUav[Depth := DescRef(outIdx, Depth)];
  }
}
