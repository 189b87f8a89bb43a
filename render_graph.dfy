/**
 * The render graph as the pass owners see it: an append-only recorder of
 * registered passes, registered resources and declared input/output edges.
 * Ordering, cycle detection and barrier emission happen later in the
 * scheduler and are not part of this model.
 */
module RenderGraph {
  import opened Wrappers

  /** A resource's path id: an opaque identifier, one per texture or buffer. */
  type PathId = nat

  /** The GPU-visible states the modelled owners ask for. */
  datatype ResourceState =
    | Common
    | AllShaderResource
    | UnorderedAccess
    | RenderTarget
    | RaytracingAccelerationStructure

  /** RENDER_NODE_TYPE */
  datatype NodeType = Compute | Render

  /** A registered pass: its name and kind (the recording callback is left out). */
  datatype RenderPass = RenderPass(name: string, kind: NodeType)

  /**
   * A registered resource: the handle of its storage (None for nullptr, used
   * by dummy resources), its path id and the initial state passed explicitly
   * (None when the caller relies on the graph's default).
   */
  datatype Resource = Resource(handle: Option<nat>, id: PathId, initState: Option<ResourceState>)

  datatype Direction = Input | Output

  /** An edge declared by `AddInput` or `AddOutput`: pass handle, resource, required state. */
  datatype Edge = Edge(pass: nat, id: PathId, state: ResourceState, dir: Direction)

  /** RenderGraph::DUMMY_RES::RES_1 and RES_2: ordering-only resources. */
  const DummyRes1: PathId := 0
  const DummyRes2: PathId := 1

  /** A texture as the owners use it: its storage handle and its path id. */
  datatype Texture = Texture(resource: nat, id: PathId)

  function In(pass: nat, id: PathId, state: ResourceState): Edge {
    Edge(pass, id, state, Input)
  }

  function Out(pass: nat, id: PathId, state: ResourceState): Edge {
    Edge(pass, id, state, Output)
  }

  /** Registering a texture with the graph's default initial state. */
  function TextureResource(t: Texture): Resource {
    Resource(Some(t.resource), t.id, None)
  }

  /** The ids registered in `rs`. */
  function Ids(rs: seq<Resource>): set<PathId> {
    set r | r in rs :: r.id
  }

  /** The (id, state) pairs pass `h` declares in direction `d`. */
  function EdgesOf(es: seq<Edge>, h: nat, d: Direction): set<(PathId, ResourceState)> {
    set e | e in es && e.pass == h && e.dir == d :: (e.id, e.state)
  }

  /** The ids pass `h` declares in direction `d`. */
  function IdsOf(es: seq<Edge>, h: nat, d: Direction): set<PathId> {
    set e | e in es && e.pass == h && e.dir == d :: e.id
  }

  /** The edges that mention resource `id`. */
  function EdgesOn(es: seq<Edge>, id: PathId): set<Edge> {
    set e | e in es && e.id == id
  }

  class Graph {
    var passes: seq<RenderPass>
    var resources: seq<Resource>
    var edges: seq<Edge>

    constructor ()
      ensures passes == [] && resources == [] && edges == []
    {
      passes, resources, edges := [], [], [];
    }

    /** Appends a pass; its handle is its position. */
    method RegisterRenderPass(name: string, kind: NodeType) returns (h: nat)
      modifies this`passes
      ensures passes == old(passes) + [RenderPass(name, kind)]
      ensures h == |old(passes)| && passes[h] == RenderPass(name, kind)
    {
      h := |passes|;
      passes := passes + [RenderPass(name, kind)];
    }

    method RegisterResource(handle: Option<nat>, id: PathId, initState: Option<ResourceState>)
      modifies this`resources
      ensures resources == old(resources) + [Resource(handle, id, initState)]
    {
      resources := resources + [Resource(handle, id, initState)];
    }

    method AddInput(h: nat, id: PathId, state: ResourceState)
      modifies this`edges
      ensures edges == old(edges) + [In(h, id, state)]
    {
      edges := edges + [In(h, id, state)];
    }

    method AddOutput(h: nat, id: PathId, state: ResourceState)
      modifies this`edges
      ensures edges == old(edges) + [Out(h, id, state)]
    {
      edges := edges + [Out(h, id, state)];
    }
  }
}
