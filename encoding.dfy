/** The command stream. Every call the engine makes on a command buffer or
    on one of its encoders becomes an event appended to one trace, in the
    order the calls are made. Debug groups and labels are not recorded. */
module Encoding {
  import opened Matrix
  import opened Gpu
  import opened ShaderTypes
  import SceneGraph

  /** The passes an encoder is made for. */
  datatype Pass = ShadowPass | ReflectionPass(water: nat) | GBufferPass | CompositionPass | MainPass
                | TessellationPass

  datatype Pipeline = ShadowPipeline | GBufferPipeline | CompositionPipeline | SkyboxPipeline
                    | TessellationPipeline | SubmeshPipeline(model: SceneGraph.Node, submesh: nat)

  datatype CompareFunction = Less | LessEqual

  /** A depth-stencil state: its compare function and whether it writes. */
  datatype DepthStencil = DepthStencil(compare: CompareFunction, depthWrite: bool)

  datatype CullMode = CullNone | CullBack

  /** The buffers bound as vertex input. */
  datatype VertexSource =
    | ModelVertexBuffer(model: SceneGraph.Node, buffer: nat)
    | InstanceBuffer(model: SceneGraph.Node)
    | SkyboxMesh
    | QuadVertices
    | QuadTexCoords

  /** What a fragment texture slot is bound to: a texture, nothing (a nil
      argument), or slot `slot` of a model's submesh. */
  datatype TextureBinding = Bound(texture: Texture) | Unbound
                          | SubmeshTexture(model: SceneGraph.Node, submesh: nat, slot: nat)

  function BindingOf(t: Texture?): (b: TextureBinding)
    ensures b == Unbound <==> t == null
    ensures t != null ==> b == Bound(t)
  {
    if t == null then Unbound else Bound(t)
  }

  /** The arguments of the tessellation compute pass. */
  datatype ComputeArgument =
    | Factors(values: seq<real>)
    | TessellationFactorsBuffer(terrain: SceneGraph.Node)
    | CameraColumn(column: Vec4)
    | ModelMatrixArgument(node: SceneGraph.Node)   // the node's model matrix when encoded
    | ControlPointsBuffer(terrain: SceneGraph.Node)
    | TerrainUniformsArgument(terrainUniforms: TerrainUniforms)

  datatype Drawn =
    | SubmeshDraw(model: SceneGraph.Node, submesh: nat, instanceCount: nat)
    | SkyboxCube
    | Quad(vertexCount: nat)

  /** Submeshes 0 to n - 1 of a model, each drawn `instanceCount` times. */
  function EverySubmeshDraw(model: SceneGraph.Node, n: nat, instanceCount: nat): (r: seq<Drawn>)
    ensures |r| == n
    ensures forall j :: 0 <= j < n ==> r[j] == SubmeshDraw(model, j, instanceCount)
  {
    if n == 0 then [] else EverySubmeshDraw(model, n - 1, instanceCount) + [SubmeshDraw(model, n - 1, instanceCount)]
  }

  datatype Event =
    | MakeCommandBuffer
    | MakeEncoder(pass: Pass)
    | EndEncoding
    | SetPipeline(pipeline: Pipeline)
    | SetDepthStencil(state: DepthStencil)
    | SetCullMode(mode: CullMode)
    | SetDepthBias(depthBias: real, slopeScale: real, clamp: real)
    | SetVertexBuffer(source: VertexSource, index: nat)
    | SetVertexUniforms(uniforms: Uniforms, index: nat)
    | SetFragmentUniforms(fragmentUniforms: FragmentUniforms, index: nat)
    | SetFragmentLights(lights: seq<Light>, index: nat)
    | SetFragmentTexture(texture: TextureBinding, index: nat)
    | SetFragmentMaterial(model: SceneGraph.Node, submesh: nat, index: nat)
    | SetFragmentSampler(model: SceneGraph.Node, index: nat)
    | UseSkyboxArguments
    | Draw(drawn: Drawn)
    | SetComputeArgument(argument: ComputeArgument, index: nat)
    | Dispatch(threadgroups: nat, threadsPerThreadgroup: nat)
    | ObsidianSkyboxUpdate
    | ObsidianSkyboxRender(skyUniforms: Uniforms)
    | UpdateWater(water: SceneGraph.Node)
    | RenderWater(water: SceneGraph.Node, uniforms: Uniforms, fragmentUniforms: FragmentUniforms)
    | Present
    | Commit

  /** The command buffer's record of calls. */
  class Trace {
    var events: seq<Event>

    constructor ()
      ensures events == []
    {
      events := [];
    }

    method Record(es: seq<Event>)
      modifies this
      ensures events == old(events) + es
    {
      events := events + es;
    }
  }

  /** The passes encoders were made for, in order. */
  function Encoders(events: seq<Event>): (r: seq<Pass>)
    ensures |r| <= |events|
  {
    if |events| == 0 then []
    else Encoders(events[..|events| - 1]) +
         (if events[|events| - 1].MakeEncoder? then [events[|events| - 1].pass] else [])
  }

  /** The models whose vertex buffer was bound, in order: one per
      `draw(renderEncoder:model:)` call. */
  function ModelsDrawn(events: seq<Event>): (r: seq<SceneGraph.Node>)
    ensures |r| <= |events|
  {
    if |events| == 0 then []
    else ModelsDrawn(events[..|events| - 1]) +
         (if events[|events| - 1].SetVertexBuffer? && events[|events| - 1].source.ModelVertexBuffer?
          then [events[|events| - 1].source.model] else [])
  }

  /** The draw calls, in order. */
  function Draws(events: seq<Event>): (r: seq<Drawn>)
    ensures |r| <= |events|
  {
    if |events| == 0 then []
    else Draws(events[..|events| - 1]) +
         (if events[|events| - 1].Draw? then [events[|events| - 1].drawn] else [])
  }

  /** What was handed to the GPU: the `present` and `commit` calls, in
      order. */
  function Submitted(events: seq<Event>): (r: seq<Event>)
    ensures |r| <= |events|
  {
    if |events| == 0 then []
    else Submitted(events[..|events| - 1]) +
         (if events[|events| - 1] == Present || events[|events| - 1] == Commit then [events[|events| - 1]] else [])
  }

  /** Each projection distributes over concatenation. */
  lemma ProjectionsAppend(a: seq<Event>, b: seq<Event>)
    ensures Encoders(a + b) == Encoders(a) + Encoders(b)
    ensures ModelsDrawn(a + b) == ModelsDrawn(a) + ModelsDrawn(b)
    ensures Draws(a + b) == Draws(a) + Draws(b)
    ensures Submitted(a + b) == Submitted(a) + Submitted(b)
  {
    EncodersAppend(a, b);
    ModelsDrawnAppend(a, b);
    DrawsAppend(a, b);
    SubmittedAppend(a, b);
  }

  lemma {:induction false} SubmittedAppend(a: seq<Event>, b: seq<Event>)
    ensures Submitted(a + b) == Submitted(a) + Submitted(b)
    decreases |b|
  {
    if |b| == 0 {
      assert a + b == a;
    } else {
      assert (a + b)[..|a + b| - 1] == a + b[..|b| - 1];
      assert (a + b)[|a + b| - 1] == b[|b| - 1];
      SubmittedAppend(a, b[..|b| - 1]);
    }
  }

  lemma {:induction false} EncodersAppend(a: seq<Event>, b: seq<Event>)
    ensures Encoders(a + b) == Encoders(a) + Encoders(b)
    decreases |b|
  {
    if |b| == 0 {
      assert a + b == a;
    } else {
      assert (a + b)[..|a + b| - 1] == a + b[..|b| - 1];
      assert (a + b)[|a + b| - 1] == b[|b| - 1];
      EncodersAppend(a, b[..|b| - 1]);
    }
  }

  lemma {:induction false} ModelsDrawnAppend(a: seq<Event>, b: seq<Event>)
    ensures ModelsDrawn(a + b) == ModelsDrawn(a) + ModelsDrawn(b)
    decreases |b|
  {
    if |b| == 0 {
      assert a + b == a;
    } else {
      assert (a + b)[..|a + b| - 1] == a + b[..|b| - 1];
      assert (a + b)[|a + b| - 1] == b[|b| - 1];
      ModelsDrawnAppend(a, b[..|b| - 1]);
    }
  }

  lemma {:induction false} DrawsAppend(a: seq<Event>, b: seq<Event>)
    ensures Draws(a + b) == Draws(a) + Draws(b)
    decreases |b|
  {
    if |b| == 0 {
      assert a + b == a;
    } else {
      assert (a + b)[..|a + b| - 1] == a + b[..|b| - 1];
      assert (a + b)[|a + b| - 1] == b[|b| - 1];
      DrawsAppend(a, b[..|b| - 1]);
    }
  }

  /** An event none of the projections records. */
  predicate Unprojected(e: Event)
  {
    !e.MakeEncoder? && !e.Draw? && !(e.SetVertexBuffer? && e.source.ModelVertexBuffer?) &&
    e != Present && e != Commit
  }

  lemma {:induction false} UnprojectedProjections(es: seq<Event>)
    requires forall i :: 0 <= i < |es| ==> Unprojected(es[i])
    ensures Encoders(es) == [] && ModelsDrawn(es) == [] && Draws(es) == [] && Submitted(es) == []
    decreases |es|
  {
    if |es| > 0 {
      UnprojectedProjections(es[..|es| - 1]);
    }
  }

  /** Presenting and committing after `es` adds those two calls to what was
      submitted and nothing to the other projections. */
  lemma PresentCommitProjections(es: seq<Event>)
    ensures Encoders(es + [Present, Commit]) == Encoders(es)
    ensures ModelsDrawn(es + [Present, Commit]) == ModelsDrawn(es)
    ensures Draws(es + [Present, Commit]) == Draws(es)
    ensures Submitted(es + [Present, Commit]) == Submitted(es) + [Present, Commit]
  {
    var presented := es + [Present];
    SnocProjections(es, Present);
    SnocProjections(presented, Commit);
    assert es + [Present, Commit] == presented + [Commit];
  }

  /** One more event adds its own projection to each. */
  lemma SnocProjections(es: seq<Event>, e: Event)
    ensures Encoders(es + [e]) == Encoders(es) + (if e.MakeEncoder? then [e.pass] else [])
    ensures ModelsDrawn(es + [e]) == ModelsDrawn(es) + (if e.SetVertexBuffer? && e.source.ModelVertexBuffer? then [e.source.model] else [])
    ensures Draws(es + [e]) == Draws(es) + (if e.Draw? then [e.drawn] else [])
    ensures Submitted(es + [e]) == Submitted(es) + (if e == Present || e == Commit then [e] else [])
  {
    assert (es + [e])[..|es + [e]| - 1] == es;
  }

  /** Events none of the projections see add nothing to a quiet trace. */
  lemma AppendUnprojected(a: seq<Event>, b: seq<Event>)
    requires Encoders(a) == [] && ModelsDrawn(a) == [] && Submitted(a) == []
    requires forall i :: 0 <= i < |b| ==> Unprojected(b[i])
    ensures Encoders(a + b) == [] && ModelsDrawn(a + b) == [] && Submitted(a + b) == []
  {
    ProjectionsAppend(a, b);
    UnprojectedProjections(b);
  }

  lemma SingleProjections(e: Event)
    ensures Encoders([e]) == (if e.MakeEncoder? then [e.pass] else [])
    ensures ModelsDrawn([e]) == (if e.SetVertexBuffer? && e.source.ModelVertexBuffer? then [e.source.model] else [])
    ensures Draws([e]) == (if e.Draw? then [e.drawn] else [])
    ensures Submitted([e]) == (if e == Present || e == Commit then [e] else [])
  {
    assert [e][..0] == [];
  }
}
