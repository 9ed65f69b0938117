/** What the two renderers share: their texture builder, the G-buffer
    attachment setup, the shadow camera, and `draw(renderEncoder:model:)`,
    which binds a model's uniforms, vertex buffer and sampler and then, per
    submesh, its five textures and material before an indexed draw. */
module FramePasses {
  import opened Wrappers
  import opened Matrix
  import opened Gpu
  import opened ShaderTypes
  import opened SceneGraph
  import opened Encoding
  import opened PassDescriptors
  import Seqs

  /** What a frame threads through its passes: the scene's uniforms and
      fragment uniforms, and the command buffer's trace. */
  datatype FrameState = FrameState(uniforms: Uniforms, fragmentUniforms: FragmentUniforms, events: seq<Event>)

  /** The renderers' `depthStencilState`: `less`, with depth writes. */
  const DepthState := DepthStencil(Less, true)

  /** The descriptor `buildTexture(pixelFormat:size:label:)` asks for: the
      full drawable size, 2D, one sample, no mipmaps, private, a render
      target that shaders read. */
  function RendererTextureDescriptor(pixelFormat: PixelFormat, size: Size): (d: TextureDescriptor)
    ensures d.textureType == Type2D && d.pixelFormat == pixelFormat
    ensures d.width == size.width && d.height == size.height && d.sampleCount == 1 && !d.mipmapped
    ensures d.storageMode == Private && d.usage == {ShaderRead, RenderTarget}
  {
    Texture2DDescriptor(pixelFormat, size.width, size.height, false).(usage := {ShaderRead, RenderTarget},
                                                                      storageMode := Private)
  }

  /** `buildTexture(pixelFormat:size:label:)` of both renderers: a new
      texture labelled "<label> texture". */
  method BuildTexture(pixelFormat: PixelFormat, size: Size, textureLabel: string) returns (t: Texture)
    ensures fresh(t) && t.descriptor == RendererTextureDescriptor(pixelFormat, size)
    ensures t.name == textureLabel + " texture" && t.origin == Allocated
  {
    var descriptor := Texture2DDescriptor(pixelFormat, size.width, size.height, false);
    descriptor := descriptor.(usage := {ShaderRead, RenderTarget});
    descriptor := descriptor.(storageMode := Private);
    t := new Texture(descriptor, textureLabel + " texture", Allocated);
  }

  /** The colour attachments after the first |targets| of them are set up,
      in order, to render into `targets` and be stored. */
  function WireColorTargets(attachments: seq<ColorAttachment>, targets: seq<Texture>): (r: seq<ColorAttachment>)
    requires |targets| <= |attachments|
    ensures |r| == |attachments|
    ensures forall i :: 0 <= i < |targets| ==> r[i] == StoringColorAttachment(attachments[i], targets[i])
    ensures forall i :: |targets| <= i < |attachments| ==> r[i] == attachments[i]
    decreases |targets|
  {
    if |targets| == 0 then attachments
    else
      var k := |targets| - 1;
      WireColorTargets(attachments, targets[..k])[k := StoringColorAttachment(attachments[k], targets[k])]
  }

  /** `buildGbufferTextures(size:)` and the attachment setup that follows
      it: albedo (bgra8), normal and position (rgba16F) and depth
      (depth32F) textures at the full size, the three colour targets wired,
      in that order, to colour attachments 0 to 2 and the depth texture to
      the depth attachment. The other attachments and every resolve texture
      are left as they were. */
  method SetUpGBufferAttachments(d: PassDescriptor, size: Size)
    returns (albedo: Texture, normal: Texture, position: Texture, depth: Texture)
    requires |d.colorAttachments| == MaxColorAttachments
    modifies d
    ensures fresh(albedo) && fresh(normal) && fresh(position) && fresh(depth)
    ensures albedo.descriptor == RendererTextureDescriptor(BGRA8Unorm, size) && albedo.name == "Albedo texture"
    ensures normal.descriptor == RendererTextureDescriptor(RGBA16Float, size) && normal.name == "Normal texture"
    ensures position.descriptor == RendererTextureDescriptor(RGBA16Float, size) && position.name == "Position texture"
    ensures depth.descriptor == RendererTextureDescriptor(Depth32Float, size) && depth.name == "Depth texture"
    ensures d.colorAttachments == WireColorTargets(old(d.colorAttachments), [albedo, normal, position])
    ensures d.depthAttachment == StoringDepthAttachment(old(d.depthAttachment), depth)
  {
    albedo := BuildTexture(BGRA8Unorm, size, "Albedo");
    normal := BuildTexture(RGBA16Float, size, "Normal");
    position := BuildTexture(RGBA16Float, size, "Position");
    depth := BuildTexture(Depth32Float, size, "Depth");
    var textures := [albedo, normal, position];
    for index := 0 to |textures|
      invariant d.colorAttachments == WireColorTargets(old(d.colorAttachments), textures[..index])
      invariant d.depthAttachment == old(d.depthAttachment)
    {
      assert textures[..index + 1][..index] == textures[..index];
      d.SetUpColorAttachment(index, textures[index]);
    }
    assert textures[..|textures|] == textures;
    d.SetUpDepthAttachment(depth);
  }

  /** The shadow camera: the orthographic projection of `renderShadowPass`
      and its look-at from an eye position towards the origin with +y up. */
  datatype ShadowOptics = ShadowOptics(ortho: Mat4, lookAt: Vec3 -> Mat4)

  /** The uniforms of the shadow pass: the orthographic projection, a view
      looking at the origin from the opposite of the sun's position and
      pushed back by 7 along z, and their product as the shadow matrix. */
  function ShadowUniforms(u: Uniforms, sun: Light, optics: ShadowOptics): (r: Uniforms)
    ensures r.projectionMatrix == optics.ortho
    ensures r.shadowMatrix == Mul4(r.projectionMatrix, r.viewMatrix)
    ensures r.viewMatrix == Mul4(Translation4(Vec3(0.0, 0.0, 7.0)),
                                 optics.lookAt(Vec3(-sun.position.x, -sun.position.y, -sun.position.z)))
    ensures r.(projectionMatrix := u.projectionMatrix, viewMatrix := u.viewMatrix, shadowMatrix := u.shadowMatrix) == u
  {
    var eye := Vec3(-sun.position.x, -sun.position.y, -sun.position.z);
    var view := Mul4(Translation4(Vec3(0.0, 0.0, 7.0)), optics.lookAt(eye));
    u.(projectionMatrix := optics.ortho, viewMatrix := view, shadowMatrix := Mul4(optics.ortho, view))
  }

  /** The model classes the render passes draw. */
  predicate IsModel(n: Node)
  {
    n.kind.ModelNode?
  }

  /** The uniforms `draw(renderEncoder:model:)` binds: the model's world
      transform and the normal matrix of its own model matrix, everything
      else as the scene holds it. */
  function ModelUniforms(model: Node, u: Uniforms): Uniforms
  {
    u.(modelMatrix := WorldTransformOf(model), normalMatrix := NormalOfModelMatrix(model))
  }

  /** The bindings of one submesh: its base colour, normal, roughness,
      metallic and ambient occlusion textures at fragment indices 0 to 4,
      then its material at the materials index. */
  function SubmeshBindings(model: Node, j: nat): (es: seq<Event>)
    ensures |es| == 6
    ensures forall i :: 0 <= i < |es| ==> Unprojected(es[i])
  {
    [SetFragmentTexture(SubmeshTexture(model, j, 0), 0),
     SetFragmentTexture(SubmeshTexture(model, j, 1), 1),
     SetFragmentTexture(SubmeshTexture(model, j, 2), 2),
     SetFragmentTexture(SubmeshTexture(model, j, 3), 3),
     SetFragmentTexture(SubmeshTexture(model, j, 4), 4),
     SetFragmentMaterial(model, j, BufferIndexMaterials)]
  }

  /** One submesh: its bindings, then one indexed draw. */
  function SubmeshEvents(model: Node, j: nat): (es: seq<Event>)
    ensures |es| == 7
  {
    SubmeshBindings(model, j) + [Draw(SubmeshDraw(model, j, 1))]
  }

  /** The submesh loop over the first `n` submeshes. */
  function SubmeshesEvents(model: Node, n: nat): (es: seq<Event>)
    ensures |es| == 7 * n
  {
    if n == 0 then [] else SubmeshesEvents(model, n - 1) + SubmeshEvents(model, n - 1)
  }

  /** The start of `draw(renderEncoder:model:)`: uniforms, vertex buffer 0
      and sampler. */
  function ModelPreamble(model: Node, u: Uniforms): seq<Event>
  {
    [SetVertexUniforms(ModelUniforms(model, u), BufferIndexUniforms),
     SetVertexBuffer(ModelVertexBuffer(model, 0), BufferIndexVertices),
     SetFragmentSampler(model, 0)]
  }

  /** The submeshes of a model: none when it has no list. */
  function SubmeshCount(model: Node): nat
  {
    if model.kind.ModelNode? && model.kind.submeshCount.Some? then model.kind.submeshCount.value else 0
  }

  /** `draw(renderEncoder:model:)`. */
  function ModelEvents(model: Node, u: Uniforms): seq<Event>
  {
    ModelPreamble(model, u) + SubmeshesEvents(model, SubmeshCount(model))
  }

  /** `draw(renderEncoder:model:)`, given the scene's uniforms and returning
      them as the call leaves them. The Obsidian version force-unwraps the
      submesh list; its callers guarantee there is one. */
  method DrawModel(model: Node, u: Uniforms, trace: Trace) returns (after: Uniforms)
    requires IsModel(model)
    modifies trace
    ensures after == ModelUniforms(model, u)
    ensures trace.events == old(trace.events) + ModelEvents(model, u)
  {
    after := u.(modelMatrix := WorldTransformOf(model));
    after := after.(normalMatrix := NormalOfModelMatrix(model));
    trace.Record([SetVertexUniforms(after, BufferIndexUniforms)]);
    trace.Record([SetVertexBuffer(ModelVertexBuffer(model, 0), BufferIndexVertices)]);
    trace.Record([SetFragmentSampler(model, 0)]);
    assert trace.events == old(trace.events) + ModelPreamble(model, u);
    match model.kind.submeshCount {
      case None =>
      case Some(n) =>
        for j := 0 to n
          invariant trace.events == old(trace.events) + ModelPreamble(model, u) + SubmeshesEvents(model, j)
        {
          trace.Record(SubmeshBindings(model, j) + [Draw(SubmeshDraw(model, j, 1))]);
          Seqs.AppendAssociative(old(trace.events) + ModelPreamble(model, u), SubmeshesEvents(model, j),
                                 SubmeshEvents(model, j));
        }
    }
    Seqs.AppendAssociative(old(trace.events), ModelPreamble(model, u), SubmeshesEvents(model, SubmeshCount(model)));
  }

  /** The pass loop `for child in nodes { if let model = child as? Model {
      draw(...) } }`: the models among `nodes`, in order. Every model binds
      its own matrices over the same remaining uniforms. */
  function ModelsPassEvents(nodes: seq<Node>, u: Uniforms): seq<Event>
    decreases |nodes|
  {
    if |nodes| == 0 then []
    else
      var last := nodes[|nodes| - 1];
      ModelsPassEvents(nodes[..|nodes| - 1], u) + (if IsModel(last) then ModelEvents(last, u) else [])
  }

  /** The scene's uniforms after the pass loop: the matrices of the last
      model drawn, or unchanged when there was none. Only the two model
      fields can differ. */
  function UniformsAfterModels(nodes: seq<Node>, u: Uniforms): (r: Uniforms)
    ensures r.(modelMatrix := u.modelMatrix, normalMatrix := u.normalMatrix) == u
    decreases |nodes|
  {
    if |nodes| == 0 then u
    else if IsModel(nodes[|nodes| - 1]) then ModelUniforms(nodes[|nodes| - 1], u)
    else UniformsAfterModels(nodes[..|nodes| - 1], u)
  }

  /** A model binds the same uniforms whatever model was drawn before it. */
  lemma ModelUniformsForget(model: Node, nodes: seq<Node>, u: Uniforms)
    ensures ModelUniforms(model, UniformsAfterModels(nodes, u)) == ModelUniforms(model, u)
  {
    var r := UniformsAfterModels(nodes, u);
    assert r.(modelMatrix := u.modelMatrix, normalMatrix := u.normalMatrix) == u;
  }

  /** The pass loop, given the scene's uniforms and returning them as it
      leaves them. */
  method DrawModels(nodes: seq<Node>, u: Uniforms, trace: Trace) returns (after: Uniforms)
    modifies trace
    ensures after == UniformsAfterModels(nodes, u)
    ensures trace.events == old(trace.events) + ModelsPassEvents(nodes, u)
  {
    after := u;
    for i := 0 to |nodes|
      invariant after == UniformsAfterModels(nodes[..i], u)
      invariant trace.events == old(trace.events) + ModelsPassEvents(nodes[..i], u)
    {
      assert nodes[..i + 1][..i] == nodes[..i];
      if IsModel(nodes[i]) {
        ModelUniformsForget(nodes[i], nodes[..i], u);
        after := DrawModel(nodes[i], after, trace);
        Seqs.AppendAssociative(old(trace.events), ModelsPassEvents(nodes[..i], u), ModelEvents(nodes[i], u));
      }
    }
    assert nodes[..|nodes|] == nodes;
  }

  /** The draws the pass loop issues: for each model, in order, one per
      submesh. */
  function ModelDraws(nodes: seq<Node>): seq<Drawn>
    decreases |nodes|
  {
    if |nodes| == 0 then []
    else
      var last := nodes[|nodes| - 1];
      ModelDraws(nodes[..|nodes| - 1]) + (if IsModel(last) then EverySubmeshDraw(last, SubmeshCount(last), 1) else [])
  }

  /** The submesh loop opens no encoder, binds no vertex buffer and draws
      each submesh once, in order. */
  lemma {:induction false} SubmeshesProjections(model: Node, n: nat)
    ensures Encoders(SubmeshesEvents(model, n)) == [] && ModelsDrawn(SubmeshesEvents(model, n)) == []
    ensures Draws(SubmeshesEvents(model, n)) == EverySubmeshDraw(model, n, 1)
    ensures Submitted(SubmeshesEvents(model, n)) == []
  {
    if n > 0 {
      SubmeshesProjections(model, n - 1);
      SubmeshProjections(model, n - 1);
      ProjectionsAppend(SubmeshesEvents(model, n - 1), SubmeshEvents(model, n - 1));
    }
  }

  /** One submesh opens no encoder, binds no vertex buffer and draws once. */
  lemma SubmeshProjections(model: Node, j: nat)
    ensures Encoders(SubmeshEvents(model, j)) == [] && ModelsDrawn(SubmeshEvents(model, j)) == []
    ensures Draws(SubmeshEvents(model, j)) == [SubmeshDraw(model, j, 1)]
    ensures Submitted(SubmeshEvents(model, j)) == []
  {
    var bindings := SubmeshBindings(model, j);
    var draw := Draw(SubmeshDraw(model, j, 1));
    ProjectionsAppend(bindings, [draw]);
    UnprojectedProjections(bindings);
    SingleProjections(draw);
  }

  /** Drawing a model opens no encoder, binds the model's vertex buffer
      once, and draws each of its submeshes once, in order; a model without
      a submesh list draws nothing. */
  lemma ModelProjections(model: Node, u: Uniforms)
    ensures Encoders(ModelEvents(model, u)) == [] && ModelsDrawn(ModelEvents(model, u)) == [model]
    ensures Draws(ModelEvents(model, u)) == EverySubmeshDraw(model, SubmeshCount(model), 1)
    ensures Submitted(ModelEvents(model, u)) == []
  {
    ProjectionsAppend(ModelPreamble(model, u), SubmeshesEvents(model, SubmeshCount(model)));
    PreambleProjections(model, u);
    SubmeshesProjections(model, SubmeshCount(model));
  }

  /** The preamble binds the model's vertex buffer and nothing else the
      projections see. */
  lemma PreambleProjections(model: Node, u: Uniforms)
    ensures Encoders(ModelPreamble(model, u)) == [] && ModelsDrawn(ModelPreamble(model, u)) == [model]
    ensures Draws(ModelPreamble(model, u)) == [] && Submitted(ModelPreamble(model, u)) == []
  {
    var a := SetVertexUniforms(ModelUniforms(model, u), BufferIndexUniforms);
    var b := SetVertexBuffer(ModelVertexBuffer(model, 0), BufferIndexVertices);
    var c := SetFragmentSampler(model, 0);
    assert ModelPreamble(model, u) == [a] + ([b] + [c]);
    ProjectionsAppend([a], [b] + [c]);
    ProjectionsAppend([b], [c]);
    SingleProjections(a);
    SingleProjections(b);
    SingleProjections(c);
  }

  /** A pass loop opens no encoder, draws exactly the models among the
      nodes, in their order, and issues exactly their submesh draws. */
  lemma {:induction false} ModelsPassProjections(nodes: seq<Node>, u: Uniforms)
    ensures Encoders(ModelsPassEvents(nodes, u)) == []
    ensures ModelsDrawn(ModelsPassEvents(nodes, u)) == Seqs.Filter(nodes, IsModel)
    ensures Draws(ModelsPassEvents(nodes, u)) == ModelDraws(nodes)
    ensures Submitted(ModelsPassEvents(nodes, u)) == []
    decreases |nodes|
  {
    if |nodes| > 0 {
      var init, last := nodes[..|nodes| - 1], nodes[|nodes| - 1];
      ModelsPassProjections(init, u);
      ProjectionsAppend(ModelsPassEvents(init, u), if IsModel(last) then ModelEvents(last, u) else []);
      NodeProjections(last, u);
      Seqs.FilterLast(nodes, IsModel);
    }
  }

  /** One node of a pass loop: a model is drawn, anything else is
      skipped. */
  lemma NodeProjections(n: Node, u: Uniforms)
    ensures var es := if IsModel(n) then ModelEvents(n, u) else [];
      Encoders(es) == [] && ModelsDrawn(es) == Seqs.Filter([n], IsModel) &&
      Draws(es) == (if IsModel(n) then EverySubmeshDraw(n, SubmeshCount(n), 1) else []) && Submitted(es) == []
  {
    assert Seqs.Filter([n], IsModel) == if IsModel(n) then [n] else [];
    if IsModel(n) {
      ModelProjections(n, u);
    }
  }

  /** Submesh j of the loop starts at position 7 j: its five texture slots,
      then the material, then the draw. */
  lemma {:induction false} SubmeshEventsAt(model: Node, n: nat, j: nat)
    requires j < n
    ensures SubmeshesEvents(model, n)[7 * j .. 7 * j + 7] == SubmeshEvents(model, j)
  {
    if j < n - 1 {
      SubmeshEventsAt(model, n - 1, j);
      assert SubmeshesEvents(model, n)[..7 * (n - 1)] == SubmeshesEvents(model, n - 1);
    } else {
      assert SubmeshesEvents(model, n)[7 * (n - 1)..] == SubmeshEvents(model, n - 1);
    }
  }

  /** One render encoder: it is made, `body` is encoded into it, and it is
      ended. Every pass of the frame has this shape. */
  function EncoderPass(p: Pass, body: seq<Event>): seq<Event>
  {
    [MakeEncoder(p)] + body + [EndEncoding]
  }

  /** Three pieces in a row project to their projections in a row. */
  lemma Projections3(a: seq<Event>, b: seq<Event>, c: seq<Event>)
    ensures Encoders(a + b + c) == Encoders(a) + Encoders(b) + Encoders(c)
    ensures ModelsDrawn(a + b + c) == ModelsDrawn(a) + ModelsDrawn(b) + ModelsDrawn(c)
    ensures Draws(a + b + c) == Draws(a) + Draws(b) + Draws(c)
    ensures Submitted(a + b + c) == Submitted(a) + Submitted(b) + Submitted(c)
  {
    ProjectionsAppend(a + b, c);
    ProjectionsAppend(a, b);
  }

  /** A body that opens and submits nothing around a middle that draws
      models draws just those models. */
  lemma QuietAround(a: seq<Event>, b: seq<Event>, c: seq<Event>)
    requires Encoders(a) == [] && ModelsDrawn(a) == [] && Submitted(a) == []
    requires Encoders(b) == [] && Submitted(b) == []
    requires Encoders(c) == [] && ModelsDrawn(c) == [] && Submitted(c) == []
    ensures Encoders(a + b + c) == [] && ModelsDrawn(a + b + c) == ModelsDrawn(b) && Submitted(a + b + c) == []
  {
    Projections3(a, b, c);
    assert [] + ModelsDrawn(b) + [] == ModelsDrawn(b);
  }

  /** Set-up calls that none of the projections see, then a pass loop:
      what the loop draws and nothing else. */
  lemma PreludeThenModels(pre: seq<Event>, nodes: seq<Node>, u: Uniforms)
    requires forall i :: 0 <= i < |pre| ==> Unprojected(pre[i])
    ensures Encoders(pre + ModelsPassEvents(nodes, u)) == []
    ensures ModelsDrawn(pre + ModelsPassEvents(nodes, u)) == Seqs.Filter(nodes, IsModel)
    ensures Submitted(pre + ModelsPassEvents(nodes, u)) == []
  {
    UnprojectedProjections(pre);
    ModelsPassProjections(nodes, u);
    QuietBefore(pre, ModelsPassEvents(nodes, u));
  }

  /** Quiet events before a body that opens and submits nothing leave what
      the body draws. */
  lemma QuietBefore(a: seq<Event>, b: seq<Event>)
    requires Encoders(a) == [] && ModelsDrawn(a) == [] && Submitted(a) == []
    requires Encoders(b) == [] && Submitted(b) == []
    ensures Encoders(a + b) == [] && ModelsDrawn(a + b) == ModelsDrawn(b) && Submitted(a + b) == []
  {
    ProjectionsAppend(a, b);
    assert [] + ModelsDrawn(b) == ModelsDrawn(b);
  }

  /** Quiet events after a body that opens and submits nothing leave what
      the body draws. */
  lemma QuietAfter(a: seq<Event>, b: seq<Event>, c: seq<Event>)
    requires Encoders(a) == [] && Submitted(a) == []
    requires Encoders(b) == [] && ModelsDrawn(b) == [] && Submitted(b) == []
    requires Encoders(c) == [] && ModelsDrawn(c) == [] && Submitted(c) == []
    ensures Encoders(a + b + c) == [] && ModelsDrawn(a + b + c) == ModelsDrawn(a) && Submitted(a + b + c) == []
  {
    Projections3(a, b, c);
    assert ModelsDrawn(a) + [] + [] == ModelsDrawn(a);
  }

  /** A pass whose body opens and submits nothing opens exactly its own
      encoder, and draws what its body draws. */
  lemma EncoderPassProjections(p: Pass, body: seq<Event>)
    requires Encoders(body) == [] && Submitted(body) == []
    ensures Encoders(EncoderPass(p, body)) == [p]
    ensures ModelsDrawn(EncoderPass(p, body)) == ModelsDrawn(body)
    ensures Draws(EncoderPass(p, body)) == Draws(body)
    ensures Submitted(EncoderPass(p, body)) == []
  {
    Projections3([MakeEncoder(p)], body, [EndEncoding]);
    SingleProjections(MakeEncoder(p));
    SingleProjections(EndEncoding);
  }
}
