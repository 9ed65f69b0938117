/** `STLRRenderer`: the Stellar frame. Each `draw(in:)` makes a command
    buffer and, scene permitting, encodes a shadow pass, one reflection pass
    per water, a G-buffer pass and a composition pass, in that order,
    returning at the first encoder that cannot be made, and presents and
    commits only when all four kinds were encoded and a drawable exists.

    The frame is specified here by functions over `FrameState`: each pass is
    a step from the state before it to the state after it. The methods of
    `StellarRenderers.StellarRenderer` are proved to perform those steps. */
module StellarFrames {
  import opened Matrix
  import opened Gpu
  import opened ShaderTypes
  import opened SceneGraph
  import opened Encoding
  import opened PassDescriptors
  import opened FramePasses
  import opened Transforms
  import Seqs
  import Cameras
  import Scenes
  import Skyboxes

  // ---------------------------------------------------------------------
  // The composition quad

  /** `quadVertices`: two triangles covering the screen, two floats per
      vertex. */
  const QuadVertexFloats: seq<real> := [-1.0, 1.0, 1.0, -1.0, -1.0, -1.0, -1.0, 1.0, 1.0, 1.0, 1.0, -1.0]

  const FloatsPerVertex: nat := 2

  /** The quad's vertices: every float pair is one vertex, and they make
      whole triangles. */
  function QuadVertexCount(): (n: nat)
    ensures n * FloatsPerVertex == |QuadVertexFloats| && n % 3 == 0
  {
    |QuadVertexFloats| / FloatsPerVertex
  }

  /** The vertex count `renderCompositionPass` passes as written:
      `quadVertices.count`, the number of floats. */
  function CompositionVertexCountAsWritten(): nat
  {
    |QuadVertexFloats|
  }

  /** As written, the composition draw asks for twice as many vertices as
      the quad buffer holds, so vertices 6 to 11 are read past its end. */
  lemma CompositionDrawsPastTheQuad()
    ensures CompositionVertexCountAsWritten() == 2 * QuadVertexCount()
    ensures CompositionVertexCountAsWritten() * FloatsPerVertex > |QuadVertexFloats|
  {
  }

  // ---------------------------------------------------------------------
  // The reflection camera

  /** The pose mirrored in the water plane: height and pitch negated. */
  function ReflectedTransform(t: Transform): Transform
  {
    Transform(Vec3(t.position.x, -t.position.y, t.position.z), Vec3(-t.rotation.x, t.rotation.y, t.rotation.z),
              t.scale)
  }

  /** The reflection camera after a reflection pass: the main camera's pose
      mirrored, and its distance when both cameras are arcball cameras. */
  function ReflectedCamera(camera: Cameras.CameraState, reflection: Cameras.CameraState): Cameras.CameraState
  {
    reflection.(transform := ReflectedTransform(camera.transform),
                distance := if reflection.arcball && camera.arcball then camera.distance else reflection.distance)
  }

  /** Mirroring twice gives the pose back, and the mirror moves nothing but
      the height and the pitch. */
  lemma ReflectionIsInvolution(t: Transform)
    ensures ReflectedTransform(ReflectedTransform(t)) == t
    ensures ReflectedTransform(t).position.x == t.position.x && ReflectedTransform(t).position.z == t.position.z
    ensures ReflectedTransform(t).rotation.y == t.rotation.y && ReflectedTransform(t).rotation.z == t.rotation.z
    ensures ReflectedTransform(t).scale == t.scale
  {
  }

  /** A second reflection pass in the same frame sets the reflection camera
      to what the first one did. */
  lemma ReflectedCameraIdempotent(camera: Cameras.CameraState, reflection: Cameras.CameraState)
    ensures ReflectedCamera(camera, ReflectedCamera(camera, reflection)) == ReflectedCamera(camera, reflection)
    ensures ReflectedCamera(camera, reflection).aspect == reflection.aspect
    ensures ReflectedCamera(camera, reflection).arcball == reflection.arcball
  {
  }

  // ---------------------------------------------------------------------
  // The frame as steps over FrameState

  /** What a frame reads from the renderer and its scene, taken when
      `draw(in:)` starts; none of it changes during the frame. */
  datatype FrameInputs = FrameInputs(
    renderables: seq<Node>,
    lights: seq<Light>,
    sun: Light,
    waters: seq<Scenes.Water>,
    sky: Skyboxes.Skybox?,
    shadowTexture: Texture,
    albedo: Texture,
    normal: Texture,
    position: Texture,
    cameraPosition: Vec3,        // the main camera's `transform.position`
    view: Mat4,                  // the main camera's view matrix
    projection: Mat4,            // the main camera's projection matrix
    reflectionView: Mat4,        // the mirrored reflection camera's view matrix
    shadowOptics: ShadowOptics)

  /** The models among the renderables, in order. */
  function Models(f: FrameInputs): seq<Node>
  {
    Seqs.Filter(f.renderables, IsModel)
  }

  /** `scene.skybox?.update(renderEncoder:)`. */
  function SkyUpdateEvents(sky: Skyboxes.Skybox?): seq<Event>
    reads sky
  {
    if sky == null then [] else sky.UpdateEvents()
  }

  /** `scene.skybox?.render(renderEncoder:uniforms:)`. */
  function SkyRenderEvents(sky: Skyboxes.Skybox?, u: Uniforms): seq<Event>
    reads sky
  {
    if sky == null then [] else sky.RenderEvents(u)
  }

  /** `renderShadowPass`, given the shadow uniforms: no culling, the shared
      depth state, the depth bias and the shadow pipeline, then every model
      from the sun's point of view. */
  function ShadowBody(f: FrameInputs, u: Uniforms): seq<Event>
  {
    [SetCullMode(CullNone), SetDepthStencil(DepthState), SetDepthBias(0.01, 1.0, 0.01), SetPipeline(ShadowPipeline)] +
    ModelsPassEvents(f.renderables, u)
  }

  function ShadowEvents(f: FrameInputs, u: Uniforms): seq<Event>
  {
    EncoderPass(ShadowPass, ShadowBody(f, u))
  }

  function ShadowStep(f: FrameInputs, s: FrameState): FrameState
  {
    var u := ShadowUniforms(s.uniforms, f.sun, f.shadowOptics);
    FrameState(UniformsAfterModels(f.renderables, u), s.fragmentUniforms, s.events + ShadowEvents(f, u))
  }

  /** `renderGbufferPass`: the G-buffer pipeline, the depth state, the
      lights, the shadow map, the fragment uniforms, then every model. It
      does not end the encoder. */
  function GBufferEvents(f: FrameInputs, u: Uniforms, fu: FragmentUniforms): seq<Event>
  {
    [SetPipeline(GBufferPipeline), SetDepthStencil(DepthState), SetFragmentLights(f.lights, BufferIndexLight),
     SetFragmentTexture(Bound(f.shadowTexture), ShadowTextureIndex),
     SetFragmentUniforms(fu, BufferIndexFragmentUniforms)] + ModelsPassEvents(f.renderables, u)
  }

  /** The fragment uniforms every reflection pass and the main pass set:
      the camera's position and the number of lights. */
  function PassFragmentUniforms(f: FrameInputs, fu: FragmentUniforms): FragmentUniforms
  {
    fu.(cameraPosition := f.cameraPosition, lightCount := |f.lights|)
  }

  /** The uniforms of a reflection pass: the camera's projection and
      position, the mirrored camera's view, and the clip plane that keeps
      what is above the water. */
  function ReflectionUniforms(f: FrameInputs, u: Uniforms): Uniforms
  {
    u.(projectionMatrix := f.projection, cameraPosition := f.cameraPosition, viewMatrix := f.reflectionView,
       clipPlane := Vec4(0.0, 1.0, 0.0, 0.1))
  }

  /** What reflection pass `i` encodes: the depth state, the sky's
      textures, the G-buffer body, the sky. */
  function ReflectionBody(f: FrameInputs, u: Uniforms, fu: FragmentUniforms): seq<Event>
    reads f.sky
  {
    [SetDepthStencil(DepthState)] + SkyUpdateEvents(f.sky) + GBufferEvents(f, u, fu) +
    SkyRenderEvents(f.sky, UniformsAfterModels(f.renderables, u))
  }

  function ReflectionEvents(f: FrameInputs, i: nat, u: Uniforms, fu: FragmentUniforms): seq<Event>
    reads f.sky
  {
    EncoderPass(ReflectionPass(i), ReflectionBody(f, u, fu))
  }

  function ReflectionStep(f: FrameInputs, i: nat, s: FrameState): FrameState
    reads f.sky
  {
    var fu := PassFragmentUniforms(f, s.fragmentUniforms);
    var u := ReflectionUniforms(f, s.uniforms);
    FrameState(UniformsAfterModels(f.renderables, u), fu, s.events + ReflectionEvents(f, i, u, fu))
  }

  /** The first `n` reflection passes, in `waters` order. */
  function Reflections(f: FrameInputs, n: nat, s: FrameState): FrameState
    reads f.sky
    decreases n
  {
    if n == 0 then s else ReflectionStep(f, n - 1, Reflections(f, n - 1, s))
  }

  /** The uniforms of the main pass: the camera's view, projection and
      position, and the clip plane that keeps everything below y = 1000. */
  function MainPassUniforms(f: FrameInputs, u: Uniforms): Uniforms
  {
    u.(viewMatrix := f.view, projectionMatrix := f.projection, cameraPosition := f.cameraPosition,
       clipPlane := Vec4(0.0, -1.0, 0.0, 1000.0))
  }

  function MainStep(f: FrameInputs, s: FrameState): FrameState
  {
    s.(uniforms := MainPassUniforms(f, s.uniforms), fragmentUniforms := PassFragmentUniforms(f, s.fragmentUniforms))
  }

  /** Each water, in order, steps its timer and renders itself. */
  function WatersEvents(ws: seq<Scenes.Water>, u: Uniforms, fu: FragmentUniforms): seq<Event>
    decreases |ws|
  {
    if |ws| == 0 then []
    else WatersEvents(ws[..|ws| - 1], u, fu) + [UpdateWater(ws[|ws| - 1].node), RenderWater(ws[|ws| - 1].node, u, fu)]
  }

  /** What the G-buffer encoder encodes: the sky's textures, the G-buffer
      body, the sky, the waters. */
  function MainGBufferBody(f: FrameInputs, u: Uniforms, fu: FragmentUniforms): seq<Event>
    reads f.sky
  {
    var after := UniformsAfterModels(f.renderables, u);
    SkyUpdateEvents(f.sky) + GBufferEvents(f, u, fu) + SkyRenderEvents(f.sky, after) + WatersEvents(f.waters, after, fu)
  }

  function MainGBufferEvents(f: FrameInputs, u: Uniforms, fu: FragmentUniforms): seq<Event>
    reads f.sky
  {
    EncoderPass(GBufferPass, MainGBufferBody(f, u, fu))
  }

  function GBufferStep(f: FrameInputs, s: FrameState): FrameState
    reads f.sky
  {
    FrameState(UniformsAfterModels(f.renderables, s.uniforms), s.fragmentUniforms,
               s.events + MainGBufferEvents(f, s.uniforms, s.fragmentUniforms))
  }

  /** `renderCompositionPass` on the view's own descriptor: the composition
      pipeline, the quad, the three G-buffer textures, the lights and the
      fragment uniforms, then one draw of the quad's vertices. */
  function CompositionEvents(f: FrameInputs, fu: FragmentUniforms): seq<Event>
  {
    EncoderPass(CompositionPass, CompositionBindings(f, fu) + [Draw(Quad(QuadVertexCount()))])
  }

  /** What the composition pass binds before its draw. */
  function CompositionBindings(f: FrameInputs, fu: FragmentUniforms): (es: seq<Event>)
    ensures forall i :: 0 <= i < |es| ==> Unprojected(es[i])
  {
    [SetPipeline(CompositionPipeline), SetDepthStencil(DepthState),
     SetVertexBuffer(QuadVertices, 0), SetVertexBuffer(QuadTexCoords, 1),
     SetFragmentTexture(Bound(f.albedo), 0), SetFragmentTexture(Bound(f.normal), 1),
     SetFragmentTexture(Bound(f.position), 2), SetFragmentLights(f.lights, BufferIndexLight),
     SetFragmentUniforms(fu, BufferIndexFragmentUniforms)]
  }

  function CompositionStep(f: FrameInputs, s: FrameState): FrameState
  {
    s.(events := s.events + CompositionEvents(f, s.fragmentUniforms))
  }

  /** The passes after the reflections, with `encoderBudget` render
      encoders still to make: the main pass's uniforms, then the G-buffer
      pass if its encoder can be made, then the composition pass and, with
      a drawable, the presentation and commit, if its encoder can be
      made. */
  function MainPasses(f: FrameInputs, r: FrameState, encoderBudget: nat, hasDrawable: bool): FrameState
    reads f.sky
  {
    var main := MainStep(f, r);
    if encoderBudget == 0 then main
    else if encoderBudget == 1 then GBufferStep(f, main)
    else CompositionStep(f, GBufferStep(f, main)).(events := Completed(f, GBufferStep(f, main), hasDrawable))
  }

  /** The frame after the command buffer was made, for a scene. Render
      encoder k (shadow 0, reflections 1 to n, G-buffer n + 1, composition
      n + 2) can be made exactly when k < `encoderBudget`; the first that
      cannot ends the frame. */
  function FrameAfterCommandBuffer(f: FrameInputs, s: FrameState, encoderBudget: nat, hasDrawable: bool): FrameState
    reads f.sky
  {
    var n := |f.waters|;
    if encoderBudget == 0 then s
    else if encoderBudget <= n then Reflections(f, encoderBudget - 1, ShadowStep(f, s))
    else MainPasses(f, Reflections(f, n, ShadowStep(f, s)), encoderBudget - n - 1, hasDrawable)
  }

  // ---------------------------------------------------------------------
  // What the frame encodes

  function Min(a: nat, b: nat): nat
  {
    if a <= b then a else b
  }

  /** Reflection passes 0 to n - 1. */
  function ReflectionPasses(n: nat): (r: seq<Pass>)
    ensures |r| == n && forall i :: 0 <= i < n ==> r[i] == ReflectionPass(i)
  {
    if n == 0 then [] else ReflectionPasses(n - 1) + [ReflectionPass(n - 1)]
  }

  /** The passes of a complete frame with `n` waters, in order. */
  function PassOrder(n: nat): seq<Pass>
  {
    [ShadowPass] + ReflectionPasses(n) + [GBufferPass, CompositionPass]
  }

  /** The shadow body draws the models and opens nothing. */
  lemma ShadowBodyProjections(f: FrameInputs, u: Uniforms)
    ensures Encoders(ShadowBody(f, u)) == [] && ModelsDrawn(ShadowBody(f, u)) == Models(f)
    ensures Submitted(ShadowBody(f, u)) == []
  {
    var pre := [SetCullMode(CullNone), SetDepthStencil(DepthState), SetDepthBias(0.01, 1.0, 0.01),
                SetPipeline(ShadowPipeline)];
    PreludeThenModels(pre, f.renderables, u);
  }

  lemma ShadowStepProjections(f: FrameInputs, s: FrameState)
    ensures Encoders(ShadowStep(f, s).events) == Encoders(s.events) + [ShadowPass]
    ensures ModelsDrawn(ShadowStep(f, s).events) == ModelsDrawn(s.events) + Models(f)
    ensures Submitted(ShadowStep(f, s).events) == Submitted(s.events)
  {
    var u := ShadowUniforms(s.uniforms, f.sun, f.shadowOptics);
    ProjectionsAppend(s.events, ShadowEvents(f, u));
    ShadowBodyProjections(f, u);
    EncoderPassProjections(ShadowPass, ShadowBody(f, u));
  }

  /** The sky adds no encoder, model or submission. */
  lemma SkyProjections(sky: Skyboxes.Skybox?, u: Uniforms)
    ensures Encoders(SkyUpdateEvents(sky)) == [] && ModelsDrawn(SkyUpdateEvents(sky)) == []
    ensures Submitted(SkyUpdateEvents(sky)) == []
    ensures Encoders(SkyRenderEvents(sky, u)) == [] && ModelsDrawn(SkyRenderEvents(sky, u)) == []
    ensures Submitted(SkyRenderEvents(sky, u)) == []
  {
    if sky != null {
      Skyboxes.UpdateIsUnprojected(sky);
      Skyboxes.RenderDrawsCube(sky, u);
    }
  }

  /** The G-buffer body draws the models and opens nothing. */
  lemma GBufferProjections(f: FrameInputs, u: Uniforms, fu: FragmentUniforms)
    ensures Encoders(GBufferEvents(f, u, fu)) == [] && ModelsDrawn(GBufferEvents(f, u, fu)) == Models(f)
    ensures Submitted(GBufferEvents(f, u, fu)) == []
  {
    var pre := [SetPipeline(GBufferPipeline), SetDepthStencil(DepthState), SetFragmentLights(f.lights, BufferIndexLight),
                SetFragmentTexture(Bound(f.shadowTexture), ShadowTextureIndex),
                SetFragmentUniforms(fu, BufferIndexFragmentUniforms)];
    PreludeThenModels(pre, f.renderables, u);
  }

  lemma ReflectionBodyProjections(f: FrameInputs, u: Uniforms, fu: FragmentUniforms)
    ensures Encoders(ReflectionBody(f, u, fu)) == [] && ModelsDrawn(ReflectionBody(f, u, fu)) == Models(f)
    ensures Submitted(ReflectionBody(f, u, fu)) == []
  {
    var after := UniformsAfterModels(f.renderables, u);
    var open := [SetDepthStencil(DepthState)] + SkyUpdateEvents(f.sky);
    SkyProjections(f.sky, after);
    ReflectionOpeningProjections(f.sky);
    GBufferProjections(f, u, fu);
    QuietAround(open, GBufferEvents(f, u, fu), SkyRenderEvents(f.sky, after));
  }

  /** The depth state and the sky's textures at the start of a reflection. */
  lemma ReflectionOpeningProjections(sky: Skyboxes.Skybox?)
    ensures var open := [SetDepthStencil(DepthState)] + SkyUpdateEvents(sky);
      Encoders(open) == [] && ModelsDrawn(open) == [] && Submitted(open) == []
  {
    ProjectionsAppend([SetDepthStencil(DepthState)], SkyUpdateEvents(sky));
    SingleProjections(SetDepthStencil(DepthState));
    SkyProjections(sky, ZeroUniforms);
  }

  lemma ReflectionStepProjections(f: FrameInputs, i: nat, s: FrameState)
    ensures Encoders(ReflectionStep(f, i, s).events) == Encoders(s.events) + [ReflectionPass(i)]
    ensures ModelsDrawn(ReflectionStep(f, i, s).events) == ModelsDrawn(s.events) + Models(f)
    ensures Submitted(ReflectionStep(f, i, s).events) == Submitted(s.events)
  {
    var fu := PassFragmentUniforms(f, s.fragmentUniforms);
    var u := ReflectionUniforms(f, s.uniforms);
    ProjectionsAppend(s.events, ReflectionEvents(f, i, u, fu));
    ReflectionBodyProjections(f, u, fu);
    EncoderPassProjections(ReflectionPass(i), ReflectionBody(f, u, fu));
  }

  /** Reflection pass `i` after the passes before it. */
  lemma ReflectionStepAfter(f: FrameInputs, i: nat, r: FrameState, s: FrameState, t: FrameState)
    requires t == ReflectionStep(f, i, r)
    requires Encoders(r.events) == Encoders(s.events) + ReflectionPasses(i)
    requires ModelsDrawn(r.events) == ModelsDrawn(s.events) + Seqs.Repeat(Models(f), i)
    requires Submitted(r.events) == Submitted(s.events)
    ensures Encoders(t.events) == Encoders(s.events) + ReflectionPasses(i + 1)
    ensures ModelsDrawn(t.events) == ModelsDrawn(s.events) + Seqs.Repeat(Models(f), i + 1)
    ensures Submitted(t.events) == Submitted(s.events)
  {
    ReflectionStepProjections(f, i, r);
    Seqs.AppendAssociative(Encoders(s.events), ReflectionPasses(i), [ReflectionPass(i)]);
    Seqs.AppendAssociative(ModelsDrawn(s.events), Seqs.Repeat(Models(f), i), Models(f));
  }

  /** The reflections up to `n > 0` are those up to `n - 1` followed by
      reflection `n - 1`. */
  lemma ReflectionsUnfold(f: FrameInputs, n: nat, s: FrameState)
    requires n > 0
    ensures Reflections(f, n, s) == ReflectionStep(f, n - 1, Reflections(f, n - 1, s))
  {
  }

  /** The first `n` reflections, one per water, each drawing every model. */
  lemma {:induction false} ReflectionsProjections(f: FrameInputs, n: nat, s: FrameState)
    ensures Encoders(Reflections(f, n, s).events) == Encoders(s.events) + ReflectionPasses(n)
    ensures ModelsDrawn(Reflections(f, n, s).events) == ModelsDrawn(s.events) + Seqs.Repeat(Models(f), n)
    ensures Submitted(Reflections(f, n, s).events) == Submitted(s.events)
    decreases n
  {
    if n > 0 {
      ReflectionsProjections(f, n - 1, s);
      ReflectionsUnfold(f, n, s);
      ReflectionStepAfter(f, n - 1, Reflections(f, n - 1, s), s, Reflections(f, n, s));
    } else {
      assert ReflectionPasses(0) == [] && Seqs.Repeat(Models(f), 0) == [];
    }
  }

  /** The waters' events open nothing and submit nothing. */
  lemma {:induction false} WatersProjections(ws: seq<Scenes.Water>, u: Uniforms, fu: FragmentUniforms)
    ensures Encoders(WatersEvents(ws, u, fu)) == [] && ModelsDrawn(WatersEvents(ws, u, fu)) == []
    ensures Submitted(WatersEvents(ws, u, fu)) == []
    decreases |ws|
  {
    if |ws| > 0 {
      var last := ws[|ws| - 1];
      var pair := [UpdateWater(last.node), RenderWater(last.node, u, fu)];
      WatersProjections(ws[..|ws| - 1], u, fu);
      assert Unprojected(pair[0]) && Unprojected(pair[1]);
      AppendUnprojected(WatersEvents(ws[..|ws| - 1], u, fu), pair);
    }
  }

  lemma MainGBufferBodyProjections(f: FrameInputs, u: Uniforms, fu: FragmentUniforms)
    ensures Encoders(MainGBufferBody(f, u, fu)) == [] && ModelsDrawn(MainGBufferBody(f, u, fu)) == Models(f)
    ensures Submitted(MainGBufferBody(f, u, fu)) == []
  {
    var after := UniformsAfterModels(f.renderables, u);
    var waters := WatersEvents(f.waters, after, fu);
    var front := SkyUpdateEvents(f.sky) + GBufferEvents(f, u, fu);
    SkyProjections(f.sky, after);
    GBufferProjections(f, u, fu);
    WatersProjections(f.waters, after, fu);
    QuietBefore(SkyUpdateEvents(f.sky), GBufferEvents(f, u, fu));
    QuietAfter(front, SkyRenderEvents(f.sky, after), waters);
  }

  lemma GBufferStepProjections(f: FrameInputs, s: FrameState)
    ensures Encoders(GBufferStep(f, s).events) == Encoders(s.events) + [GBufferPass]
    ensures ModelsDrawn(GBufferStep(f, s).events) == ModelsDrawn(s.events) + Models(f)
    ensures Submitted(GBufferStep(f, s).events) == Submitted(s.events)
  {
    ProjectionsAppend(s.events, MainGBufferEvents(f, s.uniforms, s.fragmentUniforms));
    MainGBufferBodyProjections(f, s.uniforms, s.fragmentUniforms);
    EncoderPassProjections(GBufferPass, MainGBufferBody(f, s.uniforms, s.fragmentUniforms));
  }

  /** The composition pass opens its encoder and draws the quad once. */
  lemma CompositionEventsProjections(f: FrameInputs, fu: FragmentUniforms)
    ensures Encoders(CompositionEvents(f, fu)) == [CompositionPass]
    ensures ModelsDrawn(CompositionEvents(f, fu)) == []
    ensures Submitted(CompositionEvents(f, fu)) == []
    ensures Draws(CompositionEvents(f, fu)) == [Quad(QuadVertexCount())]
  {
    var body := CompositionBindings(f, fu) + [Draw(Quad(QuadVertexCount()))];
    ProjectionsAppend(CompositionBindings(f, fu), [Draw(Quad(QuadVertexCount()))]);
    UnprojectedProjections(CompositionBindings(f, fu));
    SingleProjections(Draw(Quad(QuadVertexCount())));
    EncoderPassProjections(CompositionPass, body);
  }

  lemma CompositionStepProjections(f: FrameInputs, s: FrameState)
    ensures Encoders(CompositionStep(f, s).events) == Encoders(s.events) + [CompositionPass]
    ensures ModelsDrawn(CompositionStep(f, s).events) == ModelsDrawn(s.events)
    ensures Submitted(CompositionStep(f, s).events) == Submitted(s.events)
  {
    ProjectionsAppend(s.events, CompositionEvents(f, s.fragmentUniforms));
    CompositionEventsProjections(f, s.fragmentUniforms);
  }

  /** The passes up to reflection `k - 1`, the G-buffer pass and the whole
      frame are prefixes of the pass order. */
  lemma PassOrderPrefixes(n: nat, k: nat)
    requires k <= n
    ensures PassOrder(n)[..k + 1] == [ShadowPass] + ReflectionPasses(k)
    ensures PassOrder(n)[..n + 2] == PassOrder(n)[..n + 1] + [GBufferPass]
    ensures PassOrder(n) == PassOrder(n)[..n + 2] + [CompositionPass] == PassOrder(n)[..n + 3]
  {
    var order := PassOrder(n);
    assert |order| == n + 3;
    assert forall j :: 0 <= j < k ==> order[j + 1] == ReflectionPass(j);
    assert forall j :: 1 <= j <= k ==> ReflectionPasses(k)[j - 1] == order[j];
  }

  /** The shadow pass and the first `k` reflections: the first `k + 1`
      passes, each drawing every model once. */
  lemma ReflectionsAfterShadow(f: FrameInputs, s: FrameState, k: nat)
    requires k <= |f.waters|
    ensures Encoders(Reflections(f, k, ShadowStep(f, s)).events) == Encoders(s.events) + PassOrder(|f.waters|)[..k + 1]
    ensures ModelsDrawn(Reflections(f, k, ShadowStep(f, s)).events) == ModelsDrawn(s.events) + Seqs.Repeat(Models(f), k + 1)
    ensures Submitted(Reflections(f, k, ShadowStep(f, s)).events) == Submitted(s.events)
  {
    ShadowStepProjections(f, s);
    ReflectionsProjections(f, k, ShadowStep(f, s));
    PassOrderPrefixes(|f.waters|, k);
    Seqs.AppendAssociative(Encoders(s.events), [ShadowPass], ReflectionPasses(k));
    Seqs.AppendAssociative(ModelsDrawn(s.events), Models(f), Seqs.Repeat(Models(f), k));
    Seqs.RepeatPrepend(Models(f), k);
  }

  /** The G-buffer pass after every reflection. */
  lemma GBufferAfterReflections(f: FrameInputs, s: FrameState)
    ensures Encoders(GBufferStep(f, MainStep(f, Reflections(f, |f.waters|, ShadowStep(f, s)))).events) ==
            Encoders(s.events) + PassOrder(|f.waters|)[..|f.waters| + 2]
    ensures ModelsDrawn(GBufferStep(f, MainStep(f, Reflections(f, |f.waters|, ShadowStep(f, s)))).events) ==
            ModelsDrawn(s.events) + Seqs.Repeat(Models(f), |f.waters| + 2)
    ensures Submitted(GBufferStep(f, MainStep(f, Reflections(f, |f.waters|, ShadowStep(f, s)))).events) ==
            Submitted(s.events)
  {
    var n := |f.waters|;
    ReflectionsAfterShadow(f, s, n);
    GBufferStepProjections(f, MainStep(f, Reflections(f, n, ShadowStep(f, s))));
    PassOrderPrefixes(n, n);
    Seqs.AppendAssociative(Encoders(s.events), PassOrder(n)[..n + 1], [GBufferPass]);
    Seqs.AppendAssociative(ModelsDrawn(s.events), Seqs.Repeat(Models(f), n + 1), Models(f));
  }

  /** The last step of a complete frame: the composition pass, then the
      presentation and commit when there is a drawable. */
  function Completed(f: FrameInputs, g: FrameState, hasDrawable: bool): seq<Event>
  {
    var composed := CompositionStep(f, g);
    if hasDrawable then composed.events + [Present, Commit] else composed.events
  }

  lemma CompletedProjections(f: FrameInputs, g: FrameState, hasDrawable: bool)
    ensures Encoders(Completed(f, g, hasDrawable)) == Encoders(g.events) + [CompositionPass]
    ensures ModelsDrawn(Completed(f, g, hasDrawable)) == ModelsDrawn(g.events)
    ensures Submitted(Completed(f, g, hasDrawable)) == Submitted(g.events) + (if hasDrawable then [Present, Commit] else [])
  {
    var composed := CompositionStep(f, g);
    CompositionStepProjections(f, g);
    if hasDrawable {
      PresentCommitProjections(composed.events);
    }
  }

  /** The composition pass after the G-buffer pass, and the presentation
      and commit that follow it when there is a drawable. */
  lemma CompositionAfterGBuffer(f: FrameInputs, s: FrameState, g: FrameState, hasDrawable: bool)
    requires Encoders(g.events) == Encoders(s.events) + PassOrder(|f.waters|)[..|f.waters| + 2]
    requires ModelsDrawn(g.events) == ModelsDrawn(s.events) + Seqs.Repeat(Models(f), |f.waters| + 2)
    requires Submitted(g.events) == Submitted(s.events)
    ensures Encoders(Completed(f, g, hasDrawable)) == Encoders(s.events) + PassOrder(|f.waters|)
    ensures ModelsDrawn(Completed(f, g, hasDrawable)) == ModelsDrawn(s.events) + Seqs.Repeat(Models(f), |f.waters| + 2)
    ensures Submitted(Completed(f, g, hasDrawable)) == Submitted(s.events) + (if hasDrawable then [Present, Commit] else [])
  {
    CompletedProjections(f, g, hasDrawable);
    PassOrderPrefixes(|f.waters|, 0);
  }

  /** A frame cut short during the reflections. */
  lemma FrameDuringReflections(f: FrameInputs, s: FrameState, encoderBudget: nat, hasDrawable: bool)
    requires 1 <= encoderBudget <= |f.waters|
    ensures Encoders(FrameAfterCommandBuffer(f, s, encoderBudget, hasDrawable).events) ==
            Encoders(s.events) + PassOrder(|f.waters|)[..encoderBudget]
    ensures ModelsDrawn(FrameAfterCommandBuffer(f, s, encoderBudget, hasDrawable).events) ==
            ModelsDrawn(s.events) + Seqs.Repeat(Models(f), encoderBudget)
    ensures Submitted(FrameAfterCommandBuffer(f, s, encoderBudget, hasDrawable).events) == Submitted(s.events)
  {
    ReflectionsAfterShadow(f, s, encoderBudget - 1);
  }

  /** A frame whose G-buffer encoder could not be made. */
  lemma FrameWithoutGBuffer(f: FrameInputs, s: FrameState, hasDrawable: bool)
    ensures Encoders(FrameAfterCommandBuffer(f, s, |f.waters| + 1, hasDrawable).events) ==
            Encoders(s.events) + PassOrder(|f.waters|)[..|f.waters| + 1]
    ensures ModelsDrawn(FrameAfterCommandBuffer(f, s, |f.waters| + 1, hasDrawable).events) ==
            ModelsDrawn(s.events) + Seqs.Repeat(Models(f), |f.waters| + 1)
    ensures Submitted(FrameAfterCommandBuffer(f, s, |f.waters| + 1, hasDrawable).events) == Submitted(s.events)
  {
    ReflectionsAfterShadow(f, s, |f.waters|);
  }

  /** A frame whose composition encoder could not be made. */
  lemma FrameWithoutComposition(f: FrameInputs, s: FrameState, hasDrawable: bool)
    ensures Encoders(FrameAfterCommandBuffer(f, s, |f.waters| + 2, hasDrawable).events) ==
            Encoders(s.events) + PassOrder(|f.waters|)[..|f.waters| + 2]
    ensures ModelsDrawn(FrameAfterCommandBuffer(f, s, |f.waters| + 2, hasDrawable).events) ==
            ModelsDrawn(s.events) + Seqs.Repeat(Models(f), |f.waters| + 2)
    ensures Submitted(FrameAfterCommandBuffer(f, s, |f.waters| + 2, hasDrawable).events) == Submitted(s.events)
  {
    GBufferAfterReflections(f, s);
  }

  /** A frame whose every encoder was made. */
  lemma FrameComplete(f: FrameInputs, s: FrameState, encoderBudget: nat, hasDrawable: bool)
    requires encoderBudget >= |f.waters| + 3
    ensures Encoders(FrameAfterCommandBuffer(f, s, encoderBudget, hasDrawable).events) ==
            Encoders(s.events) + PassOrder(|f.waters|)
    ensures ModelsDrawn(FrameAfterCommandBuffer(f, s, encoderBudget, hasDrawable).events) ==
            ModelsDrawn(s.events) + Seqs.Repeat(Models(f), |f.waters| + 2)
    ensures Submitted(FrameAfterCommandBuffer(f, s, encoderBudget, hasDrawable).events) ==
            Submitted(s.events) + (if hasDrawable then [Present, Commit] else [])
  {
    var n := |f.waters|;
    GBufferAfterReflections(f, s);
    CompositionAfterGBuffer(f, s, GBufferStep(f, MainStep(f, Reflections(f, n, ShadowStep(f, s)))), hasDrawable);
  }

  /** Encoders are made in the order shadow, one reflection per water in
      `waters` order, G-buffer, composition, and the frame stops at the
      first one that cannot be made. */
  lemma FrameEncoders(f: FrameInputs, s: FrameState, encoderBudget: nat, hasDrawable: bool)
    ensures Encoders(FrameAfterCommandBuffer(f, s, encoderBudget, hasDrawable).events) ==
            Encoders(s.events) + PassOrder(|f.waters|)[..Min(encoderBudget, |f.waters| + 3)]
  {
    var n := |f.waters|;
    if encoderBudget == 0 {
    } else if encoderBudget <= n {
      FrameDuringReflections(f, s, encoderBudget, hasDrawable);
    } else if encoderBudget == n + 1 {
      FrameWithoutGBuffer(f, s, hasDrawable);
    } else if encoderBudget == n + 2 {
      FrameWithoutComposition(f, s, hasDrawable);
    } else {
      FrameComplete(f, s, encoderBudget, hasDrawable);
      PassOrderPrefixes(n, 0);
    }
  }

  /** Every pass but composition draws every model once, in order. */
  lemma FrameModelsDrawn(f: FrameInputs, s: FrameState, encoderBudget: nat, hasDrawable: bool)
    ensures ModelsDrawn(FrameAfterCommandBuffer(f, s, encoderBudget, hasDrawable).events) ==
            ModelsDrawn(s.events) + Seqs.Repeat(Models(f), Min(encoderBudget, |f.waters| + 2))
  {
    var n := |f.waters|;
    if encoderBudget == 0 {
    } else if encoderBudget <= n {
      FrameDuringReflections(f, s, encoderBudget, hasDrawable);
    } else if encoderBudget == n + 1 {
      FrameWithoutGBuffer(f, s, hasDrawable);
    } else if encoderBudget == n + 2 {
      FrameWithoutComposition(f, s, hasDrawable);
    } else {
      FrameComplete(f, s, encoderBudget, hasDrawable);
    }
  }

  /** The command buffer is presented and committed only when every
      encoder was made and there is a drawable. */
  lemma FrameSubmitted(f: FrameInputs, s: FrameState, encoderBudget: nat, hasDrawable: bool)
    ensures Submitted(FrameAfterCommandBuffer(f, s, encoderBudget, hasDrawable).events) ==
            Submitted(s.events) + (if encoderBudget >= |f.waters| + 3 && hasDrawable then [Present, Commit] else [])
  {
    var n := |f.waters|;
    if encoderBudget == 0 {
    } else if encoderBudget <= n {
      FrameDuringReflections(f, s, encoderBudget, hasDrawable);
    } else if encoderBudget == n + 1 {
      FrameWithoutGBuffer(f, s, hasDrawable);
    } else if encoderBudget == n + 2 {
      FrameWithoutComposition(f, s, hasDrawable);
    } else {
      FrameComplete(f, s, encoderBudget, hasDrawable);
    }
  }
}
