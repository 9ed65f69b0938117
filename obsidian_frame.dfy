/** `OBSDRenderer`: the Obsidian frame. Each `draw(in:)` makes a command
    buffer and, scene permitting, updates the scene (which encodes every
    terrain's tessellation pass), encodes a shadow pass, then one main pass
    on the view's descriptor holding the G-buffer body and the skybox, and
    presents and commits when there is a drawable. The composition pass is
    built but never encoded.

    As for the Stellar frame, each step is a function from the state before
    it to the state after it, and `ObsidianRenderers.ObsidianRenderer` is
    proved to perform those steps. */
module ObsidianFrames {
  import opened Wrappers
  import opened Matrix
  import opened Gpu
  import opened ShaderTypes
  import opened SceneGraph
  import opened Encoding
  import opened FramePasses
  import Seqs
  import Terrains

  /** What a frame reads from the renderer and its scene, taken when
      `draw(in:)` starts; none of it changes during the frame. */
  datatype ObsidianInputs = ObsidianInputs(
    children: seq<Node>,           // the scene node's children
    lights: seq<Light>,
    sun: Light,
    hasSkybox: bool,
    terrains: seq<Terrains.Terrain>,
    shadowTexture: Texture,
    nodePosition: Vec3,            // `scene.camera.position`, the camera node's position
    currentPosition: Option<Vec3>, // `scene.camera.currentPosition`
    view: Mat4,                    // the camera's view matrix
    projection: Mat4,              // the camera's projection matrix
    threadExecutionWidth: nat,     // of the terrains' tessellation pipeline
    shadowOptics: ShadowOptics)

  /** The models among the scene's children, in order. */
  function Models(f: ObsidianInputs): seq<Node>
  {
    Seqs.Filter(f.children, IsModel)
  }

  /** The tessellation passes the terrains encode in `update(deltaTime:)`. */
  function Updates(f: ObsidianInputs): seq<Event>
  {
    Terrains.UpdatesOf(f.terrains, f.view, f.threadExecutionWidth)
  }

  /** `scene.update(deltaTime:)`: the camera's matrices go into the
      uniforms, then the terrains encode. */
  function UpdateStep(f: ObsidianInputs, s: FrameState): FrameState
  {
    FrameState(s.uniforms.(projectionMatrix := f.projection, viewMatrix := f.view), s.fragmentUniforms,
               s.events + Updates(f))
  }

  /** `renderShadowPass(renderEncoder:)`, given the shadow uniforms: no
      culling, the shared depth state, the depth bias and the shadow
      pipeline, then every model among the scene's children. */
  function ShadowBody(f: ObsidianInputs, u: Uniforms): seq<Event>
  {
    [SetCullMode(CullNone), SetDepthStencil(DepthState), SetDepthBias(0.01, 1.0, 0.01), SetPipeline(ShadowPipeline)] +
    ModelsPassEvents(f.children, u)
  }

  /** The shadow encoder, which `renderShadowPass` ends itself. */
  function ShadowStep(f: ObsidianInputs, s: FrameState): FrameState
  {
    var u := ShadowUniforms(s.uniforms, f.sun, f.shadowOptics);
    FrameState(UniformsAfterModels(f.children, u), s.fragmentUniforms,
               s.events + EncoderPass(ShadowPass, ShadowBody(f, u)))
  }

  /** The uniforms `draw(in:)` sets between the two encoders: the camera's
      current position, or the origin when it has none, and the light count
      in the fragment uniforms; the camera's view and projection in the
      uniforms. */
  function MainUniformsStep(f: ObsidianInputs, s: FrameState): FrameState
  {
    s.(fragmentUniforms := s.fragmentUniforms.(cameraPosition := f.currentPosition.GetOr(Zero3),
                                               lightCount := |f.lights|),
       uniforms := s.uniforms.(viewMatrix := f.view, projectionMatrix := f.projection))
  }

  /** The fragment uniforms `renderGbufferPass` binds: it first overwrites
      the camera position with the camera node's own position. */
  function GBufferFragmentUniforms(f: ObsidianInputs, fu: FragmentUniforms): FragmentUniforms
  {
    fu.(cameraPosition := f.nodePosition)
  }

  /** `renderGbufferPass(renderEncoder:)`: the G-buffer pipeline, the depth
      state, the shadow map, the fragment uniforms and the lights, then
      every model among the scene's children. It does not end the
      encoder. */
  function GBufferBody(f: ObsidianInputs, u: Uniforms, fu: FragmentUniforms): seq<Event>
  {
    [SetPipeline(GBufferPipeline), SetDepthStencil(DepthState),
     SetFragmentTexture(Bound(f.shadowTexture), ShadowTextureIndex),
     SetFragmentUniforms(fu, BufferIndexFragmentUniforms), SetFragmentLights(f.lights, BufferIndexLight)] +
    ModelsPassEvents(f.children, u)
  }

  /** `scene.skybox?.update(renderEncoder:)` and
      `scene.skybox?.render(renderEncoder:uniforms:)`. */
  function SkyEvents(hasSkybox: bool, u: Uniforms): seq<Event>
  {
    if hasSkybox then [ObsidianSkyboxUpdate, ObsidianSkyboxRender(u)] else []
  }

  /** The main encoder on the view's descriptor: the G-buffer body, the sky
      with the uniforms the models leave, and the end. */
  function MainStep(f: ObsidianInputs, s: FrameState): FrameState
  {
    var fu := GBufferFragmentUniforms(f, s.fragmentUniforms);
    var after := UniformsAfterModels(f.children, s.uniforms);
    FrameState(after, fu, s.events + EncoderPass(MainPass, GBufferBody(f, s.uniforms, fu) + SkyEvents(f.hasSkybox, after)))
  }

  /** The present and commit that end the frame when there is a
      drawable. */
  function Submission(hasDrawable: bool): seq<Event>
  {
    if hasDrawable then [Present, Commit] else []
  }

  /** The frame up to the main encoder: the update, the shadow encoder and
      the uniforms set after it. */
  function Prepared(f: ObsidianInputs, s: FrameState): FrameState
  {
    MainUniformsStep(f, ShadowStep(f, UpdateStep(f, s)))
  }

  /** `draw(in:)` after the command buffer is made, for a scene, with
      `encoderBudget` render encoders to make: the update always happens;
      the frame returns when the shadow encoder or the main encoder cannot
      be made. */
  function FrameAfterCommandBuffer(f: ObsidianInputs, s: FrameState, encoderBudget: nat, hasDrawable: bool): FrameState
  {
    if encoderBudget == 0 then UpdateStep(f, s)
    else if encoderBudget == 1 then Prepared(f, s)
    else
      var main := MainStep(f, Prepared(f, s));
      main.(events := main.events + Submission(hasDrawable))
  }

  /** The render passes of a complete frame, in order. */
  const PassOrder: seq<Pass> := [ShadowPass, MainPass]

  /** The number of render encoders a frame with budget `encoderBudget`
      makes. */
  function EncodersMade(encoderBudget: nat): (n: nat)
    ensures n <= |PassOrder| && (n == encoderBudget || n == |PassOrder|)
  {
    if encoderBudget < |PassOrder| then encoderBudget else |PassOrder|
  }

  /** One tessellation pass per terrain. */
  function Tessellations(n: nat): seq<Pass>
  {
    seq(n, _ => TessellationPass)
  }

  lemma UpdateStepProjections(f: ObsidianInputs, s: FrameState)
    ensures Encoders(UpdateStep(f, s).events) == Encoders(s.events) + Tessellations(|f.terrains|)
    ensures ModelsDrawn(UpdateStep(f, s).events) == ModelsDrawn(s.events)
    ensures Submitted(UpdateStep(f, s).events) == Submitted(s.events)
  {
    ProjectionsAppend(s.events, Updates(f));
    Terrains.UpdatesOfEncoders(f.terrains, f.view, f.threadExecutionWidth);
  }

  /** The shadow body draws the models and opens nothing. */
  lemma ShadowBodyProjections(f: ObsidianInputs, u: Uniforms)
    ensures Encoders(ShadowBody(f, u)) == [] && ModelsDrawn(ShadowBody(f, u)) == Models(f)
    ensures Submitted(ShadowBody(f, u)) == []
  {
    var pre := [SetCullMode(CullNone), SetDepthStencil(DepthState), SetDepthBias(0.01, 1.0, 0.01),
                SetPipeline(ShadowPipeline)];
    PreludeThenModels(pre, f.children, u);
  }

  lemma ShadowStepProjections(f: ObsidianInputs, s: FrameState)
    ensures Encoders(ShadowStep(f, s).events) == Encoders(s.events) + [ShadowPass]
    ensures ModelsDrawn(ShadowStep(f, s).events) == ModelsDrawn(s.events) + Models(f)
    ensures Submitted(ShadowStep(f, s).events) == Submitted(s.events)
  {
    var u := ShadowUniforms(s.uniforms, f.sun, f.shadowOptics);
    ProjectionsAppend(s.events, EncoderPass(ShadowPass, ShadowBody(f, u)));
    ShadowBodyProjections(f, u);
    EncoderPassProjections(ShadowPass, ShadowBody(f, u));
  }

  /** The G-buffer body draws the models once and opens nothing. */
  lemma GBufferBodyProjections(f: ObsidianInputs, u: Uniforms, fu: FragmentUniforms)
    ensures Encoders(GBufferBody(f, u, fu)) == [] && ModelsDrawn(GBufferBody(f, u, fu)) == Models(f)
    ensures Submitted(GBufferBody(f, u, fu)) == []
  {
    var pre := [SetPipeline(GBufferPipeline), SetDepthStencil(DepthState),
                SetFragmentTexture(Bound(f.shadowTexture), ShadowTextureIndex),
                SetFragmentUniforms(fu, BufferIndexFragmentUniforms), SetFragmentLights(f.lights, BufferIndexLight)];
    PreludeThenModels(pre, f.children, u);
  }

  /** The sky adds no encoder, model or submission. */
  lemma SkyProjections(hasSkybox: bool, u: Uniforms)
    ensures Encoders(SkyEvents(hasSkybox, u)) == [] && ModelsDrawn(SkyEvents(hasSkybox, u)) == []
    ensures Submitted(SkyEvents(hasSkybox, u)) == []
  {
    if hasSkybox {
      UnprojectedProjections([ObsidianSkyboxUpdate, ObsidianSkyboxRender(u)]);
    }
  }

  /** The main body draws the models once and opens nothing. */
  lemma MainBodyProjections(f: ObsidianInputs, u: Uniforms, fu: FragmentUniforms, after: Uniforms)
    ensures Encoders(GBufferBody(f, u, fu) + SkyEvents(f.hasSkybox, after)) == []
    ensures ModelsDrawn(GBufferBody(f, u, fu) + SkyEvents(f.hasSkybox, after)) == Models(f)
    ensures Submitted(GBufferBody(f, u, fu) + SkyEvents(f.hasSkybox, after)) == []
  {
    ProjectionsAppend(GBufferBody(f, u, fu), SkyEvents(f.hasSkybox, after));
    GBufferBodyProjections(f, u, fu);
    SkyProjections(f.hasSkybox, after);
  }

  lemma MainStepProjections(f: ObsidianInputs, s: FrameState)
    ensures Encoders(MainStep(f, s).events) == Encoders(s.events) + [MainPass]
    ensures ModelsDrawn(MainStep(f, s).events) == ModelsDrawn(s.events) + Models(f)
    ensures Submitted(MainStep(f, s).events) == Submitted(s.events)
  {
    var fu := GBufferFragmentUniforms(f, s.fragmentUniforms);
    var after := UniformsAfterModels(f.children, s.uniforms);
    var body := GBufferBody(f, s.uniforms, fu) + SkyEvents(f.hasSkybox, after);
    ProjectionsAppend(s.events, EncoderPass(MainPass, body));
    MainBodyProjections(f, s.uniforms, fu, after);
    EncoderPassProjections(MainPass, body);
  }

  lemma SubmissionProjections(events: seq<Event>, hasDrawable: bool)
    ensures Encoders(events + Submission(hasDrawable)) == Encoders(events)
    ensures ModelsDrawn(events + Submission(hasDrawable)) == ModelsDrawn(events)
    ensures Submitted(events + Submission(hasDrawable)) == Submitted(events) + Submission(hasDrawable)
  {
    ProjectionsAppend(events, Submission(hasDrawable));
    if hasDrawable {
      ProjectionsAppend([Present], [Commit]);
      assert [Present, Commit] == [Present] + [Commit];
      SingleProjections(Present);
      SingleProjections(Commit);
    }
  }

  /** Up to the main encoder: the update and the shadow pass. */
  lemma PreparedProjections(f: ObsidianInputs, s: FrameState)
    ensures Encoders(Prepared(f, s).events) == Encoders(s.events) + Tessellations(|f.terrains|) + [ShadowPass]
    ensures ModelsDrawn(Prepared(f, s).events) == ModelsDrawn(s.events) + Models(f)
    ensures Submitted(Prepared(f, s).events) == Submitted(s.events)
  {
    UpdateStepProjections(f, s);
    ShadowStepProjections(f, UpdateStep(f, s));
  }

  /** The events of a frame whose every render encoder was made. */
  lemma CompleteFrameEvents(f: ObsidianInputs, s: FrameState, encoderBudget: nat, hasDrawable: bool)
    requires 2 <= encoderBudget
    ensures FrameAfterCommandBuffer(f, s, encoderBudget, hasDrawable).events ==
            MainStep(f, Prepared(f, s)).events + Submission(hasDrawable)
  {
  }

  /** The render encoders of a frame whose every render encoder was made. */
  lemma CompleteEncoders(f: ObsidianInputs, s: FrameState, hasDrawable: bool)
    ensures Encoders(MainStep(f, Prepared(f, s)).events + Submission(hasDrawable)) ==
            Encoders(s.events) + Tessellations(|f.terrains|) + PassOrder
  {
    PreparedProjections(f, s);
    MainStepProjections(f, Prepared(f, s));
    SubmissionProjections(MainStep(f, Prepared(f, s)).events, hasDrawable);
    Seqs.AppendAssociative(Encoders(s.events) + Tessellations(|f.terrains|), [ShadowPass], [MainPass]);
  }

  /** The models drawn by a frame whose every render encoder was made. */
  lemma CompleteModelsDrawn(f: ObsidianInputs, s: FrameState, hasDrawable: bool)
    ensures ModelsDrawn(MainStep(f, Prepared(f, s)).events + Submission(hasDrawable)) ==
            ModelsDrawn(s.events) + Seqs.Repeat(Models(f), 2)
  {
    PreparedProjections(f, s);
    MainStepProjections(f, Prepared(f, s));
    SubmissionProjections(MainStep(f, Prepared(f, s)).events, hasDrawable);
    Seqs.RepeatTwice(ModelsDrawn(s.events), Models(f), ModelsDrawn(Prepared(f, s).events),
                     ModelsDrawn(MainStep(f, Prepared(f, s)).events));
  }

  /** What a frame whose every render encoder was made submits. */
  lemma CompleteSubmitted(f: ObsidianInputs, s: FrameState, hasDrawable: bool)
    ensures Submitted(MainStep(f, Prepared(f, s)).events + Submission(hasDrawable)) ==
            Submitted(s.events) + Submission(hasDrawable)
  {
    PreparedProjections(f, s);
    MainStepProjections(f, Prepared(f, s));
    SubmissionProjections(MainStep(f, Prepared(f, s)).events, hasDrawable);
  }

  /** Render encoders are made in the order shadow, main, and the frame
      stops at the first that cannot be made; the composition pass is never
      encoded. Before them come the terrains' tessellation passes, whatever
      the budget. */
  lemma FrameEncoders(f: ObsidianInputs, s: FrameState, encoderBudget: nat, hasDrawable: bool)
    ensures Encoders(FrameAfterCommandBuffer(f, s, encoderBudget, hasDrawable).events) ==
            Encoders(s.events) + Tessellations(|f.terrains|) + PassOrder[..EncodersMade(encoderBudget)]
  {
    if encoderBudget == 0 {
      UpdateStepProjections(f, s);
      assert PassOrder[..0] == [];
      assert Encoders(s.events) + Tessellations(|f.terrains|) + [] == Encoders(s.events) + Tessellations(|f.terrains|);
    } else if encoderBudget == 1 {
      PreparedProjections(f, s);
      assert PassOrder[..1] == [ShadowPass];
    } else {
      CompleteFrameEvents(f, s, encoderBudget, hasDrawable);
      CompleteEncoders(f, s, hasDrawable);
      assert PassOrder[..2] == PassOrder;
    }
  }

  /** No Obsidian frame encodes a composition pass: `renderCompositionPass`
      is never called. */
  lemma FrameNeverComposes(f: ObsidianInputs, s: FrameState, encoderBudget: nat, hasDrawable: bool)
    ensures CompositionPass in Encoders(FrameAfterCommandBuffer(f, s, encoderBudget, hasDrawable).events) <==>
            CompositionPass in Encoders(s.events)
  {
    FrameEncoders(f, s, encoderBudget, hasDrawable);
    var tail := Tessellations(|f.terrains|) + PassOrder[..EncodersMade(encoderBudget)];
    assert CompositionPass !in tail by {
      forall i | 0 <= i < |tail| ensures tail[i] != CompositionPass {
        if i < |f.terrains| {
          assert tail[i] == TessellationPass;
        } else {
          assert tail[i] == PassOrder[i - |f.terrains|];
        }
      }
    }
    Seqs.AppendAssociative(Encoders(s.events), Tessellations(|f.terrains|), PassOrder[..EncodersMade(encoderBudget)]);
  }

  /** A frame whose shadow encoder could not be made draws no model. */
  lemma ModelsDrawnWithoutShadow(f: ObsidianInputs, s: FrameState, hasDrawable: bool)
    ensures ModelsDrawn(FrameAfterCommandBuffer(f, s, 0, hasDrawable).events) == ModelsDrawn(s.events)
  {
    UpdateStepProjections(f, s);
  }

  /** A frame whose main encoder could not be made draws the models once. */
  lemma ModelsDrawnWithoutMain(f: ObsidianInputs, s: FrameState, hasDrawable: bool)
    ensures ModelsDrawn(FrameAfterCommandBuffer(f, s, 1, hasDrawable).events) == ModelsDrawn(s.events) + Models(f)
  {
    PreparedProjections(f, s);
  }

  /** Each render pass made draws every model among the scene's children
      once, in order. */
  lemma FrameModelsDrawn(f: ObsidianInputs, s: FrameState, encoderBudget: nat, hasDrawable: bool)
    ensures ModelsDrawn(FrameAfterCommandBuffer(f, s, encoderBudget, hasDrawable).events) ==
            ModelsDrawn(s.events) + Seqs.Repeat(Models(f), EncodersMade(encoderBudget))
  {
    Seqs.RepeatSmall(Models(f));
    if encoderBudget == 0 {
      ModelsDrawnWithoutShadow(f, s, hasDrawable);
      assert ModelsDrawn(s.events) + [] == ModelsDrawn(s.events);
    } else if encoderBudget == 1 {
      ModelsDrawnWithoutMain(f, s, hasDrawable);
    } else {
      CompleteFrameEvents(f, s, encoderBudget, hasDrawable);
      CompleteModelsDrawn(f, s, hasDrawable);
    }
  }

  /** The frame is presented and committed exactly when both render
      encoders were made and there is a drawable. */
  lemma FrameSubmitted(f: ObsidianInputs, s: FrameState, encoderBudget: nat, hasDrawable: bool)
    ensures Submitted(FrameAfterCommandBuffer(f, s, encoderBudget, hasDrawable).events) ==
            Submitted(s.events) + (if 2 <= encoderBudget && hasDrawable then [Present, Commit] else [])
  {
    if encoderBudget == 0 {
      UpdateStepProjections(f, s);
    } else if encoderBudget == 1 {
      PreparedProjections(f, s);
    } else {
      CompleteFrameEvents(f, s, encoderBudget, hasDrawable);
      CompleteSubmitted(f, s, hasDrawable);
    }
  }

  /** The uniforms a frame leaves. Once the shadow encoder was made, the
      main camera's matrices replace the shadow pass's, and the light count
      is set; the camera position `draw(in:)` sets from `currentPosition`
      survives only when the main encoder could not be made, because
      `renderGbufferPass` overwrites it with the camera node's position. */
  lemma FrameUniforms(f: ObsidianInputs, s: FrameState, encoderBudget: nat, hasDrawable: bool)
    ensures var r := FrameAfterCommandBuffer(f, s, encoderBudget, hasDrawable);
      r.uniforms.viewMatrix == f.view && r.uniforms.projectionMatrix == f.projection &&
      (encoderBudget == 0 ==> r.fragmentUniforms == s.fragmentUniforms) &&
      (encoderBudget == 1 ==> r.fragmentUniforms.cameraPosition == f.currentPosition.GetOr(Zero3)) &&
      (encoderBudget >= 2 ==> r.fragmentUniforms.cameraPosition == f.nodePosition) &&
      (encoderBudget >= 1 ==> r.fragmentUniforms.lightCount == |f.lights|)
  {
    if encoderBudget >= 2 {
      var prepared := Prepared(f, s);
      var after := UniformsAfterModels(f.children, prepared.uniforms);
      assert after.(modelMatrix := prepared.uniforms.modelMatrix, normalMatrix := prepared.uniforms.normalMatrix) ==
             prepared.uniforms;
    }
  }
}
