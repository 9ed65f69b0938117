/** `STLRRenderer`, the object: the shadow and G-buffer targets it owns,
    their descriptors, the scene it draws, and the methods `draw(in:)` and
    `mtkView(_:drawableSizeWillChange:)` that the view calls. Each pass of
    `draw(in:)` is proved to perform the step `StellarFrames` specifies. */
module StellarRenderers {
  import opened Matrix
  import opened Gpu
  import opened ShaderTypes
  import opened Encoding
  import opened PassDescriptors
  import opened FramePasses
  import opened StellarFrames
  import Seqs
  import Cameras
  import Scenes
  import RenderPasses

  class StellarRenderer {
    var scene: Scenes.Scene?
    var shadowTexture: Texture
    const shadowRenderPassDescriptor: PassDescriptor
    var albedoTexture: Texture
    var normalTexture: Texture
    var positionTexture: Texture
    var depthTexture: Texture
    var gBufferRenderPassDescriptor: PassDescriptor
    // The orthographic projection and look-at of the shadow pass.
    const shadowOptics: ShadowOptics

    /** The shadow descriptor renders depth only, into the shadow texture;
        the G-buffer descriptor renders albedo, normal and position into
        colour attachments 0 to 2 and depth into the depth texture; and the
        two descriptors are distinct. */
    ghost predicate TargetsValid()
      reads this, shadowRenderPassDescriptor, gBufferRenderPassDescriptor
    {
      shadowRenderPassDescriptor != gBufferRenderPassDescriptor &&
      shadowRenderPassDescriptor.colorAttachments == DefaultColorAttachments() &&
      shadowRenderPassDescriptor.depthAttachment == StoringDepthAttachment(DefaultDepthAttachment, shadowTexture) &&
      gBufferRenderPassDescriptor.colorAttachments ==
        WireColorTargets(DefaultColorAttachments(), [albedoTexture, normalTexture, positionTexture]) &&
      gBufferRenderPassDescriptor.depthAttachment == StoringDepthAttachment(DefaultDepthAttachment, depthTexture)
    }

    /** The targets are valid, and so is the scene when there is one. */
    ghost predicate Valid()
      reads this, shadowRenderPassDescriptor, gBufferRenderPassDescriptor, scene
    {
      TargetsValid() && (scene != null ==> scene.Valid())
    }

    /** Every target is built for the drawable size `size`. */
    ghost predicate SizedTo(size: Size)
      reads this
    {
      shadowTexture.descriptor == RendererTextureDescriptor(Depth32Float, size) &&
      albedoTexture.descriptor == RendererTextureDescriptor(BGRA8Unorm, size) &&
      normalTexture.descriptor == RendererTextureDescriptor(RGBA16Float, size) &&
      positionTexture.descriptor == RendererTextureDescriptor(RGBA16Float, size) &&
      depthTexture.descriptor == RendererTextureDescriptor(Depth32Float, size)
    }

    /** `init(metalView:)`: the shadow texture and descriptor and the
        G-buffer textures and descriptor at the drawable size, and no scene
        yet, so the size callback it makes returns at once. */
    constructor (size: Size, shadowOptics: ShadowOptics)
      ensures Valid() && SizedTo(size) && scene == null && this.shadowOptics == shadowOptics
      ensures fresh(shadowRenderPassDescriptor) && fresh(gBufferRenderPassDescriptor)
      ensures fresh(shadowTexture) && fresh(albedoTexture) && fresh(normalTexture) && fresh(positionTexture)
      ensures fresh(depthTexture)
      ensures shadowTexture.name == "Shadow texture"
    {
      this.shadowOptics := shadowOptics;
      scene := null;
      var d := new PassDescriptor();
      var t := BuildTexture(Depth32Float, size, "Shadow");
      d.SetUpDepthAttachment(t);
      var g := new PassDescriptor();
      var a, n, p, dt := SetUpGBufferAttachments(g, size);
      shadowRenderPassDescriptor, shadowTexture := d, t;
      gBufferRenderPassDescriptor := g;
      albedoTexture, normalTexture, positionTexture, depthTexture := a, n, p, dt;
    }

    /** Setting `scene`. */
    method SetScene(s: Scenes.Scene?)
      requires Valid() && (s != null ==> s.Valid())
      modifies this`scene
      ensures Valid() && scene == s
    {
      scene := s;
    }

    /** What the frame reads, taken from the renderer and its scene: the
        main camera's matrices and position, and the view of the reflection
        camera mirrored from it. */
    ghost function Inputs(): FrameInputs
      requires scene != null
      reads this, scene, scene.camera, scene.reflectionCamera
    {
      var camera := scene.camera.State();
      FrameInputs(scene.renderables, scene.lights, scene.sunLight, scene.waters, scene.skybox, shadowTexture,
                  albedoTexture, normalTexture, positionTexture, scene.camera.transform.position,
                  scene.optics.view(camera), scene.optics.projection(camera),
                  scene.optics.view(ReflectedCamera(camera, scene.reflectionCamera.State())), shadowOptics)
    }

    /** `f` agrees with what the renderer and its scene hold now in every
        part but the cameras' matrices. */
    ghost predicate Holds(f: FrameInputs)
      requires scene != null
      reads this, scene`renderables, scene`lights, scene`sunLight, scene`waters, scene`skybox
    {
      f.renderables == scene.renderables && f.lights == scene.lights && f.sun == scene.sunLight &&
      f.waters == scene.waters && f.sky == scene.skybox && f.shadowTexture == shadowTexture &&
      f.albedo == albedoTexture && f.normal == normalTexture && f.position == positionTexture &&
      f.shadowOptics == shadowOptics
    }

    /** The scene's uniforms and the events recorded so far. */
    ghost function Snap(trace: Trace): FrameState
      requires scene != null
      reads this, scene, trace
    {
      FrameState(scene.uniforms, scene.fragmentUniforms, trace.events)
    }

    /** `renderShadowPass(renderEncoder:)` on a new shadow encoder. */
    method EncodeShadowPass(ghost f: FrameInputs, trace: Trace)
      requires scene != null && Holds(f)
      modifies scene`uniforms, trace
      ensures Snap(trace) == ShadowStep(f, old(Snap(trace)))
    {
      var s := scene;
      trace.Record([MakeEncoder(ShadowPass)]);
      trace.Record([SetCullMode(CullNone), SetDepthStencil(DepthState), SetDepthBias(0.01, 1.0, 0.01)]);
      s.uniforms := s.uniforms.(projectionMatrix := shadowOptics.ortho);
      var position := Vec3(-s.sunLight.position.x, -s.sunLight.position.y, -s.sunLight.position.z);
      s.uniforms := s.uniforms.(viewMatrix := Mul4(Translation4(Vec3(0.0, 0.0, 7.0)), shadowOptics.lookAt(position)));
      s.uniforms := s.uniforms.(shadowMatrix := Mul4(s.uniforms.projectionMatrix, s.uniforms.viewMatrix));
      ghost var u := s.uniforms;
      assert u == ShadowUniforms(old(s.uniforms), f.sun, f.shadowOptics);
      trace.Record([SetPipeline(ShadowPipeline)]);
      s.uniforms := DrawModels(s.renderables, s.uniforms, trace);
      trace.Record([EndEncoding]);
      assert [SetCullMode(CullNone), SetDepthStencil(DepthState), SetDepthBias(0.01, 1.0, 0.01)] + [SetPipeline(ShadowPipeline)] ==
             [SetCullMode(CullNone), SetDepthStencil(DepthState), SetDepthBias(0.01, 1.0, 0.01), SetPipeline(ShadowPipeline)];
      Seqs.Regroup5(old(trace.events), [MakeEncoder(ShadowPass)],
                    [SetCullMode(CullNone), SetDepthStencil(DepthState), SetDepthBias(0.01, 1.0, 0.01)],
                    [SetPipeline(ShadowPipeline)], ModelsPassEvents(f.renderables, u), [EndEncoding]);
    }

    /** `renderGbufferPass(renderEncoder:)`: it leaves the encoder open. */
    method RenderGBufferPass(ghost f: FrameInputs, trace: Trace)
      requires scene != null && f.renderables == scene.renderables && f.lights == scene.lights
      requires f.shadowTexture == shadowTexture
      modifies scene`uniforms, trace
      ensures scene.uniforms == UniformsAfterModels(f.renderables, old(scene.uniforms))
      ensures trace.events == old(trace.events) + GBufferEvents(f, old(scene.uniforms), scene.fragmentUniforms)
    {
      var s := scene;
      trace.Record([SetPipeline(GBufferPipeline), SetDepthStencil(DepthState)]);
      trace.Record([SetFragmentLights(s.lights, BufferIndexLight)]);
      trace.Record([SetFragmentTexture(Bound(shadowTexture), ShadowTextureIndex),
                    SetFragmentUniforms(s.fragmentUniforms, BufferIndexFragmentUniforms)]);
      ghost var atBody := trace.events;
      s.uniforms := DrawModels(s.renderables, s.uniforms, trace);
      Seqs.AppendAssociative(old(trace.events), atBody[|old(trace.events)|..], ModelsPassEvents(f.renderables, old(s.uniforms)));
    }

    /** `scene.skybox?.update(renderEncoder:)`. */
    method UpdateSky(trace: Trace)
      requires scene != null
      modifies trace
      ensures trace.events == old(trace.events) + SkyUpdateEvents(scene.skybox)
    {
      if scene.skybox != null {
        scene.skybox.Update(trace);
      } else {
        assert old(trace.events) + [] == old(trace.events);
      }
    }

    /** `scene.skybox?.render(renderEncoder:uniforms:)` with the scene's
        uniforms. */
    method RenderSky(trace: Trace)
      requires scene != null
      modifies trace
      ensures trace.events == old(trace.events) + SkyRenderEvents(scene.skybox, scene.uniforms)
    {
      if scene.skybox != null {
        scene.skybox.Render(scene.uniforms, trace);
      } else {
        assert old(trace.events) + [] == old(trace.events);
      }
    }

    /** The uniforms of reflection pass: the camera's position and the
        light count in the fragment uniforms; the camera's projection and
        position, the view of the reflection camera mirrored from it, and
        the clip plane in the uniforms. What the frame reads does not
        change, because mirroring twice is mirroring once. */
    method SetReflectionUniforms(ghost f: FrameInputs)
      requires scene != null && scene.Valid() && f == Inputs()
      modifies scene`uniforms, scene`fragmentUniforms, scene.reflectionCamera
      ensures f == Inputs()
      ensures scene.uniforms == ReflectionUniforms(f, old(scene.uniforms))
      ensures scene.fragmentUniforms == PassFragmentUniforms(f, old(scene.fragmentUniforms))
      ensures scene.reflectionCamera.State() ==
              ReflectedCamera(scene.camera.State(), old(scene.reflectionCamera.State()))
    {
      var s := scene;
      var camera, reflection := s.camera, s.reflectionCamera;
      ghost var r0 := reflection.State();
      s.fragmentUniforms := s.fragmentUniforms.(cameraPosition := camera.transform.position);
      s.fragmentUniforms := s.fragmentUniforms.(lightCount := |s.lights|);
      s.uniforms := s.uniforms.(projectionMatrix := s.optics.projection(camera.State()));
      s.uniforms := s.uniforms.(cameraPosition := camera.transform.position);
      reflection.transform := camera.transform;
      reflection.transform := reflection.transform.(position := reflection.transform.position.(y := -camera.transform.position.y));
      reflection.transform := reflection.transform.(rotation := reflection.transform.rotation.(x := -camera.transform.rotation.x));
      if reflection.arcball && camera.arcball {
        reflection.distance := camera.distance;
      }
      assert reflection.State() == ReflectedCamera(camera.State(), r0);
      ReflectedCameraIdempotent(camera.State(), r0);
      s.uniforms := s.uniforms.(viewMatrix := s.optics.view(reflection.State()));
      s.uniforms := s.uniforms.(clipPlane := Vec4(0.0, 1.0, 0.0, 0.1));
    }

    /** What a reflection encoder encodes once its uniforms are set: the
        depth state, the sky's textures, the G-buffer body, the sky. */
    method EncodeReflectionBody(ghost f: FrameInputs, trace: Trace)
      requires scene != null && Holds(f)
      modifies scene`uniforms, trace
      ensures scene.uniforms == UniformsAfterModels(f.renderables, old(scene.uniforms))
      ensures trace.events == old(trace.events) + ReflectionBody(f, old(scene.uniforms), scene.fragmentUniforms)
    {
      ghost var u := scene.uniforms;
      trace.Record([SetDepthStencil(DepthState)]);
      UpdateSky(trace);
      RenderGBufferPass(f, trace);
      RenderSky(trace);
      Seqs.Nest4(old(trace.events), [SetDepthStencil(DepthState)], SkyUpdateEvents(f.sky),
                    GBufferEvents(f, u, scene.fragmentUniforms), SkyRenderEvents(f.sky, UniformsAfterModels(f.renderables, u)));
    }

    /** One iteration of the reflection loop, for water `i`, on its new
        encoder: the pass's uniforms and the mirrored reflection camera,
        then the body, then the end. */
    method EncodeReflectionPass(ghost f: FrameInputs, i: nat, trace: Trace)
      requires scene != null && scene.Valid() && f == Inputs()
      modifies scene`uniforms, scene`fragmentUniforms, scene.reflectionCamera, trace
      ensures f == Inputs()
      ensures Snap(trace) == ReflectionStep(f, i, old(Snap(trace)))
      ensures scene.reflectionCamera.State() ==
              ReflectedCamera(scene.camera.State(), old(scene.reflectionCamera.State()))
    {
      trace.Record([MakeEncoder(ReflectionPass(i))]);
      SetReflectionUniforms(f);
      ghost var u := scene.uniforms;
      EncodeReflectionBody(f, trace);
      trace.Record([EndEncoding]);
      Seqs.Regroup3(old(trace.events), [MakeEncoder(ReflectionPass(i))], ReflectionBody(f, u, scene.fragmentUniforms),
                    [EndEncoding]);
    }

    /** Each water, in order, steps its timer and renders itself with the
        scene's uniforms. */
    method RenderWaters(trace: Trace)
      requires scene != null
      modifies trace
      ensures trace.events == old(trace.events) + WatersEvents(scene.waters, scene.uniforms, scene.fragmentUniforms)
    {
      var s := scene;
      var waters := s.waters;
      for j := 0 to |waters|
        invariant trace.events == old(trace.events) + WatersEvents(waters[..j], s.uniforms, s.fragmentUniforms)
      {
        assert waters[..j + 1][..j] == waters[..j];
        trace.Record([UpdateWater(waters[j].node), RenderWater(waters[j].node, s.uniforms, s.fragmentUniforms)]);
        Seqs.AppendAssociative(old(trace.events), WatersEvents(waters[..j], s.uniforms, s.fragmentUniforms),
                               [UpdateWater(waters[j].node), RenderWater(waters[j].node, s.uniforms, s.fragmentUniforms)]);
      }
      assert waters[..|waters|] == waters;
    }

    /** The G-buffer encoder after the main pass's uniforms: the sky's
        textures, the G-buffer body, the sky, the waters, and the end. */
    method EncodeGBufferPass(ghost f: FrameInputs, trace: Trace)
      requires scene != null && Holds(f)
      modifies scene`uniforms, trace
      ensures Snap(trace) == GBufferStep(f, old(Snap(trace)))
    {
      var s := scene;
      ghost var u, fu := s.uniforms, s.fragmentUniforms;
      trace.Record([MakeEncoder(GBufferPass)]);
      UpdateSky(trace);
      RenderGBufferPass(f, trace);
      RenderSky(trace);
      RenderWaters(trace);
      trace.Record([EndEncoding]);
      ghost var after := UniformsAfterModels(f.renderables, u);
      Seqs.Regroup6(old(trace.events), [MakeEncoder(GBufferPass)], SkyUpdateEvents(f.sky), GBufferEvents(f, u, fu),
                    SkyRenderEvents(f.sky, after), WatersEvents(f.waters, after, fu), [EndEncoding]);
    }

    /** `renderCompositionPass(renderEncoder:)` on the view's descriptor. */
    method EncodeCompositionPass(ghost f: FrameInputs, trace: Trace)
      requires scene != null && Holds(f)
      modifies trace
      ensures Snap(trace) == CompositionStep(f, old(Snap(trace)))
    {
      var s := scene;
      trace.Record([MakeEncoder(CompositionPass)]);
      trace.Record([SetPipeline(CompositionPipeline), SetDepthStencil(DepthState),
                    SetVertexBuffer(QuadVertices, 0), SetVertexBuffer(QuadTexCoords, 1)]);
      trace.Record([SetFragmentTexture(Bound(albedoTexture), 0), SetFragmentTexture(Bound(normalTexture), 1),
                    SetFragmentTexture(Bound(positionTexture), 2)]);
      trace.Record([SetFragmentLights(s.lights, BufferIndexLight),
                    SetFragmentUniforms(s.fragmentUniforms, BufferIndexFragmentUniforms)]);
      trace.Record([Draw(Quad(QuadVertexCount()))]);
      trace.Record([EndEncoding]);
      assert trace.events == old(trace.events) + EncoderPass(CompositionPass,
        CompositionBindings(f, s.fragmentUniforms) + [Draw(Quad(QuadVertexCount()))]);
    }

    /** The uniforms the main pass sets after the reflections. */
    method SetMainPassUniforms(ghost f: FrameInputs, trace: Trace)
      requires scene != null && f == Inputs()
      modifies scene`uniforms, scene`fragmentUniforms
      ensures Snap(trace) == MainStep(f, old(Snap(trace)))
    {
      var s := scene;
      var camera := s.camera;
      s.fragmentUniforms := s.fragmentUniforms.(cameraPosition := camera.transform.position);
      s.fragmentUniforms := s.fragmentUniforms.(lightCount := |s.lights|);
      s.uniforms := s.uniforms.(viewMatrix := s.optics.view(camera.State()));
      s.uniforms := s.uniforms.(projectionMatrix := s.optics.projection(camera.State()));
      s.uniforms := s.uniforms.(cameraPosition := camera.transform.position);
      s.uniforms := s.uniforms.(clipPlane := Vec4(0.0, -1.0, 0.0, 1000.0));
    }

    /** The reflection loop of `draw(in:)`, after the shadow encoder, with
        `encoderBudget` render encoders to make in all: one pass per water,
        in order, until an encoder cannot be made. `complete` tells whether
        every water got its pass. */
    method EncodeReflections(ghost f: FrameInputs, encoderBudget: nat, trace: Trace) returns (complete: bool)
      requires scene != null && scene.Valid() && f == Inputs() && 1 <= encoderBudget
      modifies scene`uniforms, scene`fragmentUniforms, scene.reflectionCamera, trace
      ensures f == Inputs()
      ensures complete <==> |f.waters| < encoderBudget
      ensures Snap(trace) == Reflections(f, if complete then |f.waters| else encoderBudget - 1, old(Snap(trace)))
      ensures scene.reflectionCamera.State() ==
              if 2 <= encoderBudget && 0 < |f.waters|
              then ReflectedCamera(scene.camera.State(), old(scene.reflectionCamera.State()))
              else old(scene.reflectionCamera.State())
    {
      var s := scene;
      var waters := s.waters;
      var i := 0;
      while i < |waters|
        invariant i <= |waters| && i < encoderBudget && s == scene && s.Valid() && f == Inputs() && f.waters == waters
        invariant Snap(trace) == Reflections(f, i, old(Snap(trace)))
        invariant s.reflectionCamera.State() ==
                  if 0 < i then ReflectedCamera(s.camera.State(), old(s.reflectionCamera.State()))
                  else old(s.reflectionCamera.State())
        invariant unchanged(s.camera)
      {
        if encoderBudget <= i + 1 {
          return false;
        }
        EncodeReflectionPass(f, i, trace);
        ReflectedCameraIdempotent(s.camera.State(), old(s.reflectionCamera.State()));
        i := i + 1;
      }
      return true;
    }

    /** What `draw(in:)` encodes after the reflections, with
        `encoderBudget` render encoders still to make: the main pass's
        uniforms, the G-buffer encoder, the composition encoder, and the
        presentation and commit when there is a drawable. */
    method EncodeMainPasses(ghost f: FrameInputs, encoderBudget: nat, hasDrawable: bool, trace: Trace)
      requires scene != null && f == Inputs()
      modifies scene`uniforms, scene`fragmentUniforms, trace
      ensures Snap(trace) == MainPasses(f, old(Snap(trace)), encoderBudget, hasDrawable)
    {
      assert Holds(f);
      SetMainPassUniforms(f, trace);
      if encoderBudget == 0 {
        return;
      }
      EncodeGBufferPass(f, trace);
      if encoderBudget == 1 {
        return;
      }
      ghost var g := Snap(trace);
      EncodeCompositionPass(f, trace);
      if hasDrawable {
        trace.Record([Present]);
        trace.Record([Commit]);
        Seqs.AppendAssociative(CompositionStep(f, g).events, [Present], [Commit]);
      }
    }

    /** `draw(in:)` once the command buffer is made, for a scene: the frame
        `FrameAfterCommandBuffer` gives, with `encoderBudget` render
        encoders to make and `hasDrawable` telling whether the view has a
        drawable. The reflection camera ends mirrored from the main camera
        exactly when a reflection pass was encoded. */
    method EncodeFrame(ghost f: FrameInputs, encoderBudget: nat, hasDrawable: bool, trace: Trace)
      requires scene != null && scene.Valid() && f == Inputs()
      modifies scene`uniforms, scene`fragmentUniforms, scene.reflectionCamera, trace
      ensures Snap(trace) == FrameAfterCommandBuffer(f, old(Snap(trace)), encoderBudget, hasDrawable)
      ensures scene.reflectionCamera.State() ==
              if 2 <= encoderBudget && 0 < |f.waters|
              then ReflectedCamera(scene.camera.State(), old(scene.reflectionCamera.State()))
              else old(scene.reflectionCamera.State())
    {
      if encoderBudget == 0 {
        return;
      }
      EncodeShadowPass(f, trace);
      var complete := EncodeReflections(f, encoderBudget, trace);
      if complete {
        EncodeMainPasses(f, encoderBudget - |scene.waters| - 1, hasDrawable, trace);
      }
    }

    /** `buildShadowTexture(size:)`: a new shadow texture at `size`, set up
        as the shadow descriptor's depth attachment. */
    method BuildShadowTexture(size: Size)
      modifies this`shadowTexture, shadowRenderPassDescriptor
      ensures fresh(shadowTexture) && shadowTexture.descriptor == RendererTextureDescriptor(Depth32Float, size)
      ensures shadowRenderPassDescriptor.colorAttachments == old(shadowRenderPassDescriptor.colorAttachments)
      ensures shadowRenderPassDescriptor.depthAttachment ==
              StoringDepthAttachment(old(shadowRenderPassDescriptor.depthAttachment), shadowTexture)
    {
      var t := BuildTexture(Depth32Float, size, "Shadow");
      shadowTexture := t;
      shadowRenderPassDescriptor.SetUpDepthAttachment(t);
    }

    /** `buildGBufferRenderPassDescriptor(size:)`: a new descriptor whose
        colour attachments 0 to 2 and depth attachment are four new textures
        at `size`. */
    method BuildGBufferRenderPassDescriptor(size: Size)
      modifies this`albedoTexture, this`normalTexture, this`positionTexture, this`depthTexture
      modifies this`gBufferRenderPassDescriptor
      ensures fresh(gBufferRenderPassDescriptor)
      ensures fresh(albedoTexture) && fresh(normalTexture) && fresh(positionTexture) && fresh(depthTexture)
      ensures gBufferRenderPassDescriptor.colorAttachments ==
              WireColorTargets(DefaultColorAttachments(), [albedoTexture, normalTexture, positionTexture])
      ensures gBufferRenderPassDescriptor.depthAttachment == StoringDepthAttachment(DefaultDepthAttachment, depthTexture)
      ensures albedoTexture.descriptor == RendererTextureDescriptor(BGRA8Unorm, size)
      ensures normalTexture.descriptor == RendererTextureDescriptor(RGBA16Float, size)
      ensures positionTexture.descriptor == RendererTextureDescriptor(RGBA16Float, size)
      ensures depthTexture.descriptor == RendererTextureDescriptor(Depth32Float, size)
    {
      var g := new PassDescriptor();
      assert g.colorAttachments == DefaultColorAttachments();
      var a, n, p, dt := SetUpGBufferAttachments(g, size);
      gBufferRenderPassDescriptor := g;
      albedoTexture, normalTexture, positionTexture, depthTexture := a, n, p, dt;
    }

    /** `mtkView(_:drawableSizeWillChange:)`. Without a scene nothing
        happens. Otherwise the camera takes the new aspect ratio, the
        renderer's targets are rebuilt, and every water's reflection pass
        rebuilds its own; all of them at the new size. */
    method Resize(size: Size)
      requires Valid()
      modifies this`shadowTexture, this`albedoTexture, this`normalTexture, this`positionTexture, this`depthTexture
      modifies this`gBufferRenderPassDescriptor, shadowRenderPassDescriptor
      modifies if scene == null then {} else {scene.camera}
      modifies if scene == null then {} else set w | w in scene.waters :: w.reflectionRenderPass
      ensures Valid()
      ensures scene == null ==> unchanged(this) && unchanged(shadowRenderPassDescriptor)
      ensures scene != null ==> SizedTo(size) && fresh(shadowTexture) && fresh(gBufferRenderPassDescriptor)
      ensures scene != null ==> scene.camera.aspect == Cameras.AspectRatio(size.width, size.height)
      ensures scene != null ==> forall w :: w in scene.waters ==>
                w.reflectionRenderPass.Valid() && w.reflectionRenderPass.SizedTo(size)
    {
      var s := scene;
      if s == null {
        return;
      }
      s.SceneSizeWillChange(size);
      BuildShadowTexture(size);
      BuildGBufferRenderPassDescriptor(size);
      UpdateWaterPasses(s.waters, size);
    }

    /** `draw(in:)`. Without a render pass descriptor nothing happens;
        otherwise a command buffer is made, and with a scene the frame is
        the one `EncodeFrame` encodes for the scene as the call found it.
        Of the scene only the uniforms and the reflection camera change. */
    method DrawIn(hasDescriptor: bool, hasDrawable: bool, encoderBudget: nat, trace: Trace)
      requires Valid()
      modifies trace, if scene == null then {} else {scene, scene.reflectionCamera}
      ensures Valid()
      ensures !hasDescriptor ==> trace.events == old(trace.events)
      ensures hasDescriptor && scene == null ==> trace.events == old(trace.events) + [MakeCommandBuffer]
      ensures scene != null ==> Holds(old(Inputs()))
      ensures hasDescriptor && scene != null ==>
                Snap(trace) == FrameAfterCommandBuffer(old(Inputs()), old(Snap(trace)).(events := old(trace.events) + [MakeCommandBuffer]),
                                                       encoderBudget, hasDrawable)
      ensures scene != null ==>
                scene.reflectionCamera.State() ==
                if hasDescriptor && 2 <= encoderBudget && 0 < |scene.waters|
                then ReflectedCamera(scene.camera.State(), old(scene.reflectionCamera.State()))
                else old(scene.reflectionCamera.State())
      ensures scene != null ==> unchanged(scene.camera, scene.rootNode)
      ensures scene != null ==>
                scene.lights == old(scene.lights) && scene.skybox == old(scene.skybox) &&
                scene.terrains == old(scene.terrains) && scene.waters == old(scene.waters) &&
                scene.renderables == old(scene.renderables) && scene.sunLight == old(scene.sunLight)
    {
      if !hasDescriptor {
        return;
      }
      trace.Record([MakeCommandBuffer]);
      if scene == null {
        return;
      }
      ghost var f := Inputs();
      EncodeFrame(f, encoderBudget, hasDrawable, trace);
    }
  }


  /** `water.reflectionRenderPass.updateTextures(size:)` for every water in
      order: each pass ends valid and built for `size`. */
  method UpdateWaterPasses(waters: seq<Scenes.Water>, size: Size)
    modifies set w | w in waters :: w.reflectionRenderPass
    ensures forall w :: w in waters ==> w.reflectionRenderPass.Valid() && w.reflectionRenderPass.SizedTo(size)
  {
    for i := 0 to |waters|
      invariant forall j :: 0 <= j < i ==>
                  waters[j].reflectionRenderPass.Valid() && waters[j].reflectionRenderPass.SizedTo(size)
    {
      waters[i].reflectionRenderPass.UpdateTextures(size);
    }
  }
}
