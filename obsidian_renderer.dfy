/** `OBSDRenderer`, the object: the shadow and G-buffer targets it owns, the
    view's render pass descriptor it renders the main pass into, the scene it
    draws, and the methods `draw(in:)` and
    `mtkView(_:drawableSizeWillChange:)` that the view calls. Each step of
    `draw(in:)` is proved to perform the step `ObsidianFrames` specifies. */
module ObsidianRenderers {
  import opened Matrix
  import opened Gpu
  import opened ShaderTypes
  import opened SceneGraph
  import opened Encoding
  import opened PassDescriptors
  import opened FramePasses
  import opened ObsidianFrames
  import Seqs
  import ObsidianScenes

  class ObsidianRenderer {
    // The view's `currentRenderPassDescriptor`, taken once by `init`.
    var renderPassDescriptor: PassDescriptor
    var shadowTexture: Texture
    const shadowRenderPassDescriptor: PassDescriptor
    var albedoTexture: Texture
    var normalTexture: Texture
    var positionTexture: Texture
    var depthTexture: Texture
    var scene: ObsidianScenes.ObsidianScene?
    // The orthographic projection and look-at of the shadow pass.
    const shadowOptics: ShadowOptics

    /** The shadow descriptor renders depth only, into the shadow texture;
        the view's descriptor has its eight colour attachments, renders
        normals and positions into attachments 1 and 2 and depth into the
        depth texture, storing each; and the two descriptors are distinct.
        Attachment 0 holds the albedo texture until a frame puts the
        drawable there. */
    ghost predicate Valid()
      reads this, shadowRenderPassDescriptor, renderPassDescriptor
    {
      shadowRenderPassDescriptor != renderPassDescriptor &&
      shadowRenderPassDescriptor.colorAttachments == DefaultColorAttachments() &&
      shadowRenderPassDescriptor.depthAttachment == StoringDepthAttachment(DefaultDepthAttachment, shadowTexture) &&
      |renderPassDescriptor.colorAttachments| == MaxColorAttachments &&
      StoringColorAttachment(renderPassDescriptor.colorAttachments[1], normalTexture) ==
        renderPassDescriptor.colorAttachments[1] &&
      StoringColorAttachment(renderPassDescriptor.colorAttachments[2], positionTexture) ==
        renderPassDescriptor.colorAttachments[2] &&
      StoringDepthAttachment(renderPassDescriptor.depthAttachment, depthTexture) == renderPassDescriptor.depthAttachment
    }

    /** Every target is built for the drawable size `size`. */
    ghost predicate SizedTo(size: Size)
      reads this
    {
      shadowTexture.descriptor == RendererTextureDescriptor(Depth32Float, size) &&
      albedoTexture.descriptor == RendererTextureDescriptor(BGRA8Unorm, size) &&
      normalTexture.descriptor == RendererTextureDescriptor(RGBA16Float, size) &&
      positionTexture.descriptor == RendererTextureDescriptor(RGBA16Float, size) &&
      depthTexture.descriptor == RendererTextureDescriptor(Depth32Float, size)
    }

    /** `init(with:metalView:)`: the view's descriptor is kept, the shadow
        texture and descriptor are built, and the G-buffer textures are
        built at the drawable size and wired into the view's descriptor. There
        is no scene yet. */
    constructor (size: Size, viewDescriptor: PassDescriptor, shadowOptics: ShadowOptics)
      requires |viewDescriptor.colorAttachments| == MaxColorAttachments
      modifies viewDescriptor
      ensures Valid() && SizedTo(size) && scene == null && this.shadowOptics == shadowOptics
      ensures renderPassDescriptor == viewDescriptor && fresh(shadowRenderPassDescriptor)
      ensures fresh(shadowTexture) && fresh(albedoTexture) && fresh(normalTexture) && fresh(positionTexture)
      ensures fresh(depthTexture)
      ensures viewDescriptor.colorAttachments ==
              WireColorTargets(old(viewDescriptor.colorAttachments), [albedoTexture, normalTexture, positionTexture])
      ensures viewDescriptor.depthAttachment == StoringDepthAttachment(old(viewDescriptor.depthAttachment), depthTexture)
    {
      this.shadowOptics := shadowOptics;
      scene := null;
      renderPassDescriptor := viewDescriptor;
      var d := new PassDescriptor();
      assert d.colorAttachments == DefaultColorAttachments();
      var t := BuildTexture(Depth32Float, size, "Shadow");
      d.SetUpDepthAttachment(t);
      shadowRenderPassDescriptor, shadowTexture := d, t;
      var a, n, p, dt := SetUpGBufferAttachments(viewDescriptor, size);
      albedoTexture, normalTexture, positionTexture, depthTexture := a, n, p, dt;
    }

    /** Setting `scene`. */
    method SetScene(s: ObsidianScenes.ObsidianScene?)
      requires Valid()
      modifies this`scene
      ensures Valid() && scene == s
    {
      scene := s;
    }

    /** What the frame reads, taken from the renderer and its scene; the
        camera's matrices follow the pose of its node. */
    ghost function Inputs(threadExecutionWidth: nat): ObsidianInputs
      requires scene != null
      reads this, scene, scene.node, scene.camera, scene.camera.node
    {
      var camera := scene.camera.NodeState();
      ObsidianInputs(scene.node.children, scene.lights, scene.sunLight, scene.hasSkybox, scene.terrains, shadowTexture,
                     scene.camera.node.position, scene.camera.currentPosition, scene.optics.view(camera),
                     scene.optics.projection(camera), threadExecutionWidth, shadowOptics)
    }

    /** `f` agrees with what the renderer and its scene hold now in every
        part but the camera. */
    ghost predicate Holds(f: ObsidianInputs)
      requires scene != null
      reads this, scene`lights, scene`sunLight, scene`hasSkybox, scene`terrains, scene.node`children
    {
      f.children == scene.node.children && f.lights == scene.lights && f.sun == scene.sunLight &&
      f.hasSkybox == scene.hasSkybox && f.terrains == scene.terrains && f.shadowTexture == shadowTexture &&
      f.shadowOptics == shadowOptics
    }

    /** `f` agrees with the camera: its node's position, its current
        position and its matrices. */
    ghost predicate CameraHolds(f: ObsidianInputs)
      requires scene != null
      reads this, scene.camera, scene.camera.node
    {
      var camera := scene.camera.NodeState();
      f.nodePosition == scene.camera.node.position && f.currentPosition == scene.camera.currentPosition &&
      f.view == scene.optics.view(camera) && f.projection == scene.optics.projection(camera)
    }

    /** The scene's uniforms and the events recorded so far. */
    ghost function Snap(trace: Trace): FrameState
      requires scene != null
      reads this, scene, trace
    {
      FrameState(scene.uniforms, scene.fragmentUniforms, trace.events)
    }

    /** `scene.update(deltaTime:)`. */
    method UpdateScene(ghost f: ObsidianInputs, threadExecutionWidth: nat, trace: Trace)
      requires scene != null && Holds(f) && CameraHolds(f) && f.threadExecutionWidth == threadExecutionWidth
      modifies scene`uniforms, trace
      ensures Snap(trace) == UpdateStep(f, old(Snap(trace)))
    {
      scene.Update(threadExecutionWidth, trace);
    }

    /** `renderShadowPass(renderEncoder:)` on a new shadow encoder, which it
        ends. */
    method EncodeShadowPass(ghost f: ObsidianInputs, trace: Trace)
      requires scene != null && Holds(f)
      modifies scene`uniforms, trace
      ensures Snap(trace) == ShadowStep(f, old(Snap(trace)))
    {
      var s := scene;
      trace.Record([MakeEncoder(ShadowPass)]);
      trace.Record([SetCullMode(CullNone), SetDepthStencil(DepthState), SetDepthBias(0.01, 1.0, 0.01)]);
      s.uniforms := s.uniforms.(projectionMatrix := shadowOptics.ortho);
      var position := Vec3(-s.sunLight.position.x, -s.sunLight.position.y, -s.sunLight.position.z);
      s.uniforms := s.uniforms.(viewMatrix := Mul4(Translation4(Vec3(0.0, 0.0, 7.0)), shadowOptics.lookAt(position)));
      s.uniforms := s.uniforms.(shadowMatrix := Mul4(s.uniforms.projectionMatrix, s.uniforms.viewMatrix));
      ghost var u := s.uniforms;
      assert u == ShadowUniforms(old(s.uniforms), f.sun, f.shadowOptics);
      trace.Record([SetPipeline(ShadowPipeline)]);
      s.uniforms := DrawModels(s.node.children, s.uniforms, trace);
      trace.Record([EndEncoding]);
      assert [SetCullMode(CullNone), SetDepthStencil(DepthState), SetDepthBias(0.01, 1.0, 0.01)] + [SetPipeline(ShadowPipeline)] ==
             [SetCullMode(CullNone), SetDepthStencil(DepthState), SetDepthBias(0.01, 1.0, 0.01), SetPipeline(ShadowPipeline)];
      Seqs.Regroup5(old(trace.events), [MakeEncoder(ShadowPass)],
                    [SetCullMode(CullNone), SetDepthStencil(DepthState), SetDepthBias(0.01, 1.0, 0.01)],
                    [SetPipeline(ShadowPipeline)], ModelsPassEvents(f.children, u), [EndEncoding]);
    }

    /** The uniforms `draw(in:)` sets between the shadow and main
        encoders. */
    method SetMainPassUniforms(ghost f: ObsidianInputs, trace: Trace)
      requires scene != null && Holds(f) && CameraHolds(f)
      modifies scene`uniforms, scene`fragmentUniforms
      ensures Snap(trace) == MainUniformsStep(f, old(Snap(trace)))
    {
      var s := scene;
      var camera := s.camera;
      s.fragmentUniforms := s.fragmentUniforms.(cameraPosition := camera.currentPosition.GetOr(Zero3));
      s.fragmentUniforms := s.fragmentUniforms.(lightCount := |s.lights|);
      s.uniforms := s.uniforms.(viewMatrix := s.optics.view(camera.NodeState()));
      s.uniforms := s.uniforms.(projectionMatrix := s.optics.projection(camera.NodeState()));
    }

    /** `renderGbufferPass(renderEncoder:)`: the camera node's position goes
        into the fragment uniforms before they are bound, and the encoder is
        left open. */
    method RenderGBufferPass(ghost f: ObsidianInputs, trace: Trace)
      requires scene != null && Holds(f) && CameraHolds(f)
      modifies scene`uniforms, scene`fragmentUniforms, trace
      ensures scene.uniforms == UniformsAfterModels(f.children, old(scene.uniforms))
      ensures scene.fragmentUniforms == GBufferFragmentUniforms(f, old(scene.fragmentUniforms))
      ensures trace.events == old(trace.events) + GBufferBody(f, old(scene.uniforms), scene.fragmentUniforms)
    {
      var s := scene;
      trace.Record([SetPipeline(GBufferPipeline), SetDepthStencil(DepthState)]);
      s.fragmentUniforms := s.fragmentUniforms.(cameraPosition := s.camera.node.position);
      trace.Record([SetFragmentTexture(Bound(shadowTexture), ShadowTextureIndex),
                    SetFragmentUniforms(s.fragmentUniforms, BufferIndexFragmentUniforms),
                    SetFragmentLights(s.lights, BufferIndexLight)]);
      s.uniforms := DrawModels(s.node.children, s.uniforms, trace);
      Seqs.Regroup3(old(trace.events), [SetPipeline(GBufferPipeline), SetDepthStencil(DepthState)],
                    [SetFragmentTexture(Bound(shadowTexture), ShadowTextureIndex),
                     SetFragmentUniforms(s.fragmentUniforms, BufferIndexFragmentUniforms),
                     SetFragmentLights(s.lights, BufferIndexLight)],
                    ModelsPassEvents(f.children, old(s.uniforms)));
    }

    /** `scene.skybox?.update(renderEncoder:)` and
        `scene.skybox?.render(renderEncoder:uniforms:)` with the scene's
        uniforms. */
    method RenderSky(trace: Trace)
      requires scene != null
      modifies trace
      ensures trace.events == old(trace.events) + SkyEvents(scene.hasSkybox, scene.uniforms)
    {
      if scene.hasSkybox {
        trace.Record([ObsidianSkyboxUpdate]);
        trace.Record([ObsidianSkyboxRender(scene.uniforms)]);
      } else {
        assert old(trace.events) + [] == old(trace.events);
      }
    }

    /** The main encoder on the view's descriptor: the G-buffer pass, the
        sky, and the end. */
    method EncodeMainPass(ghost f: ObsidianInputs, trace: Trace)
      requires scene != null && Holds(f) && CameraHolds(f)
      modifies scene`uniforms, scene`fragmentUniforms, trace
      ensures Snap(trace) == MainStep(f, old(Snap(trace)))
    {
      ghost var u := scene.uniforms;
      trace.Record([MakeEncoder(MainPass)]);
      RenderGBufferPass(f, trace);
      RenderSky(trace);
      trace.Record([EndEncoding]);
      Seqs.Regroup4(old(trace.events), [MakeEncoder(MainPass)], GBufferBody(f, u, scene.fragmentUniforms),
                    SkyEvents(f.hasSkybox, UniformsAfterModels(f.children, u)), [EndEncoding]);
    }

    /** `draw(in:)` once the command buffer is made and the view's
        descriptor holds the drawable, for a scene: the frame
        `FrameAfterCommandBuffer` gives, with `encoderBudget` render
        encoders to make and `hasDrawable` telling whether the view has a
        drawable; the terrains' tessellation pipeline runs
        `threadExecutionWidth` threads per group at most. */
    method EncodeFrame(ghost f: ObsidianInputs, encoderBudget: nat, hasDrawable: bool, threadExecutionWidth: nat,
                       trace: Trace)
      requires scene != null && Holds(f) && CameraHolds(f) && f.threadExecutionWidth == threadExecutionWidth
      modifies scene`uniforms, scene`fragmentUniforms, trace
      ensures Snap(trace) == FrameAfterCommandBuffer(f, old(Snap(trace)), encoderBudget, hasDrawable)
    {
      UpdateScene(f, threadExecutionWidth, trace);
      if encoderBudget == 0 {
        return;
      }
      EncodeShadowPass(f, trace);
      SetMainPassUniforms(f, trace);
      if encoderBudget == 1 {
        return;
      }
      ghost var m := Snap(trace);
      EncodeMainPass(f, trace);
      if hasDrawable {
        trace.Record([Present]);
        trace.Record([Commit]);
        Seqs.AppendAssociative(MainStep(f, m).events, [Present], [Commit]);
      } else {
        assert MainStep(f, m).events + [] == MainStep(f, m).events;
      }
    }

    /** `buildShadowTexture(size:)`: a new shadow texture at `size`, set up
        as the shadow descriptor's depth attachment. */
    method BuildShadowTexture(size: Size)
      modifies this`shadowTexture, shadowRenderPassDescriptor
      ensures fresh(shadowTexture) && shadowTexture.descriptor == RendererTextureDescriptor(Depth32Float, size)
      ensures shadowRenderPassDescriptor.colorAttachments == old(shadowRenderPassDescriptor.colorAttachments)
      ensures shadowRenderPassDescriptor.depthAttachment ==
              StoringDepthAttachment(old(shadowRenderPassDescriptor.depthAttachment), shadowTexture)
    {
      var t := BuildTexture(Depth32Float, size, "Shadow");
      shadowTexture := t;
      shadowRenderPassDescriptor.SetUpDepthAttachment(t);
    }

    /** `buildGBufferRenderPassDescriptor(size:descriptor:)`: four new
        textures at `size`, wired into `descriptor`'s colour attachments 0
        to 2 and its depth attachment. */
    method BuildGBufferRenderPassDescriptor(size: Size, descriptor: PassDescriptor)
      requires |descriptor.colorAttachments| == MaxColorAttachments
      modifies this`albedoTexture, this`normalTexture, this`positionTexture, this`depthTexture, descriptor
      ensures fresh(albedoTexture) && fresh(normalTexture) && fresh(positionTexture) && fresh(depthTexture)
      ensures descriptor.colorAttachments ==
              WireColorTargets(old(descriptor.colorAttachments), [albedoTexture, normalTexture, positionTexture])
      ensures descriptor.depthAttachment == StoringDepthAttachment(old(descriptor.depthAttachment), depthTexture)
      ensures albedoTexture.descriptor == RendererTextureDescriptor(BGRA8Unorm, size)
      ensures normalTexture.descriptor == RendererTextureDescriptor(RGBA16Float, size)
      ensures positionTexture.descriptor == RendererTextureDescriptor(RGBA16Float, size)
      ensures depthTexture.descriptor == RendererTextureDescriptor(Depth32Float, size)
    {
      var a, n, p, dt := SetUpGBufferAttachments(descriptor, size);
      albedoTexture, normalTexture, positionTexture, depthTexture := a, n, p, dt;
    }

    /** `mtkView(_:drawableSizeWillChange:)`: the shadow texture and the
        G-buffer textures are rebuilt at the new size, and the new G-buffer
        textures are wired into the view's descriptor. Unlike the Stellar
        renderer it neither looks at the scene nor tells the camera. */
    method Resize(size: Size)
      requires Valid()
      modifies this`shadowTexture, this`albedoTexture, this`normalTexture, this`positionTexture, this`depthTexture
      modifies shadowRenderPassDescriptor, renderPassDescriptor
      ensures Valid() && SizedTo(size)
      ensures fresh(shadowTexture) && fresh(albedoTexture) && fresh(normalTexture) && fresh(positionTexture)
      ensures fresh(depthTexture)
      ensures renderPassDescriptor.colorAttachments ==
              WireColorTargets(old(renderPassDescriptor.colorAttachments), [albedoTexture, normalTexture, positionTexture])
      ensures renderPassDescriptor.depthAttachment ==
              StoringDepthAttachment(old(renderPassDescriptor.depthAttachment), depthTexture)
    {
      BuildShadowTexture(size);
      BuildGBufferRenderPassDescriptor(size, renderPassDescriptor);
    }

    /** `draw(in:)`, for a view whose current drawable renders into
        `drawable` (null when there is none). A command buffer is always
        made; without a scene nothing else happens. With one, colour
        attachment 0 of the view's descriptor is pointed at the drawable and
        cleared to sky blue, and the frame is the one `EncodeFrame` encodes
        for the scene as the call found it. Of the scene only the uniforms
        change. Every model among the scene's children must have its submesh
        list, which `draw(renderEncoder:model:)` force-unwraps. */
    method DrawIn(drawable: Texture?, encoderBudget: nat, threadExecutionWidth: nat, trace: Trace)
      requires Valid()
      requires scene != null ==> forall c :: c in scene.node.children && IsModel(c) ==> c.kind.submeshCount.Some?
      modifies trace, renderPassDescriptor, if scene == null then {} else {scene}
      ensures Valid()
      ensures scene == null ==> trace.events == old(trace.events) + [MakeCommandBuffer]
      ensures scene == null ==> unchanged(renderPassDescriptor)
      ensures scene != null ==>
                renderPassDescriptor.colorAttachments ==
                old(renderPassDescriptor.colorAttachments)[0 := old(renderPassDescriptor.colorAttachments[0]).(texture := drawable, clearColor := SkyBlue)]
      ensures renderPassDescriptor.depthAttachment == old(renderPassDescriptor.depthAttachment)
      ensures scene != null ==> Holds(old(Inputs(threadExecutionWidth)))
      ensures scene != null ==>
                Snap(trace) == FrameAfterCommandBuffer(old(Inputs(threadExecutionWidth)),
                                                       old(Snap(trace)).(events := old(trace.events) + [MakeCommandBuffer]),
                                                       encoderBudget, drawable != null)
      ensures scene != null ==> unchanged(scene.camera, scene.node, scene.rootNode)
      ensures scene != null ==>
                scene.lights == old(scene.lights) && scene.hasSkybox == old(scene.hasSkybox) &&
                scene.terrains == old(scene.terrains) && scene.waters == old(scene.waters) &&
                scene.sunLight == old(scene.sunLight)
    {
      trace.Record([MakeCommandBuffer]);
      var s := scene;
      if s == null {
        return;
      }
      ghost var f := Inputs(threadExecutionWidth);
      var d := renderPassDescriptor;
      d.colorAttachments := d.colorAttachments[0 := d.colorAttachments[0].(texture := drawable)];
      d.colorAttachments := d.colorAttachments[0 := d.colorAttachments[0].(clearColor := SkyBlue)];
      assert Holds(f) && CameraHolds(f);
      EncodeFrame(f, encoderBudget, drawable != null, threadExecutionWidth, trace);
    }
  }
}
