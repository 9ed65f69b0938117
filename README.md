# StellarEngine bookkeeping, modelled in Dafny

This project models the bookkeeping of StellarEngine-Swift, a Metal rendering engine for macOS and iOS. It covers both variants of the engine: Stellar (`STLR…` classes) and ObsidianEngine (`OBSD…` classes). The GPU itself is never modelled. What is modelled is every decision the engine's Swift code makes around the GPU:

- **Scene graph** (`SceneGraph`, `Transforms`, `Matrix`). Nodes have parents and ordered children. `add(childNode:)` and `remove(childNode:)` re-link them. A model matrix is built from position, rotation and scale, and the world transform is the product of model matrices from the root down. Matrix products are free (a sequence of factors), so order is kept exactly.
- **Scenes** (`Scenes`, `ObsidianScenes`, `Cameras`, `Lights`). The camera, the lights, terrains and waters, and the flat `renderables` list are kept in step with `add(node:parent:render:)` and `remove(node:)`. `update(deltaTime:)` copies the camera's matrices into the uniforms and encodes every terrain's tessellation pass. The camera's view and projection matrices are whatever a given `Optics` value computes from the camera's state.
- **Render targets** (`Gpu`, `RenderPasses`, `PassDescriptors`). This covers the texture descriptors of the G-buffer, shadow and reflection targets, and how they are wired into render pass descriptors. On a resize every target is replaced by a new texture of the new size.
- **Frames** (`Encoding`, `FramePasses`, `StellarFrames`, `StellarRenderers`, `ObsidianFrames`, `ObsidianRenderers`).
  - Each renderer's `draw(in:)` is a method that appends the commands it encodes to a `Trace`.
  - Each method is proved equal to a specification function of the frame.
  - Lemmas about that function give the order of the passes, which models each pass draws, and when the command buffer is presented and committed.
  - A frame can be cut short because an encoder could not be made (an encoder budget) or because there is no drawable.
- **Resources** (`Skyboxes`, `Submeshes`, `Morphs`, `InstancedModels`, `Terrains`, `Layouts`, `Texturable`, `TextureRegistry`, `Resources`).
  - Sky textures and the commands the skybox adds.
  - Submesh texture slots, function constants and argument buffers.
  - The morph node's combined vertex buffer and instance records.
  - The instanced model's instance buffer and draws.
  - The terrain's control-point grid, tessellation-factor buffer and compute dispatch.
  - The vertex layouts.
  - The texture lookup and fallback policy of both engines.
  - The shared texture list, and the resource tree of the macOS test target.

Methods that change state (node linking, scene lists, buffer updates, the renderers) are written as classes and methods whose `ensures` give the whole new state. Pure calculations are functions with lemmas. Loops in the Swift source are loops with invariants here.

The texture lookup `recursivePathsForResource(name:extensionName:in:)` is defined in Stellar/Source/Math_&_Utility/Utilities.swift, lines 12-23; Types.swift in the same directory holds an identical copy. `Texturable.FullFileName` models lines 14-15, `Texturable.LastComponent` (with `Texturable.LastIndexOf`) models the `lastPathComponent` test on line 18, and `Texturable.FirstMatch` and `Texturable.RecursivePathSpec` model the loop on lines 17-22. The table rows for these members cite the call site of the lookup in `loadTexture`.

## Model

| member | source | states |
|---|---|---|
| SceneGraph.Node.constructor | Stellar/Source/Nodes/Node.swift:16-57 | a new node is unnamed-by-default, at the origin, unrotated, at unit scale, with no children and no parent |
| SceneGraph.Node.SetRotation | Stellar/Source/Nodes/Node.swift:26-31 | assigning a rotation also replaces the quaternion by the one of that Euler rotation, and touches nothing else |
| SceneGraph.Node.ModelMatrix | Stellar/Source/Nodes/Node.swift:39-44 | the model matrix is the product translation, then quaternion rotation, then scaling, in that order |
| SceneGraph.Node.Add | Stellar/Source/Nodes/Node.swift:59-62 | the child goes last after the unchanged earlier children, its parent becomes the receiver, and no pose changes |
| SceneGraph.Node.Remove | Stellar/Source/Nodes/Node.swift:64-75 | the argument's children are re-parented and appended in order, the argument is left childless, its first occurrence is deleted and its parent cleared only when it was found; removing a node from itself leaves it childless |
| SceneGraph.WorldTransformIsRootToNodeProduct | Stellar/Source/Nodes/Node.swift:46-51 | the recursive world transform equals the product of the model matrices from the root down to the node |
| SceneGraph.ParentlessIsLast | ObsidianEngine/ObsidianEngine/Nodes/Node.swift:46-51 | the recursion stops exactly at the node without a parent, the end of the ancestor chain |
| SceneGraph.AncestryUnique | ObsidianEngine/ObsidianEngine/Nodes/Node.swift:46-51 | a node has a single ancestor chain, so its world transform is well defined |
| Scenes.AddKeepsRenderables | Stellar/Source/Nodes/Scene/Scene.swift:70-81 | adding keeps every renderables entry renderable; the list grows by one, and contains the node, exactly when render is set and the node is renderable |
| Scenes.RemoveKeepsRenderables | Stellar/Source/Nodes/Scene/Scene.swift:92-96 | removing keeps every entry renderable and takes away exactly one copy of a renderable node, if it was listed |
| Scenes.RemoveUndoesAdd | Stellar/Source/Nodes/Scene/Scene.swift:70-96 | removing a node that was not listed undoes adding it |
| Scenes.Water.constructor | Stellar/Source/Environment/STLRWater.swift:1-95 | a water is a fresh childless node named "Water" with a valid "reflection" render pass at the drawable size |
| Scenes.Scene.constructor | Stellar/Source/Nodes/Scene/Scene.swift:13-54 | the arcball camera at distance 10 is the only child of the root node and is not renderable; lists are empty, the sun is the initial sun, uniforms are zeroed |
| Scenes.Scene.AddNode | Stellar/Source/Nodes/Scene/Scene.swift:70-81 | the node becomes the last child of the parent, or of the root node without one, the root node's children are untouched when another parent is given, and renderables becomes the list with the node appended exactly when it is renderable and render is set |
| Scenes.Scene.AddTerrain | Stellar/Source/Nodes/Scene/Scene.swift:60-63 | the terrain is appended to terrains, hung last under the root node and appended to renderables |
| Scenes.Scene.AddWater | Stellar/Source/Nodes/Scene/Scene.swift:65-68 | the water is appended to waters and hung last under the root node; renderables is unchanged because a water is not renderable |
| Scenes.Scene.RemoveNode | Stellar/Source/Nodes/Scene/Scene.swift:83-97 | a parented node is removed through its parent; the parent's children become its old children plus the node's children with the node's first occurrence removed, the node's children are re-parented to that parent and the node itself is detached; an orphan loses its children, whose parents are cleared; then a renderable node's first entry in renderables is deleted |
| Scenes.Scene.SceneSizeWillChange | Stellar/Source/Nodes/Scene/Scene.swift:110-112 | the camera's aspect becomes the drawable's width over height; its pose and distance are unchanged |
| Scenes.Scene.Update | Stellar/Source/Nodes/Scene/Scene.swift:114-124 | the uniforms get the camera's projection and view, and the trace gets every terrain's tessellation pass, in list order, against that view |
| Scenes.CameraNeverRenderable | Stellar/Source/Nodes/Scene/Scene.swift:49-54 | the camera, added with render false, is never in renderables |
| ObsidianScenes.ObsidianScene.constructor | ObsidianEngine/ObsidianEngine/Nodes/Scene/Scene.swift:13-48 | the camera's current position is set to its position, the origin; everything else starts empty or zeroed |
| ObsidianScenes.ObsidianScene.AddTerrain | ObsidianEngine/ObsidianEngine/Nodes/Scene/Scene.swift:83-86 | the terrain is appended to terrains and becomes the scene node's last child |
| ObsidianScenes.ObsidianScene.AddWater | ObsidianEngine/ObsidianEngine/Nodes/Scene/Scene.swift:88-91 | the water is appended to waters and becomes the scene node's last child |
| ObsidianScenes.ObsidianScene.Update | ObsidianEngine/ObsidianEngine/Nodes/Scene/Scene.swift:61-71 | the uniforms get the projection and view of the camera node's pose, and the trace gets every terrain's tessellation pass in list order |
| Resources.ResourceTree.constructor | StellarEngine/StellarEngineMacOS/ResourceTree.swift:16-19 | a new tree has the given name and kind and no children |
| Resources.ResourceTree.Add | StellarEngine/StellarEngineMacOS/ResourceTree.swift:21-23 | the child is appended after the existing children, whatever isDirectory says |
| Resources.PrintTreeBoundIrrelevant | StellarEngine/StellarEngineMacOS/ResourceTree.swift:25-31 | the post-order listing of a finite tree does not depend on the depth bound used to define it |
| Resources.PrintChildrenBoundIrrelevant | StellarEngine/StellarEngineMacOS/ResourceTree.swift:26-28 | the same for the listing of a sequence of subtrees |
| Resources.PrintTreeEndsAtRoot | StellarEngine/StellarEngineMacOS/ResourceTree.swift:25-31 | the listing prints one name per node and ends with the tree's own name, after every name below it |
| Resources.PrintChildrenSize | StellarEngine/StellarEngineMacOS/ResourceTree.swift:26-28 | the children's listing has one name per node of the subtrees |
| Resources.TestTree | StellarEngine/StellarEngineMacOSTests/StellarEngineMacOSTests.swift:1-48 | the unit test's tree has children dir_1 and dir_2, file_1 under dir_1, and lists file_1, dir_1, dir_2, root |
| TextureRegistry.AddStep | Stellar/Source/Graphics/Texture/TextureController.swift:15-19 | a nil texture leaves the list and gets no index; any other is appended and gets the index under which the list now holds it |
| TextureRegistry.AddAllIndices | Stellar/Source/Graphics/Texture/TextureController.swift:12-19 | over a series of adds the list only grows, earlier entries never change, exactly the non-nil textures get indices, each index holds its texture, and indices strictly increase |
| TextureRegistry.TextureController.constructor | Stellar/Source/Graphics/Texture/TextureController.swift:13 | the registry starts empty |
| TextureRegistry.TextureController.AddTexture | Stellar/Source/Graphics/Texture/TextureController.swift:15-19 | one call updates the list and returns the index as AddStep says, keeping earlier entries |
| TextureRegistry.TextureController.AddTextures | Stellar/Source/Graphics/Texture/TextureController.swift:15-19 | a loop of calls ends in the list and indices AddAll computes, so AddAllIndices applies |
| Lights.BuildDefaultLight | Stellar/Source/Nodes/Scene/Scene.swift:99-108 | the default light is a white sun at the origin at full intensity with attenuation (1, 0, 0) and no cone |
| Lights.AmbientLightFromDefault | Stellar/Source/Nodes/Scene/Scene.swift:40-47 | the ambient light keeps the default light's position, attenuation and cone, and is greyed to 0.7 at intensity 0.5 of the ambient type (raw value 4) |
| Lights.SunDiffersFromDefault | Stellar/Source/Nodes/Scene/Scene.swift:20-28 | the initial sun is a sun like the default light but dimmer, away from the origin and with zero attenuation |
| RenderPasses.Scaled | Stellar/Source/Graphics/Render/GBufferRenderPass.swift:27-34 | a scaled size is the product truncated toward zero: never above it and less than one below it |
| RenderPasses.ScaledByHalf | Stellar/Source/Environment/STLRWater.swift:23 | scaling by 0.5 truncates exactly as halving does, so the water's reflection pass has the size of a plain render pass |
| RenderPasses.TargetDescriptor | Stellar/Source/Graphics/Render/RenderPass.swift:73-88 | a render target is half the drawable size, 2D multisample with four samples, not mipmapped, private, a render target read by shaders |
| RenderPasses.ResolveDescriptor | Stellar/Source/Graphics/Render/RenderPass.swift:59-71 | a resolve texture is half the drawable size, plain 2D with one sample and mipmaps, private, with the default usage |
| RenderPasses.ResolveMatchesTarget | Stellar/Source/Graphics/Render/RenderPass.swift:59-88 | a resolve texture has the format, width and height of the target it resolves and fewer samples |
| RenderPasses.BuildTexture | Stellar/Source/Graphics/Render/RenderPass.swift:73-88 | a fresh texture with the target description and the given label |
| RenderPasses.BuildResolveTexture | Stellar/Source/Graphics/Render/RenderPass.swift:59-71 | a fresh unlabelled texture with the resolve description |
| RenderPasses.SetupRenderPassDescriptor | Stellar/Source/Graphics/Render/RenderPass.swift:50-57 | a fresh descriptor whose colour attachments 0 to 2 render into and resolve into the given textures index by index, the others default, with the depth pair wired the same way |
| RenderPasses.BuildPassTargets | Stellar/Source/Graphics/Render/RenderPass.swift:22-32 | eight fresh textures of the pass's formats, the targets labelled with the pass name, and a descriptor wired to exactly them |
| RenderPasses.RenderPass.constructor | Stellar/Source/Graphics/Render/RenderPass.swift:20-33 | the pass is valid (arrays list the targets in order, descriptor wired to them) and sized to the drawable, every texture and the descriptor new |
| RenderPasses.RenderPass.UpdateTextures | Stellar/Source/Graphics/Render/RenderPass.swift:35-48 | after a resize the pass is valid and sized to the new size, and every texture and the descriptor are new |
| RenderPasses.RenderPass.Install | Stellar/Source/Graphics/Render/RenderPass.swift:36-47 | the fields and arrays hold exactly the given textures and descriptor |
| RenderPasses.GBufferDescriptor | Stellar/Source/Graphics/Render/GBufferRenderPass.swift:27-34 | a G-buffer texture has the scaled size, four samples and multisample type when sampled, one sample and plain 2D otherwise, private, render target read by shaders |
| RenderPasses.BuildGBufferTexture | Stellar/Source/Graphics/Render/GBufferRenderPass.swift:27-34 | a fresh texture with that description and label |
| RenderPasses.GBufferRenderPass.constructor | Stellar/Source/Graphics/Render/GBufferRenderPass.swift:20-24 | construction ends with the G-buffer textures built: valid, sized to the drawable, every texture new |
| RenderPasses.GBufferRenderPass.UpdateTextures | Stellar/Source/Graphics/Render/GBufferRenderPass.swift:26-39 | four new sampled targets, four new resolve textures with the " ... Texture - Resolved" labels, and a new descriptor wired to them |
| RenderPasses.GBufferRenderPass.Install | Stellar/Source/Graphics/Render/GBufferRenderPass.swift:35-38 | the fields and arrays hold exactly the given textures and descriptor |
| RenderPasses.BuildGBufferTargets | Stellar/Source/Graphics/Render/GBufferRenderPass.swift:27-38 | the eight textures of the overriding updateTextures, each with its format, sampling and label, and a descriptor wired to them |
| PassDescriptors.DefaultColorAttachments | Stellar/Source/Graphics/Render/RenderPass.swift:51 | a new descriptor has eight colour attachments, all default |
| PassDescriptors.StoringColorAttachment | Stellar/Source/Graphics/Render/Renderer.swift:290-295 | the attachment renders into the texture, is cleared to (0.66, 0.9, 0.96, 1) and stored, and keeps its resolve texture |
| PassDescriptors.StoringDepthAttachment | Stellar/Source/Graphics/Render/Renderer.swift:283-288 | the depth attachment renders into the texture, is cleared to 1 and stored, and keeps its resolve texture |
| PassDescriptors.PassDescriptor.constructor | Stellar/Source/Graphics/Render/RenderPass.swift:51 | eight default colour attachments and the default depth attachment |
| PassDescriptors.PassDescriptor.SetUpResolvingColorAttachment | Stellar/Source/Graphics/Render/RenderPass.swift:100-106 | only the attachment at the position changes: cleared, multisample-resolved into the resolve texture, sky-blue clear colour |
| PassDescriptors.PassDescriptor.SetUpResolvingDepthAttachment | Stellar/Source/Graphics/Render/RenderPass.swift:92-98 | only the depth attachment changes: cleared to 1, multisample-resolved into the resolve texture |
| PassDescriptors.PassDescriptor.SetUpColorAttachment | Stellar/Source/Graphics/Render/Renderer.swift:290-295 | only the attachment at the position changes, to the storing attachment of the texture |
| PassDescriptors.PassDescriptor.SetUpDepthAttachment | Stellar/Source/Graphics/Render/Renderer.swift:283-288 | only the depth attachment changes, to the storing attachment of the texture |
| Cameras.Camera.constructor | Stellar/Source/Nodes/Scene/Camera.swift:11-75 | a camera is a fresh childless camera node at the origin with the given name, the default transform, distance 0, aspect 1 and no current position |
| FramePasses.RendererTextureDescriptor | Stellar/Source/Graphics/Render/Renderer.swift:119-128 | a renderer target is the full drawable size, 2D, one sample, no mipmaps, private, read by shaders and rendered into |
| FramePasses.BuildTexture | Stellar/Source/Graphics/Render/Renderer.swift:119-128 | a fresh texture with that description, labelled "<label> texture" |
| FramePasses.WireColorTargets | Stellar/Source/Graphics/Render/Renderer.swift:158-161 | attachment i becomes the storing attachment of target i for every target, in order, and every later attachment is unchanged |
| FramePasses.SetUpGBufferAttachments | Stellar/Source/Graphics/Render/Renderer.swift:148-164 | four fresh full-size textures (albedo bgra8, normal and position rgba16F, depth depth32F) wired to colour attachments 0 to 2 and the depth attachment, nothing else changed |
| FramePasses.ShadowUniforms | Stellar/Source/Graphics/Render/Renderer.swift:197-202 | the shadow pass projects orthographically, looks at the origin from the opposite of the sun pushed back by 7 along z, and its shadow matrix is projection times view; no other uniform changes |
| FramePasses.SubmeshBindings | Stellar/Source/Graphics/Render/Renderer.swift:410-415 | a submesh binds six things (five textures and the material) that open, draw and submit nothing |
| FramePasses.SubmeshEvents | Stellar/Source/Graphics/Render/Renderer.swift:407-421 | one submesh is its six bindings and one draw |
| FramePasses.SubmeshesEvents | Stellar/Source/Graphics/Render/Renderer.swift:407-421 | the submesh loop emits seven calls per submesh |
| FramePasses.DrawModel | Stellar/Source/Graphics/Render/Renderer.swift:397-422 | drawing a model leaves the scene's uniforms holding the model's world transform and normal matrix, and records the model's calls |
| FramePasses.UniformsAfterModels | Stellar/Source/Graphics/Render/Renderer.swift:205-209 | a pass loop changes only the model and normal matrices of the scene's uniforms |
| FramePasses.ModelUniformsForget | Stellar/Source/Graphics/Render/Renderer.swift:400-401 | a model binds the same uniforms whatever model was drawn before it |
| FramePasses.DrawModels | Stellar/Source/Graphics/Render/Renderer.swift:205-209 | the pass loop records every model among the nodes, in order, skipping the rest, and returns the uniforms UniformsAfterModels gives |
| FramePasses.SubmeshesProjections | Stellar/Source/Graphics/Render/Renderer.swift:407-421 | the submesh loop opens no encoder, binds no vertex buffer, submits nothing and draws submeshes 0 to n-1 once each, in order |
| FramePasses.ModelProjections | Stellar/Source/Graphics/Render/Renderer.swift:397-422 | drawing a model binds its vertex buffer once and draws each of its submeshes once; a model without submeshes draws nothing after its bindings |
| FramePasses.PreambleProjections | Stellar/Source/Graphics/Render/Renderer.swift:400-404 | the uniforms, vertex buffer and sampler binding binds the model's vertex buffer and nothing else that is projected |
| FramePasses.ModelsPassProjections | Stellar/Source/Graphics/Render/Renderer.swift:205-209 | a pass loop opens and submits nothing, draws exactly the models among the nodes in their order, and issues exactly their submesh draws |
| FramePasses.NodeProjections | Stellar/Source/Graphics/Render/Renderer.swift:206-208 | one loop step draws the node when it is a model and records nothing otherwise |
| FramePasses.SubmeshEventsAt | Stellar/Source/Graphics/Render/Renderer.swift:407-421 | submesh j's bindings and draw sit at positions 7j to 7j+6 of the loop's calls |
| StellarFrames.QuadVertexCount | Stellar/Source/Graphics/Render/Renderer.swift:47-54 | the quad's floats pair up into a whole number of vertices that form whole triangles (six) |
| StellarFrames.CompositionDrawsPastTheQuad | Stellar/Source/Graphics/Render/Renderer.swift:257 | the vertex count passed as written is twice the quad's vertex count, so the draw reads past the buffer |
| StellarFrames.ReflectionIsInvolution | Stellar/Source/Graphics/Render/Renderer.swift:335-337 | mirroring in the water plane twice gives the pose back and moves only the height and the pitch |
| StellarFrames.ReflectedCameraIdempotent | Stellar/Source/Graphics/Render/Renderer.swift:335-345 | a second reflection pass sets the reflection camera to what the first one did, and keeps its aspect and kind |
| StellarFrames.CompositionBindings | Stellar/Source/Graphics/Render/Renderer.swift:242-256 | what the composition pass binds before its draw opens, draws and submits nothing |
| StellarFrames.ShadowStepProjections | Stellar/Source/Graphics/Render/Renderer.swift:189-212 | the shadow pass opens one shadow encoder and draws every model among the renderables once, in order |
| StellarFrames.GBufferProjections | Stellar/Source/Graphics/Render/Renderer.swift:214-236 | the G-buffer body opens nothing and draws every model once |
| StellarFrames.ReflectionStepProjections | Stellar/Source/Graphics/Render/Renderer.swift:324-355 | reflection pass i opens one reflection encoder for water i and draws every model once |
| StellarFrames.ReflectionsProjections | Stellar/Source/Graphics/Render/Renderer.swift:324-355 | the first n reflection passes open encoders for waters 0 to n-1 in order and draw the models n times over |
| StellarFrames.WatersProjections | Stellar/Source/Graphics/Render/Renderer.swift:371-374 | the waters' updates and renders open, draw and submit nothing the projections see |
| StellarFrames.GBufferStepProjections | Stellar/Source/Graphics/Render/Renderer.swift:366-381 | the G-buffer pass opens one G-buffer encoder and draws every model once |
| StellarFrames.CompositionEventsProjections | Stellar/Source/Graphics/Render/Renderer.swift:238-261 | the composition pass opens its encoder, draws no model and draws the quad once |
| StellarFrames.CompositionStepProjections | Stellar/Source/Graphics/Render/Renderer.swift:384-385 | the composition step adds one composition encoder and nothing else |
| StellarFrames.ReflectionsAfterShadow | Stellar/Source/Graphics/Render/Renderer.swift:321-355 | the shadow pass and k reflections are the first k+1 passes of the pass order, each drawing every model |
| StellarFrames.GBufferAfterReflections | Stellar/Source/Graphics/Render/Renderer.swift:321-381 | after every reflection the G-buffer pass completes the first n+2 passes, each drawing every model |
| StellarFrames.CompletedProjections | Stellar/Source/Graphics/Render/Renderer.swift:384-393 | the composition pass adds its encoder, and present and commit follow exactly when there is a drawable |
| StellarFrames.CompositionAfterGBuffer | Stellar/Source/Graphics/Render/Renderer.swift:384-393 | after the G-buffer pass the composition pass completes the pass order, submitting only with a drawable |
| StellarFrames.FrameDuringReflections | Stellar/Source/Graphics/Render/Renderer.swift:324-326 | a frame whose reflection encoder k cannot be made stops after k passes and submits nothing |
| StellarFrames.FrameWithoutGBuffer | Stellar/Source/Graphics/Render/Renderer.swift:366 | a frame whose G-buffer encoder cannot be made stops after the reflections and submits nothing |
| StellarFrames.FrameWithoutComposition | Stellar/Source/Graphics/Render/Renderer.swift:384 | a frame whose composition encoder cannot be made stops after the G-buffer pass and submits nothing |
| StellarFrames.FrameComplete | Stellar/Source/Graphics/Render/Renderer.swift:309-395 | when every encoder is made the frame encodes the whole pass order, draws the models n+2 times, and presents and commits exactly when there is a drawable |
| StellarFrames.FrameEncoders | Stellar/Source/Graphics/Render/Renderer.swift:309-395 | encoders are made in the order shadow, one reflection per water in waters order, G-buffer, composition, stopping at the first that cannot be made |
| StellarFrames.FrameModelsDrawn | Stellar/Source/Graphics/Render/Renderer.swift:309-395 | every pass but composition draws every model among the renderables once, in order |
| StellarFrames.FrameSubmitted | Stellar/Source/Graphics/Render/Renderer.swift:387-393 | the command buffer is presented and committed only when every encoder was made and there is a drawable |
| StellarRenderers.StellarRenderer.constructor | Stellar/Source/Graphics/Render/Renderer.swift:69-110 | the shadow texture and descriptor and the G-buffer textures and descriptor are built at the drawable size, valid and fresh, with no scene |
| StellarRenderers.StellarRenderer.SetScene | Stellar/Source/Graphics/Render/Renderer.swift:67 | setting the scene keeps the renderer valid |
| StellarRenderers.StellarRenderer.EncodeShadowPass | Stellar/Source/Graphics/Render/Renderer.swift:189-212 | the shadow encoder performs ShadowStep on the scene's uniforms and the trace |
| StellarRenderers.StellarRenderer.RenderGBufferPass | Stellar/Source/Graphics/Render/Renderer.swift:214-236 | the pass records the G-buffer body and leaves the uniforms as the model loop does, without ending the encoder |
| StellarRenderers.StellarRenderer.UpdateSky | Stellar/Source/Graphics/Render/Renderer.swift:348 | the optional skybox records its update, or nothing without a skybox |
| StellarRenderers.StellarRenderer.RenderSky | Stellar/Source/Graphics/Render/Renderer.swift:351 | the optional skybox records its render with the scene's uniforms, or nothing |
| StellarRenderers.StellarRenderer.SetReflectionUniforms | Stellar/Source/Graphics/Render/Renderer.swift:328-346 | the uniforms and fragment uniforms become the reflection pass's, the reflection camera is mirrored from the main camera, and what the frame reads is unchanged |
| StellarRenderers.StellarRenderer.EncodeReflectionBody | Stellar/Source/Graphics/Render/Renderer.swift:334-351 | the reflection encoder records the depth state, the sky, the G-buffer body and the sky render |
| StellarRenderers.StellarRenderer.EncodeReflectionPass | Stellar/Source/Graphics/Render/Renderer.swift:325-354 | one reflection-loop iteration performs ReflectionStep for water i |
| StellarRenderers.StellarRenderer.RenderWaters | Stellar/Source/Graphics/Render/Renderer.swift:371-374 | every water, in order, updates and renders with the scene's uniforms |
| StellarRenderers.StellarRenderer.EncodeGBufferPass | Stellar/Source/Graphics/Render/Renderer.swift:366-381 | the G-buffer encoder performs GBufferStep |
| StellarRenderers.StellarRenderer.EncodeCompositionPass | Stellar/Source/Graphics/Render/Renderer.swift:384-385 | the composition encoder performs CompositionStep |
| StellarRenderers.StellarRenderer.SetMainPassUniforms | Stellar/Source/Graphics/Render/Renderer.swift:357-363 | the uniforms become the main pass's: camera view, projection and position, clip plane (0, -1, 0, 1000), camera position and light count |
| StellarRenderers.StellarRenderer.EncodeReflections | Stellar/Source/Graphics/Render/Renderer.swift:324-355 | the loop encodes one reflection per water until an encoder cannot be made, reports whether all were made, and mirrors the reflection camera exactly when one was |
| StellarRenderers.StellarRenderer.EncodeMainPasses | Stellar/Source/Graphics/Render/Renderer.swift:357-393 | the rest of the frame is MainPasses: uniforms, G-buffer, composition, then present and commit with a drawable |
| StellarRenderers.StellarRenderer.EncodeFrame | Stellar/Source/Graphics/Render/Renderer.swift:320-393 | the frame is FrameAfterCommandBuffer of what draw(in:) found, so FrameEncoders, FrameModelsDrawn and FrameSubmitted apply to it |
| StellarRenderers.StellarRenderer.BuildShadowTexture | Stellar/Source/Graphics/Render/Renderer.swift:130-133 | a new full-size depth texture becomes the shadow descriptor's stored depth attachment; colour attachments unchanged |
| StellarRenderers.StellarRenderer.BuildGBufferRenderPassDescriptor | Stellar/Source/Graphics/Render/Renderer.swift:155-164 | a new descriptor whose colour attachments 0 to 2 and depth attachment are four new full-size textures, the rest default |
| StellarRenderers.StellarRenderer.Resize | Stellar/Source/Graphics/Render/Renderer.swift:299-307 | without a scene nothing changes; with one the camera takes the new aspect, every target is rebuilt at the new size, and so is every water's reflection pass |
| StellarRenderers.StellarRenderer.DrawIn | Stellar/Source/Graphics/Render/Renderer.swift:309-395 | without a descriptor nothing is recorded; without a scene only the command buffer is made; otherwise the frame is FrameAfterCommandBuffer of the inputs as the call found them, and the reflection camera is mirrored exactly when a reflection pass was encoded; the camera, root node, lights, skybox, terrains, waters, renderables and sun stay unchanged |
| StellarRenderers.UpdateWaterPasses | Stellar/Source/Graphics/Render/Renderer.swift:304-306 | every water's reflection pass ends valid and sized to the new size |
| StellarFrames.ShadowBodyProjections | Stellar/Source/Graphics/Render/Renderer.swift:189-212 | the shadow pass's body draws every renderable once, in order, and opens and submits nothing |
| StellarFrames.SkyProjections | Stellar/Source/Graphics/Render/Renderer.swift:348-351 | the sky's texture update and draw open no encoder, draw no model and submit nothing, with or without a skybox |
| StellarFrames.ReflectionBodyProjections | Stellar/Source/Graphics/Render/Renderer.swift:334-351 | a reflection pass's body draws every renderable once, in order, and opens and submits nothing |
| StellarFrames.MainGBufferBodyProjections | Stellar/Source/Graphics/Render/Renderer.swift:368-374 | the G-buffer pass's body draws every renderable once, in order, and opens and submits nothing |
| StellarFrames.ReflectionStepAfter | Stellar/Source/Graphics/Render/Renderer.swift:324-355 | one more reflection pass adds its own encoder and one more drawing of every renderable to what the passes before it did |
| StellarFrames.ReflectionPasses | Stellar/Source/Graphics/Render/Renderer.swift:324-355 | there is one reflection pass per water, numbered in list order |
| StellarFrames.PassOrderPrefixes | Stellar/Source/Graphics/Render/Renderer.swift:320-385 | the passes of a frame cut short at a reflection, at the G-buffer pass or at composition are prefixes of the full order shadow, reflections, G-buffer, composition |
| FramePasses.EncoderPassProjections | Stellar/Source/Graphics/Render/Renderer.swift:366-381 | a pass whose body opens and submits nothing opens exactly its own encoder and draws what its body draws |
| ObsidianFrames.EncodersMade | ObsidianEngine/ObsidianEngine/Graphics/Render/Renderer.swift:294-303 | the render encoders made are the budget, capped at the two the frame asks for |
| ObsidianFrames.UpdateStepProjections | ObsidianEngine/ObsidianEngine/Nodes/Scene/Scene.swift:61-71 | the scene update opens one tessellation encoder per terrain, draws no model, submits nothing |
| ObsidianFrames.ShadowBodyProjections | ObsidianEngine/ObsidianEngine/Graphics/Render/Renderer.swift:138-153 | the shadow body opens nothing and draws every model among the scene's children once, in order |
| ObsidianFrames.ShadowStepProjections | ObsidianEngine/ObsidianEngine/Graphics/Render/Renderer.swift:133-156 | the shadow pass opens one shadow encoder and draws every model once |
| ObsidianFrames.GBufferBodyProjections | ObsidianEngine/ObsidianEngine/Graphics/Render/Renderer.swift:194-215 | the G-buffer body opens nothing and draws every model once |
| ObsidianFrames.SkyProjections | ObsidianEngine/ObsidianEngine/Graphics/Render/Renderer.swift:309-310 | the optional skybox's update and render open, draw and submit nothing |
| ObsidianFrames.MainBodyProjections | ObsidianEngine/ObsidianEngine/Graphics/Render/Renderer.swift:306-310 | the main encoder's body draws every model once and opens nothing |
| ObsidianFrames.MainStepProjections | ObsidianEngine/ObsidianEngine/Graphics/Render/Renderer.swift:303-326 | the main pass opens one main encoder and draws every model once |
| ObsidianFrames.SubmissionProjections | ObsidianEngine/ObsidianEngine/Graphics/Render/Renderer.swift:328-334 | present and commit are recorded exactly when there is a drawable, and nothing else is projected |
| ObsidianFrames.PreparedProjections | ObsidianEngine/ObsidianEngine/Graphics/Render/Renderer.swift:291-301 | after the update, the shadow pass and the uniforms, the encoders are the tessellations and the shadow pass, the models drawn once, nothing submitted |
| ObsidianFrames.CompleteFrameEvents | ObsidianEngine/ObsidianEngine/Graphics/Render/Renderer.swift:303-334 | a frame with both render encoders is the main step after the prepared state, followed by the submission |
| ObsidianFrames.CompleteEncoders | ObsidianEngine/ObsidianEngine/Graphics/Render/Renderer.swift:294-326 | a complete frame opens the tessellation encoders, then shadow, then main |
| ObsidianFrames.CompleteModelsDrawn | ObsidianEngine/ObsidianEngine/Graphics/Render/Renderer.swift:294-326 | a complete frame draws every model twice, once per render pass |
| ObsidianFrames.CompleteSubmitted | ObsidianEngine/ObsidianEngine/Graphics/Render/Renderer.swift:328-334 | a complete frame submits present and commit exactly when there is a drawable |
| ObsidianFrames.FrameEncoders | ObsidianEngine/ObsidianEngine/Graphics/Render/Renderer.swift:280-336 | the encoders are the terrains' tessellation passes, then shadow and main in that order, stopping at the first render encoder that cannot be made |
| ObsidianFrames.FrameNeverComposes | ObsidianEngine/ObsidianEngine/Graphics/Render/Renderer.swift:312-313 | no frame makes a composition encoder |
| ObsidianFrames.ModelsDrawnWithoutShadow | ObsidianEngine/ObsidianEngine/Graphics/Render/Renderer.swift:294 | a frame without its shadow encoder draws no model |
| ObsidianFrames.ModelsDrawnWithoutMain | ObsidianEngine/ObsidianEngine/Graphics/Render/Renderer.swift:303 | a frame without its main encoder draws the models once, in the shadow pass |
| ObsidianFrames.FrameModelsDrawn | ObsidianEngine/ObsidianEngine/Graphics/Render/Renderer.swift:280-336 | every render pass made draws every model among the scene's children once, in order |
| ObsidianFrames.FrameSubmitted | ObsidianEngine/ObsidianEngine/Graphics/Render/Renderer.swift:326-334 | the command buffer is presented and committed only when both render encoders were made and there is a drawable |
| ObsidianFrames.FrameUniforms | ObsidianEngine/ObsidianEngine/Graphics/Render/Renderer.swift:291-302 | the view and projection end as the camera's; the fragment camera position is the current position (or the origin) after the shadow pass and the camera node's position after the G-buffer pass; the light count is the number of lights |
| ObsidianRenderers.ObsidianRenderer.constructor | ObsidianEngine/ObsidianEngine/Graphics/Render/Renderer.swift:65-95 | the view's descriptor is kept and gets the new full-size G-buffer textures on colour attachments 0 to 2 and depth; the shadow texture and descriptor are built; no scene |
| ObsidianRenderers.ObsidianRenderer.SetScene | ObsidianEngine/ObsidianEngine/Graphics/Render/Renderer.swift:63 | setting the scene keeps the renderer valid |
| ObsidianRenderers.ObsidianRenderer.UpdateScene | ObsidianEngine/ObsidianEngine/Graphics/Render/Renderer.swift:290-291 | the scene update performs UpdateStep |
| ObsidianRenderers.ObsidianRenderer.EncodeShadowPass | ObsidianEngine/ObsidianEngine/Graphics/Render/Renderer.swift:133-156 | the shadow encoder performs ShadowStep over the scene's children |
| ObsidianRenderers.ObsidianRenderer.SetMainPassUniforms | ObsidianEngine/ObsidianEngine/Graphics/Render/Renderer.swift:297-301 | the uniforms and fragment uniforms become those MainUniformsStep gives |
| ObsidianRenderers.ObsidianRenderer.RenderGBufferPass | ObsidianEngine/ObsidianEngine/Graphics/Render/Renderer.swift:194-215 | the camera node's position goes into the fragment uniforms before they are bound, the G-buffer body is recorded, and the encoder is left open |
| ObsidianRenderers.ObsidianRenderer.RenderSky | ObsidianEngine/ObsidianEngine/Graphics/Render/Renderer.swift:309-310 | the skybox's update and render, when there is a skybox |
| ObsidianRenderers.ObsidianRenderer.EncodeMainPass | ObsidianEngine/ObsidianEngine/Graphics/Render/Renderer.swift:303-326 | the main encoder performs MainStep |
| ObsidianRenderers.ObsidianRenderer.EncodeFrame | ObsidianEngine/ObsidianEngine/Graphics/Render/Renderer.swift:290-334 | the frame is FrameAfterCommandBuffer of what draw(in:) found, so FrameEncoders, FrameModelsDrawn, FrameSubmitted and FrameUniforms apply to it |
| ObsidianRenderers.ObsidianRenderer.BuildShadowTexture | ObsidianEngine/ObsidianEngine/Graphics/Render/Renderer.swift:115-118 | a new full-size depth texture becomes the shadow descriptor's stored depth attachment; colour attachments unchanged |
| ObsidianRenderers.ObsidianRenderer.BuildGBufferRenderPassDescriptor | ObsidianEngine/ObsidianEngine/Graphics/Render/Renderer.swift:158-173 | four new full-size textures wired into the given descriptor's colour attachments 0 to 2 and its depth attachment, the rest unchanged |
| ObsidianRenderers.ObsidianRenderer.Resize | ObsidianEngine/ObsidianEngine/Graphics/Render/Renderer.swift:274-278 | the shadow and G-buffer textures are rebuilt at the new size and rewired into the view's descriptor, whatever the scene |
| ObsidianRenderers.ObsidianRenderer.DrawIn | ObsidianEngine/ObsidianEngine/Graphics/Render/Renderer.swift:280-336 | a command buffer is always made; with a scene, colour attachment 0 renders into the drawable and clears to sky blue, and the frame is FrameAfterCommandBuffer of the inputs as the call found them; the camera, scene node, root node, lights, skybox flag, terrains, waters and sun stay unchanged |
| Skyboxes.SkySource | Stellar/Source/Environment/Skybox.swift:156-164 | the generated sky is a ModelIO sky cube carrying exactly the skybox's turbidity, sun elevation, upper-atmosphere scattering and ground albedo at the requested size |
| Skyboxes.SkyUniforms | Stellar/Source/Environment/Skybox.swift:137-140 | the sky is drawn with the camera's view matrix whose translation column is replaced by (0, 0, 0, 1); the rotation columns and every other uniform are kept |
| Skyboxes.SkyUniformsIdempotent | Stellar/Source/Environment/Skybox.swift:137-140 | clearing the view translation a second time changes nothing |
| Skyboxes.SkyIgnoresCameraTranslation | Stellar/Source/Environment/Skybox.swift:137-140 | two cameras that differ only in position see the same sky |
| Skyboxes.Skybox.constructor | Stellar/Source/Environment/Skybox.swift:45-98 | with a texture name the named cube map and the irradiance map are loaded; without one the sky is generated from the sunrise settings and is its own irradiance map (absent exactly when the loader fails); the argument buffer receives the maps and the BRDF table that exist |
| Skyboxes.Skybox.SetSkySettings | Stellar/Source/Environment/Skybox.swift:24-29 | assigning new settings regenerates the sky texture from exactly those settings, makes it the irradiance map too, and leaves the BRDF table and argument buffer alone |
| Skyboxes.Skybox.RenderEvents | Stellar/Source/Environment/Skybox.swift:125-154 | the sky pass is seven commands ending in one draw of the cube, with the translation-free uniforms and the sky texture at fragment index 20 |
| Skyboxes.Skybox.Render | Stellar/Source/Environment/Skybox.swift:125-154 | rendering appends exactly the sky pass's commands to the encoder |
| Skyboxes.Skybox.UpdateEvents | Stellar/Source/Environment/Skybox.swift:176-181 | the sky, irradiance and BRDF textures are bound at their own fragment indices, then the argument buffer is made resident |
| Skyboxes.Skybox.Update | Stellar/Source/Environment/Skybox.swift:176-181 | updating appends exactly those four commands to the encoder |
| Skyboxes.ArgumentEntries | Stellar/Source/Environment/Skybox.swift:87-97 | the argument buffer holds the sky at 0 and the irradiance map at 1 exactly when there is a sky texture, and the BRDF table at 2 exactly when there is one; nothing else |
| Skyboxes.UpdateBindsArgumentEntries | Stellar/Source/Environment/Skybox.swift:87-97 | for every argument entry k the skybox has, `update` binds that same texture at fragment index 20 + k (Skybox.swift:176-181), so the sky, irradiance and BRDF slots agree between the argument buffer and the direct bindings |
| Skyboxes.LoadGeneratedSkyboxTexture | Stellar/Source/Environment/Skybox.swift:156-174 | the generated texture is nil exactly when the loader fails on the sky cube of those settings, and otherwise is a new texture of that origin |
| Skyboxes.RenderDrawsCube | Stellar/Source/Environment/Skybox.swift:125-154 | the sky pass draws the cube once, opens no encoder, draws no model and submits nothing |
| Skyboxes.UpdateIsUnprojected | Stellar/Source/Environment/Skybox.swift:176-181 | binding the sky textures draws nothing, opens no encoder and submits nothing |
| Submeshes.TextureSource | Stellar/Source/Nodes/Model/Submesh.swift:133-139 | a material slot names a texture file exactly when its property exists, is a string with a value, and the assets bundle exists; the file is then looked up by that name in the bundle |
| Submeshes.PropertyTexture | Stellar/Source/Nodes/Model/Submesh.swift:133-143 | a slot's texture is nil exactly when its load is not attempted or throws, and otherwise comes from that slot's file |
| Submeshes.TexturesInit | Stellar/Source/Nodes/Model/Submesh.swift:144-148 | each slot holds the registry index of its texture, or nil when none loaded; slots are registered in the order base colour, normal, roughness, metallic, ambient occlusion, and the registry only grows |
| Submeshes.MakeFunctionConstants | Stellar/Source/Nodes/Model/Submesh.swift:90-105 | function constants 0 to 4 exist, and constant k is true exactly when slot k holds a texture |
| Submeshes.InitializeTextures | Stellar/Source/Nodes/Model/Submesh.swift:66-86 | argument entry k is set exactly when slot k holds a texture, and then holds the registry's texture at that slot's index |
| Submeshes.MaterialInit | Stellar/Source/Nodes/Model/Submesh.swift:152-176 | the material starts at zero and takes base colour, specular colour and shininess only from properties of the right type; roughness and metallic are read as floats but only from float3-typed properties; ambient occlusion stays zero |
| Submeshes.NewSubmesh | Stellar/Source/Nodes/Model/Submesh.swift:30-64 | a submesh's function constants and argument entries agree slot by slot with which textures loaded, and each entry is the registered texture that came from that slot's file |
| Morphs.CopyTargets | Stellar/Source/Nodes/Model/Morph.swift:73-84 | the constructor's loop issues one blit per morph target, in target order: target i is copied whole, from offset 0, to offset length·i of the combined buffer |
| Morphs.CopiesTile | ObsidianEngine/ObsidianEngine/Nodes/Model/Morph.swift:74-84 | when all targets have the first one's length, target i fills exactly bytes [length·i, length·(i+1)) of the combined buffer, the ranges are disjoint and in input order, and they stay within the buffer |
| Morphs.CopiesOverrunForUnequalTargets | Stellar/Source/Nodes/Model/Morph.swift:64-82 | the combined buffer is sized from the first target only, so a later, longer target is copied past its end |
| Morphs.SourceUpdateIndex | Stellar/Source/Nodes/Model/Morph.swift:149-158 | as written, `updateBuffer` proceeds exactly when both IDs are below their counts, and then writes record `instance` whatever its value |
| Morphs.SourceUpdateWritesOutOfRange | Stellar/Source/Nodes/Model/Morph.swift:149-158 | the written guard accepts instance 1 of a one-instance morph, a record past the end of the instance buffer, and accepts a negative ID |
| Morphs.UpdateCheck | ObsidianEngine/ObsidianEngine/Nodes/Model/Morph.swift:150-159 | the checked guard accepts exactly in-range instances and non-negative IDs below their counts; an ID at or above its count is refused as `IDTooHigh` exactly when the written guard refuses it; a negative ID (on which `UInt32(_)` traps) is refused as `NegativeID`, and an instance outside the buffer as `InstanceOutOfRange` |
| Morphs.UpdateCheckRefinesSource | ObsidianEngine/ObsidianEngine/Nodes/Model/Morph.swift:150-159 | every call the checked guard accepts is accepted by the written guard and writes the same record, which lies inside the buffer |
| Morphs.LoadBaseColorTexture | Stellar/Source/Nodes/Model/Morph.swift:98 | the base colour texture is a 2D array texture with one slice per texture name |
| Morphs.NewInstanceBuffer | ObsidianEngine/ObsidianEngine/Nodes/Model/Morph.swift:125-130 | a fresh instance buffer of one record per instance, in which only record 0 has been written, with the identity transform and IDs 0 |
| Morphs.Morph.constructor | Stellar/Source/Nodes/Model/Morph.swift:55-105 | counts come from the name lists; the combined buffer is the first target's length times the number of targets; the vertex count is that length over the stride 32; the copies follow the per-target plan; record 0 is the default transform with IDs 0 and no other record is written |
| Morphs.Morph.UpdateBuffer | Stellar/Source/Nodes/Model/Morph.swift:149-158 | a call with in-range IDs and instance rewrites all four fields of record `instance` from the transform and the IDs and leaves every other record alone; a refused call changes nothing |
| InstancedModels.BuildTransforms | ObsidianEngine/ObsidianEngine/Nodes/Model/Model.swift:99-101 | a model starts with one default transform per instance |
| InstancedModels.BuildInstanceBuffer | ObsidianEngine/ObsidianEngine/Nodes/Model/Model.swift:103-114 | the instance buffer holds, in order, one record per transform, each made from that transform's model and normal matrices |
| InstancedModels.CastSubmeshes | ObsidianEngine/ObsidianEngine/Nodes/Model/Model.swift:152-159 | the submesh list keeps only the ModelIO objects that are submeshes, in their original order, each remembering its position in the mesh's list and the shader names |
| InstancedModels.CastSubmeshesComplete | ObsidianEngine/ObsidianEngine/Nodes/Model/Model.swift:152-159 | no ModelIO submesh is dropped: every object that is a submesh appears in the list |
| InstancedModels.CastSubmeshesNone | ObsidianEngine/ObsidianEngine/Nodes/Model/Model.swift:152-159 | a list without submesh objects gives no submeshes |
| InstancedModels.LoadModel | ObsidianEngine/ObsidianEngine/Nodes/Model/Model.swift:124-163 | a missing asset is an error; a mesh that fails to build leaves the model with no mesh and no submeshes; otherwise the model keeps the mesh's vertex buffers and the cast submeshes, or an empty list when the mesh has none |
| InstancedModels.NewInstancedModel | ObsidianEngine/ObsidianEngine/Nodes/Model/Model.swift:73-85 | a model fails exactly when its asset is missing, and otherwise is named after the asset, has one default transform per instance, an instance buffer matching them, the loaded meshes and tiling 1 |
| InstancedModels.InstancedModel.constructor | ObsidianEngine/ObsidianEngine/Nodes/Model/Model.swift:73-85 | the model node is named after the asset, starts unattached with default transforms and a matching instance buffer, and keeps what was loaded |
| InstancedModels.InstancedModel.UpdateBuffer | ObsidianEngine/ObsidianEngine/Nodes/Model/Model.swift:116-122 | updating an instance replaces that transform and that buffer record only, and the buffer still matches the transforms |
| InstancedModels.InstancedModel.VertexBufferEvents | ObsidianEngine/ObsidianEngine/Nodes/Model/Model.swift:183-185 | every mesh vertex buffer is bound at its own index, in order |
| InstancedModels.InstancedModel.SubmeshBindings | ObsidianEngine/ObsidianEngine/Nodes/Model/Model.swift:188-196 | each submesh binds its pipeline, its five textures and its material, none of which opens an encoder, draws or submits |
| InstancedModels.InstancedModel.DoRender | ObsidianEngine/ObsidianEngine/Nodes/Model/Model.swift:169-205 | rendering appends exactly the model's commands: instance buffer, sampler, uniforms, vertex buffers, then for each submesh its bindings and one instanced draw |
| InstancedModels.SubmeshLoopDraws | ObsidianEngine/ObsidianEngine/Nodes/Model/Model.swift:187-204 | the submesh loop draws each submesh once, in order, with every instance, and opens no encoder |
| InstancedModels.DoRenderDrawsEverySubmesh | ObsidianEngine/ObsidianEngine/Nodes/Model/Model.swift:169-205 | rendering a model opens no encoder and draws exactly one instanced draw per submesh, in list order |
| InstancedModels.VertexBuffersUnprojectedDraws | ObsidianEngine/ObsidianEngine/Nodes/Model/Model.swift:183-185 | binding vertex buffers draws nothing and opens no encoder |
| Layouts.Offsets | Stellar/Source/Nodes/Model/Submesh.swift:181-207 | an offset accumulator that starts at 0 places each attribute at the sum of the steps before it |
| Layouts.AccumulatedIsNonOverlapping | Stellar/Source/Nodes/Model/Morph.swift:26-47 | any layout built by such an accumulator, stepping at least each attribute's size, has its attributes in increasing order with no overlap and all within the stride |
| Layouts.DefaultVertexDescriptor | Stellar/Source/Nodes/Model/Submesh.swift:178-210 | the Stellar submesh layout puts position at 0, normal at 16 and texture coordinate at 32 of buffer 0, with stride 40, and no attribute overlaps another |
| Layouts.MorphVertexDescriptor | ObsidianEngine/ObsidianEngine/Nodes/Model/Morph.swift:26-48 | the morph layout puts position at 0, normal at 12 and texture coordinate at 24 of buffer 0, with stride 32, and no attribute overlaps another |
| Layouts.ObsidianModelLayoutPacked | ObsidianEngine/ObsidianEngine/Nodes/Model/Model.swift:46-71 | the Obsidian model layout is tightly packed: each offset is the sum of the sizes of the attributes before it, the stride 60 is where the last ends, and none overlaps |
| Terrains.MaxTessellation | Stellar/Source/Terrain/Terrain.swift:13-19 | the maximum tessellation factor is 64 on macOS and 16 on other platforms |
| Terrains.TessellationFactorsBufferLength | Stellar/Source/Terrain/Terrain.swift:33-37 | the factor buffer holds six factors per patch (four edge, two inside) at two bytes each |
| Terrains.PartsFillUnit | Stellar/Source/Terrain/Terrain.swift:119-120 | in exact arithmetic, h patches of width 1/h exactly fill the unit interval |
| Terrains.PatchCorners | Stellar/Source/Terrain/Terrain.swift:125-134 | each patch contributes four corners |
| Terrains.UnitRow | Stellar/Source/Terrain/Terrain.swift:124-135 | a row of i patches contributes 4·i corners |
| Terrains.MapToMetal | Stellar/Source/Terrain/Terrain.swift:139-143 | the map to Metal coordinates is applied to every point, one for one and in order |
| Terrains.CreateControlPoints | Stellar/Source/Terrain/Terrain.swift:114-145 | the nested loops produce exactly the row-major corner list of the grid, each point then moved to Metal coordinates |
| Terrains.UnitGridLength | Stellar/Source/Terrain/Terrain.swift:122-136 | j rows of h patches give 4·h·j corners |
| Terrains.ControlPointCount | Stellar/Source/Terrain/Terrain.swift:114-145 | an h × v grid has exactly 4·h·v control points |
| Terrains.UnitRowAt | Stellar/Source/Terrain/Terrain.swift:124-135 | in a row, corner c of patch k is point 4·k + c |
| Terrains.GridIndexBounds | Stellar/Source/Terrain/Terrain.swift:122-136 | the index of corner c of patch k in row r lies within the rows built so far |
| Terrains.UnitGridAt | Stellar/Source/Terrain/Terrain.swift:122-136 | corner c of patch k in row r is point 4·(r·h + k) + c of the row-major list |
| Terrains.ControlPointAt | Stellar/Source/Terrain/Terrain.swift:122-143 | patches are laid out row-major: corner c of patch (i, j) is control point 4·(j·h + i) + c, in the order (left, top), (right, top), (right, bottom), (left, bottom) |
| Terrains.PartInUnit | Stellar/Source/Terrain/Terrain.swift:126-129 | in exact arithmetic, the i-th of h equal parts of the unit interval lies inside it |
| Terrains.PatchCornersInUnitSquare | Stellar/Source/Terrain/Terrain.swift:125-134 | in exact arithmetic, every corner of a patch of the grid lies in the unit square at height 0 |
| Terrains.UnitRowInUnitSquare | Stellar/Source/Terrain/Terrain.swift:124-135 | in exact arithmetic, every corner of a row lies in the unit square |
| Terrains.UnitGridInUnitSquare | Stellar/Source/Terrain/Terrain.swift:122-136 | in exact arithmetic, every corner of the grid lies in the unit square |
| Terrains.CentredInRange | Stellar/Source/Terrain/Terrain.swift:139-143 | scaling a unit coordinate by a size and centring it lands in [−size/2, size/2] |
| Terrains.ToMetalInTerrain | Stellar/Source/Terrain/Terrain.swift:139-143 | the map sends the unit square onto the terrain's rectangle at height 0 |
| Terrains.ControlPointsInTerrain | Stellar/Source/Terrain/Terrain.swift:131-143 | every control point has y = 0, and in exact arithmetic x in [−w/2, w/2] and z in [−h/2, h/2] |
| Terrains.SlopeDescriptor | Stellar/Source/Terrain/Terrain.swift:148-153 | the slope map is a 2D texture of the height map's pixel format and size, without mipmaps, that shaders read and write |
| Terrains.HeightToSlope | Stellar/Source/Terrain/Terrain.swift:147-165 | the slope map is a new texture with that descriptor |
| Terrains.LoadMap | Stellar/Source/Terrain/Terrain.swift:54-61 | each terrain map is a new texture loaded under its own name from the main bundle |
| Terrains.NewTerrain | Stellar/Source/Terrain/Terrain.swift:52-77 | a terrain whose four maps load is initialised with those maps, each taken from its own name |
| Terrains.Terrain.constructor | Stellar/Source/Terrain/Terrain.swift:22-77 | a new terrain is an unlinked node named "Terrain" with a 7 × 7 patch grid, its control points at the given size, factors of 4, tiling 32, the slope map of its height map and uniforms holding the size, the height scale and the platform's maximum tessellation |
| Terrains.InitializedGrid | Stellar/Source/Terrain/Terrain.swift:22-37 | a new terrain has 49 patches, 196 control points and a 588-byte factor buffer |
| Terrains.Terrain.DispatchWidth | Stellar/Source/Terrain/Terrain.swift:194 | the threadgroup width is the smaller of the patch count and the pipeline's thread execution width |
| Terrains.Terrain.KernelArguments | Stellar/Source/Terrain/Terrain.swift:171-192 | the kernel's pipeline and seven arguments are bound without opening an encoder, drawing or submitting |
| Terrains.Terrain.UpdateEvents | Stellar/Source/Terrain/Terrain.swift:167-199 | an update opens a compute encoder, binds the kernel's arguments, dispatches patchCount threadgroups of min(patchCount, threadExecutionWidth) threads, and ends the encoder |
| Terrains.Terrain.Update | Stellar/Source/Terrain/Terrain.swift:167-199 | an update appends exactly those commands |
| Terrains.UpdateOpensOneEncoder | Stellar/Source/Terrain/Terrain.swift:167-199 | an update opens one encoder, for the tessellation pass, and draws nothing |
| Terrains.UpdateAll | Stellar/Source/Nodes/Scene/Scene.swift:120-123 | the scene's terrain loop appends every terrain's tessellation commands, in list order |
| Terrains.UpdatesOfSnoc | Stellar/Source/Nodes/Scene/Scene.swift:120-123 | updating one more terrain appends exactly its commands |
| Terrains.UpdatesOfEncoders | Stellar/Source/Nodes/Scene/Scene.swift:120-123 | updating the terrains opens one tessellation encoder per terrain, in order, and draws and submits nothing |
| Texturable.PathExtension | Stellar/Source/Graphics/Render/Texturable.swift:21-23 | a path extension contains neither '/' nor '.' |
| Texturable.ExtensionOfAppended | Stellar/Source/Graphics/Render/Texturable.swift:21-23 | a name given "." and an extension has exactly that extension, so the file looked up carries the requested extension |
| Texturable.FullFileName | Stellar/Source/Graphics/Render/Texturable.swift:21-25 | the requested extension is appended, after a '.', only when the name has no extension of its own and the requested one is not empty |
| Texturable.FirstMatch | Stellar/Source/Graphics/Render/Texturable.swift:25 | the search stops at the first listed file whose last component is the file name, and finds nothing exactly when no listed file has that name |
| Texturable.RecursivePathSpec | Stellar/Source/Graphics/Render/Texturable.swift:25-30 | the recursive lookup is nil exactly when no listed file has the full file name, and otherwise is the directory joined with the first such file |
| Texturable.StellarRequestedExtension | Stellar/Source/Graphics/Render/Texturable.swift:21-23 | Stellar asks for "png" exactly when the image name has no extension, and for the empty extension otherwise |
| Texturable.ObsidianRequestedExtension | ObsidianEngine/ObsidianEngine/Graphics/Render/Texturable.swift:21-23 | Obsidian asks for "png" exactly when the image name has no extension, and for no extension otherwise |
| Texturable.RequestedFileName | ObsidianEngine/ObsidianEngine/Graphics/Render/Texturable.swift:21-25 | both engines look for the same file: the name plus ".png" when it has no extension, and the name itself otherwise |
| Texturable.StellarFallback | Stellar/Source/Graphics/Render/Texturable.swift:15-35 | Stellar falls back to the asset catalog (scale 1, the same bundle) exactly when no listed file has the requested name; otherwise it loads the first such file, origin bottom-left, SRGB off, mipmaps on |
| Texturable.ObsidianTextureSource | ObsidianEngine/ObsidianEngine/Graphics/Render/Texturable.swift:15-36 | Obsidian falls back to the asset catalog exactly when the bundle has no URL for the name, and otherwise loads that URL with the same options |
| Texturable.CubeTextureSource | Stellar/Source/Graphics/Render/Texturable.swift:37-49 | a cube map comes from ModelIO's cube images, origin top-left and no mipmaps, exactly when ModelIO finds the cube, and otherwise from the main bundle's asset catalog |
| Texturable.NewTexture | Stellar/Source/Graphics/Render/Texturable.swift:28-32 | a loader call throws exactly when the loader cannot decode the source, and otherwise yields a new texture of that source and descriptor |
| Texturable.StellarLoadTexture | Stellar/Source/Graphics/Render/Texturable.swift:15-35 | Stellar's load fails exactly when the source its lookup picks does not decode, and otherwise yields a new texture from that source |
| Texturable.ObsidianLoadTexture | ObsidianEngine/ObsidianEngine/Graphics/Render/Texturable.swift:15-36 | Obsidian's load fails exactly when the source its lookup picks does not decode, and otherwise yields a new texture from that source |
| Texturable.LoadCubeTexture | ObsidianEngine/ObsidianEngine/Graphics/Render/Texturable.swift:38-50 | a cube load fails exactly when its source does not decode, and otherwise yields a new texture from that source |
| Texturable.ArrayDescriptor | Stellar/Source/Graphics/Render/Texturable.swift:62-69 | there is no array texture for no slices; otherwise it is a 2D array with one slice per loaded texture in the first texture's format and size |
| Texturable.Descriptors | Stellar/Source/Graphics/Render/Texturable.swift:66-69 | the descriptors read are those of the loaded textures, in order |
| Texturable.LoadTextureArray | ObsidianEngine/ObsidianEngine/Graphics/Render/Texturable.swift:52-85 | the first name that fails to load stops the whole load; with no names there is no texture; otherwise every name is loaded in order, the array texture is new, and the blits copy texture i into slice i, then end and commit |

## Left out

- Shaders, the lighting and BRDF maths, and every floating-point calculation of the view and projection matrices: these are GPU numerics. The cameras' matrices are an `Optics` parameter, and node matrices are symbolic products. Three consequences follow. `CameraState` has no arcball `target`, which the scenes never set. `STLRArcballCamera` stores its `viewMatrix`, and which formula it holds depends on the setter that ran last: the `transform` observer of `Stellar/Source/Nodes/Scene/Camera.swift:28-33` or the arcball's `target`, `distance`, `zoom` and `rotate` at `Stellar/Source/Nodes/Scene/Camera.swift:59-97`. `Optics` computes the view from the current state, so the model does not capture this. `AspectRatio` keeps the drawable's (width, height) pair rather than the float ratio the camera stores.
- Real Metal, MetalKit, ModelIO and Metal Performance Shaders work, such as pipeline compilation, buffer contents, samplers, the Sobel filter and `MDLSkyCubeTexture`: these are foreign calls. A texture is a record of its descriptor and origin. A loader is a parameter that may fail, and an encoder call is an event in a trace.
- Pipeline states, depth-stencil states, debug groups and labels appear only as events or not at all; they carry no bookkeeping.
- The directory enumeration of `FileManager` and the answers of `Bundle`: these are I/O. A bundle is the list of files it enumerates and a function for `url(forResource:withExtension:)`.
- The GPU completion handler, the FPS counter and `deltaTime`: these are concurrency and clocks. The scene update does not depend on the frame time, `updateScene` is an empty hook, and the recursive `update(nodes:)` walk does nothing.
- View controllers, gestures, the demo scenes and their random placement: this is UI scaffolding outside the engine's core.
- The water nodes' own update and rendering (`STLRWater.update` and `render`): these are a float timer plus encoder bindings. The Stellar frame records each water's update and its render as one event each, and a water is modelled as its node and reflection pass.
- The Obsidian skybox: it is a ModelIO texture with no settings observer, so the Obsidian scene only records whether one is set.
- `printTree` writes names to standard output. The model gives the post-order list of the names it prints.
- The `doRender` of the morph node (`Stellar/Source/Nodes/Model/Morph.swift:165-199`) and of the terrain (`Stellar/Source/Terrain/Terrain.swift:205-233`) is not modelled. Neither is called by either frame: the renderers draw only models, and the terrain draw is commented out at `Stellar/Source/Graphics/Render/Renderer.swift:376-378`.
- Terrains.Terrain.Update: does not model the `fatalError` raised when no compute encoder can be made. The encoder budget of the frames counts render encoders only.
- ObsidianFrames.FrameUniforms: `lightCount` is `uint(lights.count)` in the source, and the model keeps the count as a natural number without 32-bit truncation. The same holds for the Stellar frame's uniforms. The model also ignores any other width limit of the uniform fields.
- The Obsidian composition pass: it is commented out in the Obsidian renderer (`ObsidianEngine/ObsidianEngine/Graphics/Render/Renderer.swift:312-313`), so the model never encodes it, and `FrameNeverComposes` states so.
- RenderPasses.RenderPass.constructor: two callers use a `RenderPass(name:size:multiplier:)` initialiser that the `RenderPass.swift` shown does not have: `Stellar/Source/Environment/STLRWater.swift:23` with `multiplier: 0.5`, and `Stellar/Source/Environment/Skybox.swift:46` with `multiplier: 1.0`. The shown file has only `init(name:size:sample:)`, which always halves the size. The model follows the code shown, with a fixed factor 0.5. That agrees with the water's 0.5 but not with the skybox's 1.0. The skybox's pass is not modelled at all: it is never encoded into or resized, so under the fixed factor it would be half the drawable size, not the full size the skybox asks for.
- RenderPasses.GBufferRenderPass.constructor: the `buildTexture(size:multiplier:label:pixelFormat:sample:)` overload that the G-buffer pass calls is not part of this model, because its source is not available. It does not behave like the base `buildTexture` (`Stellar/Source/Graphics/Render/RenderPass.swift:73-88`), which ignores its `sample` argument and always builds a 4-sample texture, nor like the base resolve texture (`RenderPass.swift:59-71`), which is mipmapped. The model assumes this instead (`RenderPasses.GBufferDescriptor`): a texture built with `sample` set is 2D multisample with 4 samples; one built without it is plain 2D with one sample and no mipmaps; every one is private, has usage renderTarget and shaderRead, and is floor(size × multiplier) in each dimension. The unsampled textures are the resolve targets (`Stellar/Source/Graphics/Render/GBufferRenderPass.swift:31-34`), and a resolve target must have one sample.
- Morphs.Morph.constructor: the morph targets are given as the vertex buffers they load, and the asset lookup and the `try?` of `loadMesh` are left out. A target that fails to load stops the process, so every target is assumed to load. The same holds for the textures: a texture name that fails to load reaches the `fatalError` of `loadTextureArray` (`Stellar/Source/Graphics/Render/Texturable.swift:59`, called from `Stellar/Source/Nodes/Model/Morph.swift:98`), so the constructor requires every texture name to decode. Three more requires stand for traps in the source. `|targets| > 0` stands for reading `morphTargetNames[0]` (`Stellar/Source/Nodes/Model/Morph.swift:59`), which traps on an empty list. `|textureNames| > 0` stands for the `fatalError("ID is too high")` (`Morph.swift:150-151`) that the constructor's own `updateBuffer(instance: 0, textureID: 0, …)` (`Morph.swift:104`) reaches when `textureNames` is the default `[]` (`Morph.swift:55`). `instanceCount > 0` stands for writing record 0 into a buffer of `stride * instanceCount` bytes (`Morph.swift:125-126`), which has no room for it when the count is 0. The texture requirement is stated for the Stellar lookup (`StellarTextureSource`); `OBSDMorph` loads its slices through the Obsidian loader (`Texturable.ObsidianTextureSource`), and the model states the Stellar lookup only.
- ObsidianScenes.ObsidianScene.Update: `OBSDTerrain`, whose source is not part of this model, is assumed to behave like `STLRTerrain`. The Obsidian scene's terrains (`ObsidianEngine/ObsidianEngine/Nodes/Scene/Scene.swift:16`, `:68` and `:83`) are therefore modelled as `Terrains.Terrain`, with the same compute pass. `ObsidianScenes.ObsidianScene.AddTerrain` rests on the same assumption.
- ObsidianRenderers.ObsidianRenderer.DrawIn: requires every model child to have a submesh list. This stands for the `model.submeshes!` force-unwrap at `ObsidianEngine/ObsidianEngine/Graphics/Render/Renderer.swift:347`, which traps on a model without one. The trap itself is not modelled.
- Terrains.LoadMap: requires the map to load. This stands for the `fatalError(error.localizedDescription)` in the `catch` of the terrain's `init` (`Stellar/Source/Terrain/Terrain.swift:54-61`), which stops the process when a map fails to load. The trap itself is not modelled.
- Terrains.NewTerrain: requires all four maps (height, cliff, snow, grass) to load, for the same `fatalError` at `Stellar/Source/Terrain/Terrain.swift:54-61`. The trap itself is not modelled.
- Skyboxes.Skybox.constructor: when a texture name is given, requires both the named cube map and `"irradiance.png"` to decode. This stands for the `fatalError` in the `catch` at `Stellar/Source/Environment/Skybox.swift:73-79`. The trap itself is not modelled.
- InstancedModels.InstancedModel.UpdateBuffer: requires `instance < |transforms|`. This stands for the out-of-range trap of `transforms[instance] = transform` at `ObsidianEngine/ObsidianEngine/Nodes/Model/Model.swift:117`. The trap itself is not modelled.
- InstancedModels.InstancedModel.DoRender: requires a vertex-buffer list and a submesh list. This stands for the force-unwraps `(mesh?.vertexBuffers.enumerated())!` at `ObsidianEngine/ObsidianEngine/Nodes/Model/Model.swift:183` and `submeshes!` at `Model.swift:187`. A model whose mesh build threw reaches that state (`InstancedModels.LoadModel` leaves both nil), and a draw of it traps. The trap itself is not modelled.
- InstancedModels.InstancedModel.DoRenderEvents: the same requires as `DoRender`, for the same force-unwraps at `ObsidianEngine/ObsidianEngine/Nodes/Model/Model.swift:183` and `:187`.
- InstancedModels.DoRenderDrawsEverySubmesh: the same requires as `DoRender`, for the same force-unwraps at `ObsidianEngine/ObsidianEngine/Nodes/Model/Model.swift:183` and `:187`; the lemma says nothing about the trapping case.
- PartsFillUnit (`Terrains.PartsFillUnit`): the coordinates are exact reals, while `createControlPoints` (`Stellar/Source/Terrain/Terrain.swift:114-143`) computes in Float32, where the far edge can overshoot by one rounding step: with 7 patches, fl(fl(fl(1/7)·6) + fl(1/7)) = 1 + 2⁻²³ ≈ 1.0000001, so in Float32 the parts do not end exactly at 1.
- PartInUnit (`Terrains.PartInUnit`): the coordinates are exact reals, while `createControlPoints` (`Stellar/Source/Terrain/Terrain.swift:114-143`) computes in Float32, where the far edge can overshoot by one rounding step: with 7 patches, fl(fl(fl(1/7)·6) + fl(1/7)) = 1 + 2⁻²³ ≈ 1.0000001, so in Float32 the last part ends just outside the unit interval.
- PatchCornersInUnitSquare (`Terrains.PatchCornersInUnitSquare`): the coordinates are exact reals, while `createControlPoints` (`Stellar/Source/Terrain/Terrain.swift:114-143`) computes in Float32, where the far edge can overshoot by one rounding step: with 7 patches, fl(fl(fl(1/7)·6) + fl(1/7)) = 1 + 2⁻²³ ≈ 1.0000001, so in Float32 the far corners of the last patch lie just outside the unit square.
- UnitRowInUnitSquare (`Terrains.UnitRowInUnitSquare`): the coordinates are exact reals, while `createControlPoints` (`Stellar/Source/Terrain/Terrain.swift:114-143`) computes in Float32, where the far edge can overshoot by one rounding step: with 7 patches, fl(fl(fl(1/7)·6) + fl(1/7)) = 1 + 2⁻²³ ≈ 1.0000001, so in Float32 the last patch edge of a row lies just outside the unit square.
- UnitGridInUnitSquare (`Terrains.UnitGridInUnitSquare`): the coordinates are exact reals, while `createControlPoints` (`Stellar/Source/Terrain/Terrain.swift:114-143`) computes in Float32, where the far edge can overshoot by one rounding step: with 7 patches, fl(fl(fl(1/7)·6) + fl(1/7)) = 1 + 2⁻²³ ≈ 1.0000001, so in Float32 the last row and column end just outside the unit square.
- ControlPointsInTerrain (`Terrains.ControlPointsInTerrain`): the coordinates are exact reals, while `createControlPoints` (`Stellar/Source/Terrain/Terrain.swift:114-143`) computes in Float32, where the far edge can overshoot by one rounding step: with 7 patches, fl(fl(fl(1/7)·6) + fl(1/7)) = 1 + 2⁻²³ ≈ 1.0000001; mapped onto a size-100 terrain, the far control points then sit at x = z ≈ 50.000015, just outside [−50, 50]. `Terrains.CentredInRange` and `Terrains.ToMetalInTerrain` keep their meaning under rounding, because rounding is monotone; the overshoot comes from the unit-square coordinates before the map.
- Scenes.Scene.constructor: does not model `axis = STLRModel(modelName: "axis")` (`Stellar/Source/Nodes/Scene/Scene.swift:52`). That model load can fail and registers textures, but the axis is never added to the scene, because the `add` is commented out.
- Morphs.CopiesTile: holds only when every morph target is as long as the first. `CopiesOverrunForUnequalTargets` shows that the combined buffer is sized from the first target alone, so a longer later target overruns it. The source does not check this, and the model only records it.

## Findings

| source | as written | input that shows it | evidently intended | confidence | as-written member | corrected member |
|---|---|---|---|---|---|---|
| Stellar/Source/Nodes/Model/Morph.swift:149-158 | `updateBuffer` checks the texture and morph-target IDs against their counts, but never checks `instance` against `instanceCount`, the capacity the buffer memory is bound with. It also accepts negative IDs, which `UInt32(_)` then traps on. | a morph with one instance, one texture and one target, called with `instance: 1, textureID: 0, morphtargetID: 0`: the guard passes and record 1 is written past the end of the one-record buffer | a call is refused unless `0 <= instance < instanceCount` and both IDs are non-negative and below their counts; a refused call changes nothing | not executed | Morphs.SourceUpdateIndex, Morphs.SourceUpdateWritesOutOfRange | Morphs.UpdateCheck, Morphs.UpdateCheckRefinesSource (used by Morphs.Morph.UpdateBuffer) |
| Stellar/Source/Graphics/Render/Renderer.swift:257 | the composition pass draws `vertexCount: quadVertices.count`, which is the number of floats (12). The quad holds 6 two-float vertices. | any frame that reaches the composition pass: 12 vertices are drawn from a buffer of 6, so vertices 6 to 11 are read past its end | `vertexCount` is the number of vertices, `quadVertices.count / 2` = 6, two whole triangles | not executed | StellarFrames.CompositionVertexCountAsWritten, StellarFrames.CompositionDrawsPastTheQuad | StellarFrames.QuadVertexCount (used by StellarFrames.CompositionEvents) |
