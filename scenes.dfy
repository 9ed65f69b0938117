/** `STLRScene`: the Stellar scene. It owns a root node, the camera hung
    under it, the lights, an optional skybox, the terrains and waters, and a
    flat `renderables` list kept in step with what was added with `render`
    set. Its `update(deltaTime:)` copies the camera's matrices into the
    uniforms and encodes every terrain's tessellation pass. */
module Scenes {
  import opened Wrappers
  import opened Matrix
  import opened ShaderTypes
  import opened SceneGraph
  import Seqs
  import Gpu
  import Cameras
  import Terrains
  import RenderPasses
  import Skyboxes
  import Encoding
  import Lights

  /** The node classes that conform to `Renderable`: the models, the morphs
      and the terrains. Cameras, waters and plain nodes do not. */
  predicate IsRenderable(kind: NodeKind)
  {
    kind.ModelNode? || kind == MorphNode || kind == TerrainNode
  }

  /** `renderables` after `add(node:parent:render:)`: the node is appended
      exactly when `render` is set and the node is renderable. */
  function AddedRenderables(renderables: seq<Node>, node: Node, render: bool): seq<Node>
  {
    if render && IsRenderable(node.kind) then renderables + [node] else renderables
  }

  /** `renderables` after `remove(node:)`: a renderable node's first entry is
      deleted; a node that is not renderable is not looked for. */
  function RemovedRenderables(renderables: seq<Node>, node: Node): seq<Node>
  {
    if IsRenderable(node.kind) then Seqs.RemoveFirst(renderables, node) else renderables
  }

  /** Every entry of the list is renderable. */
  predicate AllRenderable(renderables: seq<Node>)
  {
    forall n :: n in renderables ==> IsRenderable(n.kind)
  }

  /** Adding keeps every entry renderable, and the list grows by one exactly
      when the node is renderable and asked to render. */
  lemma AddKeepsRenderables(renderables: seq<Node>, node: Node, render: bool)
    requires AllRenderable(renderables)
    ensures AllRenderable(AddedRenderables(renderables, node, render))
    ensures |AddedRenderables(renderables, node, render)| ==
            |renderables| + (if render && IsRenderable(node.kind) then 1 else 0)
    ensures node in AddedRenderables(renderables, node, render) <==>
            node in renderables || (render && IsRenderable(node.kind))
  {
  }

  /** Removing keeps every entry renderable, takes away at most one entry,
      and keeps the others in their order. */
  lemma RemoveKeepsRenderables(renderables: seq<Node>, node: Node)
    requires AllRenderable(renderables)
    ensures AllRenderable(RemovedRenderables(renderables, node))
    ensures multiset(RemovedRenderables(renderables, node)) ==
            if IsRenderable(node.kind) then multiset(renderables) - multiset{node} else multiset(renderables)
  {
    Seqs.RemoveFirstCount(renderables, node);
    if IsRenderable(node.kind) {
      forall n | n in RemovedRenderables(renderables, node)
        ensures IsRenderable(n.kind)
      {
        assert n in multiset(RemovedRenderables(renderables, node));
        assert n in multiset(renderables);
      }
    }
  }

  /** Removing a node that was not in the list undoes adding it. */
  lemma RemoveUndoesAdd(renderables: seq<Node>, node: Node, render: bool)
    requires node !in renderables
    ensures RemovedRenderables(AddedRenderables(renderables, node, render), node) == renderables
  {
    Seqs.RemoveFirstCount(renderables, node);
    if render && IsRenderable(node.kind) {
      Seqs.RemoveFirstAppendNotFound(renderables, [node], node);
      assert Seqs.FirstIndex([node], node) == Some(0);
      assert Seqs.RemoveFirst([node], node) == [];
      assert renderables + [] == renderables;
    }
  }

  /** `STLRWater` as the scene and the renderer see it: a node named
      "Water" and its reflection render pass. */
  class Water {
    const node: Node
    const reflectionRenderPass: RenderPasses.RenderPass

    /** `init()`: a "reflection" pass at the drawable size. */
    constructor (size: Gpu.Size)
      ensures fresh(node) && node.kind == WaterNode && node.name == "Water"
      ensures node.children == [] && node.parent == null
      ensures fresh(reflectionRenderPass) && reflectionRenderPass.name == "reflection"
      ensures reflectionRenderPass.Valid() && reflectionRenderPass.SizedTo(size)
    {
      reflectionRenderPass := new RenderPasses.RenderPass("reflection", size);
      node := new Node("Water", WaterNode);
    }
  }

  class Scene {
    const camera: Cameras.Camera
    var lights: seq<Light>
    var skybox: Skyboxes.Skybox?
    var terrains: seq<Terrains.Terrain>
    var waters: seq<Water>
    var renderables: seq<Node>
    var sunLight: Light
    const rootNode: Node
    var uniforms: Uniforms
    var fragmentUniforms: FragmentUniforms
    const reflectionCamera: Cameras.Camera
    // The cameras' view and projection matrices.
    const optics: Cameras.Optics

    /** The camera is a camera node distinct from the reflection camera, and
        every entry of `renderables` is renderable. */
    ghost predicate Valid()
      reads this
    {
      camera.node.kind == CameraNode && camera != reflectionCamera && AllRenderable(renderables)
    }

    /** `init()`: an arcball camera at distance 10 added under the root node
        without rendering, no lights, skybox, terrains, waters or
        renderables, the initial sun, zeroed uniforms and a plain reflection
        camera. */
    constructor (optics: Cameras.Optics)
      ensures fresh(camera) && fresh(camera.node) && camera.arcball && camera.distance == 10.0
      ensures fresh(rootNode) && rootNode.children == [camera.node] && camera.node.parent == rootNode
      ensures camera.node.children == []
      ensures fresh(reflectionCamera) && !reflectionCamera.arcball && this.optics == optics
      ensures lights == [] && skybox == null && terrains == [] && waters == [] && renderables == []
      ensures sunLight == Lights.SunLight() && uniforms == ZeroUniforms && fragmentUniforms == ZeroFragmentUniforms
      ensures Valid()
    {
      var c := new Cameras.Camera(true, "Arcball Camera");
      c.distance := 10.0;
      camera := c;
      rootNode := new Node("untitled", PlainNode);
      reflectionCamera := new Cameras.Camera(false, "Defualt Camera");
      this.optics := optics;
      lights, skybox, terrains, waters, renderables := [], null, [], [], [];
      sunLight := Lights.SunLight();
      uniforms, fragmentUniforms := ZeroUniforms, ZeroFragmentUniforms;
      new;
      AddNode(camera.node, null, false);
    }

    /** `add(node:parent:render:)`: the node becomes the last child of
        `parent`, or of the root node when there is none, and is listed as
        renderable exactly when `render` is set and its class is
        renderable. */
    method AddNode(node: Node, parent: Node?, render: bool)
      requires Valid()
      modifies this`renderables, rootNode, node, parent
      ensures Valid()
      ensures parent != null ==> parent.children == old(parent.children) + [node] && node.parent == parent
      ensures parent == null ==> rootNode.children == old(rootNode.children) + [node] && node.parent == rootNode
      ensures node != (if parent == null then rootNode else parent) ==> node.children == old(node.children)
      ensures parent != null && parent != rootNode ==> rootNode.children == old(rootNode.children)
      ensures renderables == AddedRenderables(old(renderables), node, render)
    {
      if parent != null {
        parent.Add(node);
      } else {
        rootNode.Add(node);
      }
      AddKeepsRenderables(renderables, node, render);
      if render && IsRenderable(node.kind) {
        renderables := renderables + [node];
      }
    }

    /** `add(terrain:)`: the terrain is listed, hung under the root node and
        rendered. */
    method AddTerrain(terrain: Terrains.Terrain)
      requires Valid() && terrain.node.kind == TerrainNode
      modifies this`terrains, this`renderables, rootNode, terrain.node
      ensures Valid()
      ensures terrains == old(terrains) + [terrain]
      ensures rootNode.children == old(rootNode.children) + [terrain.node] && terrain.node.parent == rootNode
      ensures renderables == old(renderables) + [terrain.node]
    {
      terrains := terrains + [terrain];
      AddNode(terrain.node, null, true);
    }

    /** `add(water:)`: the water is listed and hung under the root node; it
        is not renderable, so `renderables` is unchanged. */
    method AddWater(water: Water)
      requires Valid() && water.node.kind == WaterNode
      modifies this`waters, this`renderables, rootNode, water.node
      ensures Valid()
      ensures waters == old(waters) + [water]
      ensures rootNode.children == old(rootNode.children) + [water.node] && water.node.parent == rootNode
      ensures renderables == old(renderables)
    {
      waters := waters + [water];
      AddNode(water.node, null, true);
    }

    /** `remove(node:)`. A node with a parent is removed from it by the
        node's own `remove(childNode:)`; a node without one keeps its place
        and only loses its children, whose parents are cleared. Then a
        renderable node's first entry in `renderables` is deleted. */
    method RemoveNode(node: Node)
      requires Valid()
      modifies this`renderables, node, node.parent, node.children
      ensures Valid()
      ensures renderables == RemovedRenderables(old(renderables), node)
      ensures node.children == []
      ensures old(node.parent) != null && old(node.parent) != node ==>
                old(node.parent).children == Seqs.RemoveFirst(old(node.parent.children) + old(node.children), node)
      ensures old(node.parent) != null && old(node.parent) != node ==>
                forall c :: c in old(node.children) && c != node ==> c.parent == old(node.parent)
      ensures old(node.parent) != null && old(node.parent) != node && node in old(node.parent.children) ==>
                node.parent == null
      ensures old(node.parent) == null ==> forall c :: c in old(node.children) ==> c.parent == null
    {
      var parent := node.parent;
      if parent != null {
        parent.Remove(node);
      } else {
        var kids := node.children;
        for i := 0 to |kids|
          invariant forall j :: 0 <= j < i ==> kids[j].parent == null
          invariant renderables == old(renderables)
        {
          kids[i].parent := null;
        }
        node.children := [];
      }
      RemoveKeepsRenderables(renderables, node);
      renderables := RemovedRenderables(renderables, node);
    }

    /** `sceneSizeWillChange(to:)`: the camera's aspect ratio becomes the
        drawable's. */
    method SceneSizeWillChange(size: Gpu.Size)
      modifies camera
      ensures camera.aspect == Cameras.AspectRatio(size.width, size.height)
      ensures camera.transform == old(camera.transform) && camera.distance == old(camera.distance)
    {
      camera.aspect := Cameras.AspectRatio(size.width, size.height);
    }

    /** `update(deltaTime:)`: the camera's projection and view matrices go
        into the uniforms, then every terrain, in list order, encodes its
        tessellation pass against that view. */
    method Update(threadExecutionWidth: nat, trace: Encoding.Trace)
      modifies this`uniforms, trace
      ensures uniforms == old(uniforms).(projectionMatrix := optics.projection(camera.State()),
                                         viewMatrix := optics.view(camera.State()))
      ensures trace.events == old(trace.events) + Terrains.UpdatesOf(terrains, uniforms.viewMatrix, threadExecutionWidth)
    {
      uniforms := uniforms.(projectionMatrix := optics.projection(camera.State()));
      uniforms := uniforms.(viewMatrix := optics.view(camera.State()));
      Terrains.UpdateAll(terrains, uniforms.viewMatrix, threadExecutionWidth, trace);
    }
  }

  /** The camera is never drawn: it is not renderable, so `renderables`
      never lists it. */
  lemma CameraNeverRenderable(s: Scene)
    requires s.Valid()
    ensures s.camera.node !in s.renderables
  {
  }
}
