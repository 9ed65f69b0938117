/** `OBSDScene`, the Obsidian scene. Unlike the Stellar scene it is itself a
    node: terrains and waters hang directly under it, and the renderer draws
    the models among its children. It keeps no `renderables` list. */
module ObsidianScenes {
  import opened Wrappers
  import opened Matrix
  import opened ShaderTypes
  import opened SceneGraph
  import Cameras
  import Terrains
  import Encoding
  import Lights

  class ObsidianScene {
    // The scene's own node, which the terrains and waters are added to.
    const node: Node
    const camera: Cameras.Camera
    var lights: seq<Light>
    // Whether a skybox is set; the Obsidian skybox is opaque here.
    var hasSkybox: bool
    var terrains: seq<Terrains.Terrain>
    var waters: seq<Node>
    var sunLight: Light
    // `rootNode`, which nothing in the Obsidian engine adds to.
    const rootNode: Node
    var uniforms: Uniforms
    var fragmentUniforms: FragmentUniforms
    const reflectionCamera: Cameras.Camera
    const optics: Cameras.Optics

    /** `init()`: the camera's current position is its position, the origin;
        everything else starts empty or zeroed. */
    constructor (optics: Cameras.Optics)
      ensures fresh(node) && node.kind == SceneNode && node.children == [] && node.parent == null
      ensures fresh(camera) && fresh(camera.node) && !camera.arcball
      ensures camera.currentPosition == Some(camera.node.position) && camera.node.position == Zero3
      ensures fresh(rootNode) && rootNode.children == [] && fresh(reflectionCamera) && this.optics == optics
      ensures lights == [] && !hasSkybox && terrains == [] && waters == []
      ensures sunLight == Lights.SunLight() && uniforms == ZeroUniforms && fragmentUniforms == ZeroFragmentUniforms
    {
      node := new Node("untitled", SceneNode);
      var c := new Cameras.Camera(false, "untitled");
      c.currentPosition := Some(c.node.position);
      camera := c;
      rootNode := new Node("untitled", PlainNode);
      reflectionCamera := new Cameras.Camera(false, "untitled");
      this.optics := optics;
      lights, hasSkybox, terrains, waters := [], false, [], [];
      sunLight := Lights.SunLight();
      uniforms, fragmentUniforms := ZeroUniforms, ZeroFragmentUniforms;
    }

    /** `add(terrain:)`: the terrain is listed and becomes the scene's last
        child. */
    method AddTerrain(terrain: Terrains.Terrain)
      modifies this`terrains, node, terrain.node
      ensures terrains == old(terrains) + [terrain]
      ensures node.children == old(node.children) + [terrain.node] && terrain.node.parent == node
    {
      terrains := terrains + [terrain];
      node.Add(terrain.node);
    }

    /** `add(water:)`: the water is listed and becomes the scene's last
        child. */
    method AddWater(water: Node)
      requires water.kind == WaterNode
      modifies this`waters, node, water
      ensures waters == old(waters) + [water]
      ensures node.children == old(node.children) + [water] && water.parent == node
    {
      waters := waters + [water];
      node.Add(water);
    }

    /** `update(deltaTime:)`: the projection and view matrices of the
        camera, which follow the pose of its node, go into the uniforms, then
        every terrain, in list order, encodes its tessellation pass. */
    method Update(threadExecutionWidth: nat, trace: Encoding.Trace)
      modifies this`uniforms, trace
      ensures uniforms == old(uniforms).(projectionMatrix := optics.projection(camera.NodeState()),
                                         viewMatrix := optics.view(camera.NodeState()))
      ensures trace.events == old(trace.events) + Terrains.UpdatesOf(terrains, uniforms.viewMatrix, threadExecutionWidth)
    {
      uniforms := uniforms.(projectionMatrix := optics.projection(camera.NodeState()));
      uniforms := uniforms.(viewMatrix := optics.view(camera.NodeState()));
      Terrains.UpdateAll(terrains, uniforms.viewMatrix, threadExecutionWidth, trace);
    }
  }
}
