/** The cameras as the scenes and renderers use them. What a camera is for,
    its view and projection matrices, is float geometry; here those matrices
    are whatever `Optics` computes from the camera's state. */
module Cameras {
  import opened Wrappers
  import opened Matrix
  import opened Transforms
  import SceneGraph

  /** `Float(width / height)` of a drawable size, kept as the two sides. */
  datatype AspectRatio = AspectRatio(width: nat, height: nat)

  /** Everything a camera's matrices depend on. */
  datatype CameraState = CameraState(transform: Transform, distance: real, aspect: AspectRatio, arcball: bool)

  /** `viewMatrix` and `projectionMatrix` of a camera in a given state. */
  datatype Optics = Optics(view: CameraState -> Mat4, projection: CameraState -> Mat4)

  /** `STLRCamera` / `STLRArcballCamera`, and the one field of `OBSDCamera`
      the Obsidian scene writes, `currentPosition`. A camera is a node of the
      scene graph; the Stellar cameras keep their pose in a separate
      `transform`. */
  class Camera {
    const node: SceneGraph.Node
    const arcball: bool
    var transform: Transform
    var distance: real
    var aspect: AspectRatio
    var currentPosition: Option<Vec3>

    /** A camera named `name`. The view follows the camera's state from the
        start; an arcball camera starts at distance 0. */
    constructor (arcball: bool, name: string)
      ensures this.arcball == arcball && fresh(node) && node.kind == SceneGraph.CameraNode && node.name == name
      ensures node.children == [] && node.parent == null && node.position == Zero3
      ensures transform == DefaultTransform && distance == 0.0 && aspect == AspectRatio(1, 1)
      ensures currentPosition.None?
    {
      this.arcball := arcball;
      node := new SceneGraph.Node(name, SceneGraph.CameraNode);
      transform := DefaultTransform;
      distance := 0.0;
      aspect := AspectRatio(1, 1);
      currentPosition := None;
    }

    /** The state the Stellar cameras' matrices follow: the separate
        `transform`, the arcball distance and the aspect ratio. */
    function State(): CameraState
      reads this
    {
      CameraState(transform, distance, aspect, arcball)
    }

    /** The state `OBSDCamera`'s matrices follow: the pose of the camera's
        own node. */
    function NodeState(): CameraState
      reads this, node
    {
      CameraState(Transform(node.position, node.rotation, node.scale), distance, aspect, arcball)
    }
  }
}
