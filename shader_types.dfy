/** The records and constants the engine shares with its shaders
    (`Types.h`): light and material records, fragment uniforms and the
    buffer-index constants the renderer binds to. */
module ShaderTypes {
  import opened Matrix
  import SceneGraph

  /** `LightType`, with the raw values the shaders see. */
  datatype LightType = Unused | Sunlight | Spotlight | Pointlight | Ambientlight
  {
    function RawValue(): nat
    {
      match this
      case Unused => 0
      case Sunlight => 1
      case Spotlight => 2
      case Pointlight => 3
      case Ambientlight => 4
    }
  }

  /** `STLRLight`. */
  datatype Light = Light(
    position: Vec3,
    color: Vec3,
    specularColor: Vec3,
    intensity: real,
    attenuation: Vec3,
    lightType: LightType,
    coneAngle: real,
    coneDirection: Vec3,
    coneAttenuation: real)

  /** A light with every field zero, as a Swift `Light()` starts. */
  const ZeroLight := Light(Zero3, Zero3, Zero3, 0.0, Zero3, Unused, 0.0, Zero3, 0.0)

  /** What the uniforms hold as model matrix: still zero, or the world
      transform of a node as it is when the uniforms are written. */
  datatype ModelMatrixValue = ZeroModel | WorldTransformOf(node: SceneGraph.Node)

  /** What the uniforms hold as normal matrix: still zero, or the normal
      matrix of a node's model matrix as it is when the uniforms are written. */
  datatype NormalMatrixValue = ZeroNormalMatrix | NormalOfModelMatrix(node: SceneGraph.Node)

  /** `STLRUniforms` (`OBSDUniforms` has the same fields but no camera
      position; the Obsidian code leaves that field zero). */
  datatype Uniforms = Uniforms(
    modelMatrix: ModelMatrixValue,
    viewMatrix: Mat4,
    projectionMatrix: Mat4,
    normalMatrix: NormalMatrixValue,
    shadowMatrix: Mat4,
    clipPlane: Vec4,
    cameraPosition: Vec3)

  const ZeroUniforms := Uniforms(ZeroModel, ZeroMat4, ZeroMat4, ZeroNormalMatrix, ZeroMat4,
                                 Vec4(0.0, 0.0, 0.0, 0.0), Zero3)

  /** `STLRTerrainUniforms`. */
  datatype TerrainUniforms = TerrainUniforms(size: Vec2, height: real, maxTessellation: nat)

  const ZeroTerrainUniforms := TerrainUniforms(Vec2(0.0, 0.0), 0.0, 0)

  /** `STLRMaterial`. */
  datatype Material = Material(
    baseColor: Vec3,
    specularColor: Vec3,
    roughness: real,
    metallic: real,
    ambientOcclusion: Vec3,
    shininess: real)

  /** `STLRFragmentUniforms`. */
  datatype FragmentUniforms = FragmentUniforms(tiling: nat, cameraPosition: Vec3, lightCount: nat)

  const ZeroFragmentUniforms := FragmentUniforms(0, Zero3, 0)

  // `STLRBufferIndices`.
  const BufferIndexVertices: nat := 0
  const BufferIndexLight: nat := 2
  const BufferIndexUniforms: nat := 11
  const BufferIndexSceneConstants: nat := 12
  const BufferIndexMaterials: nat := 13
  const BufferIndexLightConstants: nat := 14
  const BufferIndexFragmentUniforms: nat := 15
  const BufferIndexInstances: nat := 16
  const BufferIndexSkybox: nat := 20
  const BufferIndexSkyboxDiffuse: nat := 21
  const BufferIndexBRDFLut: nat := 22

  // The `Textures` enumeration of the Stellar engine.
  const BaseColorTexture: nat := 4
  const GBufferTexturesIndex: nat := 9

  /** The fragment texture slot the G-buffer pass binds the shadow map to. */
  const ShadowTextureIndex: nat := 5
}
