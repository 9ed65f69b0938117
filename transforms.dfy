/** The Obsidian `Transform` value the instanced models and the morphs keep
    per instance, and the per-instance records written into instance
    buffers. */
module Transforms {
  import opened Matrix

  /** `Transform`: a position, Euler rotation and scale. */
  datatype Transform = Transform(position: Vec3, rotation: Vec3, scale: Vec3)
  {
    /** translation × rotation × scale. */
    function ModelMatrix(): Mat
    {
      Mul(Mul([Translation(position)], [EulerRotation(rotation)]), [Scaling(scale)])
    }

    function NormalMatrix(): NormalMatrix
    {
      NormalOf(ModelMatrix())
    }
  }

  /** `Transform()`: at the origin, unrotated, unit scale. */
  const DefaultTransform := Transform(Zero3, Zero3, One3)

  /** `Instances`: what the instanced models' vertex shader reads per instance. */
  datatype Instance = Instance(modelMatrix: Mat, normalMatrix: NormalMatrix)

  /** The record a transform is written as. */
  function InstanceOf(t: Transform): Instance
  {
    Instance(t.ModelMatrix(), t.NormalMatrix())
  }
}
