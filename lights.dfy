/** The lights both scene classes build: the default light, the ambient
    light derived from it, and the sun. */
module Lights {
  import opened Matrix
  import opened ShaderTypes

  /** `buildDefaultLight()`: a white sun at the origin, at full intensity,
      with constant attenuation and no cone. */
  function BuildDefaultLight(): (light: Light)
    ensures light.position == Zero3 && light.color == One3 && light.specularColor == One3
    ensures light.intensity == 1.0 && light.attenuation == Vec3(1.0, 0.0, 0.0)
    ensures light.lightType == Sunlight
    ensures light.coneAngle == 0.0 && light.coneDirection == Zero3 && light.coneAttenuation == 0.0
  {
    ZeroLight.(position := Zero3, color := One3, specularColor := One3, intensity := 1.0,
               attenuation := Vec3(1.0, 0.0, 0.0), lightType := Sunlight)
  }

  /** The lazily built `ambientLight`: the default light, greyed to 0.7, at
      half intensity, of the ambient type. */
  function AmbientLight(): Light
  {
    BuildDefaultLight().(color := Vec3(0.7, 0.7, 0.7), specularColor := Vec3(0.7, 0.7, 0.7),
                         intensity := 0.5, lightType := Ambientlight)
  }

  /** The initial `sunLignt`: a white sun at (1, 2, -2) at intensity 0.7.
      It starts from `Light()`, so unlike the default light its attenuation
      is zero. */
  function SunLight(): Light
  {
    ZeroLight.(position := Vec3(1.0, 2.0, -2.0), color := One3, specularColor := One3, intensity := 0.7,
               lightType := Sunlight)
  }

  /** The ambient light keeps the default light's position, attenuation and
      cone and changes its colours, intensity and type only. */
  lemma AmbientLightFromDefault()
    ensures AmbientLight().position == BuildDefaultLight().position
    ensures AmbientLight().attenuation == BuildDefaultLight().attenuation
    ensures AmbientLight().coneAngle == BuildDefaultLight().coneAngle
    ensures AmbientLight().coneDirection == BuildDefaultLight().coneDirection
    ensures AmbientLight().coneAttenuation == BuildDefaultLight().coneAttenuation
    ensures AmbientLight().color == Vec3(0.7, 0.7, 0.7) && AmbientLight().specularColor == Vec3(0.7, 0.7, 0.7)
    ensures AmbientLight().intensity == 0.5 && AmbientLight().lightType.RawValue() == 4
  {
  }

  /** The sun and the default light are both of the sun type, but the sun is
      dimmer, away from the origin, and not attenuated. */
  lemma SunDiffersFromDefault()
    ensures SunLight().lightType == BuildDefaultLight().lightType
    ensures SunLight().intensity < BuildDefaultLight().intensity
    ensures SunLight().position != BuildDefaultLight().position
    ensures SunLight().attenuation == Zero3 != BuildDefaultLight().attenuation
  {
  }
}
