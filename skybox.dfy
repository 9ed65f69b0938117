/** `STLRSkybox`: the sky cube, its environment textures and the commands
    it adds to a render encoder. The cube mesh and its pipeline are Metal
    objects outside this model; the skybox's own `RenderPass` (built with
    a multiplier of 1) is not modelled, because nothing in the frame
    encodes into it. */
module Skyboxes {
  import opened Wrappers
  import opened Matrix
  import opened Gpu
  import opened ShaderTypes
  import Encoding
  import Texturable

  /** The parameters of the generated sky. */
  datatype SkySettings = SkySettings(turbidity: real, sunElevation: real,
                                     upperAtmosphereScattering: real, groundAlbedo: real)

  const SunRise := SkySettings(0.5597, 0.5164, 0.1767, 0.6885)
  const MidDay := SkySettings(0.7982, 0.7221, 0.6449, 0.0)
  const SunSet := SkySettings(0.6778, 0.4551, 0.0497, 0.0)

  /** A skybox starts with the sunrise settings. */
  const DefaultSkySettings := SkySettings(0.5597, 0.5164, 0.1767, 0.6885)

  /** The side of the generated cube faces, `[1024, 1024]`. */
  const GeneratedDimension: nat := 1024

  /** What `loadGeneratedSkyboxTexture(dimensions:)` hands the loader: a
      ModelIO sky cube of the given settings and size. */
  function SkySource(settings: SkySettings, width: nat, height: nat): (o: TextureOrigin)
    ensures o.FromSkyGenerator? && o.width == width && o.height == height
    ensures o.turbidity == settings.turbidity && o.sunElevation == settings.sunElevation
    ensures o.upperAtmosphereScattering == settings.upperAtmosphereScattering
    ensures o.groundAlbedo == settings.groundAlbedo
  {
    FromSkyGenerator(settings.turbidity, settings.sunElevation, settings.upperAtmosphereScattering,
                     settings.groundAlbedo, width, height)
  }

  /** The uniforms the sky is drawn with: the view matrix loses its
      translation column, which becomes (0, 0, 0, 1), so the cube stays
      centred on the camera; nothing else changes. */
  function SkyUniforms(u: Uniforms): (r: Uniforms)
    ensures r.viewMatrix.c3 == Vec4(0.0, 0.0, 0.0, 1.0)
    ensures r.viewMatrix.c0 == u.viewMatrix.c0 && r.viewMatrix.c1 == u.viewMatrix.c1
    ensures r.viewMatrix.c2 == u.viewMatrix.c2
    ensures r.(viewMatrix := u.viewMatrix) == u
  {
    u.(viewMatrix := u.viewMatrix.(c3 := Vec4(0.0, 0.0, 0.0, 1.0)))
  }

  /** Stripping the translation twice is stripping it once. */
  lemma SkyUniformsIdempotent(u: Uniforms)
    ensures SkyUniforms(SkyUniforms(u)) == SkyUniforms(u)
  {
  }

  /** A translation of the camera does not move the sky: two view matrices
      that differ only in their translation column give the same uniforms. */
  lemma SkyIgnoresCameraTranslation(u: Uniforms, translation: Vec4)
    ensures SkyUniforms(u.(viewMatrix := u.viewMatrix.(c3 := translation))) == SkyUniforms(u)
  {
  }

  class Skybox {
    const loader: Texturable.Loader
    var skySettings: SkySettings
    var texture: Texture?
    var diffuseTexture: Texture?
    var brdfLut: Texture?
    /** The textures written into the argument buffer, by argument index. */
    var argumentEntries: map<nat, Encoding.TextureBinding>

    /** `init(textureName:)`, given the BRDF look-up table the renderer
        builds. With a name, the cube map of that name and the irradiance
        map are loaded, and a failure stops the process; without one, the
        sky is generated from the default settings and serves as its own
        irradiance map. The argument buffer gets the two environment maps
        when there is a sky texture and the look-up table when there is one. */
    constructor (textureName: Option<string>, loader: Texturable.Loader, brdf: Texture?)
      requires textureName.Some? ==>
        loader.decode(Texturable.CubeTextureSource(loader, textureName.value)).Some? &&
        loader.decode(Texturable.CubeTextureSource(loader, "irradiance.png")).Some?
      ensures this.loader == loader && skySettings == DefaultSkySettings && brdfLut == brdf
      ensures textureName.Some? ==>
        texture != null && fresh(texture) &&
        texture.origin == Texturable.CubeTextureSource(loader, textureName.value) &&
        diffuseTexture != null && fresh(diffuseTexture) &&
        diffuseTexture.origin == Texturable.CubeTextureSource(loader, "irradiance.png")
      ensures textureName.None? ==>
        diffuseTexture == texture &&
        (texture == null <==> loader.decode(SkySource(DefaultSkySettings, GeneratedDimension, GeneratedDimension)).None?) &&
        (texture != null ==>
           fresh(texture) && texture.origin == SkySource(DefaultSkySettings, GeneratedDimension, GeneratedDimension))
      ensures argumentEntries == ArgumentEntries(texture, diffuseTexture, brdf)
    {
      this.loader := loader;
      skySettings := DefaultSkySettings;
      brdfLut := brdf;
      new;
      if textureName.Some? {
        var t := Texturable.LoadCubeTexture(loader, textureName.value);
        var d := Texturable.LoadCubeTexture(loader, "irradiance.png");
        texture := t.value;
        diffuseTexture := d.value;
      } else {
        texture := LoadGeneratedSkyboxTexture(loader, skySettings, GeneratedDimension, GeneratedDimension);
        diffuseTexture := texture;
      }
      argumentEntries := ArgumentEntries(texture, diffuseTexture, brdfLut);
    }

    /** Assigning `skySettings`: its observer regenerates the sky and uses it
        as the irradiance map. The argument buffer is not encoded again. */
    method SetSkySettings(settings: SkySettings)
      modifies this
      ensures skySettings == settings && diffuseTexture == texture
      ensures texture == null <==> loader.decode(SkySource(settings, GeneratedDimension, GeneratedDimension)).None?
      ensures texture != null ==>
        fresh(texture) && texture.origin == SkySource(settings, GeneratedDimension, GeneratedDimension)
      ensures brdfLut == old(brdfLut) && argumentEntries == old(argumentEntries)
    {
      skySettings := settings;
      texture := LoadGeneratedSkyboxTexture(loader, skySettings, GeneratedDimension, GeneratedDimension);
      diffuseTexture := texture;
    }

    /** What `render(renderEncoder:uniforms:)` encodes: the sky pipeline, a
        depth test that passes at equal depth and does not write, back-face
        culling, the cube's vertices, the uniforms without the camera's
        translation, the sky texture, and one draw of the cube. */
    function RenderEvents(uniforms: Uniforms): (es: seq<Encoding.Event>)
      reads this
      ensures |es| == 7 && es[|es| - 1] == Encoding.Draw(Encoding.SkyboxCube)
      ensures es[4] == Encoding.SetVertexUniforms(SkyUniforms(uniforms), BufferIndexUniforms)
      ensures es[5] == Encoding.SetFragmentTexture(Encoding.BindingOf(texture), 20)
    {
      [Encoding.SetPipeline(Encoding.SkyboxPipeline),
       Encoding.SetDepthStencil(Encoding.DepthStencil(Encoding.LessEqual, false)),
       Encoding.SetCullMode(Encoding.CullBack),
       Encoding.SetVertexBuffer(Encoding.SkyboxMesh, 0),
       Encoding.SetVertexUniforms(SkyUniforms(uniforms), BufferIndexUniforms),
       Encoding.SetFragmentTexture(Encoding.BindingOf(texture), 20),
       Encoding.Draw(Encoding.SkyboxCube)]
    }

    method Render(uniforms: Uniforms, trace: Encoding.Trace)
      modifies trace
      ensures trace.events == old(trace.events) + RenderEvents(uniforms)
    {
      var uniform := uniforms;
      var viewMatrix := uniforms.viewMatrix;
      viewMatrix := viewMatrix.(c3 := Vec4(0.0, 0.0, 0.0, 1.0));
      uniform := uniform.(viewMatrix := viewMatrix);
      trace.Record([Encoding.SetPipeline(Encoding.SkyboxPipeline),
                    Encoding.SetDepthStencil(Encoding.DepthStencil(Encoding.LessEqual, false)),
                    Encoding.SetCullMode(Encoding.CullBack),
                    Encoding.SetVertexBuffer(Encoding.SkyboxMesh, 0),
                    Encoding.SetVertexUniforms(uniform, BufferIndexUniforms),
                    Encoding.SetFragmentTexture(Encoding.BindingOf(texture), 20),
                    Encoding.Draw(Encoding.SkyboxCube)]);
    }

    /** What `update(renderEncoder:)` encodes: the sky, irradiance and BRDF
        textures at their fragment indices, then the argument buffer. */
    function UpdateEvents(): (es: seq<Encoding.Event>)
      reads this
      ensures |es| == 4 && es[3] == Encoding.UseSkyboxArguments
      ensures es[0] == Encoding.SetFragmentTexture(Encoding.BindingOf(texture), BufferIndexSkybox)
      ensures es[1] == Encoding.SetFragmentTexture(Encoding.BindingOf(diffuseTexture), BufferIndexSkyboxDiffuse)
      ensures es[2] == Encoding.SetFragmentTexture(Encoding.BindingOf(brdfLut), BufferIndexBRDFLut)
    {
      [Encoding.SetFragmentTexture(Encoding.BindingOf(texture), BufferIndexSkybox),
       Encoding.SetFragmentTexture(Encoding.BindingOf(diffuseTexture), BufferIndexSkyboxDiffuse),
       Encoding.SetFragmentTexture(Encoding.BindingOf(brdfLut), BufferIndexBRDFLut),
       Encoding.UseSkyboxArguments]
    }

    method Update(trace: Encoding.Trace)
      modifies trace
      ensures trace.events == old(trace.events) + UpdateEvents()
    {
      trace.Record(UpdateEvents());
    }
  }

  /** `update` binds to fragment index 20 + k exactly what argument entry
      k holds, for every entry the argument buffer has: the sky, the
      irradiance map and the look-up table sit at the same positions in
      both. */
  lemma UpdateBindsArgumentEntries(skybox: Skybox, k: nat)
    requires k in ArgumentEntries(skybox.texture, skybox.diffuseTexture, skybox.brdfLut)
    ensures k < 3
    ensures skybox.UpdateEvents()[k] ==
      Encoding.SetFragmentTexture(ArgumentEntries(skybox.texture, skybox.diffuseTexture, skybox.brdfLut)[k],
                                  BufferIndexSkybox + k)
  {
  }

  /** The argument buffer's entries: the sky at 0 and the irradiance map at
      1 when there is a sky texture, and the look-up table at 2 when there
      is one. */
  function ArgumentEntries(texture: Texture?, diffuseTexture: Texture?, brdf: Texture?): (m: map<nat, Encoding.TextureBinding>)
    ensures 0 in m <==> texture != null
    ensures 1 in m <==> texture != null
    ensures 2 in m <==> brdf != null
    ensures m.Keys <= {0, 1, 2}
    ensures texture != null ==> m[0] == Encoding.Bound(texture) && m[1] == Encoding.BindingOf(diffuseTexture)
    ensures brdf != null ==> m[2] == Encoding.Bound(brdf)
  {
    var environment: map<nat, Encoding.TextureBinding> :=
      if texture == null then map[] else map[0 := Encoding.Bound(texture), 1 := Encoding.BindingOf(diffuseTexture)];
    if brdf == null then environment else environment[2 := Encoding.Bound(brdf)]
  }

  /** `loadGeneratedSkyboxTexture(dimensions:)`: nil when the loader fails. */
  method LoadGeneratedSkyboxTexture(loader: Texturable.Loader, settings: SkySettings, width: nat, height: nat)
    returns (t: Texture?)
    ensures t == null <==> loader.decode(SkySource(settings, width, height)).None?
    ensures t != null ==> fresh(t) && t.origin == SkySource(settings, width, height)
  {
    var r := Texturable.NewTexture(loader, SkySource(settings, width, height));
    if r.Err? {
      return null;
    }
    return r.value;
  }

  /** Rendering the sky draws the cube once and opens no encoder. */
  lemma RenderDrawsCube(s: Skybox, uniforms: Uniforms)
    ensures var es := s.RenderEvents(uniforms);
      Encoding.Draws(es) == [Encoding.SkyboxCube] && Encoding.Encoders(es) == [] &&
      Encoding.ModelsDrawn(es) == [] && Encoding.Submitted(es) == []
  {
    var es := s.RenderEvents(uniforms);
    assert es == es[..6] + [es[6]];
    Encoding.UnprojectedProjections(es[..6]);
    Encoding.SingleProjections(es[6]);
    Encoding.ProjectionsAppend(es[..6], [es[6]]);
  }

  /** Updating the sky's textures draws nothing and opens no encoder. */
  lemma UpdateIsUnprojected(s: Skybox)
    ensures var es := s.UpdateEvents();
      Encoding.Draws(es) == [] && Encoding.Encoders(es) == [] && Encoding.ModelsDrawn(es) == [] &&
      Encoding.Submitted(es) == []
  {
    Encoding.UnprojectedProjections(s.UpdateEvents());
  }
}
