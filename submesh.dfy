/** `STLRSubmesh`: each submesh registers up to five material textures in
    the shared texture registry, compiles its fragment function with one
    boolean constant per texture slot, binds the registered textures into an
    argument buffer, and reads its material colours with defaults. */
module Submeshes {
  import opened Wrappers
  import opened Matrix
  import opened Gpu
  import opened ShaderTypes
  import Texturable
  import TextureRegistry

  /** The five texture slots, in the order of function constants and
      argument-buffer entries 0 to 4. */
  datatype TextureSlots<T> = TextureSlots(baseColor: Option<T>, normal: Option<T>, roughness: Option<T>,
                                          metallic: Option<T>, ao: Option<T>)
  {
    function Slot(k: nat): Option<T>
      requires k < 5
    {
      if k == 0 then baseColor
      else if k == 1 then normal
      else if k == 2 then roughness
      else if k == 3 then metallic
      else ao
    }
  }

  /** `MDLMaterialSemantic` values the engine asks for. */
  datatype Semantic = BaseColor | TangentSpaceNormal | Roughness | Metallic | AmbientOcclusion
                    | Specular | SpecularExponent

  /** The semantic behind texture slot k. */
  function SlotSemantic(k: nat): Semantic
    requires k < 5
  {
    [BaseColor, TangentSpaceNormal, Roughness, Metallic, AmbientOcclusion][k]
  }

  datatype PropertyType = StringProperty | FloatProperty | Float3Property | OtherProperty

  /** An `MDLMaterialProperty`: its type and the values ModelIO reports. */
  datatype MaterialProperty = MaterialProperty(propertyType: PropertyType, stringValue: Option<string>,
                                               floatValue: real, float3Value: Vec3)

  /** An `MDLMaterial`: the property `property(with:)` finds for a semantic. */
  type MdlMaterial = map<Semantic, MaterialProperty>

  function PropertyWith(material: Option<MdlMaterial>, semantic: Semantic): Option<MaterialProperty>
  {
    if material.Some? && semantic in material.value then Some(material.value[semantic]) else None
  }

  /** The load `property(with:)` attempts in `Textures.init`: the file a
      string property names, taken from "Assets.bundle" of the main bundle.
      There is none when the property is missing, is not a string or has no
      string value, or when the assets bundle is missing. */
  function TextureSource(material: Option<MdlMaterial>, semantic: Semantic,
                         assets: Option<Texturable.Bundle>): (r: Option<TextureOrigin>)
    ensures r.Some? <==>
      PropertyWith(material, semantic).Some? &&
      PropertyWith(material, semantic).value.propertyType == StringProperty &&
      PropertyWith(material, semantic).value.stringValue.Some? &&
      assets.Some?
    ensures r.Some? ==>
      r.value == Texturable.StellarTextureSource(PropertyWith(material, semantic).value.stringValue.value, assets.value)
  {
    match PropertyWith(material, semantic)
    case None => None
    case Some(p) =>
      if p.propertyType != StringProperty || p.stringValue.None? || assets.None? then None
      else Some(Texturable.StellarTextureSource(p.stringValue.value, assets.value))
  }

  /** Whether a slot gets a texture: the load is attempted and does not throw
      (`try?` turns a throw into nil). */
  predicate SlotLoads(loader: Texturable.Loader, material: Option<MdlMaterial>, semantic: Semantic,
                      assets: Option<Texturable.Bundle>)
  {
    TextureSource(material, semantic, assets).Some? &&
    loader.decode(TextureSource(material, semantic, assets).value).Some?
  }

  /** `property(with:)`: the texture for a semantic, or nil. */
  method PropertyTexture(loader: Texturable.Loader, material: Option<MdlMaterial>, semantic: Semantic,
                         assets: Option<Texturable.Bundle>) returns (t: Texture?)
    ensures t != null <==> SlotLoads(loader, material, semantic, assets)
    ensures t != null ==> fresh(t) && t.origin == TextureSource(material, semantic, assets).value
  {
    var source := TextureSource(material, semantic, assets);
    if source.None? {
      return null;
    }
    var r := Texturable.NewTexture(loader, source.value);
    if r.Err? {
      return null;
    }
    return r.value;
  }

  /** The registry `after` extends `before`, and a present slot names an
      entry added in between that came from the slot's texture source. */
  ghost predicate SlotRegistered(before: seq<Texture>, after: seq<Texture>, slot: Option<nat>,
                                 loader: Texturable.Loader, material: Option<MdlMaterial>,
                                 semantic: Semantic, assets: Option<Texturable.Bundle>)
  {
    (slot.Some? <==> SlotLoads(loader, material, semantic, assets)) &&
    (slot.Some? ==>
       |before| <= slot.value < |after| &&
       after[slot.value].origin == TextureSource(material, semantic, assets).value)
  }

  /** `Textures.init(material:)`. Each slot holds the index `addTexture`
      returned for its semantic, in the order baseColor, normal, roughness,
      metallic, ao; a slot whose texture did not load is nil and adds nothing.
      Every index lies within the new registry, which holds the slot's texture
      there and keeps its old entries. */
  method TexturesInit(registry: TextureRegistry.TextureController, loader: Texturable.Loader,
                      material: Option<MdlMaterial>, assets: Option<Texturable.Bundle>)
      returns (slots: TextureSlots<nat>)
    modifies registry
    ensures |old(registry.textures)| <= |registry.textures|
    ensures registry.textures[..|old(registry.textures)|] == old(registry.textures)
    ensures forall k :: 0 <= k < 5 ==>
      SlotRegistered(old(registry.textures), registry.textures, slots.Slot(k), loader, material, SlotSemantic(k), assets)
    ensures forall j, k :: 0 <= j < k < 5 && slots.Slot(j).Some? && slots.Slot(k).Some? ==>
      slots.Slot(j).value < slots.Slot(k).value
  {
    var t0 := PropertyTexture(loader, material, BaseColor, assets);
    var t1 := PropertyTexture(loader, material, TangentSpaceNormal, assets);
    var t2 := PropertyTexture(loader, material, Roughness, assets);
    var t3 := PropertyTexture(loader, material, Metallic, assets);
    var t4 := PropertyTexture(loader, material, AmbientOcclusion, assets);
    var ts := [t0, t1, t2, t3, t4];
    var indices := registry.AddTextures(ts);
    TextureRegistry.AddAllIndices(old(registry.textures), ts);
    slots := TextureSlots(indices[0], indices[1], indices[2], indices[3], indices[4]);
    forall k | 0 <= k < 5
      ensures slots.Slot(k) == indices[k]
      ensures ts[k] != null <==> SlotLoads(loader, material, SlotSemantic(k), assets)
      ensures ts[k] != null ==> ts[k].origin == TextureSource(material, SlotSemantic(k), assets).value
    {
      if k == 0 {
        assert ts[k] == t0 && SlotSemantic(k) == BaseColor;
      } else if k == 1 {
        assert ts[k] == t1 && SlotSemantic(k) == TangentSpaceNormal;
      } else if k == 2 {
        assert ts[k] == t2 && SlotSemantic(k) == Roughness;
      } else if k == 3 {
        assert ts[k] == t3 && SlotSemantic(k) == Metallic;
      } else {
        assert ts[k] == t4 && SlotSemantic(k) == AmbientOcclusion;
      }
    }
  }

  /** `makeFunctionConstants(textures:)`: boolean constant k says whether
      slot k holds a texture. */
  function MakeFunctionConstants(textures: TextureSlots<nat>): (r: map<nat, bool>)
    ensures r.Keys == {0, 1, 2, 3, 4}
    ensures forall k :: 0 <= k < 5 ==> (r[k] <==> textures.Slot(k).Some?)
  {
    map[0 := textures.baseColor.Some?, 1 := textures.normal.Some?, 2 := textures.roughness.Some?,
        3 := textures.metallic.Some?, 4 := textures.ao.Some?]
  }

  /** `initializeTextures()`: argument entry k is set to the registered
      texture of slot k exactly when the slot is present, and an absent slot
      leaves its entry unset. The registry lookups need the indices to be in
      range, which `TexturesInit` guarantees. */
  method InitializeTextures(textures: TextureSlots<nat>, registry: seq<Texture>)
      returns (entries: map<nat, Texture>)
    requires forall k :: 0 <= k < 5 && textures.Slot(k).Some? ==> textures.Slot(k).value < |registry|
    ensures forall k :: k in entries <==> 0 <= k < 5 && textures.Slot(k).Some?
    ensures forall k :: k in entries ==> entries[k] == registry[textures.Slot(k).value]
  {
    assert textures.Slot(0) == textures.baseColor && textures.Slot(1) == textures.normal &&
           textures.Slot(2) == textures.roughness && textures.Slot(3) == textures.metallic &&
           textures.Slot(4) == textures.ao;
    entries := map[];
    if textures.baseColor.Some? {
      entries := entries[0 := registry[textures.baseColor.value]];
    }
    if textures.normal.Some? {
      entries := entries[1 := registry[textures.normal.value]];
    }
    if textures.roughness.Some? {
      entries := entries[2 := registry[textures.roughness.value]];
    }
    if textures.metallic.Some? {
      entries := entries[3 := registry[textures.metallic.value]];
    }
    if textures.ao.Some? {
      entries := entries[4 := registry[textures.ao.value]];
    }
  }

  /** `Material()`: every field zero. */
  const ZeroMaterial := Material(Zero3, Zero3, 0.0, 0.0, Zero3, 0.0)

  /** Whether the material has a property of the given type for a semantic. */
  predicate HasTyped(material: Option<MdlMaterial>, semantic: Semantic, t: PropertyType)
  {
    PropertyWith(material, semantic).Some? && PropertyWith(material, semantic).value.propertyType == t
  }

  /** `Material.init(material:)`: starts from `Material()`; base colour and
      specular colour are taken only from float3 properties and the
      shininess only from a float specular exponent; roughness and metallic
      take the property's float value, but only when the property is typed
      float3. Every field not overwritten keeps its zero default, and ambient
      occlusion is never read. */
  method MaterialInit(material: Option<MdlMaterial>) returns (m: Material)
    ensures m.baseColor == if HasTyped(material, BaseColor, Float3Property)
                           then material.value[BaseColor].float3Value else Zero3
    ensures m.specularColor == if HasTyped(material, Specular, Float3Property)
                               then material.value[Specular].float3Value else Zero3
    ensures m.shininess == if HasTyped(material, SpecularExponent, FloatProperty)
                           then material.value[SpecularExponent].floatValue else 0.0
    ensures m.roughness == if HasTyped(material, Roughness, Float3Property)
                           then material.value[Roughness].floatValue else 0.0
    ensures m.metallic == if HasTyped(material, Metallic, Float3Property)
                          then material.value[Metallic].floatValue else 0.0
    ensures m.ambientOcclusion == Zero3
    ensures material.None? ==> m == ZeroMaterial
  {
    m := ZeroMaterial;
    var baseColor := PropertyWith(material, BaseColor);
    if baseColor.Some? && baseColor.value.propertyType == Float3Property {
      m := m.(baseColor := baseColor.value.float3Value);
    }
    var specular := PropertyWith(material, Specular);
    if specular.Some? && specular.value.propertyType == Float3Property {
      m := m.(specularColor := specular.value.float3Value);
    }
    var shininess := PropertyWith(material, SpecularExponent);
    if shininess.Some? && shininess.value.propertyType == FloatProperty {
      m := m.(shininess := shininess.value.floatValue);
    }
    var roughness := PropertyWith(material, Roughness);
    if roughness.Some? && roughness.value.propertyType == Float3Property {
      m := m.(roughness := roughness.value.floatValue);
    }
    var metallic := PropertyWith(material, Metallic);
    if metallic.Some? && metallic.value.propertyType == Float3Property {
      m := m.(metallic := metallic.value.floatValue);
    }
  }

  /** What `STLRSubmesh` keeps: the MetalKit submesh it draws (an index of the
      mesh's submesh list), its texture slots, material, the function
      constants it compiled with and its argument-buffer entries. */
  datatype Submesh = Submesh(mesh: nat, textures: TextureSlots<nat>, material: Material,
                             functionConstants: map<nat, bool>, argumentEntries: map<nat, Texture>)

  /** `STLRSubmesh.init(...)`: the texture slots, the material, the
      function constants and the argument buffer, wired to one another. */
  method NewSubmesh(registry: TextureRegistry.TextureController, loader: Texturable.Loader, mesh: nat,
                    material: Option<MdlMaterial>, assets: Option<Texturable.Bundle>) returns (s: Submesh)
    modifies registry
    ensures |old(registry.textures)| <= |registry.textures|
    ensures registry.textures[..|old(registry.textures)|] == old(registry.textures)
    ensures s.mesh == mesh
    ensures s.functionConstants.Keys == {0, 1, 2, 3, 4}
    ensures forall k :: k in s.argumentEntries ==>
      0 <= k < 5 && s.textures.Slot(k).Some? && s.textures.Slot(k).value < |registry.textures|
    ensures forall k :: 0 <= k < 5 ==>
      (s.functionConstants[k] <==> SlotLoads(loader, material, SlotSemantic(k), assets)) &&
      (k in s.argumentEntries <==> s.functionConstants[k])
    ensures forall k :: k in s.argumentEntries ==>
      s.argumentEntries[k] == registry.textures[s.textures.Slot(k).value] &&
      SlotLoads(loader, material, SlotSemantic(k), assets) &&
      s.argumentEntries[k].origin == TextureSource(material, SlotSemantic(k), assets).value
  {
    var textures := TexturesInit(registry, loader, material, assets);
    var m := MaterialInit(material);
    var constants := MakeFunctionConstants(textures);
    var entries := InitializeTextures(textures, registry.textures);
    s := Submesh(mesh, textures, m, constants, entries);
  }
}
