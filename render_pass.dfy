/** `RenderPass` and `GBufferRenderPass`: sets of multisampled render
    targets, each with a single-sampled texture it resolves into, sized from
    the drawable and wired into a pass descriptor by index. Resizing replaces
    every texture and the descriptor. */
module RenderPasses {
  import opened Gpu
  import opened PassDescriptors

  /** `Int(size * 0.5)` for a size in whole pixels. */
  function Half(n: nat): nat
  {
    n / 2
  }

  /** `Int(size * multiplier)`: the scaled size, truncated. */
  function Scaled(n: nat, multiplier: real): (r: nat)
    requires multiplier >= 0.0
    ensures r as real <= n as real * multiplier < r as real + 1.0
  {
    (n as real * multiplier).Floor
  }

  /** Scaling by one half truncates just as halving does, so a G-buffer
      pass with multiplier 0.5 is sized as a plain render pass. */
  lemma ScaledByHalf(n: nat)
    ensures Scaled(n, 0.5) == Half(n)
  {
    var q := n / 2;
    assert n == 2 * q + n % 2;
    assert q as real <= n as real * 0.5 < q as real + 1.0;
  }

  /** `buildTexture(size:label:pixelFormat:sample:)`: half the size, 2D
      multisample with four samples, private, a render target read by
      shaders. */
  function TargetDescriptor(pixelFormat: PixelFormat, size: Size): (d: TextureDescriptor)
    ensures d.pixelFormat == pixelFormat && d.width == Half(size.width) && d.height == Half(size.height)
    ensures d.textureType == Type2DMultisample && d.sampleCount == 4 && !d.mipmapped
    ensures d.storageMode == Private && d.usage == {RenderTarget, ShaderRead}
  {
    Texture2DDescriptor(pixelFormat, Half(size.width), Half(size.height), false)
      .(textureType := Type2DMultisample, sampleCount := 4, storageMode := Private, usage := {RenderTarget, ShaderRead})
  }

  /** `buildResolveTexture(size:pixelFormat:)`: half the size, plain 2D with
      one sample and mipmaps, private, with the default usage. */
  function ResolveDescriptor(pixelFormat: PixelFormat, size: Size): (d: TextureDescriptor)
    ensures d.pixelFormat == pixelFormat && d.width == Half(size.width) && d.height == Half(size.height)
    ensures d.textureType == Type2D && d.sampleCount == 1 && d.mipmapped
    ensures d.storageMode == Private && d.usage == DefaultDescriptor.usage
  {
    Texture2DDescriptor(pixelFormat, Half(size.width), Half(size.height), true)
      .(textureType := Type2D, sampleCount := 1, storageMode := Private)
  }

  /** A resolve texture has the format and the dimensions of the target it
      resolves, and differs from it in sampling only. */
  lemma ResolveMatchesTarget(pixelFormat: PixelFormat, size: Size)
    ensures ResolveDescriptor(pixelFormat, size).pixelFormat == TargetDescriptor(pixelFormat, size).pixelFormat
    ensures ResolveDescriptor(pixelFormat, size).width == TargetDescriptor(pixelFormat, size).width
    ensures ResolveDescriptor(pixelFormat, size).height == TargetDescriptor(pixelFormat, size).height
    ensures ResolveDescriptor(pixelFormat, size).sampleCount < TargetDescriptor(pixelFormat, size).sampleCount
  {
  }

  method BuildTexture(size: Size, textureLabel: string, pixelFormat: PixelFormat) returns (t: Texture)
    ensures fresh(t) && t.descriptor == TargetDescriptor(pixelFormat, size) && t.name == textureLabel && t.origin == Allocated
  {
    t := new Texture(TargetDescriptor(pixelFormat, size), textureLabel, Allocated);
  }

  /** The resolve textures carry no label. */
  method BuildResolveTexture(size: Size, pixelFormat: PixelFormat) returns (t: Texture)
    ensures fresh(t) && t.descriptor == ResolveDescriptor(pixelFormat, size) && t.name == "" && t.origin == Allocated
  {
    t := new Texture(ResolveDescriptor(pixelFormat, size), "", Allocated);
  }

  /** `setupRenderPassDescriptor(textures:resolveTextures:depthTexture:depthTextureResolve:)`:
      a new descriptor whose colour attachments 0 to 2 render into
      `textures[i]` and resolve into `resolveTextures[i]`. Reading index 2
      of either array traps when it is shorter. */
  method SetupRenderPassDescriptor(textures: seq<Texture>, resolveTextures: seq<Texture>, depthTexture: Texture,
                                   depthTextureResolve: Texture) returns (d: PassDescriptor)
    requires |textures| >= 3 && |resolveTextures| >= 3
    ensures fresh(d)
    ensures d.ResolvesInto(textures[..3], resolveTextures[..3], depthTexture, depthTextureResolve)
  {
    d := new PassDescriptor();
    for i := 0 to 3
      invariant |d.colorAttachments| == MaxColorAttachments
      invariant forall k :: 0 <= k < i ==>
        d.colorAttachments[k] == ResolvingColorAttachment(textures[k], resolveTextures[k])
      invariant forall k :: i <= k < MaxColorAttachments ==> d.colorAttachments[k] == DefaultColorAttachment
      invariant d.depthAttachment == DefaultDepthAttachment
    {
      d.SetUpResolvingColorAttachment(i, textures[i], resolveTextures[i]);
    }
    d.SetUpResolvingDepthAttachment(depthTexture, depthTextureResolve);
  }

  /** The eight textures `init` and `updateTextures` build for a size, and
      the descriptor `setupRenderPassDescriptor` wires them into. */
  method BuildPassTargets(name: string, size: Size)
      returns (t: Texture, n: Texture, p: Texture, dt: Texture,
               tr: Texture, nr: Texture, pr: Texture, dr: Texture, d: PassDescriptor)
    ensures fresh(t) && fresh(n) && fresh(p) && fresh(dt) && fresh(tr) && fresh(nr) && fresh(pr) && fresh(dr)
    ensures fresh(d) && d.ResolvesInto([t, n, p], [tr, nr, pr], dt, dr)
    ensures t.descriptor == TargetDescriptor(BGRA8Unorm, size) && n.descriptor == TargetDescriptor(RGBA16Float, size)
    ensures p.descriptor == TargetDescriptor(RGBA16Float, size) && dt.descriptor == TargetDescriptor(Depth32Float, size)
    ensures tr.descriptor == ResolveDescriptor(BGRA8Unorm, size) && nr.descriptor == ResolveDescriptor(RGBA16Float, size)
    ensures pr.descriptor == ResolveDescriptor(RGBA16Float, size) && dr.descriptor == ResolveDescriptor(Depth32Float, size)
    ensures t.name == name && n.name == name && p.name == name && dt.name == name
  {
    t := BuildTexture(size, name, BGRA8Unorm);
    n := BuildTexture(size, name, RGBA16Float);
    p := BuildTexture(size, name, RGBA16Float);
    dt := BuildTexture(size, name, Depth32Float);
    tr := BuildResolveTexture(size, BGRA8Unorm);
    nr := BuildResolveTexture(size, RGBA16Float);
    pr := BuildResolveTexture(size, RGBA16Float);
    dr := BuildResolveTexture(size, Depth32Float);
    d := SetupRenderPassDescriptor([t, n, p], [tr, nr, pr], dt, dr);
    assert [t, n, p][..3] == [t, n, p] && [tr, nr, pr][..3] == [tr, nr, pr];
  }

  /** `RenderPass`, the reflection pass of a water surface. */
  class RenderPass {
    const name: string
    var texture: Texture
    var normal: Texture
    var position: Texture
    var depthTexture: Texture
    var textureResolve: Texture
    var normalResolve: Texture
    var positionResolve: Texture
    var depthTextureResolve: Texture
    var textures: seq<Texture>
    var resolveTextures: seq<Texture>
    var descriptor: PassDescriptor

    /** The arrays list the colour targets and their resolve textures in
        order, and the descriptor is wired to exactly those and the depth
        pair. */
    ghost predicate Valid()
      reads this, descriptor
    {
      textures == [texture, normal, position] &&
      resolveTextures == [textureResolve, normalResolve, positionResolve] &&
      descriptor.ResolvesInto(textures, resolveTextures, depthTexture, depthTextureResolve)
    }

    /** Every texture is built for `size`: bgra8 colour, rgba16F normal and
        position, depth32F depth, each target labelled with the pass name. */
    ghost predicate SizedTo(size: Size)
      reads this
    {
      texture.descriptor == TargetDescriptor(BGRA8Unorm, size) &&
      normal.descriptor == TargetDescriptor(RGBA16Float, size) &&
      position.descriptor == TargetDescriptor(RGBA16Float, size) &&
      depthTexture.descriptor == TargetDescriptor(Depth32Float, size) &&
      textureResolve.descriptor == ResolveDescriptor(BGRA8Unorm, size) &&
      normalResolve.descriptor == ResolveDescriptor(RGBA16Float, size) &&
      positionResolve.descriptor == ResolveDescriptor(RGBA16Float, size) &&
      depthTextureResolve.descriptor == ResolveDescriptor(Depth32Float, size) &&
      texture.name == name && normal.name == name && position.name == name && depthTexture.name == name
    }

    /** All eight textures and the descriptor were made since `old`. */
    twostate predicate Rebuilt()
      reads this
    {
      fresh(texture) && fresh(normal) && fresh(position) && fresh(depthTexture) &&
      fresh(textureResolve) && fresh(normalResolve) && fresh(positionResolve) && fresh(depthTextureResolve) &&
      fresh(descriptor)
    }

    /** `init(name:size:sample:)`; `sample` is not read. */
    constructor (name: string, size: Size)
      ensures this.name == name && Valid() && SizedTo(size)
      ensures fresh(texture) && fresh(normal) && fresh(position) && fresh(depthTexture)
      ensures fresh(textureResolve) && fresh(normalResolve) && fresh(positionResolve) && fresh(depthTextureResolve)
      ensures fresh(descriptor)
    {
      this.name := name;
      var t, n, p, dt, tr, nr, pr, dr, d := BuildPassTargets(name, size);
      texture, normal, position, depthTexture := t, n, p, dt;
      textureResolve, normalResolve, positionResolve, depthTextureResolve := tr, nr, pr, dr;
      textures := [t, n, p];
      resolveTextures := [tr, nr, pr];
      descriptor := d;
    }

    /** `updateTextures(size:)`: the same configuration as a new pass of
        that size, built entirely from new textures, so no attachment keeps
        a texture from before the call. */
    method UpdateTextures(size: Size)
      modifies this
      ensures Valid() && SizedTo(size)
      ensures fresh(texture) && fresh(normal) && fresh(position) && fresh(depthTexture)
      ensures fresh(textureResolve) && fresh(normalResolve) && fresh(positionResolve) && fresh(depthTextureResolve)
      ensures fresh(descriptor)
    {
      var t, n, p, dt, tr, nr, pr, dr, d := BuildPassTargets(name, size);
      Install(t, n, p, dt, tr, nr, pr, dr, d);
    }

    /** The assignments that end `updateTextures(size:)`. */
    method Install(t: Texture, n: Texture, p: Texture, dt: Texture,
                   tr: Texture, nr: Texture, pr: Texture, dr: Texture, d: PassDescriptor)
      modifies this
      ensures texture == t && normal == n && position == p && depthTexture == dt
      ensures textureResolve == tr && normalResolve == nr && positionResolve == pr && depthTextureResolve == dr
      ensures resolveTextures == [tr, nr, pr] && textures == [t, n, p] && descriptor == d
    {
      texture, normal, position, depthTexture := t, n, p, dt;
      textureResolve, normalResolve, positionResolve, depthTextureResolve := tr, nr, pr, dr;
      textures := [t, n, p];
      resolveTextures := [tr, nr, pr];
      descriptor := d;
    }
  }

  /** The G-buffer overload of `buildTexture`, which takes a size multiplier
      and a `sample` flag: the scaled size, 2D multisample with four samples
      when `sample` is set and plain 2D with one sample otherwise, private,
      a render target read by shaders. */
  function GBufferDescriptor(pixelFormat: PixelFormat, size: Size, multiplier: real, sample: bool): (d: TextureDescriptor)
    requires multiplier >= 0.0
    ensures d.pixelFormat == pixelFormat
    ensures d.width == Scaled(size.width, multiplier) && d.height == Scaled(size.height, multiplier)
    ensures d.sampleCount == (if sample then 4 else 1)
    ensures d.textureType == (if sample then Type2DMultisample else Type2D)
    ensures d.storageMode == Private && d.usage == {RenderTarget, ShaderRead}
  {
    Texture2DDescriptor(pixelFormat, Scaled(size.width, multiplier), Scaled(size.height, multiplier), false)
      .(textureType := if sample then Type2DMultisample else Type2D, sampleCount := if sample then 4 else 1,
        storageMode := Private, usage := {RenderTarget, ShaderRead})
  }

  method BuildGBufferTexture(size: Size, multiplier: real, textureLabel: string, pixelFormat: PixelFormat, sample: bool)
      returns (t: Texture)
    requires multiplier >= 0.0
    ensures fresh(t) && t.descriptor == GBufferDescriptor(pixelFormat, size, multiplier, sample)
    ensures t.name == textureLabel && t.origin == Allocated
  {
    t := new Texture(GBufferDescriptor(pixelFormat, size, multiplier, sample), textureLabel, Allocated);
  }

  /** `GBufferRenderPass`. */
  class GBufferRenderPass {
    const name: string
    const multiplier: real
    var albedo: Texture
    var normal: Texture
    var position: Texture
    var depthTexture: Texture
    var albedoResolve: Texture
    var normalResolve: Texture
    var positionResolve: Texture
    var depthTextureResolve: Texture
    var textures: seq<Texture>
    var resolveTextures: seq<Texture>
    var descriptor: PassDescriptor

    /** `textures` is [albedo, normal, position], `resolveTextures` the
        matching resolve trio, and the descriptor is wired to exactly these
        and the depth pair. */
    ghost predicate Valid()
      reads this, descriptor
    {
      multiplier >= 0.0 &&
      textures == [albedo, normal, position] &&
      resolveTextures == [albedoResolve, normalResolve, positionResolve] &&
      descriptor.ResolvesInto(textures, resolveTextures, depthTexture, depthTextureResolve)
    }

    /** Four multisampled targets (bgra8, rgba16F, rgba16F, depth32F)
        labelled with the pass name and four single-sampled resolve textures
        of the same formats, all of the scaled size. */
    ghost predicate SizedTo(size: Size)
      requires multiplier >= 0.0
      reads this
    {
      albedo.descriptor == GBufferDescriptor(BGRA8Unorm, size, multiplier, true) &&
      normal.descriptor == GBufferDescriptor(RGBA16Float, size, multiplier, true) &&
      position.descriptor == GBufferDescriptor(RGBA16Float, size, multiplier, true) &&
      depthTexture.descriptor == GBufferDescriptor(Depth32Float, size, multiplier, true) &&
      albedoResolve.descriptor == GBufferDescriptor(BGRA8Unorm, size, multiplier, false) &&
      normalResolve.descriptor == GBufferDescriptor(RGBA16Float, size, multiplier, false) &&
      positionResolve.descriptor == GBufferDescriptor(RGBA16Float, size, multiplier, false) &&
      depthTextureResolve.descriptor == GBufferDescriptor(Depth32Float, size, multiplier, false) &&
      albedo.name == name && normal.name == name && position.name == name && depthTexture.name == name &&
      albedoResolve.name == name + " Albedo Texture - Resolved" &&
      normalResolve.name == name + " Normal Texture - Resolved" &&
      positionResolve.name == name + " Position Texture - Resolved" &&
      depthTextureResolve.name == name + " Depth Texture - Resolved"
    }

    twostate predicate Rebuilt()
      reads this
    {
      fresh(albedo) && fresh(normal) && fresh(position) && fresh(depthTexture) &&
      fresh(albedoResolve) && fresh(normalResolve) && fresh(positionResolve) && fresh(depthTextureResolve) &&
      fresh(descriptor)
    }

    /** `init(name:size:multiplier:sample:)`: the block before `new` stands
        in for the base initialiser (whose own `texture` fields the G-buffer
        pass never reads, and which are not modelled) by giving every field
        a first value; then `updateTextures(size:)` runs, so the G-buffer
        textures are in place once construction ends. */
    constructor (name: string, size: Size, multiplier: real)
      requires multiplier >= 0.0
      ensures this.name == name && this.multiplier == multiplier
      ensures Valid() && SizedTo(size)
      ensures fresh(albedo) && fresh(normal) && fresh(position) && fresh(depthTexture)
      ensures fresh(albedoResolve) && fresh(normalResolve) && fresh(positionResolve) && fresh(depthTextureResolve)
      ensures fresh(descriptor)
    {
      this.name := name;
      this.multiplier := multiplier;
      var t, n, p, dt, tr, nr, pr, dr, d := BuildGBufferTargets(name, size, multiplier);
      albedo, normal, position, depthTexture := t, n, p, dt;
      albedoResolve, normalResolve, positionResolve, depthTextureResolve := tr, nr, pr, dr;
      textures := [t, n, p];
      resolveTextures := [tr, nr, pr];
      descriptor := d;
      new;
      UpdateTextures(size);
    }

    /** The overriding `updateTextures(size:)`: eight new textures and a new
        descriptor built from exactly them. */
    method UpdateTextures(size: Size)
      requires multiplier >= 0.0
      modifies this
      ensures Valid() && SizedTo(size) && Rebuilt()
    {
      var t, n, p, dt, tr, nr, pr, dr, d := BuildGBufferTargets(name, size, multiplier);
      Install(t, n, p, dt, tr, nr, pr, dr, d);
    }

    /** The assignments that end `updateTextures(size:)`. */
    method Install(t: Texture, n: Texture, p: Texture, dt: Texture,
                   tr: Texture, nr: Texture, pr: Texture, dr: Texture, d: PassDescriptor)
      modifies this
      ensures albedo == t && normal == n && position == p && depthTexture == dt
      ensures albedoResolve == tr && normalResolve == nr && positionResolve == pr && depthTextureResolve == dr
      ensures resolveTextures == [tr, nr, pr] && textures == [t, n, p] && descriptor == d
    {
      albedo, normal, position, depthTexture := t, n, p, dt;
      albedoResolve, normalResolve, positionResolve, depthTextureResolve := tr, nr, pr, dr;
      textures := [t, n, p];
      resolveTextures := [tr, nr, pr];
      descriptor := d;
    }
  }

  /** The eight textures the G-buffer `updateTextures` builds and the
      descriptor wired to them. */
  method BuildGBufferTargets(name: string, size: Size, multiplier: real)
      returns (t: Texture, n: Texture, p: Texture, dt: Texture,
               tr: Texture, nr: Texture, pr: Texture, dr: Texture, d: PassDescriptor)
    requires multiplier >= 0.0
    ensures fresh(t) && fresh(n) && fresh(p) && fresh(dt) && fresh(tr) && fresh(nr) && fresh(pr) && fresh(dr)
    ensures fresh(d) && d.ResolvesInto([t, n, p], [tr, nr, pr], dt, dr)
    ensures t.descriptor == GBufferDescriptor(BGRA8Unorm, size, multiplier, true)
    ensures n.descriptor == GBufferDescriptor(RGBA16Float, size, multiplier, true)
    ensures p.descriptor == GBufferDescriptor(RGBA16Float, size, multiplier, true)
    ensures dt.descriptor == GBufferDescriptor(Depth32Float, size, multiplier, true)
    ensures tr.descriptor == GBufferDescriptor(BGRA8Unorm, size, multiplier, false)
    ensures nr.descriptor == GBufferDescriptor(RGBA16Float, size, multiplier, false)
    ensures pr.descriptor == GBufferDescriptor(RGBA16Float, size, multiplier, false)
    ensures dr.descriptor == GBufferDescriptor(Depth32Float, size, multiplier, false)
    ensures t.name == name && n.name == name && p.name == name && dt.name == name
    ensures tr.name == name + " Albedo Texture - Resolved" && nr.name == name + " Normal Texture - Resolved"
    ensures pr.name == name + " Position Texture - Resolved" && dr.name == name + " Depth Texture - Resolved"
  {
    t := BuildGBufferTexture(size, multiplier, name, BGRA8Unorm, true);
    n := BuildGBufferTexture(size, multiplier, name, RGBA16Float, true);
    p := BuildGBufferTexture(size, multiplier, name, RGBA16Float, true);
    dt := BuildGBufferTexture(size, multiplier, name, Depth32Float, true);
    tr := BuildGBufferTexture(size, multiplier, name + " Albedo Texture - Resolved", BGRA8Unorm, false);
    nr := BuildGBufferTexture(size, multiplier, name + " Normal Texture - Resolved", RGBA16Float, false);
    pr := BuildGBufferTexture(size, multiplier, name + " Position Texture - Resolved", RGBA16Float, false);
    dr := BuildGBufferTexture(size, multiplier, name + " Depth Texture - Resolved", Depth32Float, false);
    d := SetupRenderPassDescriptor([t, n, p], [tr, nr, pr], dt, dr);
    assert [t, n, p][..3] == [t, n, p] && [tr, nr, pr][..3] == [tr, nr, pr];
  }
}
