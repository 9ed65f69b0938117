/** `MTLRenderPassDescriptor` as the engines fill it: eight colour
    attachments and a depth attachment, each naming the texture rendered
    into, the texture a multisampled image resolves into, and what happens to
    the contents at the start and the end of the pass. */
module PassDescriptors {
  import opened Gpu

  datatype LoadAction = LoadDontCare | LoadClear

  datatype StoreAction = StoreDontCare | Store | MultisampleResolve

  datatype ClearColor = ClearColor(red: real, green: real, blue: real, alpha: real)

  /** `MTLClearColorMake(0.66, 0.9, 0.96, 1)`, the clear colour of every
      attachment the engines set up. */
  const SkyBlue := ClearColor(0.66, 0.9, 0.96, 1.0)

  datatype ColorAttachment = ColorAttachment(texture: Texture?, resolveTexture: Texture?, loadAction: LoadAction,
                                             storeAction: StoreAction, clearColor: ClearColor)

  datatype DepthAttachment = DepthAttachment(texture: Texture?, resolveTexture: Texture?, loadAction: LoadAction,
                                             storeAction: StoreAction, clearDepth: real)

  const MaxColorAttachments: nat := 8

  /** The attachments of a new descriptor: no textures, contents neither
      loaded nor kept, opaque black and depth 1 as clear values. */
  const DefaultColorAttachment := ColorAttachment(null, null, LoadDontCare, StoreDontCare, ClearColor(0.0, 0.0, 0.0, 1.0))
  const DefaultDepthAttachment := DepthAttachment(null, null, LoadDontCare, StoreDontCare, 1.0)

  /** The colour attachments of a new descriptor. */
  function DefaultColorAttachments(): (r: seq<ColorAttachment>)
    ensures |r| == MaxColorAttachments
    ensures forall i :: 0 <= i < |r| ==> r[i] == DefaultColorAttachment
  {
    seq(MaxColorAttachments, _ => DefaultColorAttachment)
  }

  /** What `setUpColorAttachment(position:texture:resolveTexture:)` of
      RenderPass.swift makes of an attachment: cleared, resolved into
      `resolveTexture` at the end. */
  function ResolvingColorAttachment(texture: Texture, resolveTexture: Texture): ColorAttachment
  {
    ColorAttachment(texture, resolveTexture, LoadClear, MultisampleResolve, SkyBlue)
  }

  /** What `setUpDepthAttachment(texture:resolveTexture:)` makes of the depth
      attachment: cleared to 1, resolved into `resolveTexture`. */
  function ResolvingDepthAttachment(texture: Texture, resolveTexture: Texture): DepthAttachment
  {
    DepthAttachment(texture, resolveTexture, LoadClear, MultisampleResolve, 1.0)
  }

  /** What the renderers' `setUpColorAttachment(position:texture:)` makes of
      an attachment: it renders into `texture`, cleared to sky blue and
      stored; its resolve texture is kept. */
  function StoringColorAttachment(a: ColorAttachment, texture: Texture): (r: ColorAttachment)
    ensures r.texture == texture && r.resolveTexture == a.resolveTexture
    ensures r.loadAction == LoadClear && r.storeAction == Store && r.clearColor == SkyBlue
  {
    a.(texture := texture, loadAction := LoadClear, storeAction := Store, clearColor := SkyBlue)
  }

  /** What the renderers' `setUpDepthAttachment(texture:)` makes of the
      depth attachment: it renders into `texture`, cleared to 1 and stored;
      its resolve texture is kept. */
  function StoringDepthAttachment(a: DepthAttachment, texture: Texture): (r: DepthAttachment)
    ensures r.texture == texture && r.resolveTexture == a.resolveTexture
    ensures r.loadAction == LoadClear && r.storeAction == Store && r.clearDepth == 1.0
  {
    a.(texture := texture, loadAction := LoadClear, storeAction := Store, clearDepth := 1.0)
  }

  class PassDescriptor {
    var colorAttachments: seq<ColorAttachment>
    var depthAttachment: DepthAttachment

    /** `MTLRenderPassDescriptor()`. */
    constructor ()
      ensures |colorAttachments| == MaxColorAttachments
      ensures forall i :: 0 <= i < |colorAttachments| ==> colorAttachments[i] == DefaultColorAttachment
      ensures depthAttachment == DefaultDepthAttachment
    {
      colorAttachments := seq(MaxColorAttachments, _ => DefaultColorAttachment);
      depthAttachment := DefaultDepthAttachment;
    }

    /** The first three colour attachments render into `textures` and
        resolve into `resolveTextures`, index by index, the others are
        untouched, and the depth attachment renders into `depthTexture` and
        resolves into `depthResolve`. */
    ghost predicate ResolvesInto(textures: seq<Texture>, resolveTextures: seq<Texture>, depthTexture: Texture,
                                 depthResolve: Texture)
      reads this
    {
      |textures| == 3 && |resolveTextures| == 3 && |colorAttachments| == MaxColorAttachments &&
      (forall i :: 0 <= i < 3 ==> colorAttachments[i] == ResolvingColorAttachment(textures[i], resolveTextures[i])) &&
      (forall i :: 3 <= i < MaxColorAttachments ==> colorAttachments[i] == DefaultColorAttachment) &&
      depthAttachment == ResolvingDepthAttachment(depthTexture, depthResolve)
    }

    /** `setUpColorAttachment(position:texture:resolveTexture:)`
        (RenderPass.swift). */
    method SetUpResolvingColorAttachment(position: nat, texture: Texture, resolveTexture: Texture)
      requires position < |colorAttachments|
      modifies this
      ensures colorAttachments == old(colorAttachments)[position := ResolvingColorAttachment(texture, resolveTexture)]
      ensures depthAttachment == old(depthAttachment)
    {
      colorAttachments := colorAttachments[position := ResolvingColorAttachment(texture, resolveTexture)];
    }

    /** `setUpDepthAttachment(texture:resolveTexture:)` (RenderPass.swift). */
    method SetUpResolvingDepthAttachment(texture: Texture, resolveTexture: Texture)
      modifies this
      ensures depthAttachment == ResolvingDepthAttachment(texture, resolveTexture)
      ensures colorAttachments == old(colorAttachments)
    {
      depthAttachment := ResolvingDepthAttachment(texture, resolveTexture);
    }

    /** `setUpColorAttachment(position:texture:)` of both renderers. */
    method SetUpColorAttachment(position: nat, texture: Texture)
      requires position < |colorAttachments|
      modifies this
      ensures colorAttachments == old(colorAttachments)[position := StoringColorAttachment(old(colorAttachments)[position], texture)]
      ensures depthAttachment == old(depthAttachment)
    {
      var attachment := colorAttachments[position];
      attachment := attachment.(texture := texture, loadAction := LoadClear, storeAction := Store);
      attachment := attachment.(clearColor := SkyBlue);
      colorAttachments := colorAttachments[position := attachment];
    }

    /** `setUpDepthAttachment(texture:)` of both renderers. */
    method SetUpDepthAttachment(texture: Texture)
      modifies this
      ensures depthAttachment == StoringDepthAttachment(old(depthAttachment), texture)
      ensures colorAttachments == old(colorAttachments)
    {
      depthAttachment := depthAttachment.(texture := texture, loadAction := LoadClear, storeAction := Store);
      depthAttachment := depthAttachment.(clearDepth := 1.0);
    }
  }
}
