/** `STLRTerrain`: a tessellated ground made of a fixed grid of four-point
    patches, the sizing of its tessellation-factor buffer and the compute
    pass that fills it. Coordinates are exact reals here; the engine uses
    32-bit floats. */
module Terrains {
  import opened Wrappers
  import opened Matrix
  import opened Gpu
  import opened ShaderTypes
  import SceneGraph
  import Encoding
  import Texturable
  import Seqs

  /** The platform the engine is compiled for. */
  datatype Platform = MacOS | IOS

  /** `maxTessellation`: 64 on macOS and 16 elsewhere. */
  function MaxTessellation(platform: Platform): (r: nat)
    ensures platform == MacOS ==> r == 64
    ensures platform != MacOS ==> r == 16
  {
    match platform
    case MacOS => 64
    case IOS => 16
  }

  const FloatSize: nat := 4

  /** The length in bytes of `tessellationFactorsBuffer`: four edge factors
      and two inside factors per patch, sized as floats and halved, which is
      two bytes (one half float) per factor. */
  function TessellationFactorsBufferLength(patchCount: nat): (r: nat)
    ensures r == 2 * (6 * patchCount)
  {
    patchCount * (4 + 2) * FloatSize / 2
  }

  /** The side of one of n equal parts of the unit interval, `1 / n`; the
      value for n = 0 is never used. */
  function PartSize(n: nat): real
  {
    if n == 0 then 0.0 else 1.0 / n as real
  }

  /** n parts of size 1/n fill the unit interval. */
  lemma PartsFillUnit(n: nat)
    requires n > 0
    ensures PartSize(n) > 0.0 && PartSize(n) * n as real == 1.0
  {
  }

  /** The four unit-square corners of patch (i, j) for patches of the given
      width and height, as the loop body computes them: (left, top),
      (right, top), (right, bottom), (left, bottom), with y = 0. */
  function PatchCorners(i: nat, j: nat, patchWidth: real, patchHeight: real): (r: seq<Vec3>)
    ensures |r| == 4
  {
    var left := patchWidth * i as real;
    var bottom := patchHeight * j as real;
    var right := patchWidth * i as real + patchWidth;
    var top := patchHeight * j as real + patchHeight;
    [Vec3(left, 0.0, top), Vec3(right, 0.0, top), Vec3(right, 0.0, bottom), Vec3(left, 0.0, bottom)]
  }

  /** The corners of the first `i` patches of row j. */
  function UnitRow(j: nat, i: nat, patchWidth: real, patchHeight: real): (r: seq<Vec3>)
    ensures |r| == 4 * i
  {
    if i == 0 then [] else UnitRow(j, i - 1, patchWidth, patchHeight) + PatchCorners(i - 1, j, patchWidth, patchHeight)
  }

  /** The corners of the first `j` rows, each row of h patches. */
  function UnitGrid(j: nat, h: nat, patchWidth: real, patchHeight: real): (r: seq<Vec3>)
  {
    if j == 0 then [] else UnitGrid(j - 1, h, patchWidth, patchHeight) + UnitRow(j - 1, h, patchWidth, patchHeight)
  }

  /** The corners of an h × v grid before the map, rows 0 to v − 1 in order. */
  function UnitPoints(h: nat, v: nat): seq<Vec3>
  {
    UnitGrid(v, h, PartSize(h), PartSize(v))
  }

  /** The map to Metal coordinates: a unit corner c becomes c·size − size/2. */
  function ToMetal(p: Vec3, width: real, height: real): Vec3
  {
    Vec3(p.x * width - width / 2.0, 0.0, p.z * height - height / 2.0)
  }

  function MapToMetal(ps: seq<Vec3>, width: real, height: real): (r: seq<Vec3>)
    ensures |r| == |ps| && forall k :: 0 <= k < |ps| ==> r[k] == ToMetal(ps[k], width, height)
  {
    if |ps| == 0 then [] else MapToMetal(ps[..|ps| - 1], width, height) + [ToMetal(ps[|ps| - 1], width, height)]
  }

  /** `createControlPoints(patches:size:)`: the nested loops append the four
      corners of every patch, row after row, then every point is mapped to
      Metal coordinates. */
  method CreateControlPoints(h: nat, v: nat, width: real, height: real) returns (points: seq<Vec3>)
    ensures points == MapToMetal(UnitPoints(h, v), width, height)
  {
    points := [];
    // `1 / Float(0)` is infinite; it is never used, because the loop over
    // the patches of a row, or over the rows, is then empty.
    var patchWidth := if h == 0 then 0.0 else 1.0 / h as real;
    var patchHeight := if v == 0 then 0.0 else 1.0 / v as real;
    var j := 0;
    while j < v
      invariant 0 <= j <= v
      invariant points == UnitGrid(j, h, patchWidth, patchHeight)
    {
      var row := j as real;
      var i := 0;
      while i < h
        invariant 0 <= i <= h
        invariant points == UnitGrid(j, h, patchWidth, patchHeight) + UnitRow(j, i, patchWidth, patchHeight)
      {
        var column := i as real;
        var left := patchWidth * column;
        var bottom := patchHeight * row;
        var right := patchWidth * column + patchWidth;
        var top := patchHeight * row + patchHeight;
        var corners := [Vec3(left, 0.0, top), Vec3(right, 0.0, top), Vec3(right, 0.0, bottom), Vec3(left, 0.0, bottom)];
        ghost var patch := PatchCorners(i, j, patchWidth, patchHeight);
        assert corners[0] == patch[0] && corners[1] == patch[1] && corners[2] == patch[2] && corners[3] == patch[3];
        assert corners == patch;
        assert UnitRow(j, i + 1, patchWidth, patchHeight) == UnitRow(j, i, patchWidth, patchHeight) + corners;
        points := points + corners;
        i := i + 1;
      }
      j := j + 1;
    }
    points := MapToMetal(points, width, height);
  }

  /** Each row of the grid adds four points per patch. */
  lemma {:induction false} UnitGridLength(j: nat, h: nat, patchWidth: real, patchHeight: real)
    ensures |UnitGrid(j, h, patchWidth, patchHeight)| == 4 * h * j
  {
    if j > 0 {
      UnitGridLength(j - 1, h, patchWidth, patchHeight);
      assert 4 * h * j == 4 * h * (j - 1) + 4 * h;
    }
  }

  /** There are four control points per patch. */
  lemma ControlPointCount(h: nat, v: nat, width: real, height: real)
    ensures |MapToMetal(UnitPoints(h, v), width, height)| == 4 * h * v
  {
    UnitGridLength(v, h, PartSize(h), PartSize(v));
  }

  lemma {:induction false} UnitRowAt(j: nat, i: nat, patchWidth: real, patchHeight: real, k: nat, c: nat)
    requires k < i && c < 4
    ensures UnitRow(j, i, patchWidth, patchHeight)[4 * k + c] == PatchCorners(k, j, patchWidth, patchHeight)[c]
  {
    if k < i - 1 {
      UnitRowAt(j, i - 1, patchWidth, patchHeight, k, c);
    }
  }

  /** The index of corner c of patch k in row `row` lies inside the first
      `j` rows, and inside the last of them when `row` is j − 1. */
  lemma GridIndexBounds(j: nat, h: nat, row: nat, k: nat, c: nat)
    requires 0 < j && row < j && k < h && c < 4
    ensures 4 * (row * h + k) + c < 4 * h * j
    ensures row < j - 1 ==> 4 * (row * h + k) + c < 4 * h * (j - 1)
    ensures row == j - 1 ==> 4 * (row * h + k) + c == 4 * h * (j - 1) + 4 * k + c
  {
    var base := row * h;
    assert base + h == (row + 1) * h;
    if row < j - 1 {
      MulMonotone(h, row + 1, j - 1);
      assert (row + 1) * h <= (j - 1) * h;
      assert 4 * h * (j - 1) == 4 * ((j - 1) * h);
    } else {
      assert 4 * h * (j - 1) == 4 * base;
    }
    MulMonotone(h, row + 1, j);
    assert 4 * h * j == 4 * (j * h);
  }

  lemma MulMonotone(l: nat, a: nat, b: nat)
    requires a <= b
    ensures a * l <= b * l
  {
    assert b * l == a * l + (b - a) * l;
  }

  lemma {:induction false} UnitGridAt(j: nat, h: nat, patchWidth: real, patchHeight: real, row: nat, k: nat, c: nat)
    requires row < j && k < h && c < 4
    ensures 4 * (row * h + k) + c < |UnitGrid(j, h, patchWidth, patchHeight)|
    ensures UnitGrid(j, h, patchWidth, patchHeight)[4 * (row * h + k) + c] == PatchCorners(k, row, patchWidth, patchHeight)[c]
  {
    UnitGridLength(j, h, patchWidth, patchHeight);
    UnitGridLength(j - 1, h, patchWidth, patchHeight);
    GridIndexBounds(j, h, row, k, c);
    if row < j - 1 {
      UnitGridAt(j - 1, h, patchWidth, patchHeight, row, k, c);
    } else {
      UnitRowAt(row, h, patchWidth, patchHeight, k, c);
    }
  }

  /** Patches are laid out row-major: corner c of patch (i, j) of an h × v
      grid is control point 4·(j·h + i) + c. */
  lemma ControlPointAt(h: nat, v: nat, width: real, height: real, i: nat, j: nat, c: nat)
    requires i < h && j < v && c < 4
    ensures 4 * (j * h + i) + c < |MapToMetal(UnitPoints(h, v), width, height)|
    ensures MapToMetal(UnitPoints(h, v), width, height)[4 * (j * h + i) + c] ==
      ToMetal(PatchCorners(i, j, PartSize(h), PartSize(v))[c], width, height)
  {
    var unit := UnitPoints(h, v);
    var index := 4 * (j * h + i) + c;
    UnitGridAt(v, h, PartSize(h), PartSize(v), j, i, c);
    assert index < |unit|;
    assert unit[index] == PatchCorners(i, j, PartSize(h), PartSize(v))[c];
    assert MapToMetal(unit, width, height)[index] == ToMetal(unit[index], width, height);
  }

  /** A unit corner lies in the unit square on the ground. */
  predicate InUnitSquare(p: Vec3)
  {
    p.y == 0.0 && 0.0 <= p.x <= 1.0 && 0.0 <= p.z <= 1.0
  }

  /** The i-th of h equal parts of [0, 1] lies inside it. */
  lemma PartInUnit(i: nat, h: nat)
    requires i < h
    ensures 0.0 <= PartSize(h) * i as real && PartSize(h) * i as real + PartSize(h) <= 1.0
  {
    PartsFillUnit(h);
    var w := PartSize(h);
    var n := i as real + 1.0;
    assert n <= h as real;
    assert w * i as real + w == w * n;
    assert w * (h as real - n) >= 0.0;
  }

  lemma PatchCornersInUnitSquare(i: nat, j: nat, h: nat, v: nat)
    requires i < h && j < v
    ensures forall p :: p in PatchCorners(i, j, PartSize(h), PartSize(v)) ==> InUnitSquare(p)
  {
    PartInUnit(i, h);
    PartInUnit(j, v);
  }

  lemma {:induction false} UnitRowInUnitSquare(j: nat, i: nat, h: nat, v: nat)
    requires j < v && i <= h
    ensures forall p :: p in UnitRow(j, i, PartSize(h), PartSize(v)) ==> InUnitSquare(p)
  {
    if i > 0 {
      UnitRowInUnitSquare(j, i - 1, h, v);
      PatchCornersInUnitSquare(i - 1, j, h, v);
    }
  }

  lemma {:induction false} UnitGridInUnitSquare(j: nat, h: nat, v: nat)
    requires j <= v
    ensures forall p :: p in UnitGrid(j, h, PartSize(h), PartSize(v)) ==> InUnitSquare(p)
  {
    if j > 0 {
      UnitGridInUnitSquare(j - 1, h, v);
      UnitRowInUnitSquare(j - 1, h, h, v);
    }
  }

  /** Scaling [0, 1] by a non-negative size and centring it gives
      [−size/2, size/2]. */
  lemma CentredInRange(t: real, size: real)
    requires 0.0 <= t <= 1.0 && size >= 0.0
    ensures -size / 2.0 <= t * size - size / 2.0 <= size / 2.0
  {
    assert (1.0 - t) * size >= 0.0;
    assert t * size >= 0.0;
  }

  /** The map sends the unit square onto the terrain's rectangle. */
  lemma ToMetalInTerrain(q: Vec3, width: real, height: real)
    requires InUnitSquare(q) && width >= 0.0 && height >= 0.0
    ensures ToMetal(q, width, height).y == 0.0
    ensures -width / 2.0 <= ToMetal(q, width, height).x <= width / 2.0
    ensures -height / 2.0 <= ToMetal(q, width, height).z <= height / 2.0
  {
    CentredInRange(q.x, width);
    CentredInRange(q.z, height);
  }

  /** Every control point is on the ground (y = 0), and for a terrain of
      non-negative size its x lies in [−w/2, w/2] and its z in [−h/2, h/2]. */
  lemma ControlPointsInTerrain(h: nat, v: nat, width: real, height: real)
    requires width >= 0.0 && height >= 0.0
    ensures forall p :: p in MapToMetal(UnitPoints(h, v), width, height) ==>
      p.y == 0.0 && -width / 2.0 <= p.x <= width / 2.0 && -height / 2.0 <= p.z <= height / 2.0
  {
    var unit := UnitPoints(h, v);
    var points := MapToMetal(unit, width, height);
    UnitGridInUnitSquare(v, h, v);
    forall k | 0 <= k < |points|
      ensures points[k].y == 0.0 && -width / 2.0 <= points[k].x <= width / 2.0
      ensures -height / 2.0 <= points[k].z <= height / 2.0
    {
      assert unit[k] in unit;
      ToMetalInTerrain(unit[k], width, height);
    }
  }

  /** The slope map `heightToSlope` allocates: a 2D texture like the height
      map, without mipmaps, written and read by shaders. The Sobel filter
      that fills it is not modelled. */
  function SlopeDescriptor(source: TextureDescriptor): (d: TextureDescriptor)
    ensures d.textureType == Type2D && !d.mipmapped
    ensures d.pixelFormat == source.pixelFormat && d.width == source.width && d.height == source.height
    ensures d.usage == {ShaderWrite, ShaderRead}
  {
    Texture2DDescriptor(source.pixelFormat, source.width, source.height, false).(usage := {ShaderWrite, ShaderRead})
  }

  /** `heightToSlope(source:)`: a new texture for the slope map. */
  method HeightToSlope(source: Texture) returns (slope: Texture)
    ensures fresh(slope) && slope.descriptor == SlopeDescriptor(source.descriptor) && slope.origin == Allocated
  {
    slope := new Texture(SlopeDescriptor(source.descriptor), "", Allocated);
  }

  /** Whether Stellar's `loadTexture` finds and decodes an image. */
  predicate Loads(loader: Texturable.Loader, imageName: string, bundle: Texturable.Bundle)
  {
    loader.decode(Texturable.StellarTextureSource(imageName, bundle)).Some?
  }

  /** A texture `init` loads: `loadTexture` inside a `do` block whose
      `catch` stops the process. */
  method LoadMap(loader: Texturable.Loader, imageName: string, bundle: Texturable.Bundle) returns (t: Texture)
    requires Loads(loader, imageName, bundle)
    ensures fresh(t) && t.origin == Texturable.StellarTextureSource(imageName, bundle)
  {
    var r := Texturable.StellarLoadTexture(loader, imageName, bundle);
    t := r.value;
  }

  /** `init(withSize:heightScale:heightTexture:cliffTexture:snowTexture:grassTexture:)`.
      A texture that fails to load stops the process, so all four must
      load; each is taken from where Stellar's `loadTexture` finds it. */
  method NewTerrain(size: Vec2, heightScale: real, heightTexture: string, cliffTexture: string,
                    snowTexture: string, grassTexture: string, platform: Platform,
                    loader: Texturable.Loader, bundle: Texturable.Bundle) returns (t: Terrain)
    requires Loads(loader, heightTexture, bundle) && Loads(loader, cliffTexture, bundle)
    requires Loads(loader, snowTexture, bundle) && Loads(loader, grassTexture, bundle)
    ensures fresh(t) && fresh(t.node) && t.Initialized(size, heightScale, platform)
    ensures t.heightMap.origin == Texturable.StellarTextureSource(heightTexture, bundle)
    ensures t.cliffMap.origin == Texturable.StellarTextureSource(cliffTexture, bundle)
    ensures t.snowMap.origin == Texturable.StellarTextureSource(snowTexture, bundle)
    ensures t.grassMap.origin == Texturable.StellarTextureSource(grassTexture, bundle)
  {
    var h := LoadMap(loader, heightTexture, bundle);
    var c := LoadMap(loader, cliffTexture, bundle);
    var s := LoadMap(loader, snowTexture, bundle);
    var g := LoadMap(loader, grassTexture, bundle);
    t := new Terrain(size, heightScale, h, c, s, g, platform);
  }

  class Terrain {
    const node: SceneGraph.Node
    const heightMap: Texture
    const cliffMap: Texture
    const snowMap: Texture
    const grassMap: Texture
    const terrainSlope: Texture
    // `patches`: the grid's patches across and down.
    const horizontalPatches: nat
    const verticalPatches: nat
    const controlPoints: seq<Vec3>
    const tessellationFactorsBufferLength: nat
    const edgeFactors: seq<real>
    const insideFactors: seq<real>
    const tiling: real
    const terrainUniforms: TerrainUniforms

    /** The state `init` leaves, once the four maps are loaded: the slope
        map made from the height map, the control points of the 7 × 7 grid
        at the given size, one edge and one inside factor of 4, a tiling of
        32, and uniforms holding the size, the height scale and the
        platform's maximum tessellation. The node is a new, unlinked node
        named "Terrain". */
    ghost predicate Initialized(size: Vec2, heightScale: real, platform: Platform)
      reads this, node
    {
      node.kind == SceneGraph.TerrainNode && node.name == "Terrain" &&
      node.children == [] && node.parent == null &&
      terrainSlope.descriptor == SlopeDescriptor(heightMap.descriptor) &&
      horizontalPatches == 7 && verticalPatches == 7 &&
      controlPoints == MapToMetal(UnitPoints(horizontalPatches, verticalPatches), size.x, size.y) &&
      tessellationFactorsBufferLength == TessellationFactorsBufferLength(PatchCount()) &&
      edgeFactors == [4.0] && insideFactors == [4.0] && tiling == 32.0 &&
      terrainUniforms == TerrainUniforms(size, heightScale, MaxTessellation(platform))
    }

    /** `init(withSize:heightScale:heightTexture:cliffTexture:snowTexture:grassTexture:)`
        after its `do` block, given the maps it loaded. */
    constructor (size: Vec2, heightScale: real, heightMap: Texture, cliffMap: Texture,
                 snowMap: Texture, grassMap: Texture, platform: Platform)
      ensures fresh(node) && fresh(terrainSlope)
      ensures this.heightMap == heightMap && this.cliffMap == cliffMap
      ensures this.snowMap == snowMap && this.grassMap == grassMap
      ensures Initialized(size, heightScale, platform)
    {
      var across: nat, down: nat := 7, 7;
      horizontalPatches, verticalPatches := across, down;
      tessellationFactorsBufferLength := TessellationFactorsBufferLength(across * down);
      var points := CreateControlPoints(across, down, size.x, size.y);
      controlPoints := points;
      var slope := HeightToSlope(heightMap);
      terrainSlope := slope;
      node := new SceneGraph.Node("Terrain", SceneGraph.TerrainNode);
      this.heightMap := heightMap;
      this.cliffMap := cliffMap;
      this.snowMap := snowMap;
      this.grassMap := grassMap;
      edgeFactors := [4.0];
      insideFactors := [4.0];
      tiling := 32.0;
      terrainUniforms := TerrainUniforms(size, heightScale, MaxTessellation(platform));
    }

    /** `patchCount`: horizontal × vertical patches. */
    function PatchCount(): nat
    {
      horizontalPatches * verticalPatches
    }

    /** `min(patchCount, threadExecutionWidth)`, the threads per threadgroup. */
    function DispatchWidth(threadExecutionWidth: nat): (w: nat)
      ensures w <= PatchCount() && w <= threadExecutionWidth
      ensures w == PatchCount() || w == threadExecutionWidth
    {
      if PatchCount() <= threadExecutionWidth then PatchCount() else threadExecutionWidth
    }

    /** The tessellation pipeline and the kernel's arguments: the edge and
        inside factors, the factors buffer, the camera column of the view
        matrix, the node's model matrix, the control points and the
        uniforms, at indices 0 to 6. */
    function KernelArguments(viewMatrix: Mat4): (es: seq<Encoding.Event>)
      ensures |es| == 8
      ensures forall i :: 0 <= i < |es| ==> Encoding.Unprojected(es[i])
    {
      [Encoding.SetPipeline(Encoding.TessellationPipeline),
       Encoding.SetComputeArgument(Encoding.Factors(edgeFactors), 0),
       Encoding.SetComputeArgument(Encoding.Factors(insideFactors), 1),
       Encoding.SetComputeArgument(Encoding.TessellationFactorsBuffer(node), 2),
       Encoding.SetComputeArgument(Encoding.CameraColumn(viewMatrix.c3), 3),
       Encoding.SetComputeArgument(Encoding.ModelMatrixArgument(node), 4),
       Encoding.SetComputeArgument(Encoding.ControlPointsBuffer(node), 5),
       Encoding.SetComputeArgument(Encoding.TerrainUniformsArgument(terrainUniforms), 6)]
    }

    /** What `update(viewMatrix:)` encodes: a compute encoder running the
        tessellation kernel, dispatched as `patchCount` threadgroups of
        min(patchCount, threadExecutionWidth) threads, then ended. */
    function UpdateEvents(viewMatrix: Mat4, threadExecutionWidth: nat): (es: seq<Encoding.Event>)
      ensures |es| == 11
      ensures es[0] == Encoding.MakeEncoder(Encoding.TessellationPass) && es[|es| - 1] == Encoding.EndEncoding
      ensures es[|es| - 2] == Encoding.Dispatch(PatchCount(),
                                                if PatchCount() <= threadExecutionWidth then PatchCount()
                                                else threadExecutionWidth)
      ensures forall i :: 0 < i < |es| ==> Encoding.Unprojected(es[i])
    {
      [Encoding.MakeEncoder(Encoding.TessellationPass)] + KernelArguments(viewMatrix) +
      [Encoding.Dispatch(PatchCount(), DispatchWidth(threadExecutionWidth)), Encoding.EndEncoding]
    }

    /** `update(viewMatrix:)`, given the pipeline's thread execution width. */
    method Update(viewMatrix: Mat4, threadExecutionWidth: nat, trace: Encoding.Trace)
      modifies trace
      ensures trace.events == old(trace.events) + UpdateEvents(viewMatrix, threadExecutionWidth)
    {
      var width := if PatchCount() <= threadExecutionWidth then PatchCount() else threadExecutionWidth;
      trace.Record([Encoding.MakeEncoder(Encoding.TessellationPass)] + KernelArguments(viewMatrix) +
                   [Encoding.Dispatch(PatchCount(), width), Encoding.EndEncoding]);
    }
  }

  /** A new terrain has 7 × 7 = 49 patches, 196 control points and a
      tessellation-factor buffer of 588 bytes. */
  lemma InitializedGrid(t: Terrain, size: Vec2, heightScale: real, platform: Platform)
    requires t.Initialized(size, heightScale, platform)
    ensures t.PatchCount() == 49 && |t.controlPoints| == 196
    ensures t.tessellationFactorsBufferLength == 588
  {
    ControlPointCount(7, 7, size.x, size.y);
  }

  /** An update opens one encoder, for the tessellation pass, binds no
      model and draws nothing. */
  lemma UpdateOpensOneEncoder(t: Terrain, viewMatrix: Mat4, threadExecutionWidth: nat)
    ensures var es := t.UpdateEvents(viewMatrix, threadExecutionWidth);
      Encoding.Encoders(es) == [Encoding.TessellationPass] &&
      Encoding.ModelsDrawn(es) == [] && Encoding.Draws(es) == [] && Encoding.Submitted(es) == []
  {
    var es := t.UpdateEvents(viewMatrix, threadExecutionWidth);
    assert es == [es[0]] + es[1..];
    assert forall i :: 0 <= i < |es[1..]| ==> es[1..][i] == es[i + 1];
    Encoding.SingleProjections(es[0]);
    Encoding.UnprojectedProjections(es[1..]);
    Encoding.ProjectionsAppend([es[0]], es[1..]);
  }

  /** The tessellation passes of the terrains `ts`, one after another in
      list order. */
  function UpdatesOf(ts: seq<Terrain>, viewMatrix: Mat4, threadExecutionWidth: nat): seq<Encoding.Event>
    decreases |ts|
  {
    if |ts| == 0 then []
    else UpdatesOf(ts[..|ts| - 1], viewMatrix, threadExecutionWidth) +
         ts[|ts| - 1].UpdateEvents(viewMatrix, threadExecutionWidth)
  }

  /** The loop both scenes end `update(deltaTime:)` with: every terrain, in
      list order, encodes its tessellation pass. */
  method UpdateAll(ts: seq<Terrain>, viewMatrix: Mat4, threadExecutionWidth: nat, trace: Encoding.Trace)
    modifies trace
    ensures trace.events == old(trace.events) + UpdatesOf(ts, viewMatrix, threadExecutionWidth)
  {
    for i := 0 to |ts|
      invariant trace.events == old(trace.events) + UpdatesOf(ts[..i], viewMatrix, threadExecutionWidth)
    {
      UpdatesOfSnoc(ts, i, viewMatrix, threadExecutionWidth);
      ts[i].Update(viewMatrix, threadExecutionWidth, trace);
      Seqs.AppendAssociative(old(trace.events), UpdatesOf(ts[..i], viewMatrix, threadExecutionWidth),
                             ts[i].UpdateEvents(viewMatrix, threadExecutionWidth));
    }
    assert ts[..|ts|] == ts;
  }

  lemma UpdatesOfSnoc(ts: seq<Terrain>, i: nat, viewMatrix: Mat4, threadExecutionWidth: nat)
    requires i < |ts|
    ensures UpdatesOf(ts[..i + 1], viewMatrix, threadExecutionWidth) ==
            UpdatesOf(ts[..i], viewMatrix, threadExecutionWidth) + ts[i].UpdateEvents(viewMatrix, threadExecutionWidth)
  {
    assert ts[..i + 1][..i] == ts[..i];
  }

  /** Updating terrains opens one tessellation encoder per terrain, in
      order, binds no model and draws nothing. */
  lemma {:induction false} UpdatesOfEncoders(ts: seq<Terrain>, viewMatrix: Mat4, threadExecutionWidth: nat)
    ensures Encoding.Encoders(UpdatesOf(ts, viewMatrix, threadExecutionWidth)) ==
            seq(|ts|, _ => Encoding.TessellationPass)
    ensures Encoding.ModelsDrawn(UpdatesOf(ts, viewMatrix, threadExecutionWidth)) == []
    ensures Encoding.Draws(UpdatesOf(ts, viewMatrix, threadExecutionWidth)) == []
    ensures Encoding.Submitted(UpdatesOf(ts, viewMatrix, threadExecutionWidth)) == []
    decreases |ts|
  {
    if |ts| > 0 {
      var init := ts[..|ts| - 1];
      UpdatesOfEncoders(init, viewMatrix, threadExecutionWidth);
      UpdateOpensOneEncoder(ts[|ts| - 1], viewMatrix, threadExecutionWidth);
      Encoding.ProjectionsAppend(UpdatesOf(init, viewMatrix, threadExecutionWidth),
                                 ts[|ts| - 1].UpdateEvents(viewMatrix, threadExecutionWidth));
      assert seq(|ts|, _ => Encoding.TessellationPass) ==
             seq(|init|, _ => Encoding.TessellationPass) + [Encoding.TessellationPass];
    }
  }
}
