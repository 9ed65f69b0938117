/** Vertex buffer layouts: the byte offset of each attribute inside one
    vertex record and the record's stride, as the three vertex descriptors of
    the engines build them. */
module Layouts {

  datatype VertexFormat = Float2 | Float3 | Float4

  /** The number of bytes a Metal vertex attribute of the format occupies. */
  function FormatSize(f: VertexFormat): nat
  {
    match f
    case Float2 => 8
    case Float3 => 12
    case Float4 => 16
  }

  datatype AttributeName = Position | Normal | TextureCoordinate | Unnamed

  datatype VertexAttribute = VertexAttribute(name: AttributeName, format: VertexFormat, offset: nat, bufferIndex: nat)

  /** The attributes of buffer layout 0 and its stride. */
  datatype VertexDescriptor = VertexDescriptor(attributes: seq<VertexAttribute>, stride: nat)

  // Swift's `MemoryLayout<T>.stride` for the types the descriptors step by.
  const FloatStride: nat := 4
  const Float2Stride: nat := 8
  const Float3Stride: nat := 16

  /** Every attribute ends no later than the next one starts, and the last
      one ends within the stride: the attributes are in increasing order and
      never overlap. */
  ghost predicate NonOverlapping(d: VertexDescriptor)
  {
    forall k :: 0 <= k < |d.attributes| ==>
      d.attributes[k].offset + FormatSize(d.attributes[k].format) <=
        (if k + 1 < |d.attributes| then d.attributes[k + 1].offset else d.stride)
  }

  /** The offsets an accumulator produces that starts at 0 and adds each step:
      attribute k sits at the sum of the steps before it. */
  function Offsets(steps: seq<nat>): (r: seq<nat>)
    ensures |r| == |steps|
    ensures |steps| > 0 ==> r[0] == 0
    ensures forall k :: 0 <= k < |steps| - 1 ==> r[k + 1] == r[k] + steps[k]
  {
    if |steps| == 0 then []
    else [0] + Shift(Offsets(steps[1..]), steps[0])
  }

  function Shift(s: seq<nat>, d: nat): (r: seq<nat>)
    ensures |r| == |s| && forall k :: 0 <= k < |s| ==> r[k] == s[k] + d
  {
    if |s| == 0 then [] else [s[0] + d] + Shift(s[1..], d)
  }

  /** A descriptor built by an accumulator (an offset variable increased by
      each step after each attribute) is non-overlapping whenever each step
      is at least the size of the attribute it steps over. */
  lemma AccumulatedIsNonOverlapping(d: VertexDescriptor, steps: seq<nat>)
    requires |d.attributes| == |steps| > 0
    requires forall k :: 0 <= k < |steps| ==>
      d.attributes[k].offset == Offsets(steps)[k] && FormatSize(d.attributes[k].format) <= steps[k]
    requires d.stride == Offsets(steps)[|steps| - 1] + steps[|steps| - 1]
    ensures NonOverlapping(d)
  {
  }

  /** `MDLVertexDescriptor.defaultVertexDescriptor` of the Stellar submeshes:
      position and normal step by the padded `float3` stride, the texture
      coordinate by the `float2` stride. */
  method DefaultVertexDescriptor() returns (d: VertexDescriptor)
    ensures |d.attributes| == 3
    ensures d.attributes[0] == VertexAttribute(Position, Float3, 0, 0)
    ensures d.attributes[1] == VertexAttribute(Normal, Float3, 16, 0)
    ensures d.attributes[2] == VertexAttribute(TextureCoordinate, Float2, 32, 0)
    ensures d.stride == 40
    ensures NonOverlapping(d)
    ensures forall k :: 0 <= k < 3 ==> d.attributes[k].offset == Offsets([Float3Stride, Float3Stride, Float2Stride])[k]
  {
    var offset := 0;
    var position := VertexAttribute(Position, Float3, 0, 0);
    offset := offset + Float3Stride;
    var normal := VertexAttribute(Normal, Float3, offset, 0);
    offset := offset + Float3Stride;
    var uv := VertexAttribute(TextureCoordinate, Float2, offset, 0);
    offset := offset + Float2Stride;
    d := VertexDescriptor([position, normal, uv], offset);
    AccumulatedIsNonOverlapping(d, [Float3Stride, Float3Stride, Float2Stride]);
  }

  /** `mdlVertexDescriptor` of the morph nodes (both engines): positions and
      normals step by the packed size of three floats. */
  method MorphVertexDescriptor() returns (d: VertexDescriptor)
    ensures |d.attributes| == 3
    ensures d.attributes[0] == VertexAttribute(Position, Float3, 0, 0)
    ensures d.attributes[1] == VertexAttribute(Normal, Float3, 12, 0)
    ensures d.attributes[2] == VertexAttribute(TextureCoordinate, Float2, 24, 0)
    ensures d.stride == 32
    ensures NonOverlapping(d)
    ensures forall k :: 0 <= k < 3 ==> d.attributes[k].offset == Offsets([12, 12, Float2Stride])[k]
  {
    var offset := 0;
    var packedFloat3Size := FloatStride * 3;
    var position := VertexAttribute(Position, Float3, offset, 0);
    offset := offset + packedFloat3Size;
    var normal := VertexAttribute(Normal, Float3, offset, 0);
    offset := offset + packedFloat3Size;
    var uv := VertexAttribute(TextureCoordinate, Float2, offset, 0);
    offset := offset + Float2Stride;
    d := VertexDescriptor([position, normal, uv], offset);
    AccumulatedIsNonOverlapping(d, [12, 12, Float2Stride]);
  }

  /** `OBSDModel.vertexDescriptor`: five attributes at literal float offsets
      (position float4, normal, texture coordinate, tangent, bitangent). */
  function ObsidianModelVertexDescriptor(): VertexDescriptor
  {
    VertexDescriptor([VertexAttribute(Unnamed, Float4, 0, 0),
                      VertexAttribute(Unnamed, Float3, FloatStride * 4, 0),
                      VertexAttribute(Unnamed, Float2, FloatStride * 7, 0),
                      VertexAttribute(Unnamed, Float3, FloatStride * 9, 0),
                      VertexAttribute(Unnamed, Float3, FloatStride * 12, 0)],
                     FloatStride * 15)
  }

  /** The Obsidian model layout is tightly packed: its offsets 0, 16, 28, 36
      and 48 are the running sums of the attribute sizes and its stride 60 is
      where the last one ends, so no attribute overlaps another. */
  lemma ObsidianModelLayoutPacked()
    ensures var d := ObsidianModelVertexDescriptor();
      var sizes := seq(|d.attributes|, k requires 0 <= k < |d.attributes| => FormatSize(d.attributes[k].format));
      |d.attributes| == 5 &&
      (forall k :: 0 <= k < 5 ==> d.attributes[k].offset == Offsets(sizes)[k]) &&
      d.stride == Offsets(sizes)[4] + sizes[4] && d.stride == 60 &&
      NonOverlapping(d)
  {
    var d := ObsidianModelVertexDescriptor();
    var sizes := seq(|d.attributes|, k requires 0 <= k < |d.attributes| => FormatSize(d.attributes[k].format));
    assert sizes == [16, 12, 8, 12, 12];
    AccumulatedIsNonOverlapping(d, sizes);
  }
}
