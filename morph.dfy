/** `STLRMorph` / `OBSDMorph`: a node whose vertex buffer holds several morph
    targets back to back, and whose instance buffer holds one record per
    instance naming the texture slice and morph target it shows. The two
    engines' classes agree on everything modelled here except the texture
    lookup: the constructor states the Stellar one, while `OBSDMorph`
    finds its slices through the Obsidian bundle lookup. */
module Morphs {
  import opened Wrappers
  import opened Matrix
  import opened Gpu
  import opened Layouts
  import opened Transforms
  import Texturable

  /** What loading one morph target gives: the length in bytes of its first
      vertex buffer. */
  datatype MeshBuffer = MeshBuffer(length: nat)

  /** One blit copy `copy(from:sourceOffset:to:destinationOffset:size:)` from
      the vertex buffer of target `target` into the combined vertex buffer. */
  datatype BufferCopy = BufferCopy(target: nat, sourceOffset: nat, destinationOffset: nat, size: nat)

  /** `MorphInstance`. */
  datatype MorphInstance = MorphInstance(modelMatrix: Mat, normalMatrix: NormalMatrix,
                                         textureID: nat, morphTargetID: nat)

  /** The copies the constructor's loop issues: target i, from offset 0, to
      offset `length_i * i`, `length_i` bytes. */
  predicate IsCopyPlan(copies: seq<BufferCopy>, targets: seq<MeshBuffer>)
  {
    |copies| == |targets| &&
    forall i :: 0 <= i < |targets| ==>
      copies[i] == BufferCopy(i, 0, targets[i].length * i, targets[i].length)
  }

  /** The per-target copy loop of `init`. */
  method CopyTargets(targets: seq<MeshBuffer>) returns (copies: seq<BufferCopy>)
    ensures IsCopyPlan(copies, targets)
  {
    copies := [];
    var i := 0;
    while i < |targets|
      invariant 0 <= i <= |targets|
      invariant IsCopyPlan(copies, targets[..i])
    {
      var buffer := targets[i];
      copies := copies + [BufferCopy(i, 0, buffer.length * i, buffer.length)];
      i := i + 1;
    }
    assert targets[..i] == targets;
  }

  /** When every target is as long as the first (the combined buffer is
      sized by the first), the copies tile the combined buffer: copy i fills
      exactly bytes [L·i, L·(i+1)), the copies are pairwise disjoint, in input
      order, and together end at the buffer's length L·n. */
  lemma {:induction false} CopiesTile(copies: seq<BufferCopy>, targets: seq<MeshBuffer>)
    requires IsCopyPlan(copies, targets) && |targets| > 0
    requires forall i :: 0 <= i < |targets| ==> targets[i].length == targets[0].length
    ensures var l := targets[0].length;
      (forall i :: 0 <= i < |copies| ==>
         copies[i].destinationOffset == l * i &&
         copies[i].destinationOffset + copies[i].size == l * (i + 1) &&
         copies[i].destinationOffset + copies[i].size <= l * |targets|) &&
      (forall i, j :: 0 <= i < j < |copies| ==>
         copies[i].destinationOffset + copies[i].size <= copies[j].destinationOffset)
  {
    var l := targets[0].length;
    forall i | 0 <= i < |copies|
      ensures copies[i].destinationOffset == l * i
      ensures copies[i].destinationOffset + copies[i].size == l * (i + 1)
      ensures copies[i].destinationOffset + copies[i].size <= l * |targets|
    {
      MulSucc(l, i);
      MulMonotone(l, i + 1, |targets|);
    }
    forall i, j | 0 <= i < j < |copies|
      ensures copies[i].destinationOffset + copies[i].size <= copies[j].destinationOffset
    {
      MulSucc(l, i);
      MulMonotone(l, i + 1, j);
    }
  }

  lemma MulSucc(l: nat, i: nat)
    ensures l * i + l == l * (i + 1)
  {
  }

  lemma MulMonotone(l: nat, a: nat, b: nat)
    requires a <= b
    ensures l * a <= l * b
  {
    assert l * b == l * a + l * (b - a);
  }

  /** With targets of different lengths the plan overruns the combined
      buffer: two targets of 4 and 8 bytes get a buffer of 8 bytes, but the
      second copy writes bytes 8 to 16. */
  lemma CopiesOverrunForUnequalTargets()
    ensures var targets := [MeshBuffer(4), MeshBuffer(8)];
      var copies := [BufferCopy(0, 0, 0, 4), BufferCopy(1, 0, 8, 8)];
      IsCopyPlan(copies, targets) &&
      copies[1].destinationOffset + copies[1].size > targets[0].length * |targets|
  {
  }

  /** The checks `updateBuffer` makes, as written: the texture and the
      morph-target IDs are compared with the counts, and nothing else. */
  predicate SourceUpdateGuard(textureID: int, morphTargetID: int, textureCount: nat, morphTargetCount: nat)
  {
    textureID < textureCount && morphTargetID < morphTargetCount
  }

  /** The record index `updateBuffer` writes, as written: it is `instance`
      itself whenever the ID guard passes. The buffer memory is bound with capacity
      `instanceCount`, but the index is never compared with it. */
  function SourceUpdateIndex(instance: int, textureID: int, morphTargetID: int,
                             textureCount: nat, morphTargetCount: nat): (r: Option<int>)
    ensures r.Some? <==> SourceUpdateGuard(textureID, morphTargetID, textureCount, morphTargetCount)
    ensures r.Some? ==> r.value == instance
  {
    if SourceUpdateGuard(textureID, morphTargetID, textureCount, morphTargetCount) then Some(instance) else None
  }

  /** The guard lets an out-of-range instance through: a morph with one
      instance, one texture and one target accepts `instance: 1` and writes
      the record past the end of its one-record buffer; negative IDs pass
      too, though `UInt32(_)` of them then traps. */
  lemma SourceUpdateWritesOutOfRange()
    ensures SourceUpdateIndex(1, 0, 0, 1, 1) == Some(1) && !(0 <= 1 < 1)
    ensures SourceUpdateGuard(-1, 0, 1, 1)
  {
  }

  /** Why a checked `updateBuffer` refuses a call. */
  datatype UpdateError = IDTooHigh | NegativeID | InstanceOutOfRange

  /** The checks with the instance bound the buffer capacity implies, and
      with IDs that `UInt32(_)` accepts. */
  function UpdateCheck(instance: int, textureID: int, morphTargetID: int,
                       instanceCount: nat, textureCount: nat, morphTargetCount: nat): (r: Option<UpdateError>)
    ensures r.None? <==>
      0 <= instance < instanceCount && 0 <= textureID < textureCount && 0 <= morphTargetID < morphTargetCount
    ensures r == Some(IDTooHigh) <==> !SourceUpdateGuard(textureID, morphTargetID, textureCount, morphTargetCount)
    ensures r == Some(NegativeID) ==> textureID < 0 || morphTargetID < 0
    ensures r == Some(InstanceOutOfRange) ==> !(0 <= instance < instanceCount)
  {
    if !SourceUpdateGuard(textureID, morphTargetID, textureCount, morphTargetCount) then Some(IDTooHigh)
    else if textureID < 0 || morphTargetID < 0 then Some(NegativeID)
    else if instance < 0 || instance >= instanceCount then Some(InstanceOutOfRange)
    else None
  }

  /** Every call the checked guard accepts, the source's guard accepts too,
      and writes the same record; the checked guard only adds the refusals
      of writes outside the buffer. */
  lemma UpdateCheckRefinesSource(instance: int, textureID: int, morphTargetID: int,
                                 instanceCount: nat, textureCount: nat, morphTargetCount: nat)
    requires UpdateCheck(instance, textureID, morphTargetID, instanceCount, textureCount, morphTargetCount).None?
    ensures SourceUpdateIndex(instance, textureID, morphTargetID, textureCount, morphTargetCount) == Some(instance)
    ensures 0 <= instance < instanceCount
  {
  }

  /** `loadTextureArray(textureNames:bundle: Bundle.main)` when every name
      loads: an array texture with one slice per name. */
  method LoadBaseColorTexture(loader: Texturable.Loader, textureNames: seq<string>, bundle: Texturable.Bundle)
      returns (t: Texture)
    requires |textureNames| > 0
    requires forall i :: 0 <= i < |textureNames| ==>
      loader.decode(Texturable.StellarTextureSource(textureNames[i], bundle)).Some?
    ensures fresh(t) && t.descriptor.textureType == Type2DArray && t.descriptor.arrayLength == |textureNames|
  {
    var sources := seq(|textureNames|, i requires 0 <= i < |textureNames| =>
                         Texturable.StellarTextureSource(textureNames[i], bundle));
    var r, _, _ := Texturable.LoadTextureArray(loader, sources);
    if r.Err? {
      assert false;
    }
    if r.value.None? {
      assert false;
    }
    t := r.value.value;
  }

  /** `buildInstanceBuffer` followed by the constructor's
      `updateBuffer(instance: 0, transform: Transform(), textureID: 0, morphtargetID: 0)`. */
  method NewInstanceBuffer(instanceCount: nat) returns (a: array<Option<MorphInstance>>)
    requires instanceCount > 0
    ensures fresh(a) && a.Length == instanceCount
    ensures a[0] == Some(MorphInstance(DefaultTransform.ModelMatrix(), DefaultTransform.NormalMatrix(), 0, 0))
    ensures forall k :: 1 <= k < a.Length ==> a[k].None?
  {
    a := new Option<MorphInstance>[instanceCount](_ => None);
    a[0] := Some(MorphInstance(DefaultTransform.ModelMatrix(), DefaultTransform.NormalMatrix(), 0, 0));
  }

  class Morph {
    const name: string
    const instanceCount: nat
    const morphTargetCount: nat
    const textureCount: nat
    /** The combined vertex buffer's length: the first target's length times
        the number of targets. */
    const vertexBufferLength: nat
    const vertexCount: nat
    /** The blit copies `init` issued into the combined buffer. */
    const targetCopies: seq<BufferCopy>
    /** The instance buffer; None is a record still all zero bytes. */
    const instances: array<Option<MorphInstance>>
    const baseColorTexture: Option<Texture>

    /** The shape of the buffers, which no method changes. */
    ghost predicate Valid()
      reads this
    {
      instances.Length == instanceCount && morphTargetCount > 0 && textureCount > 0
    }

    /** `init(name:instanceCount:textureNames:morphTargetNames:)`, given the
        vertex buffer each target name loads. Reading `morphTargetNames[0]`
        needs a target, every target must load (a failed load stops the
        process), the texture names must all load for `loadTextureArray`,
        and the final `updateBuffer(instance: 0, ..., textureID: 0, ...)`
        needs a texture and an instance. */
    constructor (name: string, instanceCount: nat, textureNames: seq<string>, targets: seq<MeshBuffer>,
                 loader: Texturable.Loader, bundle: Texturable.Bundle)
      requires |targets| > 0 && |textureNames| > 0 && instanceCount > 0
      requires forall i :: 0 <= i < |textureNames| ==>
        loader.decode(Texturable.StellarTextureSource(textureNames[i], bundle)).Some?
      ensures Valid()
      ensures this.name == name && this.instanceCount == instanceCount
      ensures morphTargetCount == |targets| && textureCount == |textureNames|
      ensures vertexBufferLength == targets[0].length * |targets|
      ensures vertexCount == targets[0].length / 32
      ensures IsCopyPlan(targetCopies, targets)
      ensures baseColorTexture.Some? && fresh(baseColorTexture.value)
      ensures baseColorTexture.value.descriptor.arrayLength == |textureNames|
      ensures fresh(instances)
      ensures instances[0] == Some(MorphInstance(DefaultTransform.ModelMatrix(), DefaultTransform.NormalMatrix(), 0, 0))
      ensures forall k :: 1 <= k < instances.Length ==> instances[k].None?
    {
      var bufferLength := targets[0].length;
      var layout := MorphVertexDescriptor();
      var copies := CopyTargets(targets);
      var arrayTexture := LoadBaseColorTexture(loader, textureNames, bundle);
      var buffer := NewInstanceBuffer(instanceCount);
      this.name := name;
      this.instanceCount := instanceCount;
      morphTargetCount := |targets|;
      textureCount := |textureNames|;
      vertexBufferLength := bufferLength * |targets|;
      vertexCount := bufferLength / layout.stride;
      targetCopies := copies;
      instances := buffer;
      baseColorTexture := Some(arrayTexture);
    }

    /** `updateBuffer(instance:transform:textureID:morphtargetID:)`, with the
        instance bound checked (see the finding in the README). On success
        record `instance` holds all four fields taken from the transform and
        the IDs, and every other record is unchanged; a refused call changes
        nothing. */
    method UpdateBuffer(instance: int, transform: Transform, textureID: int, morphTargetID: int)
        returns (r: Option<UpdateError>)
      requires Valid()
      modifies instances
      ensures r == UpdateCheck(instance, textureID, morphTargetID, instanceCount, textureCount, morphTargetCount)
      ensures r.None? ==>
        instances[..] == old(instances[..])[instance := Some(MorphInstance(
          transform.ModelMatrix(), transform.NormalMatrix(), textureID, morphTargetID))]
      ensures r.Some? ==> instances[..] == old(instances[..])
    {
      r := UpdateCheck(instance, textureID, morphTargetID, instanceCount, textureCount, morphTargetCount);
      if r.Some? {
        return;
      }
      instances[instance] := Some(MorphInstance(transform.ModelMatrix(), transform.NormalMatrix(),
                                                textureID, morphTargetID));
    }
  }
}
