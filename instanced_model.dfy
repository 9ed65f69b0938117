/** `OBSDModel`: a mesh loaded from an .obj asset, drawn `instanceCount`
    times from one instance buffer that holds one record per transform. */
module InstancedModels {
  import opened Wrappers
  import opened Matrix
  import opened Transforms
  import opened ShaderTypes
  import SceneGraph
  import Encoding
  import Seqs

  /** `buildTransforms(instanceCount:)`: one default transform per instance. */
  function BuildTransforms(instanceCount: nat): (ts: seq<Transform>)
    ensures |ts| == instanceCount
    ensures forall i :: 0 <= i < |ts| ==> ts[i] == DefaultTransform
  {
    seq(instanceCount, _ => DefaultTransform)
  }

  /** `buildInstanceBuffer(transforms:)`: a new buffer holding, in order, the
      record of each transform. */
  method BuildInstanceBuffer(transforms: seq<Transform>) returns (buffer: array<Instance>)
    ensures fresh(buffer) && buffer.Length == |transforms|
    ensures forall i :: 0 <= i < |transforms| ==> buffer[i] == InstanceOf(transforms[i])
  {
    buffer := new Instance[|transforms|](i requires 0 <= i < |transforms| => InstanceOf(transforms[i]));
  }

  /** What `MDLMesh.submeshes` holds: objects that may or may not cast to
      `MDLSubmesh`. A ModelIO submesh is known here by its name only. */
  datatype MdlObject = IsSubmesh(submeshName: string) | OtherObject

  /** What `MDLAsset(url:...)` yields for an .obj file: the first object's
      submesh list (nil when it has none), whether `MTKMesh(mesh:device:)`
      succeeds, and how many vertex buffers the mesh then has. */
  datatype Asset = Asset(objects: Option<seq<MdlObject>>, meshBuilds: bool, vertexBufferCount: nat)

  /** `OBSDSubmesh(submesh:mdlSubmesh:...)`: the position of its ModelIO
      submesh in the mesh's list, that submesh and the shader function names. */
  datatype ModelSubmesh = ModelSubmesh(index: nat, submeshName: string,
                                       vertexFunctionName: string, fragmentFunctionName: string)

  /** `mdlMesh.submeshes?.enumerated().compactMap { ... }`: one submesh per
      object that casts, carrying its position in the list. */
  function CastSubmeshes(objects: seq<MdlObject>, vertexFunctionName: string, fragmentFunctionName: string)
      : (r: seq<ModelSubmesh>)
    ensures |r| <= |objects|
    ensures forall i :: 0 <= i < |r| ==>
      r[i].index < |objects| && objects[r[i].index] == IsSubmesh(r[i].submeshName) &&
      r[i].vertexFunctionName == vertexFunctionName && r[i].fragmentFunctionName == fragmentFunctionName
    ensures forall i, j :: 0 <= i < j < |r| ==> r[i].index < r[j].index
  {
    if |objects| == 0 then []
    else
      var front := CastSubmeshes(objects[..|objects| - 1], vertexFunctionName, fragmentFunctionName);
      match objects[|objects| - 1]
      case IsSubmesh(name) => front + [ModelSubmesh(|objects| - 1, name, vertexFunctionName, fragmentFunctionName)]
      case OtherObject => front
  }

  /** No object that casts is dropped: every one has its submesh. */
  lemma {:induction false} CastSubmeshesComplete(objects: seq<MdlObject>, vertexFunctionName: string,
                                                 fragmentFunctionName: string, k: nat)
    requires k < |objects| && objects[k].IsSubmesh?
    ensures exists i :: (0 <= i < |CastSubmeshes(objects, vertexFunctionName, fragmentFunctionName)| &&
                         CastSubmeshes(objects, vertexFunctionName, fragmentFunctionName)[i].index == k)
    decreases |objects|
  {
    var r := CastSubmeshes(objects, vertexFunctionName, fragmentFunctionName);
    if k == |objects| - 1 {
      assert r[|r| - 1].index == k;
    } else {
      var front := objects[..|objects| - 1];
      CastSubmeshesComplete(front, vertexFunctionName, fragmentFunctionName, k);
      var i :| 0 <= i < |CastSubmeshes(front, vertexFunctionName, fragmentFunctionName)| &&
        CastSubmeshes(front, vertexFunctionName, fragmentFunctionName)[i].index == k;
      assert r[i] == CastSubmeshes(front, vertexFunctionName, fragmentFunctionName)[i];
    }
  }

  /** A list with no object that casts yields no submeshes, as a missing list does. */
  lemma {:induction false} CastSubmeshesNone(objects: seq<MdlObject>, vertexFunctionName: string,
                                             fragmentFunctionName: string)
    requires forall k :: 0 <= k < |objects| ==> objects[k] == OtherObject
    ensures CastSubmeshes(objects, vertexFunctionName, fragmentFunctionName) == []
    decreases |objects|
  {
    if |objects| > 0 {
      CastSubmeshesNone(objects[..|objects| - 1], vertexFunctionName, fragmentFunctionName);
    }
  }

  datatype ModelError = AssetMissing(modelName: string)

  /** The meshes `loadModel` leaves in the model: the mesh's vertex buffer
      count (nil when the mesh did not build) and the submesh list. */
  datatype LoadedModel = LoadedModel(vertexBufferCount: Option<nat>, submeshes: Option<seq<ModelSubmesh>>)

  /** `loadModel(modelName:vertexFunctionName:fragmentFunctionName:)`, given
      the .obj assets of the main bundle. A missing asset is an error (the
      engine stops). When building the mesh throws, the error is only logged
      and the model keeps neither mesh nor submeshes; otherwise it keeps the
      cast submeshes, or none when the mesh has no list. */
  function LoadModel(modelName: string, vertexFunctionName: string, fragmentFunctionName: string,
                     assets: map<string, Asset>): (r: Result<LoadedModel, ModelError>)
    ensures r.Err? <==> modelName !in assets
    ensures r.Err? ==> r.error == AssetMissing(modelName)
    ensures r.Ok? ==>
      (r.value.vertexBufferCount.Some? <==> assets[modelName].meshBuilds) &&
      (r.value.submeshes.Some? <==> assets[modelName].meshBuilds)
    ensures r.Ok? && assets[modelName].meshBuilds ==>
      r.value.vertexBufferCount.value == assets[modelName].vertexBufferCount &&
      r.value.submeshes.value ==
        CastSubmeshes(assets[modelName].objects.GetOr([]), vertexFunctionName, fragmentFunctionName)
  {
    if modelName !in assets then Err(AssetMissing(modelName))
    else
      var asset := assets[modelName];
      if !asset.meshBuilds then Ok(LoadedModel(None, None))
      else
        var objects := match asset.objects case Some(os) => os case None => [];
        Ok(LoadedModel(Some(asset.vertexBufferCount),
                       Some(CastSubmeshes(objects, vertexFunctionName, fragmentFunctionName))))
  }

  /** `init(modelName:vertexFunctionName:fragmentFunctionName:instanceCount:)`:
      fails when the asset is missing. */
  method NewInstancedModel(modelName: string, vertexFunctionName: string, fragmentFunctionName: string,
                           instanceCount: nat, assets: map<string, Asset>)
      returns (r: Result<InstancedModel, ModelError>)
    ensures r.Err? <==> LoadModel(modelName, vertexFunctionName, fragmentFunctionName, assets).Err?
    ensures r.Ok? ==>
      var loaded := LoadModel(modelName, vertexFunctionName, fragmentFunctionName, assets).value;
      fresh(r.value) && fresh(r.value.node) && fresh(r.value.instanceBuffer) && r.value.Valid() &&
      r.value.node.name == modelName && r.value.instanceCount == instanceCount &&
      r.value.transforms == BuildTransforms(instanceCount) &&
      r.value.vertexBufferCount == loaded.vertexBufferCount && r.value.submeshes == loaded.submeshes &&
      r.value.tiling == 1
  {
    var loaded := LoadModel(modelName, vertexFunctionName, fragmentFunctionName, assets);
    if loaded.Err? {
      return Err(loaded.error);
    }
    var model := new InstancedModel(modelName, instanceCount, loaded.value);
    return Ok(model);
  }

  class InstancedModel {
    const node: SceneGraph.Node
    const instanceCount: nat
    var transforms: seq<Transform>
    const instanceBuffer: array<Instance>
    const vertexBufferCount: Option<nat>
    const submeshes: Option<seq<ModelSubmesh>>
    var tiling: nat

    /** The instance buffer has one record per transform, each the record of
        its transform. */
    ghost predicate Valid()
      reads this, instanceBuffer
    {
      |transforms| == instanceCount && instanceBuffer.Length == instanceCount &&
      forall i :: 0 <= i < instanceCount ==> instanceBuffer[i] == InstanceOf(transforms[i])
    }

    /** The model node is named after the asset and knows its submesh count. */
    constructor (modelName: string, instanceCount: nat, loaded: LoadedModel)
      ensures Valid() && fresh(node) && fresh(instanceBuffer)
      ensures node.name == modelName && node.children == [] && node.parent == null
      ensures node.kind == SceneGraph.ModelNode(if loaded.submeshes.Some? then Some(|loaded.submeshes.value|) else None)
      ensures this.instanceCount == instanceCount && transforms == BuildTransforms(instanceCount)
      ensures vertexBufferCount == loaded.vertexBufferCount && submeshes == loaded.submeshes
      ensures tiling == 1
    {
      var ts := BuildTransforms(instanceCount);
      var buffer := BuildInstanceBuffer(ts);
      this.instanceCount := instanceCount;
      transforms := ts;
      instanceBuffer := buffer;
      node := new SceneGraph.Node(modelName, SceneGraph.ModelNode(
        if loaded.submeshes.Some? then Some(|loaded.submeshes.value|) else None));
      vertexBufferCount := loaded.vertexBufferCount;
      submeshes := loaded.submeshes;
      tiling := 1;
    }

    /** `updateBuffer(instance:transform:)`: the transform and the buffer
        record of `instance` are replaced, every other record is unchanged,
        and the buffer keeps matching the transforms. An index outside the
        transforms traps. */
    method UpdateBuffer(instance: nat, transform: Transform)
      requires Valid()
      requires instance < |transforms|
      modifies this, instanceBuffer
      ensures Valid()
      ensures transforms == old(transforms)[instance := transform]
      ensures instanceBuffer[..] == old(instanceBuffer[..])[instance := InstanceOf(transform)]
      ensures tiling == old(tiling)
    {
      transforms := transforms[instance := transform];
      instanceBuffer[instance] := InstanceOf(transforms[instance]);
    }

    /** The events of `doRender` before the vertex-buffer loop. */
    function PreambleEvents(uniforms: Uniforms, fragmentUniforms: FragmentUniforms): (es: seq<Encoding.Event>)
      reads this, node
      ensures |es| == 4
    {
      [Encoding.SetVertexBuffer(Encoding.InstanceBuffer(node), BufferIndexInstances),
       Encoding.SetFragmentSampler(node, 0),
       Encoding.SetFragmentUniforms(fragmentUniforms.(tiling := tiling), BufferIndexFragmentUniforms),
       Encoding.SetVertexUniforms(uniforms.(modelMatrix := WorldTransformOf(node),
                                            normalMatrix := NormalOfModelMatrix(node)), BufferIndexUniforms)]
    }

    /** Binding the first `n` mesh vertex buffers, buffer i at index i. */
    function VertexBufferEvents(n: nat): (es: seq<Encoding.Event>)
      ensures |es| == n
      ensures forall i :: 0 <= i < n ==> es[i] == Encoding.SetVertexBuffer(Encoding.ModelVertexBuffer(node, i), i)
    {
      if n == 0 then [] else VertexBufferEvents(n - 1) + [Encoding.SetVertexBuffer(Encoding.ModelVertexBuffer(node, n - 1), n - 1)]
    }

    /** What one iteration of the submesh loop binds: pipeline, textures 0
        to 4 and the material. */
    function SubmeshBindings(j: nat): (es: seq<Encoding.Event>)
      ensures |es| == 7
      ensures forall i :: 0 <= i < 7 ==> Encoding.Unprojected(es[i])
    {
      [Encoding.SetPipeline(Encoding.SubmeshPipeline(node, j)),
       Encoding.SetFragmentTexture(Encoding.SubmeshTexture(node, j, 0), 0),
       Encoding.SetFragmentTexture(Encoding.SubmeshTexture(node, j, 1), 1),
       Encoding.SetFragmentTexture(Encoding.SubmeshTexture(node, j, 2), 2),
       Encoding.SetFragmentTexture(Encoding.SubmeshTexture(node, j, 3), 3),
       Encoding.SetFragmentTexture(Encoding.SubmeshTexture(node, j, 4), 4),
       Encoding.SetFragmentMaterial(node, j, BufferIndexMaterials)]
    }

    /** One iteration of the submesh loop: the bindings, then an indexed
        draw of every instance. */
    function SubmeshEvents(j: nat): (es: seq<Encoding.Event>)
      ensures |es| == 8
    {
      SubmeshBindings(j) + [Encoding.Draw(Encoding.SubmeshDraw(node, j, instanceCount))]
    }

    /** The submesh loop over the first `n` submeshes. */
    function SubmeshLoopEvents(n: nat): (es: seq<Encoding.Event>)
      ensures |es| == 8 * n
    {
      if n == 0 then [] else SubmeshLoopEvents(n - 1) + SubmeshEvents(n - 1)
    }

    /** `doRender(commandEncoder:uniforms:fragmentUniforms:)`; the mesh and
        the submesh list are force-unwrapped. */
    function DoRenderEvents(uniforms: Uniforms, fragmentUniforms: FragmentUniforms): (es: seq<Encoding.Event>)
      requires vertexBufferCount.Some? && submeshes.Some?
      reads this, node
    {
      PreambleEvents(uniforms, fragmentUniforms) + VertexBufferEvents(vertexBufferCount.value) +
      SubmeshLoopEvents(|submeshes.value|)
    }

    method DoRender(uniforms: Uniforms, fragmentUniforms: FragmentUniforms, trace: Encoding.Trace)
      requires vertexBufferCount.Some? && submeshes.Some?
      modifies trace
      ensures trace.events == old(trace.events) + DoRenderEvents(uniforms, fragmentUniforms)
    {
      trace.Record(PreambleEvents(uniforms, fragmentUniforms));
      var i := 0;
      while i < vertexBufferCount.value
        invariant 0 <= i <= vertexBufferCount.value
        invariant trace.events == old(trace.events) + PreambleEvents(uniforms, fragmentUniforms) + VertexBufferEvents(i)
      {
        trace.Record([Encoding.SetVertexBuffer(Encoding.ModelVertexBuffer(node, i), i)]);
        Seqs.AppendAssociative(old(trace.events) + PreambleEvents(uniforms, fragmentUniforms), VertexBufferEvents(i),
                               [Encoding.SetVertexBuffer(Encoding.ModelVertexBuffer(node, i), i)]);
        i := i + 1;
      }
      var j := 0;
      while j < |submeshes.value|
        invariant 0 <= j <= |submeshes.value|
        invariant trace.events == old(trace.events) + PreambleEvents(uniforms, fragmentUniforms) +
                                  VertexBufferEvents(vertexBufferCount.value) + SubmeshLoopEvents(j)
      {
        trace.Record(SubmeshEvents(j));
        Seqs.AppendAssociative(old(trace.events) + PreambleEvents(uniforms, fragmentUniforms) +
                               VertexBufferEvents(vertexBufferCount.value), SubmeshLoopEvents(j), SubmeshEvents(j));
        j := j + 1;
      }
      Seqs.AppendAssociative(old(trace.events), PreambleEvents(uniforms, fragmentUniforms),
                             VertexBufferEvents(vertexBufferCount.value));
      Seqs.AppendAssociative(old(trace.events), PreambleEvents(uniforms, fragmentUniforms) +
                             VertexBufferEvents(vertexBufferCount.value), SubmeshLoopEvents(j));
    }
  }

  /** The draws of the submesh loop: one per submesh, in order, each of every
      instance. */
  lemma {:induction false} SubmeshLoopDraws(model: InstancedModel, n: nat)
    ensures Encoding.Draws(model.SubmeshLoopEvents(n)) ==
      Encoding.EverySubmeshDraw(model.node, n, model.instanceCount)
    ensures Encoding.Encoders(model.SubmeshLoopEvents(n)) == []
  {
    if n > 0 {
      SubmeshLoopDraws(model, n - 1);
      var bindings := model.SubmeshBindings(n - 1);
      var draw := Encoding.Draw(Encoding.SubmeshDraw(model.node, n - 1, model.instanceCount));
      Encoding.ProjectionsAppend(model.SubmeshLoopEvents(n - 1), bindings + [draw]);
      Encoding.ProjectionsAppend(bindings, [draw]);
      Encoding.UnprojectedProjections(bindings);
      Encoding.SingleProjections(draw);
    }
  }

  /** `doRender` opens no encoder and issues exactly one draw per submesh, in
      list order, each with `instanceCount` instances. */
  lemma DoRenderDrawsEverySubmesh(model: InstancedModel, uniforms: Uniforms, fragmentUniforms: FragmentUniforms)
    requires model.vertexBufferCount.Some? && model.submeshes.Some?
    ensures Encoding.Draws(model.DoRenderEvents(uniforms, fragmentUniforms)) ==
      Encoding.EverySubmeshDraw(model.node, |model.submeshes.value|, model.instanceCount)
    ensures Encoding.Encoders(model.DoRenderEvents(uniforms, fragmentUniforms)) == []
  {
    var pre := model.PreambleEvents(uniforms, fragmentUniforms);
    var vbs := model.VertexBufferEvents(model.vertexBufferCount.value);
    var loop := model.SubmeshLoopEvents(|model.submeshes.value|);
    Encoding.ProjectionsAppend(pre + vbs, loop);
    Encoding.ProjectionsAppend(pre, vbs);
    Encoding.UnprojectedProjections(pre);
    VertexBuffersUnprojectedDraws(model, model.vertexBufferCount.value);
    SubmeshLoopDraws(model, |model.submeshes.value|);
  }

  /** Binding vertex buffers draws nothing and opens no encoder. */
  lemma {:induction false} VertexBuffersUnprojectedDraws(model: InstancedModel, n: nat)
    ensures Encoding.Draws(model.VertexBufferEvents(n)) == []
    ensures Encoding.Encoders(model.VertexBufferEvents(n)) == []
  {
    if n > 0 {
      VertexBuffersUnprojectedDraws(model, n - 1);
      Encoding.ProjectionsAppend(model.VertexBufferEvents(n - 1), [model.VertexBufferEvents(n)[n - 1]]);
      assert model.VertexBufferEvents(n) == model.VertexBufferEvents(n - 1) + [model.VertexBufferEvents(n)[n - 1]];
      Encoding.SingleProjections(model.VertexBufferEvents(n)[n - 1]);
    }
  }
}
