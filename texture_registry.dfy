/** `STLRTextureController`: one append-only list of textures for the whole
    engine, handing out the index of each texture it stores. The Swift type
    keeps the list in a static variable; here it is one object that every
    caller shares. */
module TextureRegistry {
  import opened Wrappers
  import opened Gpu

  /** One `addTexture` call on a registry holding `textures`: the new list
      and the returned index. */
  function AddStep(textures: seq<Texture>, texture: Texture?): (r: (seq<Texture>, Option<nat>))
    ensures texture == null ==> r == (textures, None)
    ensures texture != null ==>
      r.0 == textures + [texture] && r.1 == Some(|textures|) && r.0[r.1.value] == texture
  {
    if texture == null then (textures, None)
    else (textures + [texture], Some(|textures|))
  }

  /** A series of `addTexture` calls, in order: the final list and the index
      each call returned. */
  function AddAll(textures: seq<Texture>, ts: seq<Texture?>): (seq<Texture>, seq<Option<nat>>)
    decreases |ts|
  {
    if |ts| == 0 then (textures, [])
    else
      var (next, i) := AddStep(textures, ts[0]);
      var (last, rest) := AddAll(next, ts[1..]);
      (last, [i] + rest)
  }

  /** What a series of adds does: the list only grows, earlier entries never
      change, a nil texture gets no index, and every stored texture gets a
      fresh index (strictly increasing from call to call) under which the
      list holds it. */
  lemma {:induction false} AddAllIndices(textures: seq<Texture>, ts: seq<Texture?>)
    ensures var (last, idx) := AddAll(textures, ts);
      |idx| == |ts| &&
      |textures| <= |last| &&
      last[..|textures|] == textures &&
      (forall k :: 0 <= k < |ts| ==> (idx[k].Some? <==> ts[k] != null)) &&
      (forall k :: 0 <= k < |ts| && idx[k].Some? ==>
         |textures| <= idx[k].value < |last| && last[idx[k].value] == ts[k]) &&
      (forall k, l :: 0 <= k < l < |ts| && idx[k].Some? && idx[l].Some? ==>
         idx[k].value < idx[l].value)
    decreases |ts|
  {
    if |ts| > 0 {
      var (next, i) := AddStep(textures, ts[0]);
      AddAllIndices(next, ts[1..]);
      var (last, rest) := AddAll(next, ts[1..]);
      assert AddAll(textures, ts) == (last, [i] + rest);
      assert last[..|next|] == next;
      assert last[..|textures|] == next[..|textures|];
      forall k, l | 0 <= k < l < |ts| && ([i] + rest)[k].Some? && ([i] + rest)[l].Some?
        ensures ([i] + rest)[k].value < ([i] + rest)[l].value
      {
        if k == 0 {
          assert i.value == |textures| && |next| == |textures| + 1;
          assert rest[l - 1].Some? && |next| <= rest[l - 1].value;
        }
      }
    }
  }

  class TextureController {
    var textures: seq<Texture>

    constructor ()
      ensures textures == []
    {
      textures := [];
    }

    /** `addTexture(texture:)`. */
    method AddTexture(texture: Texture?) returns (index: Option<nat>)
      modifies this
      ensures (textures, index) == AddStep(old(textures), texture)
      ensures index.Some? ==> index.value < |textures| && textures[index.value] == texture
      ensures textures[..|old(textures)|] == old(textures)
    {
      if texture == null {
        return None;
      }
      textures := textures + [texture];
      index := Some(|textures| - 1);
    }

    /** A series of `addTexture` calls, one per texture, in order. */
    method AddTextures(ts: seq<Texture?>) returns (indices: seq<Option<nat>>)
      modifies this
      ensures (textures, indices) == AddAll(old(textures), ts)
    {
      indices := [];
      var i := 0;
      assert ts[0..] == ts;
      assert indices + AddAll(textures, ts).1 == AddAll(textures, ts).1;
      while i < |ts|
        invariant 0 <= i <= |ts|
        invariant AddAll(old(textures), ts) == (AddAll(textures, ts[i..]).0, indices + AddAll(textures, ts[i..]).1)
      {
        ghost var before := textures;
        assert ts[i..][0] == ts[i] && ts[i..][1..] == ts[i + 1..];
        var index := AddTexture(ts[i]);
        assert AddAll(before, ts[i..]) == (AddAll(textures, ts[i + 1..]).0, [index] + AddAll(textures, ts[i + 1..]).1);
        ghost var rest := AddAll(textures, ts[i + 1..]).1;
        assert indices + ([index] + rest) == (indices + [index]) + rest;
        indices := indices + [index];
        i := i + 1;
      }
      assert ts[i..] == [];
      assert indices + AddAll(textures, ts[i..]).1 == indices;
    }
  }
}
