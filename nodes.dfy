/** `STLRNode` and `OBSDNode` (the two engines' node classes have the same
    logic): a node with a pose, an ordered list of children and a parent
    back-pointer. Its model matrix is translation × rotation × scale and its
    world transform is the product of the model matrices from the root down
    to the node. */
module SceneGraph {
  import opened Wrappers
  import opened Matrix
  import Seqs

  /** The subclasses of the node class the engines test for with `as?` and
      `is`. A model node carries the one thing the renderers read from the
      model class: how many submeshes it has, or nil when it has no list. */
  datatype NodeKind = PlainNode | CameraNode | ModelNode(submeshCount: Option<nat>) | MorphNode
                    | TerrainNode | WaterNode | SceneNode

  class Node {
    var name: string
    const kind: NodeKind
    var position: Vec3
    var rotation: Vec3
    var scale: Vec3
    var quaternion: Quat
    var children: seq<Node>
    var parent: Node?

    /** A new node: at the origin, unrotated, unit scale, with no children
        and no parent. */
    constructor (name: string, kind: NodeKind)
      ensures this.name == name && this.kind == kind
      ensures position == Zero3 && rotation == Zero3 && scale == One3 && quaternion == ZeroQuaternion
      ensures children == [] && parent == null
    {
      this.name := name;
      this.kind := kind;
      position := Zero3;
      rotation := Zero3;
      scale := One3;
      quaternion := ZeroQuaternion;
      children := [];
      parent := null;
    }

    /** Assigning `rotation`: its observer replaces the quaternion by the one
        of the new Euler rotation. */
    method SetRotation(r: Vec3)
      modifies this
      ensures rotation == r && quaternion == QuaternionOfRotation(r)
      ensures name == old(name) && position == old(position) && scale == old(scale)
      ensures children == old(children) && parent == old(parent)
    {
      rotation := r;
      quaternion := QuaternionOfRotation(r);
    }

    /** `modelMatrix`: the translation, then the rotation by the quaternion,
        then the scaling, multiplied in that order. */
    function ModelMatrix(): (m: Mat)
      reads this
      ensures m == [Translation(position), QuaternionRotation(quaternion), Scaling(scale)]
    {
      Mul(Mul([Translation(position)], [QuaternionRotation(quaternion)]), [Scaling(scale)])
    }

    /** `add(childNode:)`: the child goes last, the earlier children keep
        their order, and the child's parent becomes the receiver. */
    method Add(childNode: Node)
      modifies this, childNode
      ensures children == old(children) + [childNode]
      ensures childNode.parent == this
      ensures childNode != this ==> childNode.children == old(childNode.children) && parent == old(parent)
      ensures PoseUnchanged(this) && PoseUnchanged(childNode)
    {
      children := children + [childNode];
      childNode.parent := this;
    }

    /** `remove(childNode:)`. The argument's children are appended, in
        their order, to the receiver's children and re-parented to the
        receiver; the argument is left without children. Then the first
        child identical to the argument is deleted, the others keeping their
        order, and the argument's parent is cleared; when there is no such
        child the argument's parent is left as it was (or as the re-parenting
        set it, when the argument was among its own children). Removing the
        receiver from itself leaves it with no children. */
    method Remove(childNode: Node)
      modifies this, childNode, childNode.children
      ensures children ==
                if childNode == this then []
                else Seqs.RemoveFirst(old(children) + old(childNode.children), childNode)
      ensures childNode.children == []
      ensures forall c :: c in old(childNode.children) && c != childNode ==> c.parent == this
      ensures childNode.parent ==
                if childNode != this && childNode in old(children) + old(childNode.children) then null
                else if childNode in old(childNode.children) then this
                else old(childNode.parent)
      ensures this != childNode && this !in old(childNode.children) ==> parent == old(parent)
      ensures forall c :: c in old(childNode.children) && c != this && c != childNode ==>
                c.children == old(c.children)
      ensures PoseUnchanged(this) && PoseUnchanged(childNode)
      ensures forall c :: c in old(childNode.children) ==> PoseUnchanged(c)
    {
      var grandchildren := childNode.children;
      var i := 0;
      while i < |grandchildren|
        invariant 0 <= i <= |grandchildren|
        invariant children == old(children) + grandchildren[..i]
        invariant forall j :: 0 <= j < i ==> grandchildren[j].parent == this
        invariant forall c: Node :: (c == this || c == childNode || c in grandchildren) && c !in grandchildren[..i] ==>
                    c.parent == old(c.parent)
        invariant forall c :: c in grandchildren && c != this ==> c.children == old(c.children)
        invariant childNode != this ==> childNode.children == old(childNode.children)
        invariant PoseUnchanged(this) && PoseUnchanged(childNode)
        invariant forall c :: c in grandchildren ==> PoseUnchanged(c)
      {
        var child := grandchildren[i];
        child.parent := this;
        children := children + [child];
        assert grandchildren[..i + 1] == grandchildren[..i] + [child];
        i := i + 1;
      }
      assert grandchildren[..i] == grandchildren;
      childNode.children := [];
      match Seqs.FirstIndex(children, childNode)
      case None =>
      case Some(index) =>
        children := Seqs.RemoveAt(children, index);
        childNode.parent := null;
    }
  }

  /** The fields `add` and `remove` never touch. */
  twostate predicate PoseUnchanged(n: Node)
    reads n
  {
    n.name == old(n.name) && n.position == old(n.position) && n.rotation == old(n.rotation) &&
    n.scale == old(n.scale) && n.quaternion == old(n.quaternion)
  }

  /** `chain` is a node followed by its parent, its parent's parent and so
      on, ending at a node without a parent. */
  ghost predicate IsAncestry(chain: seq<Node>)
    reads chain
  {
    |chain| > 0 && chain[|chain| - 1].parent == null &&
    forall i :: 0 <= i < |chain| - 1 ==> chain[i].parent == chain[i + 1]
  }

  /** `worldTransform` of `chain[0]`: its model matrix when it has no parent,
      and otherwise the parent's world transform times its model matrix. The
      parent pointers are followed along the ancestor chain. */
  function WorldTransform(chain: seq<Node>): Mat
    requires IsAncestry(chain)
    reads chain
    decreases |chain|
  {
    if |chain| == 1 then chain[0].ModelMatrix()
    else
      assert IsAncestry(chain[1..]) by {
        assert forall i :: 0 <= i < |chain| - 2 ==> chain[1..][i] == chain[i + 1];
      }
      Mul(WorldTransform(chain[1..]), chain[0].ModelMatrix())
  }

  /** The model matrices of the chain from the root down to `chain[0]`. */
  ghost function RootToNode(chain: seq<Node>): (r: seq<Mat>)
    reads chain
    ensures |r| == |chain|
  {
    if |chain| == 0 then [] else RootToNode(chain[1..]) + [chain[0].ModelMatrix()]
  }

  /** The world transform is the product of the model matrices from the root
      to the node, root first. */
  lemma {:induction false} WorldTransformIsRootToNodeProduct(chain: seq<Node>)
    requires IsAncestry(chain)
    ensures WorldTransform(chain) == Product(RootToNode(chain))
    decreases |chain|
  {
    if |chain| == 1 {
      assert RootToNode(chain) == [chain[0].ModelMatrix()];
    } else {
      assert forall i :: 0 <= i < |chain| - 2 ==> chain[1..][i] == chain[i + 1];
      WorldTransformIsRootToNodeProduct(chain[1..]);
      ProductSnoc(RootToNode(chain[1..]), chain[0].ModelMatrix());
    }
  }

  /** Only the last node of an ancestor chain has no parent. */
  lemma ParentlessIsLast(chain: seq<Node>)
    requires IsAncestry(chain)
    ensures chain[0].parent == null <==> |chain| == 1
  {
    if |chain| > 1 {
      assert chain[0].parent == chain[1];
    }
  }

  /** A node has only one ancestor chain, so its world transform does not
      depend on the chain it is computed along. */
  lemma {:induction false} AncestryUnique(a: seq<Node>, b: seq<Node>)
    requires IsAncestry(a) && IsAncestry(b) && a[0] == b[0]
    ensures a == b
    decreases |a|
  {
    ParentlessIsLast(a);
    ParentlessIsLast(b);
    if |a| == 1 {
      assert a == [a[0]] && b == [b[0]];
    } else {
      assert forall i :: 0 <= i < |a| - 2 ==> a[1..][i] == a[i + 1];
      assert forall i :: 0 <= i < |b| - 2 ==> b[1..][i] == b[i + 1];
      assert a[1] == a[0].parent == b[1];
      AncestryUnique(a[1..], b[1..]);
      assert a == [a[0]] + a[1..] && b == [b[0]] + b[1..];
    }
  }
}
