/** `ResourceTree`, the macOS editor's tree of resource names: directories
    and files with ordered children, listed in post-order. */
module Resources {

  class ResourceTree {
    var name: string
    var children: seq<ResourceTree>
    var isDirectory: bool

    /** A new tree node has the given name and kind and no children. */
    constructor (name: string, isDirectory: bool)
      ensures this.name == name && this.isDirectory == isDirectory && children == []
    {
      this.name := name;
      this.isDirectory := isDirectory;
      children := [];
    }

    /** `add(child:)`: appends the child after the existing ones; it does not
        look at `isDirectory`, so a file can be given children too. */
    method Add(child: ResourceTree)
      modifies this
      ensures children == old(children) + [child]
      ensures name == old(name) && isDirectory == old(isDirectory)
    {
      children := children + [child];
    }
  }

  /** Every path from `t` downwards has fewer than `height` nodes. */
  ghost predicate HeightBelow(t: ResourceTree, height: nat)
    reads *
    decreases height
  {
    height > 0 && forall c :: c in t.children ==> HeightBelow(c, height - 1)
  }

  /** `printTree(tree:)`: the names it prints, in post-order: the subtrees
      of all children from left to right, then the node's own name. The
      recursion ends only on a tree without cycles; `height` bounds its
      depth. */
  ghost function PrintTree(t: ResourceTree, height: nat): seq<string>
    requires HeightBelow(t, height)
    reads *
    decreases height, 1
  {
    PrintChildren(t.children, height - 1) + [t.name]
  }

  ghost function PrintChildren(ts: seq<ResourceTree>, height: nat): seq<string>
    requires forall c :: c in ts ==> HeightBelow(c, height)
    reads *
    decreases height + 1, 0, |ts|
  {
    if |ts| == 0 then []
    else PrintChildren(ts[..|ts| - 1], height) + PrintTree(ts[|ts| - 1], height)
  }

  /** The listing does not depend on which depth bound is used. */
  lemma {:induction false} PrintTreeBoundIrrelevant(t: ResourceTree, h: nat, k: nat)
    requires HeightBelow(t, h) && HeightBelow(t, k)
    ensures PrintTree(t, h) == PrintTree(t, k)
    decreases h, 1
  {
    PrintChildrenBoundIrrelevant(t.children, h - 1, k - 1);
  }

  lemma {:induction false} PrintChildrenBoundIrrelevant(ts: seq<ResourceTree>, h: nat, k: nat)
    requires forall c :: c in ts ==> HeightBelow(c, h) && HeightBelow(c, k)
    ensures PrintChildren(ts, h) == PrintChildren(ts, k)
    decreases h + 1, 0, |ts|
  {
    if |ts| > 0 {
      PrintChildrenBoundIrrelevant(ts[..|ts| - 1], h, k);
      PrintTreeBoundIrrelevant(ts[|ts| - 1], h, k);
    }
  }

  /** Every name is listed after the names below it: the listing ends with
      the node's own name and lists one name per node of the tree. */
  lemma {:induction false} PrintTreeEndsAtRoot(t: ResourceTree, height: nat)
    requires HeightBelow(t, height)
    ensures |PrintTree(t, height)| == Size(t, height)
    ensures PrintTree(t, height)[|PrintTree(t, height)| - 1] == t.name
    decreases height, 1
  {
    PrintChildrenSize(t.children, height - 1);
  }

  lemma {:induction false} PrintChildrenSize(ts: seq<ResourceTree>, height: nat)
    requires forall c :: c in ts ==> HeightBelow(c, height)
    ensures |PrintChildren(ts, height)| == SizeAll(ts, height)
    decreases height + 1, 0, |ts|
  {
    if |ts| > 0 {
      PrintChildrenSize(ts[..|ts| - 1], height);
      PrintTreeEndsAtRoot(ts[|ts| - 1], height);
    }
  }

  /** The number of nodes of the tree, counted with repetition when a node
      is reachable along several paths. */
  ghost function Size(t: ResourceTree, height: nat): nat
    requires HeightBelow(t, height)
    reads *
    decreases height, 1
  {
    SizeAll(t.children, height - 1) + 1
  }

  ghost function SizeAll(ts: seq<ResourceTree>, height: nat): nat
    requires forall c :: c in ts ==> HeightBelow(c, height)
    reads *
    decreases height + 1, 0, |ts|
  {
    if |ts| == 0 then 0 else SizeAll(ts[..|ts| - 1], height) + Size(ts[|ts| - 1], height)
  }

  /** The unit test's tree: dir_1 and dir_2 under root, file_1 under dir_1.
      The root's children are dir_1 then dir_2, file_1 is dir_1's only
      child, and the listing is file_1, dir_1, dir_2, root. */
  method TestTree() returns (root: ResourceTree, ghost lines: seq<string>)
    ensures |root.children| == 2
    ensures root.children[0].name == "dir_1" && root.children[1].name == "dir_2"
    ensures |root.children[0].children| == 1 && root.children[0].children[0].name == "file_1"
    ensures lines == ["file_1", "dir_1", "dir_2", "root"]
  {
    root := new ResourceTree("root", true);
    var child1 := new ResourceTree("dir_1", true);
    var child2 := new ResourceTree("dir_2", true);
    var child3 := new ResourceTree("file_1", false);
    child1.Add(child3);
    root.Add(child1);
    root.Add(child2);
    TestTreeListing(root, child1, child2, child3);
    lines := PrintTree(root, 3);
  }

  /** The listing of the unit test's shape, worked out in one heap. */
  lemma TestTreeListing(root: ResourceTree, c1: ResourceTree, c2: ResourceTree, c3: ResourceTree)
    requires root.children == [c1, c2] && c1.children == [c3] && c2.children == [] && c3.children == []
    requires root.name == "root" && c1.name == "dir_1" && c2.name == "dir_2" && c3.name == "file_1"
    ensures HeightBelow(root, 3) && PrintTree(root, 3) == ["file_1", "dir_1", "dir_2", "root"]
  {
    LeafListing(c3, 1);
    LeafListing(c2, 2);
    assert HeightBelow(c1, 2);
    OneChildListing(c1.children, 1);
    assert PrintTree(c1, 2) == ["file_1", "dir_1"];
    assert HeightBelow(root, 3);
    TwoChildrenListing(root.children, 2);
  }

  /** A node without children lists only its own name. */
  lemma LeafListing(t: ResourceTree, height: nat)
    requires height > 0 && t.children == []
    ensures HeightBelow(t, height) && PrintTree(t, height) == [t.name]
  {
    assert PrintChildren([], height - 1) == [];
  }

  lemma OneChildListing(ts: seq<ResourceTree>, height: nat)
    requires |ts| == 1 && HeightBelow(ts[0], height)
    ensures PrintChildren(ts, height) == PrintTree(ts[0], height)
  {
    assert ts[..0] == [];
    assert PrintChildren([], height) == [];
  }

  lemma TwoChildrenListing(ts: seq<ResourceTree>, height: nat)
    requires |ts| == 2 && HeightBelow(ts[0], height) && HeightBelow(ts[1], height)
    ensures PrintChildren(ts, height) == PrintTree(ts[0], height) + PrintTree(ts[1], height)
  {
    assert ts[..1] == [ts[0]];
    OneChildListing(ts[..1], height);
  }
}
