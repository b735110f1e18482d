/** The hierarchy half of `Object3D` (src/core/Object3D.ts): a node with a
    nullable `parent` link and an ordered `children` list, and the four
    operations that rewire them. The transform fields are not modelled. */
module SceneGraph {
  import opened ArrayOps

  class Object3D {
    var parent: Object3D?
    var children: seq<Object3D>
    /** Whether the node is a `Mesh` (the renderer's `instanceof Mesh` test);
        fixed when the node is constructed. */
    const isMesh: bool

    /** The current parent as a set (empty for a root), for frames. */
    function ParentSet(): set<Object3D>
      reads this
    {
      if parent == null then {} else {parent}
    }

    constructor (isMesh: bool)
      ensures parent == null && children == [] && this.isMesh == isMesh
    {
      parent := null;
      children := [];
      this.isMesh := isMesh;
    }

    /** `remove`: splice `node` out of `children` and clear its parent link;
        when `node` is not a child nothing changes (the source only warns).
        Always returns the receiver. */
    method Remove(node: Object3D) returns (r: Object3D)
      modifies this`children, node`parent
      ensures r == this
      ensures node in old(children) ==>
        children == SpliceOut(old(children), IndexOf(old(children), node)) &&
        node.parent == null
      ensures node !in old(children) ==>
        children == old(children) && node.parent == old(node.parent)
      ensures children == Without(old(children), node)
      ensures old(NoDuplicates(children)) ==> NoDuplicates(children) && node !in children
    {
      var index := IndexOf(children, node);
      if index != -1 {
        if NoDuplicates(children) {
          WithoutKeepsNoDuplicates(children, node);
        }
        node.parent := null;
        children := SpliceOut(children, index);
      }
      r := this;
    }

    /** `removeFromParent`: `parent.remove(this)` when there is a parent,
        nothing otherwise (the source only warns). Returns the receiver. */
    method RemoveFromParent() returns (r: Object3D)
      modifies this`parent, ParentSet()`children
      ensures r == this
      ensures old(parent) == null ==> parent == null
      ensures old(parent) != null ==>
        old(parent).children == Without(old(parent.children), this) &&
        parent == (if this in old(parent.children) then null else old(parent))
    {
      if parent != null {
        var _ := parent.Remove(this);
      }
      r := this;
    }

    /** `setParent`: leave the old parent's children when the old parent is
        non-null and differs from `p`, then point at `p`. The children of
        `p` are never touched. */
    method SetParent(p: Object3D)
      modifies this`parent, ParentSet()`children
      ensures parent == p
      ensures old(parent) != null && old(parent) != p ==>
        old(parent).children == Without(old(parent.children), this)
      ensures p.children == old(p.children)
    {
      if parent != null && p != parent {
        var _ := parent.Remove(this);
      }
      parent := p;
    }

    /** `add`: rejected (only logged) when `node` already is a child.
        Otherwise the RECEIVER leaves its own parent, then `node` points
        at the receiver and is appended to its children. The previous
        parent of `node` is not told. */
    method Add(node: Object3D)
      modifies this, node`parent, ParentSet()`children
      ensures node in old(children) ==>
        children == old(children) && parent == old(parent) &&
        node.parent == old(node.parent) &&
        (old(parent) != null ==> old(parent).children == old(parent.children))
      ensures node !in old(children) ==>
        node.parent == this &&
        (node != this ==>
           parent == (if old(parent) != null && this in old(parent.children) then null else old(parent))) &&
        children == (if old(parent) == this then Without(old(children), this) else old(children)) + [node] &&
        (old(parent) != null && old(parent) != this ==>
           old(parent).children == Without(old(parent.children), this))
      ensures node.children == old(node.children) || node == this || node == old(parent)
      ensures old(NoDuplicates(children)) ==> NoDuplicates(children)
    {
      if IndexOf(children, node) == -1 {
        if parent != null {
          var _ := RemoveFromParent();
        }
        if NoDuplicates(children) {
          AppendKeepsNoDuplicates(children, node);
        }
        node.parent := this;
        children := children + [node];
      }
    }
  }

  /** `x.add(x)` on a fresh node is not rejected: the node becomes its own
      parent and its own only child. */
  method SelfAddIsAccepted() returns (x: Object3D)
    ensures x.parent == x && x.children == [x]
  {
    x := new Object3D(false);
    x.Add(x);
  }

  /** Adding `c` to `b` after adding it to `a` leaves `c` in both children
      lists: `add` does not detach the added node from its previous parent. */
  method ReAddKeepsPreviousParentsChild() returns (a: Object3D, b: Object3D, c: Object3D)
    ensures a != b && c.parent == b && a.children == [c] && b.children == [c]
  {
    a := new Object3D(false);
    b := new Object3D(false);
    c := new Object3D(true);
    a.Add(c);
    b.Add(c);
  }

  /** `a.add(c)` when `a` is a child of `p` detaches `a` itself from `p`. */
  method AddDetachesReceiver() returns (p: Object3D, a: Object3D, c: Object3D)
    ensures p.children == [] && a.parent == null && a.children == [c] && c.parent == a
  {
    p := new Object3D(false);
    a := new Object3D(false);
    c := new Object3D(true);
    p.Add(a);
    a.Add(c);
  }
}
