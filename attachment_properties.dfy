/** What `add` does to a node and to the children it owns, one call and many. */
module AttachmentProperties {
  import opened Wrappers
  import opened AstNodes
  import opened Attachment

  /**
   * What one `add` does, class by class: a vector class pushes the child at
   * the end; ChangesNode and BinaryExpressionNode store it in the first null
   * pointer and change nothing else; every other class keeps the node as it
   * is.  A diagnostic is written exactly by the leaf classes and by a full
   * BinaryExpressionNode, and a call that writes one changes nothing.
   */
  lemma AttachEffect(n: Node, child: Node)
    requires Shaped(n)
    ensures var r := Attach(n, child);
      && r.node.next == (if HasVector(n.kind) then n.next + [child] else n.next)
      && r.node.slots == (if FillsSlots(n.kind) && FirstEmpty(n.slots).Some?
                          then n.slots[FirstEmpty(n.slots).value := Some(child)] else n.slots)
      && (r.diagnostic.Some? <==> RejectsChildren(n.kind) || (n.kind == BinaryExpressionNode && !Accepts(n)))
      && (r.diagnostic == Some(LeafMessage) <==> RejectsChildren(n.kind))
      && (r.diagnostic.Some? ==> r.node == n)
  {
    if n.kind == BinaryExpressionNode && n.slots[0].Some? && n.slots[1].None? {
      assert FirstEmpty(n.slots) == Some(1) by {
        assert FirstEmpty(n.slots[1..]) == Some(0);
      }
    }
  }

  /**
   * `add` never drops, duplicates or replaces a child: the children after the
   * call are those before it, plus the new one exactly when the node accepts it.
   */
  lemma AttachKeepsChildren(n: Node, child: Node)
    requires Shaped(n)
    ensures multiset(Children(Attach(n, child).node))
         == multiset(Children(n)) + (if Accepts(n) then multiset{child} else multiset{})
  {
    AttachEffect(n, child);
    if FillsSlots(n.kind) && FirstEmpty(n.slots).Some? {
      PresentUpdate(n.slots, FirstEmpty(n.slots).value, child);
    }
  }

  /** Filling a null pointer adds exactly that child to the present ones. */
  lemma {:induction false} PresentUpdate(slots: seq<Option<Node>>, i: nat, child: Node)
    requires i < |slots| && slots[i].None?
    ensures multiset(Present(slots[i := Some(child)])) == multiset(Present(slots)) + multiset{child}
    decreases |slots|
  {
    if i == 0 {
      assert slots[i := Some(child)][1..] == slots[1..];
    } else {
      PresentUpdate(slots[1..], i - 1, child);
      assert slots[i := Some(child)][1..] == slots[1..][i - 1 := Some(child)];
    }
  }

  /** `add` keeps a tree printable when the new child is printable. */
  lemma AttachKeepsPrintable(n: Node, child: Node)
    requires Printable(n) && Printable(child)
    ensures Printable(Attach(n, child).node)
  {
    AttachEffect(n, child);
    var m := Attach(n, child).node;
    forall i | 0 <= i < |m.slots| && m.slots[i].Some?
      ensures Printable(m.slots[i].value)
    {
      if m.slots[i] != n.slots[i] {
        assert m.slots[i] == Some(child);
      }
    }
    forall i | 0 <= i < |m.next|
      ensures Printable(m.next[i])
    {
      if i < |n.next| {
        assert m.next[i] == n.next[i];
      }
    }
  }
}
