/**
 * `add` followed by `print`: a child accepted by a node shows up in the
 * node's output right where the class keeps it, and a child the node refuses
 * or ignores leaves the output as it was.
 */
module AddThenPrint {
  import opened Wrappers
  import opened AstNodes
  import opened Rendering
  import opened Attachment
  import opened AttachmentProperties
  import opened RenderSequences
  import opened PrintLayout
  import opened Concat

  /** `m` is `n` with the same class, name, label and payload: only the children may differ. */
  predicate SameHeader(n: Node, m: Node)
  {
    m.kind == n.kind && m.name == n.name && m.labelText == n.labelText && m.payload == n.payload
  }

  /** The children of a node that accepts one more are the old ones with the new one last. */
  lemma AcceptedChildIsLast(n: Node, c: Node)
    requires Shaped(n) && Accepts(n) && !n.kind.WithStmtNode? && !n.kind.ElifElseNode?
    requires !n.kind.BinaryExpressionNode?
    ensures Children(Attach(n, c).node) == Children(n) + [c]
  {
    AttachEffect(n, c);
    var m := Attach(n, c).node;
    if HasVector(n.kind) {
      assert m.slots == n.slots;
      assert Children(m) == Present(n.slots) + (n.next + [c]);
    } else {
      FilledSlotIsLast(n, c);
    }
  }

  /** ChangesNode: the child fills the only pointer, which was null. */
  lemma FilledSlotIsLast(n: Node, c: Node)
    requires Shaped(n) && n.kind == ChangesNode && n.slots[0].None?
    ensures Children(Attach(n, c).node) == Children(n) + [c]
  {
    var m := Attach(n, c).node;
    assert n.next == [] && m.next == [];
    assert n.slots == [None] && m == n.(slots := [Some(c)]);
    assert Children(n) == Present([None]) + [] == Present([None]);
    assert Children(m) == Present([Some(c)]) + [] == Present([Some(c)]);
    assert Present([Some(c)]) == [c] + Present([]);
    assert Present([None]) == [] + Present([]);
  }

  /** What `add` leaves of an edge-drawing node that accepts the child. */
  lemma AcceptedEdgeChild(n: Node, c: Node)
    requires Printable(n) && Printable(c) && DrawsEdges(n.kind) && Accepts(n)
    ensures Printable(Attach(n, c).node) && SameHeader(n, Attach(n, c).node)
    ensures Children(Attach(n, c).node) == Children(n) + [c]
  {
    AttachKeepsPrintable(n, c);
    assert !n.kind.WithStmtNode? && !n.kind.ElifElseNode? && !n.kind.BinaryExpressionNode?;
    AcceptedChildIsLast(n, c);
  }

  /** Two nodes of an edge-drawing class that differ by one last child differ in print by its edge and lines. */
  lemma EdgeSnoc(n: Node, m: Node, c: Node)
    requires Printable(n) && Printable(m) && Printable(c) && DrawsEdges(n.kind) && SameHeader(n, m)
    requires Children(m) == Children(n) + [c]
    ensures Render(m) == Render(n) + [Edge(n.name, c.name)] + Render(c)
  {
    EdgeLayout(n);
    EdgeLayout(m);
    ListSnoc(n.name, Children(n), c);
    var h := Heading(n.kind, n.name, n.labelText, n.payload);
    var before := RenderList(n.name, Children(n));
    Regroup(h, before, [Edge(n.name, c.name)], Render(c));
  }

  /**
   * An edge-drawing class that accepts the child (every such class with a
   * vector, and a ChangesNode whose pointer is still null) prints, after
   * `add`, what it printed before, then an edge to the child and the child.
   */
  lemma AddThenPrintEdge(n: Node, c: Node)
    requires Printable(n) && Printable(c) && DrawsEdges(n.kind) && Accepts(n)
    ensures Printable(Attach(n, c).node)
    ensures Render(Attach(n, c).node) == Render(n) + [Edge(n.name, c.name)] + Render(c)
  {
    AcceptedEdgeChild(n, c);
    EdgeSnoc(n, Attach(n, c).node, c);
  }

  /** What `add` leaves of a node with a vector: the same node with the child pushed at the end. */
  lemma Pushed(n: Node, c: Node)
    requires Printable(n) && Printable(c) && HasVector(n.kind)
    ensures Printable(Attach(n, c).node) && SameHeader(n, Attach(n, c).node)
    ensures Attach(n, c).node.next == n.next + [c] && Attach(n, c).node.slots == n.slots
  {
    AttachKeepsPrintable(n, c);
    AttachEffect(n, c);
  }

  /**
   * A class that prints its vector without edges (Arg and the transparent
   * classes that hold only a vector) prints, after `add`, what it printed
   * before followed by the child's lines.
   */
  lemma AddThenPrintPlain(n: Node, c: Node)
    requires Printable(n) && Printable(c) && HasVector(n.kind) && |n.slots| == 0
    requires n.kind == Arg || Transparent(n.kind)
    ensures Printable(Attach(n, c).node)
    ensures Render(Attach(n, c).node) == Render(n) + Render(c)
  {
    Pushed(n, c);
    PlainSnoc(n, Attach(n, c).node, c);
  }

  lemma PlainSnoc(n: Node, m: Node, c: Node)
    requires Printable(n) && Printable(m) && Printable(c) && SameHeader(n, m) && |n.slots| == 0
    requires n.kind == Arg || Transparent(n.kind)
    requires m.next == n.next + [c] && m.slots == n.slots
    ensures Render(m) == Render(n) + Render(c)
  {
    AllSnoc(n.next, c);
    if n.kind == Arg {
      ArgLines(n);
      ArgLines(m);
      Assoc([Decl(n.name, n.labelText)], RenderAll(n.next), Render(c));
    } else {
      VectorOnlyLines(n);
      VectorOnlyLines(m);
    }
  }

  /** A transparent class without pointers prints its vector and nothing else. */
  lemma VectorOnlyLines(n: Node)
    requires Printable(n) && Transparent(n.kind) && |n.slots| == 0
    ensures Render(n) == RenderAll(n.next)
  {
    assert !n.kind.ArgumentNode? by {
      assert |n.slots| == SlotCount(n.kind);
    }
    PassThroughLines(n);
    assert OptSlots(n.slots) == [];
    assert RenderAll(n.next) + [] == RenderAll(n.next);
  }

  /** Arg declares itself and then prints its arguments with no edge to them. */
  lemma ArgLines(n: Node)
    requires Printable(n) && n.kind == Arg
    ensures Render(n) == [Decl(n.name, n.labelText)] + RenderAll(n.next)
  {
    assert Render(n) == RenderListNode(n);
  }

  /** WithStmtNode declares itself, prints its vector with edges, then its block with none. */
  lemma WithStmtLines(n: Node)
    requires Printable(n) && n.kind == WithStmtNode
    ensures Render(n) == [Decl(n.name, n.labelText + " : " + n.name)] + RenderList(n.name, n.next) + OptSlots(n.slots)
  {
    assert Render(n) == RenderListNode(n);
  }

  /**
   * WithStmtNode keeps added children in its vector, which it prints, with
   * edges, before its block: the new edge and child go between the old
   * vector's lines and the block's.
   */
  lemma AddThenPrintWithStmt(n: Node, c: Node)
    requires Printable(n) && Printable(c) && n.kind == WithStmtNode
    ensures Printable(Attach(n, c).node)
    ensures Render(n) == [Decl(n.name, n.labelText + " : " + n.name)] + RenderList(n.name, n.next) + OptSlots(n.slots)
    ensures Render(Attach(n, c).node)
         == [Decl(n.name, n.labelText + " : " + n.name)] + RenderList(n.name, n.next)
            + [Edge(n.name, c.name)] + Render(c) + OptSlots(n.slots)
  {
    Pushed(n, c);
    WithStmtSnoc(n, Attach(n, c).node, c);
  }

  lemma WithStmtSnoc(n: Node, m: Node, c: Node)
    requires Printable(n) && Printable(m) && Printable(c) && n.kind == WithStmtNode && SameHeader(n, m)
    requires m.next == n.next + [c] && m.slots == n.slots
    ensures Render(n) == [Decl(n.name, n.labelText + " : " + n.name)] + RenderList(n.name, n.next) + OptSlots(n.slots)
    ensures Render(m)
         == [Decl(n.name, n.labelText + " : " + n.name)] + RenderList(n.name, n.next)
            + [Edge(n.name, c.name)] + Render(c) + OptSlots(n.slots)
  {
    ListSnoc(n.name, n.next, c);
    WithStmtLines(n);
    WithStmtLines(m);
    Regroup(Decl(n.name, n.labelText + " : " + n.name), RenderList(n.name, n.next), [Edge(n.name, c.name)], Render(c));
  }

  /**
   * ElifElseNode keeps added children in its vector, which it prints before
   * its else branch: the new child's lines go between the old vector's lines
   * and the else branch's.
   */
  lemma AddThenPrintElifElse(n: Node, c: Node)
    requires Printable(n) && Printable(c) && n.kind == ElifElseNode
    ensures Printable(Attach(n, c).node)
    ensures Render(n) == RenderAll(n.next) + OptSlots(n.slots)
    ensures Render(Attach(n, c).node) == RenderAll(n.next) + Render(c) + OptSlots(n.slots)
  {
    Pushed(n, c);
    ElifElseSnoc(n, Attach(n, c).node, c);
  }

  lemma ElifElseSnoc(n: Node, m: Node, c: Node)
    requires Printable(n) && Printable(m) && Printable(c) && n.kind == ElifElseNode && SameHeader(n, m)
    requires m.next == n.next + [c] && m.slots == n.slots
    ensures Render(n) == RenderAll(n.next) + OptSlots(n.slots)
    ensures Render(m) == RenderAll(n.next) + Render(c) + OptSlots(n.slots)
  {
    AllSnoc(n.next, c);
    PassThroughLines(n);
    PassThroughLines(m);
  }

  /** A node that does not accept the child prints exactly what it printed before. */
  lemma RefusedAddPrintsSame(n: Node, c: Node)
    requires Printable(n) && !Accepts(n)
    ensures Attach(n, c).node == n
  {
    AttachEffect(n, c);
    if FillsSlots(n.kind) {
      assert FirstEmpty(n.slots).None?;
    }
  }
}
