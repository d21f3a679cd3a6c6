/** What a sequence of `add` calls does, class by class. */
module AttachAllProperties {
  import opened Wrappers
  import opened AstNodes
  import opened Attachment
  import opened AttachmentProperties
  import opened Concat

  /** Vector classes keep every child, in the order added, after the ones they had. */
  lemma {:induction false} AttachAllAppends(n: Node, cs: seq<Node>)
    requires Shaped(n) && HasVector(n.kind)
    ensures AttachAll(n, cs).node.next == n.next + cs
    ensures AttachAll(n, cs).node.slots == n.slots
    ensures AttachAll(n, cs).diagnostics == []
    decreases |cs|
  {
    if cs != [] {
      var first := Attach(n, cs[0]);
      assert first == AddResult(n.(next := n.next + [cs[0]]), None);
      AttachAllAppends(first.node, cs[1..]);
      Assoc(n.next, [cs[0]], cs[1..]);
      assert [cs[0]] + cs[1..] == cs;
    }
  }

  /** The leaves and ReturnStatementNode never change, and write one diagnostic per call. */
  lemma {:induction false} AttachAllRejects(n: Node, cs: seq<Node>)
    requires Shaped(n) && RejectsChildren(n.kind)
    ensures AttachAll(n, cs).node == n
    ensures AttachAll(n, cs).diagnostics == seq(|cs|, _ => LeafMessage)
    decreases |cs|
  {
    if cs != [] {
      AttachAllRejects(n, cs[1..]);
    }
  }

  /** The classes whose `add` is empty never change and write nothing. */
  lemma {:induction false} AttachAllIgnores(n: Node, cs: seq<Node>)
    requires Shaped(n) && !HasVector(n.kind) && !FillsSlots(n.kind) && !RejectsChildren(n.kind)
    ensures AttachAll(n, cs) == Built(n, [])
    decreases |cs|
  {
    if cs != [] {
      AttachAllIgnores(n, cs[1..]);
    }
  }

  /** A node whose pointers are all set ignores further calls (BinaryExpressionNode reports each one). */
  lemma {:induction false} AttachAllFull(n: Node, cs: seq<Node>)
    requires Shaped(n) && FillsSlots(n.kind) && FirstEmpty(n.slots).None?
    ensures AttachAll(n, cs).node == n
    ensures AttachAll(n, cs).diagnostics
         == if n.kind == BinaryExpressionNode then seq(|cs|, _ => BinaryFullMessage) else []
    decreases |cs|
  {
    if cs != [] {
      AttachAllFull(n, cs[1..]);
    }
  }

  /** ChangesNode: the first child added to an empty `range` stays there; later ones are ignored. */
  lemma ChangesFirstWins(n: Node, cs: seq<Node>)
    requires Shaped(n) && n.kind == ChangesNode && n.slots[0].None? && |cs| > 0
    ensures AttachAll(n, cs).node.slots == [Some(cs[0])]
    ensures AttachAll(n, cs).node.next == n.next
    ensures AttachAll(n, cs).diagnostics == []
  {
    var first := Attach(n, cs[0]).node;
    AttachAllFull(first, cs[1..]);
  }

  /**
   * BinaryExpressionNode without operands: the first child becomes `left`,
   * the second `right`, and each further one only writes BinaryFullMessage.
   */
  lemma BinaryFillOrder(n: Node, cs: seq<Node>)
    requires Shaped(n) && n.kind == BinaryExpressionNode && n.slots == [None, None] && |cs| >= 2
    ensures AttachAll(n, cs).node.slots == [Some(cs[0]), Some(cs[1])]
    ensures AttachAll(n, cs).node.next == n.next
    ensures AttachAll(n, cs).diagnostics == seq(|cs| - 2, _ => BinaryFullMessage)
  {
    var first := Attach(n, cs[0]).node;
    var second := Attach(first, cs[1]).node;
    assert cs[1..][1..] == cs[2..];
    AttachAllFull(second, cs[2..]);
  }
}
