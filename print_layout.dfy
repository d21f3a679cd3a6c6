/**
 * The shape of what `print` writes, stated against the node's children: the
 * classes that draw edges declare themselves and then draw one edge to every
 * child in order, null pointers are skipped, and the classes that print no
 * declaration of their own are transparent.
 */
module PrintLayout {
  import opened Wrappers
  import opened AstNodes
  import opened Rendering
  import opened RenderSequences
  import opened Concat

  /** The classes whose `print` writes a declaration, then `name -> child;` and the child, for every child. */
  predicate DrawsEdges(k: Kind)
  {
    match k
    case FunctionNode | TryStmtsNode | FunctionCallNode | Args | BlockNode | StatementsNode
      | assignmentStatement | DecoratorsNode | NegatedExpressionNode | ExpressionNode | ChangesNode
      | ExceptBlockNode | ClassDefRawNode | ForStatementNode | TryStatementNode | FinallyBlockNode
      | ClassDefNode => true
    case _ => false
  }

  /** The classes whose `print` writes nothing but the printing of its children. */
  predicate Transparent(k: Kind)
  {
    match k
    case NamedExpressionNode | WithItemsNode | WithItemList | ArgumentsNode | ArgumentNode
      | YieldStmtNode | YieldExprNode | IfStatementNode | IfHeaderNode | ElifElseNode
      | ElifStmtsNode | ElifStmtNode | ElifHeaderNode | ElseStmtNode | MatchStmtNode
      | MatchCasesNode | MatchCaseNode | PatternListNode | PatternNode | ListPatternNode
      | DictPatternNode | DictPatternEntriesNode | DictPatternEntryNode => true
    case _ => false
  }

  /**
   * `Render` groups the classes by the members its `print` walks;
   * `DrawsEdges` and `Transparent` group them by what the output looks like.
   * Both are listed explicitly (deriving one from the other makes every
   * layout proof unfold all groups); this lemma ties them together.
   */
  lemma LayoutGroups(k: Kind)
    ensures DrawsEdges(k) <==> || (IsListKind(k) && k != WithStmtNode && k != Arg)
                                || (IsSlotKind(k) && k != WhileStatementNode && k != ComparisonNode)
    ensures Transparent(k) <==> k == ArgumentNode || !(IsLeafKind(k) || IsListKind(k) || IsSlotKind(k) || IsUncheckedKind(k))
  {
  }

  /**
   * The declaration an edge-drawing class writes first: the label alone, the
   * label and the class's text, or the label and the name.  It restates, by
   * class, the first line of `RenderListNode` and `RenderSlotNode`, so that
   * `EdgeLayout` can name it; `DeclLine` proves the two agree.
   */
  function Heading(k: Kind, id: string, caption: string, p: Payload): (line: string)
    requires DrawsEdges(k) && PayloadFits(k, p)
    ensures Declares(line, id)
  {
    DeclDeclares(id, caption);
    DeclDeclares(id, caption + " : " + id);
    match k
    case FunctionCallNode | ExpressionNode | ChangesNode | ExceptBlockNode | ClassDefRawNode =>
      DeclDeclares(id, caption + " : " + p.text);
      Decl(id, caption + " : " + p.text)
    case Args | BlockNode | StatementsNode | assignmentStatement | NegatedExpressionNode =>
      Decl(id, caption)
    case FunctionNode | TryStmtsNode | DecoratorsNode | ForStatementNode | TryStatementNode
      | FinallyBlockNode | ClassDefNode =>
      Decl(id, caption + " : " + id)
  }

  /**
   * A node of an edge-drawing class writes its own declaration, then an edge
   * from its name to every child, each followed by that child's lines, in
   * the order of `Children`.
   */
  lemma EdgeLayout(n: Node)
    requires Printable(n) && DrawsEdges(n.kind)
    ensures AllPrintable(Children(n))
    ensures Render(n) == [Heading(n.kind, n.name, n.labelText, n.payload)] + RenderList(n.name, Children(n))
  {
    ChildrenPrintable(n);
    NullSlotsSkipped(n.name, n.slots);
    DeclLine(n);
    EdgeLines(n);
    ListAppend(n.name, Present(n.slots), n.next);
    assert !n.kind.WithStmtNode? && !n.kind.ElifElseNode?;
    assert Children(n) == Present(n.slots) + n.next;
    var r := Render(n);
    HeadTail(r[0], r[1..]);
    assert r == [r[0]] + r[1..];
  }

  lemma EdgeLines(n: Node)
    requires Printable(n) && DrawsEdges(n.kind)
    ensures |Render(n)| > 0
    ensures Render(n)[1..] == EdgeSlots(n.name, n.slots) + RenderList(n.name, n.next)
  {
    if IsListKind(n.kind) {
      ListNodeEdgeLines(n);
    } else {
      SlotNodeEdgeLines(n);
    }
  }

  lemma ListNodeEdgeLines(n: Node)
    requires Printable(n) && DrawsEdges(n.kind) && IsListKind(n.kind)
    ensures |Render(n)| > 0
    ensures Render(n)[1..] == EdgeSlots(n.name, n.slots) + RenderList(n.name, n.next)
  {
    if n.kind.DecoratorsNode? {
      DecoratorsEdgeLines(n);
    } else {
      var r := RenderListNode(n);
      assert Render(n) == r;
      assert n.slots == [] && EdgeSlots(n.name, n.slots) == [];
      assert r == [r[0]] + RenderList(n.name, n.next);
    }
  }

  lemma DecoratorsEdgeLines(n: Node)
    requires Printable(n) && n.kind.DecoratorsNode?
    ensures |Render(n)| > 0
    ensures Render(n)[1..] == EdgeSlots(n.name, n.slots) + RenderList(n.name, n.next)
  {
    var d := Decl(n.name, n.labelText + " : " + n.name);
    var slots := EdgeSlots(n.name, n.slots);
    var list := RenderList(n.name, n.next);
    assert Render(n) == RenderListNode(n) == [d] + slots + list;
    Assoc([d], slots, list);
    HeadTail(d, slots + list);
  }

  lemma SlotNodeEdgeLines(n: Node)
    requires Printable(n) && DrawsEdges(n.kind) && !IsListKind(n.kind)
    ensures |Render(n)| > 0
    ensures Render(n)[1..] == EdgeSlots(n.name, n.slots) + RenderList(n.name, n.next)
  {
    assert IsSlotKind(n.kind) && !IsLeafKind(n.kind);
    var r := RenderSlotNode(n);
    assert Render(n) == r;
    assert n.next == [] && RenderList(n.name, n.next) == [];
    assert r == [r[0]] + EdgeSlots(n.name, n.slots);
  }

  lemma DeclLine(n: Node)
    requires Printable(n) && DrawsEdges(n.kind)
    ensures |Render(n)| > 0 && Render(n)[0] == Heading(n.kind, n.name, n.labelText, n.payload)
  {
    if IsListKind(n.kind) {
      assert Render(n) == RenderListNode(n);
    } else {
      assert IsSlotKind(n.kind) && !IsLeafKind(n.kind);
      assert Render(n) == RenderSlotNode(n);
    }
  }

  /** A node of a transparent class writes exactly the lines of its children, in order. */
  lemma TransparentLayout(n: Node)
    requires Printable(n) && Transparent(n.kind)
    ensures AllPrintable(Children(n))
    ensures Render(n) == RenderAll(Children(n))
  {
    ChildrenPrintable(n);
    if n.kind.ArgumentNode? {
      ArgumentLayout(n);
    } else if n.kind.ElifElseNode? {
      NullSlotsSkipped(n.name, n.slots);
      PassThroughLines(n);
      AllAppend(n.next, Present(n.slots));
      assert Children(n) == n.next + Present(n.slots);
    } else if HasVector(n.kind) {
      VectorLayout(n);
    } else {
      SlotsLayout(n);
    }
  }

  /** ArgumentNode prints its one pointer, unchecked, and nothing else. */
  lemma ArgumentLayout(n: Node)
    requires Printable(n) && n.kind.ArgumentNode?
    ensures AllPrintable(Children(n))
    ensures Render(n) == RenderAll(Children(n))
  {
    ChildrenPrintable(n);
    ArgumentChild(n);
    ArgumentLines(n);
    AllSingle(n.slots[0].value);
  }

  lemma ArgumentLines(n: Node)
    requires Printable(n) && n.kind.ArgumentNode?
    ensures Printable(n.slots[0].value) && Render(n) == Render(n.slots[0].value)
  {
    assert Render(n) == RenderUnchecked(n);
  }

  lemma ArgumentChild(n: Node)
    requires Shaped(n) && Dereferenced(n) && n.kind.ArgumentNode?
    ensures Children(n) == [n.slots[0].value]
  {
    var c := n.slots[0].value;
    assert n.slots == [Some(c)] && n.next == [];
    assert Present(n.slots) == [c] + Present([]);
    assert Children(n) == [c] + [] == [c];
  }

  lemma VectorLayout(n: Node)
    requires Printable(n) && Transparent(n.kind) && !n.kind.ElifElseNode? && HasVector(n.kind)
    ensures AllPrintable(Children(n))
    ensures Render(n) == RenderAll(Children(n))
  {
    ChildrenPrintable(n);
    assert n.slots == [] && Present(n.slots) == [];
    assert Children(n) == [] + n.next == n.next;
    PassThroughLines(n);
    assert OptSlots(n.slots) == [];
    assert RenderAll(n.next) + [] == RenderAll(n.next);
  }

  lemma SlotsLayout(n: Node)
    requires Printable(n) && Transparent(n.kind) && !n.kind.ArgumentNode? && !HasVector(n.kind)
    ensures AllPrintable(Children(n))
    ensures Render(n) == RenderAll(Children(n))
  {
    ChildrenPrintable(n);
    NullSlotsSkipped(n.name, n.slots);
    assert n.next == [];
    assert Children(n) == Present(n.slots) + [] == Present(n.slots);
    PassThroughLines(n);
    assert RenderAll(n.next) == [];
    assert [] + OptSlots(n.slots) == OptSlots(n.slots);
  }

  lemma PassThroughLines(n: Node)
    requires Printable(n) && Transparent(n.kind) && !n.kind.ArgumentNode?
    ensures Render(n) == RenderAll(n.next) + OptSlots(n.slots)
  {
    assert !IsLeafKind(n.kind) && !IsListKind(n.kind) && !IsSlotKind(n.kind) && !IsUncheckedKind(n.kind);
  }
}
