/**
 * `print`: every node writes itself and its subtree as lines of the Graphviz
 * DOT language.  The source writes to standard output, one `std::endl` per
 * line; here `Render` returns those lines, without their line terminators.
 * Names and labels are interpolated as they are: nothing is quoted or escaped.
 */
module Rendering {
  import opened Wrappers
  import opened AstNodes

  /** A DOT body line: it starts with the tab every `print` writes first. */
  predicate Indented(line: string)
  {
    |line| > 0 && line[0] == '\t'
  }

  predicate AllIndented(lines: seq<string>)
  {
    forall i | 0 <= i < |lines| :: Indented(lines[i])
  }

  /** `<id> [label="<text>"]`, the declaration of a node. */
  function Decl(id: string, text: string): string
  {
    "\t" + id + " [label=\"" + text + "\"]"
  }

  /** `<id> [shape=box,label="<text>"]`, the declaration of a literal leaf. */
  function BoxDecl(id: string, text: string): string
  {
    "\t" + id + " [shape=box,label=\"" + text + "\"]"
  }

  /** `line` is the declaration of the DOT node `id`. */
  predicate Declares(line: string, id: string)
  {
    var prefix := "\t" + id + " [";
    |prefix| <= |line| && line[..|prefix|] == prefix
  }

  lemma DeclDeclares(id: string, text: string)
    ensures Declares(Decl(id, text), id)
    ensures Declares(BoxDecl(id, text), id)
  {
    var prefix := "\t" + id + " [";
    assert Decl(id, text) == prefix + ("label=\"" + text + "\"]");
    assert BoxDecl(id, text) == prefix + ("shape=box,label=\"" + text + "\"]");
  }

  /** `<from> -> <to>;`, an edge without a role. */
  function Edge(from: string, to: string): string
  {
    "\t" + from + " -> " + to + ";"
  }

  /** `<from> -> <to> [label="<role>"];`, an edge that names the child's role. */
  function RoleEdge(from: string, to: string, role: string): string
  {
    "\t" + from + " -> " + to + " [label=\"" + role + "\"];"
  }

  /** The decimal text `std::ostream` writes for an `int`. */
  function IntToString(i: int): (s: string)
    ensures |s| > 0
  {
    if i < 0 then "-" + NatToString(-i) else NatToString(i)
  }

  function NatToString(k: nat): (s: string)
    ensures |s| > 0
  {
    if k < 10 then ["0123456789"[k]] else NatToString(k / 10) + ["0123456789"[k % 10]]
  }

  /** The values of a RangeNode or MyRangeNode separated by ", ". */
  function JoinInts(values: seq<int>): string
  {
    if |values| == 0 then ""
    else if |values| == 1 then IntToString(values[0])
    else IntToString(values[0]) + ", " + JoinInts(values[1..])
  }

  /**
   * The loop of RangeNode::print and MyRangeNode::print: each value, then
   * ", " unless it is the last one.
   */
  method JoinValues(values: seq<int>) returns (text: string)
    ensures text == JoinInts(values)
  {
    text := "";
    var i := 0;
    while i < |values|
      invariant 0 <= i <= |values|
      invariant text == JoinInts(values[..i]) + (if 0 < i < |values| then ", " else "")
    {
      JoinPrefix(values, i);
      text := text + IntToString(values[i]);
      assert text == JoinInts(values[..i + 1]);
      if i < |values| - 1 {
        text := text + ", ";
      } else {
        assert text == JoinInts(values[..i + 1]) + "";
      }
      i := i + 1;
    }
    assert values[..i] == values;
  }

  /** The text of the first `i + 1` values: that of the first `i`, a separator unless `i` is 0, the value. */
  lemma JoinPrefix(values: seq<int>, i: nat)
    requires i < |values|
    ensures JoinInts(values[..i + 1])
         == JoinInts(values[..i]) + (if i == 0 then "" else ", ") + IntToString(values[i])
  {
    JoinIntsSnoc(values[..i], values[i]);
    assert values[..i + 1] == values[..i] + [values[i]];
    if i == 0 {
      assert JoinInts(values[..i]) + "" == "";
    }
  }

  /** Appending a value adds one separator before it, and none after it. */
  lemma {:induction false} JoinIntsSnoc(values: seq<int>, v: int)
    ensures JoinInts(values + [v]) == (if values == [] then "" else JoinInts(values) + ", ") + IntToString(v)
    decreases |values|
  {
    if |values| > 1 {
      JoinIntsSnoc(values[1..], v);
      assert (values + [v])[1..] == values[1..] + [v];
    } else if |values| == 1 {
      assert (values + [v])[1..] == [v];
    }
  }

  /** The lines `print` writes for `n` and everything below it. */
  function Render(n: Node): (r: seq<string>)
    requires Printable(n)
    decreases n, 2
  {
    if IsLeafKind(n.kind) then RenderLeaf(n)
    else if IsListKind(n.kind) then RenderListNode(n)
    else if IsSlotKind(n.kind) then RenderSlotNode(n)
    else if IsUncheckedKind(n.kind) then RenderUnchecked(n)
    else RenderPassThrough(n)
  }

  /** The classes without child pointers: one declaration (and parameter edges). */
  predicate IsLeafKind(k: Kind)
  {
    match k
    case IdentifierNode | NumberNode | LiteralNode | PrimaryExpressionNode | CompOpNode
      | ForHeaderNode | MyFuncNode | RangeNode | MyRangeNode | WithItem | GlobalStmtNode
      | NonlocalStmtNode => true
    case _ => false
  }

  /** The classes that print a declaration and then their child vector. */
  predicate IsListKind(k: Kind)
  {
    match k
    case FunctionNode | TryStmtsNode | FunctionCallNode | Args | BlockNode | StatementsNode
      | assignmentStatement | DecoratorsNode | WithStmtNode | Arg => true
    case _ => false
  }

  /** The classes that print a declaration and then their child pointers. */
  predicate IsSlotKind(k: Kind)
  {
    match k
    case WhileStatementNode | ComparisonNode | NegatedExpressionNode | ExpressionNode | ChangesNode
      | ExceptBlockNode | ClassDefRawNode | ForStatementNode | TryStatementNode | FinallyBlockNode
      | ClassDefNode => true
    case _ => false
  }

  /** The classes whose `print` dereferences its pointers without a check. */
  predicate IsUncheckedKind(k: Kind)
  {
    match k
    case ArgumentNode | ReturnStatementNode | BinaryExpressionNode => true
    case _ => false
  }

  function RenderLeaf(n: Node): (r: seq<string>)
    requires Shaped(n) && IsLeafKind(n.kind)
  {
    var nm := n.name;
    var lb := n.labelText;
    var p := n.payload;
    match n.kind
    case IdentifierNode => [BoxDecl(nm, lb + ": " + p.text)]
    case NumberNode | LiteralNode => [BoxDecl(nm, lb + ": " + IntToString(p.value))]
    case PrimaryExpressionNode | CompOpNode | ForHeaderNode | MyFuncNode => [Decl(nm, lb + " : " + p.text)]
    case RangeNode | MyRangeNode => [Decl(nm, lb + " : " + JoinInts(p.values))]
    case WithItem =>
      [Decl(nm, lb + " : " + p.identifier1
                + (if p.stringLiteral != "" then " = " + p.stringLiteral else "")
                + (if p.identifier2 != "" then " as " + p.identifier2 else ""))]
    // edges drawn from `identifier`, one per parameter name
    case GlobalStmtNode | NonlocalStmtNode => [Decl(nm, lb + " : " + p.identifier)] + ParamEdges(p.identifier, p.params)
  }

  function RenderListNode(n: Node): (r: seq<string>)
    requires Printable(n) && IsListKind(n.kind)
    decreases n, 1
  {
    var nm := n.name;
    var lb := n.labelText;
    match n.kind
    case FunctionNode | TryStmtsNode => [Decl(nm, lb + " : " + nm)] + RenderList(nm, n.next)
    case FunctionCallNode => [Decl(nm, lb + " : " + n.payload.text)] + RenderList(nm, n.next)
    case Args | BlockNode | StatementsNode | assignmentStatement => [Decl(nm, lb)] + RenderList(nm, n.next)
    case DecoratorsNode => [Decl(nm, lb + " : " + nm)] + EdgeSlots(nm, n.slots) + RenderList(nm, n.next)
    case WithStmtNode => [Decl(nm, lb + " : " + nm)] + RenderList(nm, n.next) + OptSlots(n.slots)
    // no edges to the arguments
    case Arg => [Decl(nm, lb)] + RenderAll(n.next)
  }

  function RenderSlotNode(n: Node): (r: seq<string>)
    requires Printable(n) && IsSlotKind(n.kind)
    decreases n, 1
  {
    var nm := n.name;
    var lb := n.labelText;
    var s := n.slots;
    match n.kind
    case WhileStatementNode => [Decl(nm, lb + " : " + nm)] + RoleSlots(nm, s, ["condition", "body"])
    case ComparisonNode => [Decl(nm, lb + " : " + n.payload.text)] + RoleSlots(nm, s, ["left", "right"])
    case NegatedExpressionNode => [Decl(nm, lb)] + EdgeSlots(nm, s)
    case ExpressionNode | ChangesNode | ExceptBlockNode | ClassDefRawNode => [Decl(nm, lb + " : " + n.payload.text)] + EdgeSlots(nm, s)
    case ForStatementNode | TryStatementNode | FinallyBlockNode | ClassDefNode => [Decl(nm, lb + " : " + nm)] + EdgeSlots(nm, s)
  }

  function RenderUnchecked(n: Node): (r: seq<string>)
    requires Printable(n) && IsUncheckedKind(n.kind)
    decreases n, 1
  {
    var s := n.slots;
    match n.kind
    case ArgumentNode => Render(s[0].value)
    case ReturnStatementNode => [Decl(n.name, "ReturnStatement")] + Render(s[0].value)
    case BinaryExpressionNode =>
      // the literal class name stands in for `name`, twice, and no edge is drawn
      [Decl("BinaryExpressionNode", [n.payload.operation])] + Render(s[0].value)
      + [Decl("BinaryExpressionNode", [n.payload.operation])] + Render(s[1].value)
  }

  function RenderPassThrough(n: Node): (r: seq<string>)
    requires Printable(n)
    decreases n, 1
  {
    RenderAll(n.next) + OptSlots(n.slots)
  }

  /** A vector printed with an edge before each element: `name -> item.name;` then the item. */
  function RenderList(from: string, cs: seq<Node>): (r: seq<string>)
    requires AllPrintable(cs)
    decreases cs
  {
    if cs == [] then [] else [Edge(from, cs[0].name)] + Render(cs[0]) + RenderList(from, cs[1..])
  }

  /** A vector whose elements are printed one after the other, with no edges. */
  function RenderAll(cs: seq<Node>): (r: seq<string>)
    requires AllPrintable(cs)
    decreases cs
  {
    if cs == [] then [] else Render(cs[0]) + RenderAll(cs[1..])
  }

  /** Checked pointers, each printed after a plain edge; nothing for a null one. */
  function EdgeSlots(from: string, slots: seq<Option<Node>>): (r: seq<string>)
    requires SlotsPrintable(slots)
    decreases slots
  {
    if slots == [] then [] else Slot(from, slots[0]) + EdgeSlots(from, slots[1..])
  }

  /** Checked pointers, each printed after an edge naming its role; nothing for a null one. */
  function RoleSlots(from: string, slots: seq<Option<Node>>, roles: seq<string>): (r: seq<string>)
    requires SlotsPrintable(slots) && |roles| == |slots|
    decreases slots
  {
    if slots == [] then [] else RoleSlot(from, slots[0], roles[0]) + RoleSlots(from, slots[1..], roles[1..])
  }

  /** Checked pointers printed without edges; nothing for a null one. */
  function OptSlots(slots: seq<Option<Node>>): (r: seq<string>)
    requires SlotsPrintable(slots)
    decreases slots
  {
    if slots == [] then [] else Opt(slots[0]) + OptSlots(slots[1..])
  }

  /** A checked pointer printed after a plain edge; nothing when it is null. */
  function Slot(from: string, o: Option<Node>): (r: seq<string>)
    requires o.Some? ==> Printable(o.value)
    decreases o
  {
    if o.None? then [] else [Edge(from, o.value.name)] + Render(o.value)
  }

  /** A checked pointer printed after an edge naming its role; nothing when it is null. */
  function RoleSlot(from: string, o: Option<Node>, role: string): (r: seq<string>)
    requires o.Some? ==> Printable(o.value)
    decreases o
  {
    if o.None? then [] else [RoleEdge(from, o.value.name, role)] + Render(o.value)
  }

  /** A checked pointer printed without an edge; nothing when it is null. */
  function Opt(o: Option<Node>): (r: seq<string>)
    requires o.Some? ==> Printable(o.value)
    decreases o
  {
    if o.None? then [] else Render(o.value)
  }

  /** GlobalStmtNode and NonlocalStmtNode: `identifier -> param;` per parameter. */
  function ParamEdges(id: string, params: seq<string>): seq<string>
  {
    seq(|params|, i requires 0 <= i < |params| => Edge(id, params[i]))
  }
}
