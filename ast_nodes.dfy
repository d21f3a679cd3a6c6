/**
 * The AST node family of the Python front end.
 *
 * Every C++ subclass of `AstNode` is one `Kind`; a `Node` is an object of
 * that class.  All nodes share one record shape:
 *   - `name` and `labelText`: the two public members of the base class (the
 *     identity written into the graph and the category text; `label` is a
 *     keyword here);
 *   - `next`: the class's `std::vector<AstNode*>` member, if it has one (the
 *     source calls it `next`, `tryStmts`, `decorators`, `withItems`,
 *     `withItemLists`, `arguments`, `elifStmts`, `matchCases`, `patterns` or
 *     `dictPatternEntries`);
 *   - `slots`: the class's `AstNode*` members in declaration order, `None`
 *     for a null pointer (`SlotCount` gives how many each class has);
 *   - `payload`: the class's string, integer or character members.
 * Children are owned values, so a tree is acyclic and single-owner by
 * construction.
 */
module AstNodes {
  import opened Wrappers

  /** The concrete subclasses of `AstNode`, under their C++ names. */
  datatype Kind =
    | FunctionNode | IdentifierNode | Arg | Args
    | WhileStatementNode | ComparisonNode | PrimaryExpressionNode | NegatedExpressionNode
    | ExpressionNode | CompOpNode | ForStatementNode | ForHeaderNode | ChangesNode
    | RangeNode | MyFuncNode | MyRangeNode
    | TryStatementNode | TryStmtsNode | ExceptBlockNode | FinallyBlockNode
    | DecoratorsNode | ClassDefNode | ClassDefRawNode | NamedExpressionNode
    | WithStmtNode | WithItemsNode | WithItemList | WithItem
    | FunctionCallNode | ArgumentsNode | ArgumentNode
    | GlobalStmtNode | NonlocalStmtNode | YieldStmtNode | YieldExprNode
    | IfStatementNode | IfHeaderNode | ElifElseNode | ElifStmtsNode | ElifStmtNode
    | ElifHeaderNode | ElseStmtNode
    | MatchStmtNode | MatchCasesNode | MatchCaseNode | PatternListNode | PatternNode
    | ListPatternNode | DictPatternNode | DictPatternEntriesNode | DictPatternEntryNode
    | BlockNode | StatementsNode | assignmentStatement
    | NumberNode | LiteralNode | BinaryExpressionNode | ReturnStatementNode

  /** The members of a class that are neither child pointers nor the child vector. */
  datatype Payload =
    | NoPayload
      /** `value` (IdentifierNode, PrimaryExpressionNode), `op` (CompOpNode,
          ExpressionNode), `compOp` (ComparisonNode) or `identifier`. */
    | Text(text: string)
      /** The `int value` of NumberNode and LiteralNode. */
    | Number(value: int)
      /** The `char operation` of BinaryExpressionNode. */
    | Operation(operation: char)
      /** The `std::vector<int> values` of RangeNode and MyRangeNode. */
    | Values(values: seq<int>)
      /** WithItem's three strings. */
    | WithNames(identifier1: string, stringLiteral: string, identifier2: string)
      /** GlobalStmtNode's and NonlocalStmtNode's identifier and parameter names. */
    | Params(identifier: string, params: seq<string>)

  datatype Node = Node(kind: Kind, name: string, labelText: string,
                       next: seq<Node>, slots: seq<Option<Node>>, payload: Payload)

  /** The base class's default for `name` and `label`, kept by classes that do not assign them. */
  const Undefined := "undefined"

  /** Which `Payload` alternative a class declares. */
  datatype PayloadTag = NoTag | TextTag | NumberTag | OperationTag | ValuesTag | WithNamesTag | ParamsTag
  /**
   * What a class declares besides `name` and `label`: how many `AstNode*`
   * members, whether it has a `std::vector<AstNode*>` member (its `add`
   * pushes onto it), and which payload members.
   */
  datatype ClassInfo = ClassInfo(slotCount: nat, hasVector: bool, payload: PayloadTag)
  /**
   * The member table of every class.  The pointers, in declaration order:
   * WhileStatementNode (condition, body), ComparisonNode and ExpressionNode
   * (leftExpression, rightExpression), ForStatementNode (forHeader, changes,
   * block), TryStatementNode (block, tryStmts), ClassDefNode (decorators,
   * classDefRaw), IfStatementNode (ifHeader, block, elifElse), ElifStmtNode
   * (elifHeader, block), MatchStmtNode (expression, matchCases),
   * MatchCaseNode (patternList, simpleStmt), DictPatternEntryNode (key,
   * value), BinaryExpressionNode (left, right); every other class with one
   * pointer holds the one its name suggests.
   */
  function Info(k: Kind): ClassInfo
  {
    match k
    case FunctionNode => ClassInfo(0, true, NoTag)
    case IdentifierNode => ClassInfo(0, false, TextTag)
    case Arg => ClassInfo(0, true, NoTag)
    case Args => ClassInfo(0, true, NoTag)
    case WhileStatementNode => ClassInfo(2, false, NoTag)
    case ComparisonNode => ClassInfo(2, false, TextTag)
    case PrimaryExpressionNode => ClassInfo(0, false, TextTag)
    case NegatedExpressionNode => ClassInfo(1, false, NoTag)
    case ExpressionNode => ClassInfo(2, false, TextTag)
    case CompOpNode => ClassInfo(0, false, TextTag)
    case ForStatementNode => ClassInfo(3, false, NoTag)
    case ForHeaderNode => ClassInfo(0, false, TextTag)
    case ChangesNode => ClassInfo(1, false, TextTag)
    case RangeNode => ClassInfo(0, false, ValuesTag)
    case MyFuncNode => ClassInfo(0, false, TextTag)
    case MyRangeNode => ClassInfo(0, false, ValuesTag)
    case TryStatementNode => ClassInfo(2, false, NoTag)
    case TryStmtsNode => ClassInfo(0, true, NoTag)
    case ExceptBlockNode => ClassInfo(1, false, TextTag)
    case FinallyBlockNode => ClassInfo(1, false, NoTag)
    case DecoratorsNode => ClassInfo(1, true, NoTag)
    case ClassDefNode => ClassInfo(2, false, NoTag)
    case ClassDefRawNode => ClassInfo(1, false, TextTag)
    case NamedExpressionNode => ClassInfo(1, false, NoTag)
    case WithStmtNode => ClassInfo(1, true, NoTag)
    case WithItemsNode => ClassInfo(0, true, NoTag)
    case WithItemList => ClassInfo(0, true, NoTag)
    case WithItem => ClassInfo(0, false, WithNamesTag)
    case FunctionCallNode => ClassInfo(0, true, TextTag)
    case ArgumentsNode => ClassInfo(0, true, NoTag)
    case ArgumentNode => ClassInfo(1, false, NoTag)
    case GlobalStmtNode => ClassInfo(0, false, ParamsTag)
    case NonlocalStmtNode => ClassInfo(0, false, ParamsTag)
    case YieldStmtNode => ClassInfo(1, false, NoTag)
    case YieldExprNode => ClassInfo(1, false, NoTag)
    case IfStatementNode => ClassInfo(3, false, NoTag)
    case IfHeaderNode => ClassInfo(1, false, NoTag)
    case ElifElseNode => ClassInfo(1, true, NoTag)
    case ElifStmtsNode => ClassInfo(0, true, NoTag)
    case ElifStmtNode => ClassInfo(2, false, NoTag)
    case ElifHeaderNode => ClassInfo(1, false, NoTag)
    case ElseStmtNode => ClassInfo(1, false, NoTag)
    case MatchStmtNode => ClassInfo(2, false, NoTag)
    case MatchCasesNode => ClassInfo(0, true, NoTag)
    case MatchCaseNode => ClassInfo(2, false, NoTag)
    case PatternListNode => ClassInfo(0, true, NoTag)
    case PatternNode => ClassInfo(1, false, NoTag)
    case ListPatternNode => ClassInfo(1, false, NoTag)
    case DictPatternNode => ClassInfo(1, false, NoTag)
    case DictPatternEntriesNode => ClassInfo(0, true, NoTag)
    case DictPatternEntryNode => ClassInfo(2, false, NoTag)
    case BlockNode => ClassInfo(0, true, NoTag)
    case StatementsNode => ClassInfo(0, true, NoTag)
    case assignmentStatement => ClassInfo(0, true, NoTag)
    case NumberNode => ClassInfo(0, false, NumberTag)
    case LiteralNode => ClassInfo(0, false, NumberTag)
    case BinaryExpressionNode => ClassInfo(2, false, OperationTag)
    case ReturnStatementNode => ClassInfo(1, false, NoTag)
  }
  function SlotCount(k: Kind): nat { Info(k).slotCount }
  predicate HasVector(k: Kind) { Info(k).hasVector }
  function TagOf(p: Payload): PayloadTag
  {
    match p
    case NoPayload => NoTag
    case Text(_) => TextTag
    case Number(_) => NumberTag
    case Operation(_) => OperationTag
    case Values(_) => ValuesTag
    case WithNames(_, _, _) => WithNamesTag
    case Params(_, _) => ParamsTag
  }
  predicate PayloadFits(k: Kind, p: Payload) { TagOf(p) == Info(k).payload }
  /** The node holds exactly the members its class declares. */
  predicate Shaped(n: Node)
  {
    && |n.slots| == SlotCount(n.kind)
    && (!HasVector(n.kind) ==> n.next == [])
    && PayloadFits(n.kind, n.payload)
  }

  /** The child pointers that are not null, in declaration order. */
  function Present(slots: seq<Option<Node>>): (r: seq<Node>)
    ensures |r| <= |slots|
    ensures forall c | c in r :: Some(c) in slots
    ensures forall i | 0 <= i < |slots| && slots[i].Some? :: slots[i].value in r
    ensures (forall i | 0 <= i < |slots| :: slots[i].None?) <==> r == []
  {
    if slots == [] then []
    else OptSeq(slots[0]) + Present(slots[1..])
  }

  /**
   * The owned children in the order `print` visits them (and the destructor
   * deletes them); null pointers are not children.  The vector comes first
   * for WithStmtNode and ElifElseNode, the pointers first everywhere else.
   */
  function Children(n: Node): (r: seq<Node>)
    ensures multiset(r) == multiset(n.next) + multiset(Present(n.slots))
  {
    if n.kind.WithStmtNode? || n.kind.ElifElseNode? then n.next + Present(n.slots)
    else Present(n.slots) + n.next
  }

  /** The pointers `print` dereferences without a null check. */
  predicate Dereferenced(n: Node)
  {
    (n.kind.BinaryExpressionNode? || n.kind.ReturnStatementNode? || n.kind.ArgumentNode?) ==>
      forall i | 0 <= i < |n.slots| :: n.slots[i].Some?
  }

  /**
   * `print` on this tree never dereferences a null pointer: the pointers it
   * dereferences without a check (BinaryExpressionNode's `left` and `right`,
   * ReturnStatementNode's `returnValue`, ArgumentNode's `primaryExpression`)
   * are set, here and in every subtree.
   */
  predicate Printable(n: Node)
    decreases n
  {
    && Shaped(n)
    && Dereferenced(n)
    && (forall i | 0 <= i < |n.next| :: Printable(n.next[i]))
    && (forall i | 0 <= i < |n.slots| :: n.slots[i].Some? ==> Printable(n.slots[i].value))
  }

  predicate AllPrintable(cs: seq<Node>)
  {
    forall i | 0 <= i < |cs| :: Printable(cs[i])
  }

  predicate SlotsPrintable(slots: seq<Option<Node>>)
  {
    forall i | 0 <= i < |slots| :: slots[i].Some? ==> Printable(slots[i].value)
  }

  /**
   * `name` and `label` are those the class's constructor assigns.  Classes
   * whose constructor takes the name (FunctionNode, Arg, Args, BlockNode,
   * StatementsNode, assignmentStatement) or both (IdentifierNode, NumberNode,
   * LiteralNode) constrain only what they fix.
   */
  predicate ConstructorIdentity(n: Node)
  {
    var nm := n.name;
    var l := n.labelText;
    match n.kind
    case FunctionNode => l == "Declare Fun"
    case IdentifierNode | NumberNode | LiteralNode => true
    case Arg => l == "Argument"
    case Args => l == "Arguments"
    case WhileStatementNode => nm == "While" && l == "While Statement"
    case ComparisonNode => nm == "Comparison" && l == "Comparison"
    case PrimaryExpressionNode => nm == "PrimaryExpression" && l == "Primary Expression"
    case NegatedExpressionNode => nm == "NegatedExpression" && l == "Negated Expression"
    case ExpressionNode => nm == "Expression" && l == "Expression"
    case CompOpNode => nm == "CompOp" && l == "Comp Op"
    case ForStatementNode => nm == "ForStatement" && l == "For Statement"
    case ForHeaderNode => nm == "ForHeader" && l == "For Header"
    case ChangesNode => nm == "Changes" && l == "Changes"
    case RangeNode => nm == "Range" && l == "Range"
    case MyFuncNode => nm == "MyFunc" && l == "My Func"
    case MyRangeNode => nm == "MyRange" && l == "My Range"
    case TryStatementNode => nm == "TryStatement" && l == "Try Statement"
    case ExceptBlockNode => nm == "ExceptBlock" && l == "Except Block"
    case FinallyBlockNode => nm == "FinallyBlock" && l == "Finally Block"
    case DecoratorsNode => nm == "Decorators" && l == "Decorators"
    case ClassDefNode => nm == "ClassDef" && l == "Class Definition"
    case ClassDefRawNode => nm == "ClassDefRaw" && l == "Class Definition Raw"
    case NamedExpressionNode => nm == "NamedExpression" && l == "Named Expression"
    case WithStmtNode => nm == "WithStmt" && l == "With Statement"
    case WithItem => nm == "WithItem" && l == "With Item"
    case GlobalStmtNode => nm == "GlobalStmt" && l == "Global Statement"
    case NonlocalStmtNode => nm == "NonlocalStmt" && l == "Nonlocal Statement"
    case YieldStmtNode => nm == "YieldStmt" && l == "Yield Statement"
    case YieldExprNode => nm == "YieldExpr" && l == "Yield Expression"
    case IfStatementNode => nm == "IfStatement" && l == "If Statement"
    case IfHeaderNode => nm == "IfHeader" && l == "If Header"
    case ElifElseNode => nm == "ElifElse" && l == "Elif/Else"
    case ElifStmtNode => nm == "ElifStmt" && l == "Elif Statement"
    case ElifHeaderNode => nm == "ElifHeader" && l == "Elif Header"
    case ElseStmtNode => nm == "ElseStmt" && l == "Else Statement"
    case MatchStmtNode => nm == "MatchStmt" && l == "Match Statement"
    case MatchCaseNode => nm == "MatchCase" && l == "Match Case"
    case PatternNode => nm == "Pattern" && l == "Pattern"
    case ListPatternNode => nm == "ListPattern" && l == "List Pattern"
    case DictPatternNode => nm == "DictPattern" && l == "Dictionary Pattern"
    case DictPatternEntryNode => nm == "DictPatternEntry" && l == "Dictionary Pattern Entry"
    case BlockNode => l == "Block"
    case StatementsNode => l == "Block Statements"
    case assignmentStatement => l == "assignment"
    case ReturnStatementNode => nm == "ReturnStatement" && l == Undefined
    // no constructor assigns them
    case TryStmtsNode | WithItemsNode | WithItemList | FunctionCallNode | ArgumentsNode
      | ArgumentNode | ElifStmtsNode | MatchCasesNode | PatternListNode
      | DictPatternEntriesNode | BinaryExpressionNode => nm == Undefined && l == Undefined
  }
}
