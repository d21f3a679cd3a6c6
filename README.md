# Python AST nodes and their DOT printer, in Dafny

The C++ header `python_ast_node.hpp` defines the node classes a Python parser
builds (one subclass of `AstNode` per construct, 58 of them) and the `AST`
wrapper that owns the root. Every class has two operations (ComparisonNode only
`print`, as it declares no `add`):

- `add(child)` attaches a child. Depending on the class it pushes the child onto
  a vector, fills the first null pointer (ChangesNode, BinaryExpressionNode),
  writes "Cannot add a child to a leaf node." to standard error (the leaves and
  ReturnStatementNode), or does nothing.
- `print()` writes the node and its subtree to standard output as lines of the
  Graphviz DOT language. It writes a declaration `name [label="..."]` (boxed for
  the literal leaves), then for each child an edge `name -> child;` followed
  immediately by that child's lines. Null pointers are skipped.

`AST::Print` wraps the root's lines between `digraph G {` and `}`.

The model:

- **Nodes** (`ast_nodes.dfy`, module `AstNodes`). One record type `Node` holds
  every class:
  - `kind` is the C++ class;
  - `name` and `labelText` are the two members every node has;
  - `next` is the child vector;
  - `slots` holds the child pointers in declaration order;
  - `payload` holds the class's own strings and numbers.

  The table `Info` says which members each class declares, and `Shaped` says a
  record holds exactly those.
- **`add`** (`attachment.dfy`). `Attach` is one call: the new node and the
  diagnostic written, if any. The class `AstNode` has the fields the source
  updates in place, and its `Add` method is proved to make exactly the change
  `Attach` describes. `AttachAll` is a sequence of calls.
- **`print`** (`rendering.dfy`). `Render` returns the lines written, one string
  per `std::endl` and without the line terminator. It dispatches on the class
  to one function per group of classes that print alike. `JoinValues` is the
  separator loop of RangeNode and MyRangeNode, proved against `JoinInts`.
- **Properties** (the remaining files):
  - what one and many `add` calls do;
  - that every printed line starts with a tab;
  - the declaration-then-edge layout;
  - null pointers printing nothing;
  - transparent classes printing only their children;
  - how the output changes after an `add`;
  - the shape of the whole digraph.

Behaviour of the code that the model keeps:

- Names are fixed per class and not unique. In the model a node's name and
  label are free fields; `ConstructorIdentity` states what each constructor
  assigns, and the lemmas of `identity.dfy` show the consequences:
  - every while loop declares the DOT node `While`;
  - a while loop nested in another draws an edge from `While` to `While`;
  - FunctionCallNode, which no constructor names, draws its edges from
    `undefined`.
- Nothing is quoted or escaped: names, labels and payload strings are written
  as they are.
- `Arg` prints its arguments with no edges to them.
- GlobalStmtNode and NonlocalStmtNode draw their edges from `identifier`, to
  bare parameter names.
- WithStmtNode prints its block without an edge.
- WithStmtNode and ElifElseNode print their vector before their pointer.
- BinaryExpressionNode declares the literal name `BinaryExpressionNode` twice,
  draws no edges, and dereferences both operands unchecked.
- ReturnStatementNode and ArgumentNode also dereference their pointer
  unchecked, and draw no edge to it.
- `AST::Print` dereferences the root unchecked, so a null root is not
  printable.
- The pass-through classes (NamedExpression, WithItems, WithItemList,
  Arguments, Argument, Yield*, If*, Elif*, Else, Match*, Pattern*, ListPattern,
  DictPattern*)
  write no line of their own and no edge to their children.

## Model

| member | source | states |
|---|---|---|
| AstNodes.Info | python_ast_node.hpp:160-171 | no contract: the members each class declares (how many pointers, whether it has a vector, which strings or numbers), read from the class declarations |
| AstNodes.Shaped | python_ast_node.hpp:398-407 | no contract: a node holds exactly the members its class declares |
| AstNodes.Present | python_ast_node.hpp:178-188 | the non-null pointers: no more of them than pointers; every node among them comes from a set pointer and every set pointer's node is among them; empty iff all are null (their order is that of the body, which `NullSlotsSkipped` ties to printing) |
| AstNodes.Children | python_ast_node.hpp:784-793 | a node owns exactly its vector and its non-null pointers (as multisets), vector first for WithStmtNode and ElifElseNode |
| Attachment.FirstEmpty | python_ast_node.hpp:1676-1683 | the index of the first null pointer: it is null and every earlier one is set; none iff all are set |
| Attachment.Attach | python_ast_node.hpp:1676-1683 | `add` never changes a node's class, name, label or payload, and keeps it shaped |
| Attachment.AttachAll | python_ast_node.hpp:34-36 | a sequence of `add` calls never changes class, name, label or payload |
| Attachment.AstNode.constructor | python_ast_node.hpp:30-32 | the object holds the given node's members |
| Attachment.AstNode.Add | python_ast_node.hpp:410-414 | the in-place update of each class's `add` leaves exactly the state `Attach` describes and returns its diagnostic |
| AttachmentProperties.AttachEffect | python_ast_node.hpp:1676-1683 | one `add`: vector classes append; Changes and Binary set exactly the first null pointer; a diagnostic is written iff the class is a leaf or ReturnStatementNode, or a Binary is full; the leaf message iff a leaf or Return; a call that writes one changes nothing |
| AttachmentProperties.AttachKeepsChildren | python_ast_node.hpp:116-118 | `add` adds the child to the owned children iff the node accepts it, and drops or duplicates none |
| AttachmentProperties.PresentUpdate | python_ast_node.hpp:410-414 | setting a null pointer adds exactly that child to the present ones |
| AttachmentProperties.AttachKeepsPrintable | python_ast_node.hpp:1534-1536 | `add` of a printable child keeps the tree printable |
| AttachAllProperties.AttachAllAppends | python_ast_node.hpp:1569-1571 | vector classes end with the old vector followed by every added child in order, pointers unchanged, nothing written |
| AttachAllProperties.AttachAllRejects | python_ast_node.hpp:71-73 | Identifier, Number, Literal and Return never change and write the leaf message once per call |
| AttachAllProperties.AttachAllIgnores | python_ast_node.hpp:174-176 | classes with an empty `add` never change and write nothing |
| AttachAllProperties.AttachAllFull | python_ast_node.hpp:1676-1683 | once every pointer is set, Changes and Binary never change again; Binary writes its message once per call, Changes nothing |
| AttachAllProperties.ChangesFirstWins | python_ast_node.hpp:410-414 | an empty ChangesNode keeps the first child added as `range` and ignores the rest silently |
| AttachAllProperties.BinaryFillOrder | python_ast_node.hpp:1676-1683 | an empty Binary takes the first child as `left`, the second as `right`, and reports every further one |
| Rendering.Render | python_ast_node.hpp:39-52 | no contract: the lines every `print` override writes; stated by EdgeLayout, TransparentLayout, RoleLayout, BoxedLeafLine, RangeLine, ParamLines and RenderIndented |
| Rendering.RenderLeaf | python_ast_node.hpp:76-78 | no contract: the one-line classes (and Global/Nonlocal edges); stated by BoxedLeafLine, RangeLine, ParamLines |
| Rendering.RenderListNode | python_ast_node.hpp:1537-1548 | no contract: the classes that print a vector; stated by EdgeLayout, ArgLines, WithStmtLines |
| Rendering.RenderSlotNode | python_ast_node.hpp:356-369 | no contract: the classes that print checked pointers; stated by EdgeLayout and RoleLayout |
| Rendering.RenderUnchecked | python_ast_node.hpp:1685-1690 | no contract: Argument, Return and Binary, which dereference unchecked; stated by ArgumentLayout and UncheckedIndented |
| Rendering.RenderPassThrough | python_ast_node.hpp:1021-1025 | no contract: the pass-through classes; stated by PassThroughLines and TransparentLayout |
| Rendering.RenderList | python_ast_node.hpp:121-127 | no contract: the loop printing a vector with an edge before each element; stated by ListAppend and ListSnoc |
| Rendering.RenderAll | python_ast_node.hpp:97-102 | no contract: the loop printing a vector without edges; stated by AllAppend and AllSnoc |
| Rendering.EdgeSlots | python_ast_node.hpp:417-422 | no contract: checked pointers after plain edges; stated by NullSlotsSkipped |
| Rendering.RoleSlots | python_ast_node.hpp:178-188 | no contract: checked pointers after role edges; stated by NullRolesSkipped |
| Rendering.OptSlots | python_ast_node.hpp:1145-1151 | no contract: checked pointers without edges; stated by NullSlotsSkipped |
| Rendering.JoinInts | python_ast_node.hpp:497-505 | no contract: the values separated by ", "; stated by JoinValues, JoinIntsSnoc, JoinIntsNoTrailingSeparator |
| Rendering.NatToString | python_ast_node.hpp:1636-1639 | the decimal text of a natural number is never empty; NatToStringDecimal states its value |
| Rendering.IntToString | python_ast_node.hpp:1636-1639 | the decimal text of an `int` is never empty |
| Rendering.JoinValues | python_ast_node.hpp:444-453 | the separator loop produces exactly `JoinInts(values)` |
| Rendering.JoinPrefix | python_ast_node.hpp:496-505 | the text of the first i+1 values is that of the first i, a separator unless i is 0, then the value |
| Rendering.JoinIntsSnoc | python_ast_node.hpp:444-453 | appending a value adds one separator before it, none after |
| RenderingProperties.RenderIndented | python_ast_node.hpp:38-52 | every `std::endl`-terminated line `print` writes for any printable tree starts with a tab |
| RenderingProperties.ListIndented | python_ast_node.hpp:1537-1548 | a vector printed with edges has only tab-led lines |
| RenderingProperties.AllRenderIndented | python_ast_node.hpp:96-101 | a vector printed without edges has only tab-led lines |
| RenderingProperties.SlotsIndented | python_ast_node.hpp:355-368 | checked pointers, with or without edges, print only tab-led lines |
| RenderingProperties.RoleSlotsIndented | python_ast_node.hpp:178-188 | pointers with role edges print only tab-led lines |
| RenderingProperties.NatToStringDecimal | python_ast_node.hpp:1636-1639 | the text of a natural number is all digits, has that value and no leading zero |
| RenderingProperties.IntToStringDecimal | python_ast_node.hpp:1636-1639 | the text of an int starts with `-` iff it is negative, and reads back to the int |
| RenderingProperties.IntToStringEndsWithDigit | python_ast_node.hpp:1636-1639 | the text of an int ends with a digit |
| RenderingProperties.JoinIntsNoTrailingSeparator | python_ast_node.hpp:444-453 | a non-empty value list is joined with no trailing separator: its text ends with a digit |
| RenderingProperties.BoxedLeafLine | python_ast_node.hpp:75-78 | Identifier, Number and Literal print exactly one line, which is boxed and declares the node's name |
| RenderingProperties.RangeLine | python_ast_node.hpp:444-453 | RangeNode and MyRangeNode print exactly one declaration holding the joined values, with no trailing separator |
| RenderingProperties.ParamLines | python_ast_node.hpp:970-975 | Global and Nonlocal print their declaration and then one edge `identifier -> param;` per parameter, nothing else |
| RenderSequences.ListAppend | python_ast_node.hpp:1573-1579 | printing a concatenated vector with edges is printing each part |
| RenderSequences.AllAppend | python_ast_node.hpp:1144-1151 | printing a concatenated vector without edges is printing each part |
| RenderSequences.ListSnoc | python_ast_node.hpp:120-127 | one more vector element adds its edge and then its lines at the end |
| RenderSequences.AllSnoc | python_ast_node.hpp:96-101 | one more element printed without an edge adds its lines at the end |
| RenderSequences.NullSlotsSkipped | python_ast_node.hpp:416-422 | checked pointers print exactly like the vector of the non-null ones: a null pointer gives neither edge nor lines |
| PrintLayout.Heading | python_ast_node.hpp:556-562 | the first line of an edge-drawing class declares the node's own name |
| PrintLayout.EdgeLayout | python_ast_node.hpp:1537-1548 | Function, TryStmts, FunctionCall, Args, Block, Statements, assignment, Decorators, NegatedExpression, Expression, Changes, ExceptBlock, ClassDefRaw, ForStatement, TryStatement, FinallyBlock and ClassDef print one declaration, then for every child in order one edge to it and its lines |
| PrintLayout.DecoratorsEdgeLines | python_ast_node.hpp:650-660 | Decorators prints the edge to `namedExpression` (if set) before those to its decorators |
| PrintLayout.TransparentLayout | python_ast_node.hpp:756-760 | the pass-through classes print exactly their children's lines in order, nothing when all are null |
| PrintLayout.ArgumentLayout | python_ast_node.hpp:942-944 | ArgumentNode prints exactly its expression's lines |
| PrintLayout.PassThroughLines | python_ast_node.hpp:1116-1120 | a pass-through class prints its vector, then its non-null pointers, each without an edge |
| RoleEdges.Labelled | python_ast_node.hpp:212-222 | its nodes are exactly the non-null pointers, in order; LabelledRoles states the roles |
| RoleEdges.LabelledRoles | python_ast_node.hpp:178-188 | every pair holds a non-null pointer's node together with the role of that same member |
| RoleEdges.NullRolesSkipped | python_ast_node.hpp:178-188 | a null While/Comparison member prints neither its role edge nor lines |
| RoleEdges.RoleLayout | python_ast_node.hpp:212-222 | While and Comparison declare themselves, then print for every non-null member an edge labelled `condition`/`body` or `left`/`right` and its lines |
| AddThenPrint.AcceptedChildIsLast | python_ast_node.hpp:34-36 | a node that accepts a child (other than Binary, WithStmt, ElifElse) has it as its last child |
| AddThenPrint.AddThenPrintEdge | python_ast_node.hpp:1534-1548 | after an accepted `add`, an edge-drawing class prints what it printed before, then the child's edge and lines |
| AddThenPrint.AddThenPrintPlain | python_ast_node.hpp:92-101 | after `add`, Arg and the vector-only pass-through classes print what they printed before, then the child's lines |
| AddThenPrint.AddThenPrintWithStmt | python_ast_node.hpp:780-793 | WithStmt prints the new child's edge and lines after the old items and before the block |
| AddThenPrint.AddThenPrintElifElse | python_ast_node.hpp:1140-1151 | ElifElse prints the new child's lines after the old branches and before the else branch |
| AddThenPrint.RefusedAddPrintsSame | python_ast_node.hpp:1632-1634 | a node that does not accept the child is left exactly as it was, so it prints the same |
| Graph.Digraph | python_ast_node.hpp:1735-1739 | no contract: the lines `AST::Print` writes; stated by DigraphShape |
| Graph.DigraphShape | python_ast_node.hpp:1735-1739 | the digraph is `digraph G {`, the root's lines, then `}`, and those two are its only `std::endl`-terminated lines not led by a tab |
| Graph.WhileWithoutBody | python_ast_node.hpp:178-188 | a while whose body is null prints its declaration, the `condition` edge and the condition's box, and nothing for the body |
| PrintLayout.LayoutGroups | python_ast_node.hpp:39-52 | the edge-drawing and pass-through classes are exactly the corresponding groups of `Render`, less the classes that print children without edges or with role labels |
| AstNodes.ConstructorIdentity | python_ast_node.hpp:166-170 | no contract: the name and label each constructor assigns; stated by WhileDeclaresWhile, NestedWhilesShareName, FunctionCallFromUndefined |
| Identity.WhileDeclaresWhile | python_ast_node.hpp:166-170 | a while loop built by its constructor declares the DOT node `While` with label `While Statement : While` |
| Identity.NestedWhilesShareName | python_ast_node.hpp:178-188 | a constructed while loop whose body is another one writes the edge `While -> While [label="body"];`, whether its condition is set or null: both loops are one DOT node |
| Identity.FunctionCallFromUndefined | python_ast_node.hpp:885-897 | FunctionCallNode, which no constructor names, declares `undefined` and draws every edge from `undefined` |
| Graph.Ast.constructor | python_ast_node.hpp:1727 | the wrapper owns the given root |
| Graph.Ast.Print | python_ast_node.hpp:1735-1739 | the wrapper writes exactly `Digraph(root)` |

## Left out

- Destructors and raw-pointer ownership: Dafny collects garbage, so double deletion and leaks have no counterpart.
- Aliasing: children are values, so one node attached under two parents, or changed after attachment, is not modelled.
- `add(nullptr)`: a null child is not representable; `add` always receives a node.
- Streams: standard output becomes the returned lines and standard error the returned diagnostic; `std::endl` flushing and stream state are not modelled.
- The 32-bit `int` of NumberNode, LiteralNode, RangeNode and MyRangeNode: values are unbounded integers, printed in decimal by `IntToString`, a full conversion rather than an abstract one.
- The commented-out first FunctionCallNode (python_ast_node.hpp:130-159) is not part of this model.
- ComparisonNode declares no `add` and so cannot be instantiated in C++; the model prints it and treats `add` on it as doing nothing.
- Graph.Ast.Print: requires a non-null root, because the source dereferences it unchecked.
- Unchecked dereferences in BinaryExpressionNode, ReturnStatementNode and ArgumentNode become the `Printable` precondition of `Render`, not a crash.
- Constructors enter only through `ConstructorIdentity`, the fixed name and label each class assigns, which the lemmas of `identity.dfy` require; elsewhere names and labels are free, and building nodes from constructor arguments is not modelled.
- Uniqueness of DOT names and escaping of labels: the code provides neither, so no property about them is stated.
- RenderingProperties.RenderIndented and Graph.DigraphShape speak of the `std::endl`-terminated lines; a line break inside a name, label or payload string starts a text line that is not led by a tab, so for the DOT text as a whole they hold only when no such string contains one.
- AddThenPrint.AcceptedChildIsLast: excludes BinaryExpressionNode, because when `left` is null and `right` is set, the child fills `left` and comes first, not last.
