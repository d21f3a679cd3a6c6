/**
 * `add`: attaching a child to a node.  Each class has its own rule: push onto
 * the child vector, fill the first null pointer (ChangesNode,
 * BinaryExpressionNode), reject with a diagnostic (the leaves and
 * ReturnStatementNode), or ignore the child.  The diagnostic the source writes
 * to standard error is returned instead.
 */
module Attachment {
  import opened Wrappers
  import opened AstNodes

  /** Written by IdentifierNode, NumberNode, LiteralNode and ReturnStatementNode. */
  const LeafMessage := "Cannot add a child to a leaf node."

  /** Written by BinaryExpressionNode when both operands are already set. */
  const BinaryFullMessage := "Binary expression already has two children."

  /** The classes whose `add` only writes LeafMessage. */
  predicate RejectsChildren(k: Kind)
  {
    match k
    case IdentifierNode | NumberNode | LiteralNode | ReturnStatementNode => true
    case _ => false
  }

  /** The classes whose `add` stores the child in the first null pointer. */
  predicate FillsSlots(k: Kind)
  {
    match k
    case ChangesNode | BinaryExpressionNode => true
    case _ => false
  }

  /** The position of the first null pointer, if any. */
  function FirstEmpty(slots: seq<Option<Node>>): (r: Option<nat>)
    ensures r.Some? ==> r.value < |slots| && slots[r.value].None?
    ensures r.Some? ==> forall j | 0 <= j < r.value :: slots[j].Some?
    ensures r.None? <==> forall j | 0 <= j < |slots| :: slots[j].Some?
  {
    if slots == [] then None
    else if slots[0].None? then Some(0)
    else match FirstEmpty(slots[1..])
      case None => None
      case Some(i) => Some(i + 1)
  }

  /** `add` takes the child: it ends up among the node's children. */
  predicate Accepts(n: Node)
  {
    HasVector(n.kind) || (FillsSlots(n.kind) && FirstEmpty(n.slots).Some?)
  }

  /** The node after one `add`, and the diagnostic that call writes, if any. */
  datatype AddResult = AddResult(node: Node, diagnostic: Option<string>)

  /** One call of `add(child)` on `n`, branch by branch as each class's override takes it. */
  function Attach(n: Node, child: Node): (r: AddResult)
    requires Shaped(n)
    ensures Shaped(r.node)
    ensures r.node.kind == n.kind && r.node.name == n.name && r.node.labelText == n.labelText
    ensures r.node.payload == n.payload
  {
    if HasVector(n.kind) then
      AddResult(n.(next := n.next + [child]), None)
    else if n.kind == ChangesNode then
      // only the first call sets `range`
      AddResult(if n.slots[0].None? then n.(slots := [Some(child)]) else n, None)
    else if n.kind == BinaryExpressionNode then
      if n.slots[0].None? then AddResult(n.(slots := [Some(child), n.slots[1]]), None)
      else if n.slots[1].None? then AddResult(n.(slots := [n.slots[0], Some(child)]), None)
      else AddResult(n, Some(BinaryFullMessage))
    else if RejectsChildren(n.kind) then
      AddResult(n, Some(LeafMessage))
    else
      AddResult(n, None)
  }

  /** The tree after a sequence of `add` calls, and the diagnostics they wrote in order. */
  datatype Built = Built(node: Node, diagnostics: seq<string>)

  /** `add` called with each of `cs` in turn. */
  function AttachAll(n: Node, cs: seq<Node>): (r: Built)
    requires Shaped(n)
    ensures Shaped(r.node)
    ensures r.node.kind == n.kind && r.node.name == n.name && r.node.labelText == n.labelText
    ensures r.node.payload == n.payload
    decreases |cs|
  {
    if cs == [] then Built(n, [])
    else
      var first := Attach(n, cs[0]);
      var rest := AttachAll(first.node, cs[1..]);
      Built(rest.node, OptSeq(first.diagnostic) + rest.diagnostics)
  }

  /**
   * An AST node object.  Its fields are the members every class shares and
   * those its class declares (see `Node`); `Add` updates them in place.
   */
  class AstNode {
    var kind: Kind
    var name: string
    var labelText: string
    var next: seq<Node>
    var slots: seq<Option<Node>>
    var payload: Payload

    /** The object's current state as a value. */
    function Value(): Node
      reads this
    {
      Node(kind, name, labelText, next, slots, payload)
    }

    /** The object holds exactly the members its class declares. */
    ghost predicate Valid()
      reads this
    {
      Shaped(Value())
    }

    constructor (n: Node)
      requires Shaped(n)
      ensures Valid() && Value() == n
    {
      kind, name, labelText := n.kind, n.name, n.labelText;
      next, slots, payload := n.next, n.slots, n.payload;
    }

    /** `add(child)`: the new state and the diagnostic are those of `Attach`. */
    method Add(child: Node) returns (diagnostic: Option<string>)
      requires Valid()
      modifies this
      ensures Valid()
      ensures Value() == Attach(old(Value()), child).node
      ensures diagnostic == Attach(old(Value()), child).diagnostic
    {
      diagnostic := None;
      if HasVector(kind) {
        next := next + [child];
      } else if kind == ChangesNode {
        if slots[0].None? {
          slots := slots[0 := Some(child)];
        }
      } else if kind == BinaryExpressionNode {
        if slots[0].None? {
          slots := slots[0 := Some(child)];
        } else if slots[1].None? {
          slots := slots[1 := Some(child)];
        } else {
          diagnostic := Some(BinaryFullMessage);
        }
      } else if RejectsChildren(kind) {
        diagnostic := Some(LeafMessage);
      }
    }
  }
}
