/**
 * WhileStatementNode and ComparisonNode label the edge to each child with the
 * role of the member that holds it, and skip a null member altogether.
 */
module RoleEdges {
  import opened Wrappers
  import opened AstNodes
  import opened Rendering
  import opened RenderSequences
  import opened PrintLayout
  import opened Concat

  /** The pointers that are not null, each with the role of the member holding it, in declaration order. */
  function Labelled(slots: seq<Option<Node>>, roles: seq<string>): (r: seq<(Node, string)>)
    requires |roles| == |slots|
    ensures |r| == |Present(slots)|
    ensures forall i | 0 <= i < |r| :: r[i].0 == Present(slots)[i]
  {
    if slots == [] then []
    else
      var rest := Labelled(slots[1..], roles[1..]);
      if slots[0].Some? then
        assert Present(slots) == [slots[0].value] + Present(slots[1..]);
        [(slots[0].value, roles[0])] + rest
      else
        assert Present(slots) == Present(slots[1..]);
        rest
  }

  /** Every pair holds a non-null pointer's node together with that pointer's own role. */
  lemma {:induction false} LabelledRoles(slots: seq<Option<Node>>, roles: seq<string>)
    requires |roles| == |slots|
    ensures forall p | p in Labelled(slots, roles) :: exists j | 0 <= j < |slots| :: slots[j] == Some(p.0) && roles[j] == p.1
    decreases slots
  {
    if slots != [] {
      LabelledRoles(slots[1..], roles[1..]);
      var rest := Labelled(slots[1..], roles[1..]);
      var head: seq<(Node, string)> := if slots[0].Some? then [(slots[0].value, roles[0])] else [];
      assert Labelled(slots, roles) == head + rest;
      forall p: (Node, string) | p in head + rest
        ensures exists j | 0 <= j < |slots| :: slots[j] == Some(p.0) && roles[j] == p.1
      {
        if p in head {
          assert slots[0] == Some(p.0) && roles[0] == p.1;
        } else {
          var j :| 0 <= j < |slots[1..]| && slots[1..][j] == Some(p.0) && roles[1..][j] == p.1;
          assert slots[j + 1] == Some(p.0) && roles[j + 1] == p.1;
        }
      }
    }
  }

  /** Children printed each after an edge labelled with its role. */
  function RoleList(from: string, ps: seq<(Node, string)>): seq<string>
    requires forall i | 0 <= i < |ps| :: Printable(ps[i].0)
  {
    if ps == [] then [] else [RoleEdge(from, ps[0].0.name, ps[0].1)] + Render(ps[0].0) + RoleList(from, ps[1..])
  }

  /** A null pointer prints neither its role edge nor a subtree. */
  lemma {:induction false} NullRolesSkipped(from: string, slots: seq<Option<Node>>, roles: seq<string>)
    requires SlotsPrintable(slots) && |roles| == |slots|
    ensures forall i | 0 <= i < |Labelled(slots, roles)| :: Printable(Labelled(slots, roles)[i].0)
    ensures RoleSlots(from, slots, roles) == RoleList(from, Labelled(slots, roles))
    decreases slots
  {
    PresentPrintable(slots);
    if slots != [] {
      NullRolesSkipped(from, slots[1..], roles[1..]);
      var rest := Labelled(slots[1..], roles[1..]);
      if slots[0].Some? {
        var p := (slots[0].value, roles[0]);
        assert Labelled(slots, roles) == [p] + rest;
        assert ([p] + rest)[1..] == rest;
      }
    }
  }

  /** The role of each pointer of WhileStatementNode and ComparisonNode. */
  function Roles(k: Kind): (roles: seq<string>)
    ensures |roles| == 2
  {
    if k == WhileStatementNode then ["condition", "body"] else ["left", "right"]
  }

  /**
   * WhileStatementNode and ComparisonNode declare themselves, then draw an
   * edge labelled with its role to every pointer that is not null, each
   * followed by that child's lines; a null pointer adds no line at all.
   */
  lemma RoleLayout(n: Node)
    requires Printable(n) && (n.kind == WhileStatementNode || n.kind == ComparisonNode)
    ensures |Render(n)| > 0 && Declares(Render(n)[0], n.name)
    ensures forall i | 0 <= i < |Labelled(n.slots, Roles(n.kind))| :: Printable(Labelled(n.slots, Roles(n.kind))[i].0)
    ensures Render(n)[1..] == RoleList(n.name, Labelled(n.slots, Roles(n.kind)))
  {
    NullRolesSkipped(n.name, n.slots, Roles(n.kind));
    var d := RoleHeading(n);
    var edges := RoleSlots(n.name, n.slots, Roles(n.kind));
    RoleLines(n);
    HeadTail(d, edges);
  }

  /**
   * The declaration WhileStatementNode and ComparisonNode write first, as
   * `RenderSlotNode` writes it (`RoleLines` proves the two agree).
   */
  function RoleHeading(n: Node): (line: string)
    requires Shaped(n) && (n.kind == WhileStatementNode || n.kind == ComparisonNode)
    ensures Declares(line, n.name)
  {
    if n.kind == WhileStatementNode then
      DeclDeclares(n.name, n.labelText + " : " + n.name);
      Decl(n.name, n.labelText + " : " + n.name)
    else
      DeclDeclares(n.name, n.labelText + " : " + n.payload.text);
      Decl(n.name, n.labelText + " : " + n.payload.text)
  }

  lemma RoleLines(n: Node)
    requires Printable(n) && (n.kind == WhileStatementNode || n.kind == ComparisonNode)
    ensures Render(n) == [RoleHeading(n)] + RoleSlots(n.name, n.slots, Roles(n.kind))
  {
    assert Render(n) == RenderSlotNode(n);
  }
}
