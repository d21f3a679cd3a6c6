/**
 * The fixed names the constructors assign, and what they do to the DOT
 * output: every while loop is the DOT node `While`, so nested loops share one
 * node, and the classes whose constructor assigns no name draw their edges
 * from `undefined`.
 */
module Identity {
  import opened Wrappers
  import opened AstNodes
  import opened Rendering
  import opened RoleEdges

  /** A while loop built by its constructor declares the DOT node `While`. */
  lemma WhileDeclaresWhile(n: Node)
    requires Printable(n) && n.kind == WhileStatementNode && ConstructorIdentity(n)
    ensures |Render(n)| > 0 && Render(n)[0] == Decl("While", "While Statement : While")
  {
    RoleLines(n);
    WhileTexts();
  }

  /**
   * A while loop whose body is another while loop draws an edge from `While`
   * to `While`, whether its condition is set or not: the two loops are one
   * DOT node.
   */
  lemma NestedWhilesShareName(n: Node, body: Node)
    requires Printable(n) && n.kind == WhileStatementNode && ConstructorIdentity(n)
    requires |n.slots| == 2 && n.slots[1] == Some(body)
    requires body.kind == WhileStatementNode && ConstructorIdentity(body)
    ensures RoleEdge("While", "While", "body") in Render(n)
  {
    RoleLayout(n);
    BodyEdgeListed(n.name, n.slots, body);
    var lines := Render(n);
    var k :| 0 <= k < |lines[1..]| && lines[1..][k] == RoleEdge(n.name, body.name, "body");
    assert lines[k + 1] == RoleEdge(n.name, body.name, "body");
  }

  /** The edge to a set body is among the role edges, after the condition's lines if any. */
  lemma BodyEdgeListed(from: string, slots: seq<Option<Node>>, body: Node)
    requires |slots| == 2 && slots[1] == Some(body)
    requires forall i | 0 <= i < |Labelled(slots, ["condition", "body"])| :: Printable(Labelled(slots, ["condition", "body"])[i].0)
    ensures RoleEdge(from, body.name, "body") in RoleList(from, Labelled(slots, ["condition", "body"]))
  {
    if slots[0].Some? {
      var c := slots[0].value;
      assert slots == [Some(c), Some(body)];
      BothRoles(c, body);
      BodyEdgeAfterCondition(from, c, body);
    } else {
      assert slots == [None, Some(body)];
      OnlyBody(body);
      BodyEdgeFirst(from, body);
    }
  }

  /** With the condition set, the body's edge follows the condition's edge and lines. */
  lemma BodyEdgeAfterCondition(from: string, c: Node, body: Node)
    requires Printable(c) && Printable(body)
    ensures RoleEdge(from, body.name, "body") in RoleList(from, [(c, "condition"), (body, "body")])
  {
    var e := RoleEdge(from, body.name, "body");
    var tail := [(body, "body")];
    var ps := [(c, "condition")] + tail;
    assert ps[1..] == tail;
    assert RoleList(from, tail) == [e] + Render(body) + RoleList(from, []);
    assert RoleList(from, ps) == [RoleEdge(from, c.name, "condition")] + Render(c) + RoleList(from, tail);
    assert RoleList(from, ps)[1 + |Render(c)|] == e;
  }

  /** With the condition null, the body's edge comes first. */
  lemma BodyEdgeFirst(from: string, body: Node)
    requires Printable(body)
    ensures RoleEdge(from, body.name, "body") in RoleList(from, [(body, "body")])
  {
    var e := RoleEdge(from, body.name, "body");
    assert RoleList(from, [(body, "body")]) == [e] + Render(body) + RoleList(from, []);
    assert RoleList(from, [(body, "body")])[0] == e;
  }

  /** With the condition set, both members keep their roles, condition first. */
  lemma BothRoles(c: Node, body: Node)
    ensures Labelled([Some(c), Some(body)], ["condition", "body"]) == [(c, "condition"), (body, "body")]
  {
    var slots: seq<Option<Node>> := [Some(c), Some(body)];
    var roles := ["condition", "body"];
    assert slots[1..] == [Some(body)] && roles[1..] == ["body"];
    assert slots[1..][1..] == [] && roles[1..][1..] == [];
  }

  /** The null condition is skipped; the body keeps its role. */
  lemma OnlyBody(body: Node)
    ensures Labelled([None, Some(body)], ["condition", "body"]) == [(body, "body")]
  {
    var slots: seq<Option<Node>> := [None, Some(body)];
    var roles := ["condition", "body"];
    assert slots[1..] == [Some(body)] && roles[1..] == ["body"];
    assert slots[1..][1..] == [] && roles[1..][1..] == [];
  }

  /** The label a constructed while loop declares. */
  lemma WhileTexts()
    ensures "While Statement" + " : " + "While" == "While Statement : While"
  {
  }

  /** FunctionCallNode's constructor assigns no name: its edges start at `undefined`. */
  lemma FunctionCallFromUndefined(n: Node)
    requires Printable(n) && n.kind == FunctionCallNode && ConstructorIdentity(n)
    ensures Render(n) == [Decl(Undefined, Undefined + " : " + n.payload.text)] + RenderList(Undefined, n.next)
  {
    assert Render(n) == RenderListNode(n);
  }
}
