/**
 * `AST::Print`: the whole tree as one DOT digraph, the root's lines between
 * an opening `digraph G {` line and a closing `}` line.
 */
module Graph {
  import opened Wrappers
  import opened AstNodes
  import opened Rendering
  import opened RenderingProperties
  import opened PrintLayout
  import opened RoleEdges

  const Opening := "digraph G {"
  const Closing := "}"

  /** The lines `AST::Print` writes for a tree. */
  function Digraph(root: Node): seq<string>
    requires Printable(root)
  {
    [Opening] + Render(root) + [Closing]
  }

  /**
   * The digraph opens with `digraph G {`, closes with `}`, holds the root's
   * lines in between, and those two are its only lines that do not start
   * with a tab.
   */
  lemma DigraphShape(root: Node)
    requires Printable(root)
    ensures var lines := Digraph(root);
      && |lines| == |Render(root)| + 2
      && lines[0] == Opening
      && lines[|lines| - 1] == Closing
      && lines[1..|lines| - 1] == Render(root)
      && (forall i | 0 <= i < |lines| :: !Indented(lines[i]) <==> i == 0 || i == |lines| - 1)
  {
    var body := Render(root);
    var lines := Digraph(root);
    RenderIndented(root);
    assert lines[1..|lines| - 1] == body;
    forall i | 0 < i < |lines| - 1
      ensures Indented(lines[i])
    {
      assert lines[i] == body[i - 1];
    }
  }

  /** The identifier `x` of the examples below. */
  function ExampleX(): Node
  {
    Node(IdentifierNode, "x", "Identifier", [], [], Text("x"))
  }

  /** A WhileStatementNode whose condition is `x` and whose body pointer is null. */
  function ExampleWhile(): Node
  {
    Node(WhileStatementNode, "While", "While Statement", [], [Some(ExampleX()), None], NoPayload)
  }

  lemma ExampleXLines()
    ensures Printable(ExampleX())
    ensures Render(ExampleX()) == [BoxDecl("x", "Identifier" + ": " + "x")]
  {
    var x := ExampleX();
    assert Render(x) == RenderLeaf(x);
  }

  /**
   * A `while` whose body pointer is null: the condition gets its labelled
   * edge, the body gets neither edge nor lines.
   */
  lemma WhileWithoutBody()
    ensures Printable(ExampleWhile())
    ensures Digraph(ExampleWhile()) == [
           "digraph G {",
           Decl("While", "While Statement" + " : " + "While"),
           RoleEdge("While", "x", "condition"),
           BoxDecl("x", "Identifier" + ": " + "x"),
           "}"]
  {
    var x := ExampleX();
    var w := ExampleWhile();
    ExampleXLines();
    assert Printable(w);
    RoleLayout(w);
    assert Labelled(w.slots, Roles(w.kind)) == [(x, "condition")] by {
      assert w.slots[1..] == [None];
    }
    assert RoleList("While", [(x, "condition")]) == [RoleEdge("While", "x", "condition")] + Render(x) + RoleList("While", []);
    assert Render(w)[0] == Decl("While", "While Statement" + " : " + "While");
    assert Render(w) == [Render(w)[0]] + Render(w)[1..];
  }

  /** The `AST` wrapper: it owns the root, which may be null. */
  class Ast {
    var root: Option<Node>

    constructor (r: Option<Node>)
      ensures root == r
    {
      root := r;
    }

    /**
     * Writes the opening line, the root's lines, then the closing line.  The
     * root is dereferenced without a check, so it must not be null.
     */
    method Print() returns (lines: seq<string>)
      requires root.Some? && Printable(root.value)
      ensures lines == Digraph(root.value)
    {
      lines := [Opening];
      lines := lines + Render(root.value);
      lines := lines + [Closing];
    }
  }
}
