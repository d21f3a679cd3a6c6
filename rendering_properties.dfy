/**
 * What `print` promises about the text it writes: every line it writes is a
 * tab-indented DOT statement, null child pointers are skipped, the classes
 * without a `print` of their own are transparent, and `add` followed by
 * `print` shows the new child where the class keeps it.
 */
module RenderingProperties {
  import opened Wrappers
  import opened AstNodes
  import opened Rendering

  lemma IndentedConcat(a: seq<string>, b: seq<string>)
    requires AllIndented(a) && AllIndented(b)
    ensures AllIndented(a + b)
  {
    forall i | 0 <= i < |a + b|
      ensures Indented((a + b)[i])
    {
      if i < |a| {
        assert (a + b)[i] == a[i];
      } else {
        assert (a + b)[i] == b[i - |a|];
      }
    }
  }

  /** Every line `print` writes for a tree starts with a tab. */
  lemma {:induction false} RenderIndented(n: Node)
    requires Printable(n)
    ensures AllIndented(Render(n))
    decreases n, 2
  {
    if IsLeafKind(n.kind) {
      LeafIndented(n);
    } else if IsListKind(n.kind) {
      ListNodeIndented(n);
    } else if IsSlotKind(n.kind) {
      SlotNodeIndented(n);
    } else if IsUncheckedKind(n.kind) {
      UncheckedIndented(n);
    } else {
      AllRenderIndented(n.next);
      SlotsIndented(n.name, n.slots);
      IndentedConcat(RenderAll(n.next), OptSlots(n.slots));
    }
  }

  lemma LeafIndented(n: Node)
    requires Shaped(n) && IsLeafKind(n.kind)
    ensures AllIndented(RenderLeaf(n))
  {
    if n.kind.GlobalStmtNode? || n.kind.NonlocalStmtNode? {
      var edges := ParamEdges(n.payload.identifier, n.payload.params);
      IndentedConcat([Decl(n.name, n.labelText + " : " + n.payload.identifier)], edges);
    }
  }

  lemma {:induction false} ListNodeIndented(n: Node)
    requires Printable(n) && IsListKind(n.kind)
    ensures AllIndented(RenderListNode(n))
    decreases n, 1
  {
    var nm := n.name;
    ListIndented(nm, n.next);
    AllRenderIndented(n.next);
    SlotsIndented(nm, n.slots);
    match n.kind {
      case DecoratorsNode =>
        IndentedConcat([Decl(nm, n.labelText + " : " + nm)], EdgeSlots(nm, n.slots));
        IndentedConcat([Decl(nm, n.labelText + " : " + nm)] + EdgeSlots(nm, n.slots), RenderList(nm, n.next));
      case WithStmtNode =>
        IndentedConcat([Decl(nm, n.labelText + " : " + nm)], RenderList(nm, n.next));
        IndentedConcat([Decl(nm, n.labelText + " : " + nm)] + RenderList(nm, n.next), OptSlots(n.slots));
      case Arg =>
        IndentedConcat([Decl(nm, n.labelText)], RenderAll(n.next));
      case FunctionNode | TryStmtsNode =>
        IndentedConcat([Decl(nm, n.labelText + " : " + nm)], RenderList(nm, n.next));
      case FunctionCallNode =>
        IndentedConcat([Decl(nm, n.labelText + " : " + n.payload.text)], RenderList(nm, n.next));
      case Args | BlockNode | StatementsNode | assignmentStatement =>
        IndentedConcat([Decl(nm, n.labelText)], RenderList(nm, n.next));
    }
  }

  lemma {:induction false} SlotNodeIndented(n: Node)
    requires Printable(n) && IsSlotKind(n.kind)
    ensures AllIndented(RenderSlotNode(n))
    decreases n, 1
  {
    var nm := n.name;
    SlotsIndented(nm, n.slots);
    var r := RenderSlotNode(n);
    var d := r[0];
    assert r == [d] + r[1..];
    if n.kind.WhileStatementNode? {
      RoleSlotsIndented(nm, n.slots, ["condition", "body"]);
    } else if n.kind.ComparisonNode? {
      RoleSlotsIndented(nm, n.slots, ["left", "right"]);
    }
    IndentedConcat([d], r[1..]);
  }

  lemma {:induction false} UncheckedIndented(n: Node)
    requires Printable(n) && IsUncheckedKind(n.kind)
    ensures AllIndented(RenderUnchecked(n))
    decreases n, 1
  {
    RenderIndented(n.slots[0].value);
    if n.kind.BinaryExpressionNode? {
      RenderIndented(n.slots[1].value);
      var d := Decl("BinaryExpressionNode", [n.payload.operation]);
      IndentedConcat([d], Render(n.slots[0].value));
      IndentedConcat([d] + Render(n.slots[0].value), [d]);
      IndentedConcat([d] + Render(n.slots[0].value) + [d], Render(n.slots[1].value));
    } else if n.kind.ReturnStatementNode? {
      IndentedConcat([Decl(n.name, "ReturnStatement")], Render(n.slots[0].value));
    }
  }

  lemma {:induction false} ListIndented(from: string, cs: seq<Node>)
    requires AllPrintable(cs)
    ensures AllIndented(RenderList(from, cs))
    decreases cs
  {
    if cs != [] {
      RenderIndented(cs[0]);
      ListIndented(from, cs[1..]);
      IndentedConcat([Edge(from, cs[0].name)], Render(cs[0]));
      IndentedConcat([Edge(from, cs[0].name)] + Render(cs[0]), RenderList(from, cs[1..]));
    }
  }

  lemma {:induction false} AllRenderIndented(cs: seq<Node>)
    requires AllPrintable(cs)
    ensures AllIndented(RenderAll(cs))
    decreases cs
  {
    if cs != [] {
      RenderIndented(cs[0]);
      AllRenderIndented(cs[1..]);
      IndentedConcat(Render(cs[0]), RenderAll(cs[1..]));
    }
  }

  lemma {:induction false} SlotsIndented(from: string, slots: seq<Option<Node>>)
    requires SlotsPrintable(slots)
    ensures AllIndented(EdgeSlots(from, slots))
    ensures AllIndented(OptSlots(slots))
    decreases slots
  {
    if slots != [] {
      SlotIndented(from, slots[0], "");
      SlotsIndented(from, slots[1..]);
      IndentedConcat(Slot(from, slots[0]), EdgeSlots(from, slots[1..]));
      IndentedConcat(Opt(slots[0]), OptSlots(slots[1..]));
    }
  }

  lemma {:induction false} RoleSlotsIndented(from: string, slots: seq<Option<Node>>, roles: seq<string>)
    requires SlotsPrintable(slots) && |roles| == |slots|
    ensures AllIndented(RoleSlots(from, slots, roles))
    decreases slots
  {
    if slots != [] {
      SlotIndented(from, slots[0], roles[0]);
      RoleSlotsIndented(from, slots[1..], roles[1..]);
      IndentedConcat(RoleSlot(from, slots[0], roles[0]), RoleSlots(from, slots[1..], roles[1..]));
    }
  }

  lemma {:induction false} SlotIndented(from: string, o: Option<Node>, role: string)
    requires o.Some? ==> Printable(o.value)
    ensures AllIndented(Slot(from, o))
    ensures AllIndented(RoleSlot(from, o, role))
    ensures AllIndented(Opt(o))
    decreases o
  {
    if o.Some? {
      RenderIndented(o.value);
      IndentedConcat([Edge(from, o.value.name)], Render(o.value));
      IndentedConcat([RoleEdge(from, o.value.name, role)], Render(o.value));
    }
  }

  predicate IsDigit(c: char)
  {
    '0' <= c <= '9'
  }

  predicate AllDigits(s: string)
  {
    forall i | 0 <= i < |s| :: IsDigit(s[i])
  }

  /** The number a string of decimal digits denotes. */
  function DecimalValue(s: string): nat
    requires AllDigits(s)
  {
    if s == [] then 0 else DecimalValue(s[..|s| - 1]) * 10 + (s[|s| - 1] as int - '0' as int)
  }

  /** The text of a natural number is its shortest decimal numeral: digits only, no leading zero. */
  lemma {:induction false} NatToStringDecimal(k: nat)
    ensures AllDigits(NatToString(k))
    ensures DecimalValue(NatToString(k)) == k
    ensures |NatToString(k)| > 1 ==> NatToString(k)[0] != '0'
  {
    var s := NatToString(k);
    if k >= 10 {
      NatToStringDecimal(k / 10);
      var d := "0123456789"[k % 10];
      assert s == NatToString(k / 10) + [d];
      assert s[..|s| - 1] == NatToString(k / 10);
      assert NatToString(k / 10)[0] == s[0];
    }
  }

  /**
   * The text written for an `int` reads back as that `int`: a minus sign
   * exactly for a negative value, then the decimal numeral of its magnitude.
   */
  lemma IntToStringDecimal(i: int)
    ensures var s := IntToString(i);
      && (s[0] == '-' <==> i < 0)
      && (i < 0 ==> AllDigits(s[1..]) && DecimalValue(s[1..]) == -i)
      && (i >= 0 ==> AllDigits(s) && DecimalValue(s) == i)
  {
    var s := IntToString(i);
    if i < 0 {
      NatToStringDecimal(-i);
      assert s[1..] == NatToString(-i);
    } else {
      NatToStringDecimal(i);
    }
  }

  /** The last character of a decimal text is a digit. */
  lemma IntToStringEndsWithDigit(i: int)
    ensures IsDigit(IntToString(i)[|IntToString(i)| - 1])
  {
    var s := IntToString(i);
    var k: nat := if i < 0 then -i else i;
    NatToStringDecimal(k);
    if i < 0 {
      assert s == "-" + NatToString(k);
    }
    assert s[|s| - 1] == NatToString(k)[|NatToString(k)| - 1];
  }

  /**
   * The values of a range are written separated by ", " with nothing after
   * the last one: the text ends with a digit, never with the separator.
   */
  lemma {:induction false} JoinIntsNoTrailingSeparator(values: seq<int>)
    requires values != []
    ensures |JoinInts(values)| > 0
    ensures IsDigit(JoinInts(values)[|JoinInts(values)| - 1])
    decreases |values|
  {
    var last := values[|values| - 1];
    var front := values[..|values| - 1];
    assert values == front + [last];
    JoinIntsSnoc(front, last);
    IntToStringEndsWithDigit(last);
    var pre := if front == [] then "" else JoinInts(front) + ", ";
    assert JoinInts(values) == pre + IntToString(last);
  }

  /** `s` occurs in `line` at position `k`. */
  predicate OccursAt(line: string, s: string, k: nat)
  {
    k + |s| <= |line| && line[k..k + |s|] == s
  }

  /** `s` occurs somewhere in `line`. */
  predicate Contains(line: string, s: string)
  {
    exists k: nat | k <= |line| :: OccursAt(line, s, k)
  }

  lemma OccursInMiddle(a: string, b: string, c: string)
    ensures OccursAt(a + b + c, b, |a|)
  {
    assert (a + b + c)[..|a| + |b|] == a + b;
    assert (a + b)[|a|..] == b;
  }

  /**
   * IdentifierNode, NumberNode and LiteralNode are written as one boxed
   * declaration of their name.
   */
  lemma BoxedLeafLine(n: Node)
    requires Printable(n) && (n.kind == IdentifierNode || n.kind == NumberNode || n.kind == LiteralNode)
    ensures |Render(n)| == 1
    ensures Contains(Render(n)[0], "shape=box")
    ensures Declares(Render(n)[0], n.name)
  {
    var text := if n.kind == IdentifierNode then n.labelText + ": " + n.payload.text
                else n.labelText + ": " + IntToString(n.payload.value);
    assert Render(n) == RenderLeaf(n) == [BoxDecl(n.name, text)];
    BoxDeclShape(n.name, text);
    DeclDeclares(n.name, text);
  }

  lemma BoxDeclShape(id: string, text: string)
    ensures Contains(BoxDecl(id, text), "shape=box")
    ensures BoxDecl(id, text)[..|id| + 1] == "\t" + id
  {
    var head := "\t" + id + " [";
    var tail := ",label=\"" + text + "\"]";
    assert BoxDecl(id, text) == head + "shape=box" + tail;
    OccursInMiddle(head, "shape=box", tail);
    assert (head + "shape=box" + tail)[..|id| + 1] == "\t" + id;
  }

  /**
   * RangeNode and MyRangeNode are written as one declaration whose label
   * lists the values, separated by ", ", with no separator after the last.
   */
  lemma RangeLine(n: Node)
    requires Printable(n) && (n.kind == RangeNode || n.kind == MyRangeNode)
    ensures Render(n) == [Decl(n.name, n.labelText + " : " + JoinInts(n.payload.values))]
    ensures n.payload.values != [] ==> IsDigit(JoinInts(n.payload.values)[|JoinInts(n.payload.values)| - 1])
  {
    assert Render(n) == RenderLeaf(n);
    if n.payload.values != [] {
      JoinIntsNoTrailingSeparator(n.payload.values);
    }
  }

  /**
   * GlobalStmtNode and NonlocalStmtNode declare themselves, then draw one
   * edge per parameter name, from `identifier` rather than from `name`.
   */
  lemma ParamLines(n: Node)
    requires Printable(n) && (n.kind == GlobalStmtNode || n.kind == NonlocalStmtNode)
    ensures |Render(n)| == 1 + |n.payload.params|
    ensures Render(n)[0] == Decl(n.name, n.labelText + " : " + n.payload.identifier)
    ensures forall i | 0 <= i < |n.payload.params| :: Render(n)[i + 1] == Edge(n.payload.identifier, n.payload.params[i])
  {
    assert Render(n) == RenderLeaf(n);
  }
}
