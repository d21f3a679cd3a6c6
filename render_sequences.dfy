/**
 * How the printing of a child vector and of checked pointers composes:
 * printing a concatenation is concatenating the printings, and a null
 * pointer prints nothing.
 */
module RenderSequences {
  import opened Wrappers
  import opened AstNodes
  import opened Rendering
  import opened Concat

  lemma PresentPrintable(slots: seq<Option<Node>>)
    requires SlotsPrintable(slots)
    ensures AllPrintable(Present(slots))
  {
    forall i | 0 <= i < |Present(slots)|
      ensures Printable(Present(slots)[i])
    {
      var c := Present(slots)[i];
      assert c in Present(slots);
      var j :| 0 <= j < |slots| && slots[j] == Some(c);
    }
  }

  lemma ChildrenPrintable(n: Node)
    requires Printable(n)
    ensures AllPrintable(Children(n))
  {
    PresentPrintable(n.slots);
  }

  lemma AllPrintableConcat(a: seq<Node>, b: seq<Node>)
    requires AllPrintable(a) && AllPrintable(b)
    ensures AllPrintable(a + b)
  {
    forall i | 0 <= i < |a + b|
      ensures Printable((a + b)[i])
    {
      if i < |a| {
        assert (a + b)[i] == a[i];
      } else {
        assert (a + b)[i] == b[i - |a|];
      }
    }
  }

  lemma AllPrintableTail(a: seq<Node>)
    requires AllPrintable(a) && a != []
    ensures Printable(a[0]) && AllPrintable(a[1..])
  {
    forall i | 0 <= i < |a| - 1
      ensures Printable(a[1..][i])
    {
      assert a[1..][i] == a[i + 1];
    }
  }

  /** A heading line in front of lines that grow at the end. */
  lemma Regroup(h: string, before: seq<string>, added: seq<string>, after: seq<string>)
    ensures [h] + (before + added + after) == [h] + before + added + after
  {
    Assoc([h], before + added, after);
    Assoc([h], before, added);
  }

  /** Printing a concatenated vector with edges is printing each part. */
  lemma {:induction false} ListAppend(from: string, a: seq<Node>, b: seq<Node>)
    requires AllPrintable(a) && AllPrintable(b)
    ensures AllPrintable(a + b)
    ensures RenderList(from, a + b) == RenderList(from, a) + RenderList(from, b)
    decreases a
  {
    AllPrintableConcat(a, b);
    if a == [] {
      assert a + b == b;
    } else {
      AllPrintableTail(a);
      var ab := a + b;
      ConsAppend(a, b);
      AllPrintableTail(ab);
      ListAppend(from, a[1..], b);
      var first := [Edge(from, a[0].name)] + Render(a[0]);
      assert RenderList(from, ab) == first + RenderList(from, a[1..] + b);
      assert RenderList(from, a) == first + RenderList(from, a[1..]);
      Assoc(first, RenderList(from, a[1..]), RenderList(from, b));
    }
  }

  /** A non-empty vector printed without edges: its first element's lines, then the rest. */
  lemma AllCons(a: seq<Node>)
    requires AllPrintable(a) && a != []
    ensures Printable(a[0]) && AllPrintable(a[1..])
    ensures RenderAll(a) == Render(a[0]) + RenderAll(a[1..])
  {
    AllPrintableTail(a);
  }

  /** A one-element vector printed without edges: that element's lines. */
  lemma AllSingle(c: Node)
    requires Printable(c)
    ensures AllPrintable([c]) && RenderAll([c]) == Render(c)
  {
    assert RenderAll([c]) == Render(c) + RenderAll([]);
  }

  /** Printing a concatenated vector without edges is printing each part. */
  lemma {:induction false} AllAppend(a: seq<Node>, b: seq<Node>)
    requires AllPrintable(a) && AllPrintable(b)
    ensures AllPrintable(a + b)
    ensures RenderAll(a + b) == RenderAll(a) + RenderAll(b)
    decreases a
  {
    AllPrintableConcat(a, b);
    if a == [] {
      assert a + b == b;
    } else {
      AllPrintableTail(a);
      var ab := a + b;
      ConsAppend(a, b);
      AllAppend(a[1..], b);
      AllCons(ab);
      AllCons(a);
      Assoc(Render(a[0]), RenderAll(a[1..]), RenderAll(b));
    }
  }

  /** One more element printed with an edge: its edge, then its lines. */
  lemma ListSnoc(from: string, cs: seq<Node>, c: Node)
    requires AllPrintable(cs) && Printable(c)
    ensures AllPrintable(cs + [c])
    ensures RenderList(from, cs + [c]) == RenderList(from, cs) + [Edge(from, c.name)] + Render(c)
  {
    ListAppend(from, cs, [c]);
    var e := Edge(from, c.name);
    assert RenderList(from, [c]) == [e] + Render(c) + RenderList(from, []);
    assert RenderList(from, [c]) == [e] + Render(c);
    Assoc(RenderList(from, cs), [e], Render(c));
  }

  /** One more element printed without an edge: its lines. */
  lemma AllSnoc(cs: seq<Node>, c: Node)
    requires AllPrintable(cs) && Printable(c)
    ensures AllPrintable(cs + [c])
    ensures RenderAll(cs + [c]) == RenderAll(cs) + Render(c)
  {
    AllAppend(cs, [c]);
    AllSingle(c);
  }

  /**
   * A null pointer prints nothing: checked pointers print exactly like the
   * vector of the pointers that are not null.
   */
  lemma {:induction false} NullSlotsSkipped(from: string, slots: seq<Option<Node>>)
    requires SlotsPrintable(slots)
    ensures AllPrintable(Present(slots))
    ensures EdgeSlots(from, slots) == RenderList(from, Present(slots))
    ensures OptSlots(slots) == RenderAll(Present(slots))
    decreases slots
  {
    PresentPrintable(slots);
    if slots != [] {
      NullSlotsSkipped(from, slots[1..]);
      var head := OptSeq(slots[0]);
      ListAppend(from, head, Present(slots[1..]));
      AllAppend(head, Present(slots[1..]));
      if slots[0].Some? {
        assert RenderList(from, head) == [Edge(from, slots[0].value.name)] + Render(slots[0].value) + RenderList(from, []);
        assert RenderAll(head) == Render(slots[0].value) + RenderAll([]);
      }
    }
  }
}
