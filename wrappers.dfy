/** The nullable-pointer slot of a node: a child that may be absent. */
module Wrappers {

  datatype Option<+T> = None | Some(value: T)

  /** The present value as a zero- or one-element sequence. */
  function OptSeq<T>(o: Option<T>): (r: seq<T>)
    ensures |r| == (if o.Some? then 1 else 0)
    ensures o.Some? ==> r[0] == o.value
  {
    if o.Some? then [o.value] else []
  }
}

/**
 * Regrouping concatenations, kept apart from any function over nodes so that
 * the proofs that need it do not reason about sequence indices.
 */
module Concat {
  lemma Assoc<T>(a: seq<T>, b: seq<T>, c: seq<T>)
    ensures a + (b + c) == a + b + c
  {
  }

  /** The head and tail of a concatenation whose left part is not empty. */
  lemma ConsAppend<T>(a: seq<T>, b: seq<T>)
    requires a != []
    ensures (a + b)[0] == a[0] && (a + b)[1..] == a[1..] + b
  {
  }

  /** A non-empty sequence is its head followed by its tail. */
  lemma HeadTail<T>(h: T, s: seq<T>)
    ensures ([h] + s)[0] == h && ([h] + s)[1..] == s
  {
  }
}
