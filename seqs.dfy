/** Small facts about sequence concatenation, proved once and used where the surrounding proof is large. */
module Sequences {
  /** The first element and the tail of a concatenation whose left side is not empty. */
  lemma AppendTail<T>(a: seq<T>, b: seq<T>)
    requires a != []
    ensures a + b != [] && (a + b)[0] == a[0] && (a + b)[1..] == a[1..] + b
  {
  }

  /** Concatenation is associative. */
  lemma AppendAssoc<T>(a: seq<T>, b: seq<T>, c: seq<T>)
    ensures a + (b + c) == (a + b) + c
  {
  }

  /** A concatenation opens with its first part. */
  lemma OpensWithFirst<T>(a: seq<T>, b: seq<T>)
    ensures exists rest :: a + b == a + rest
  {
    assert a + b == a + b;
  }

  /** A concatenation of four opens with its first three parts. */
  lemma OpensWith<T>(a: seq<T>, b: seq<T>, c: seq<T>, d: seq<T>)
    ensures exists rest :: a + (b + (c + d)) == a + (b + (c + rest))
  {
    assert a + (b + (c + d)) == a + (b + (c + d));
  }

  /** A concatenation of four closes with its last part. */
  lemma ClosesWithLastOfFour<T>(a: seq<T>, b: seq<T>, c: seq<T>, d: seq<T>)
    ensures exists front :: a + (b + (c + d)) == front + d
  {
    AppendAssoc(b, c, d);
    AppendAssoc(a, b + c, d);
  }

  /** A concatenation of five closes with its last part. */
  lemma ClosesWithLastOfFive<T>(a: seq<T>, b: seq<T>, c: seq<T>, d: seq<T>, e: seq<T>)
    ensures exists front :: a + (b + (c + (d + e))) == front + e
  {
    AppendAssoc(c, d, e);
    ClosesWithLastOfFour(a, b, c + d, e);
  }

  /** The empty sequence is a unit of concatenation. */
  lemma AppendEmpty<T>(a: seq<T>)
    ensures a + [] == a && [] + a == a
  {
  }
}
