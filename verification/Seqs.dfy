/** Sequences of any kind: what more than one of the other modules needs. */
module Seqs {

  /** The last place of `x`, or -1: bytes.LastIndexByte, and strings.LastIndex of one character. */
  function LastIndex<T(==)>(s: seq<T>, x: T): (i: int)
    ensures -1 <= i < |s|
    ensures i >= 0 ==> s[i] == x
    ensures forall k :: i < k < |s| ==> s[k] != x
  {
    if s == [] then -1
    else if s[|s| - 1] == x then |s| - 1
    else LastIndex(s[..|s| - 1], x)
  }

  lemma Regroup<T>(a: seq<T>, b: seq<T>, c: seq<T>)
    ensures (a + b) + c == a + (b + c)
  {
  }
}
