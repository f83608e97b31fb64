/** Bytes, and line boundaries inside a byte stream. */
module Bytes {

  type byte = b: int | 0 <= b < 256

  const NEWLINE: byte := 10

  /** Offset `off` of stream `s` is where a line begins. */
  predicate LineStart(s: seq<byte>, off: nat) {
    off == 0 || (off <= |s| && s[off - 1] == NEWLINE)
  }

  /** Bytes [i, j) of `s` are exactly one complete line, its newline included. */
  ghost predicate IsLine(s: seq<byte>, i: nat, j: nat) {
    && i < j <= |s|
    && LineStart(s, i)
    && s[j - 1] == NEWLINE
    && forall k :: i <= k < j - 1 ==> s[k] != NEWLINE
  }

  /** A line start strictly inside what a line ends cannot fall inside that line. */
  lemma LineStartBeforeLineEnd(s: seq<byte>, i: nat, j: nat, b: nat)
    requires IsLine(s, i, j) && LineStart(s, b) && b < j
    ensures b <= i
  {
  }
}
