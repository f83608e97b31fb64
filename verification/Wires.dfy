/** What a queue of in-flight messages may hold, and where its receiver ends up. */
module Wires {
  import opened Bytes
  import opened Protocol

  /** The receive offset after one message. */
  function ReachOne(n: nat, m: Msg): nat {
    if m.Data? && m.off + |m.bytes| > n then m.off + |m.bytes| else n
  }

  /** The receive offset after every message in flight. */
  function Reach(n: nat, wire: seq<Msg>): nat
    decreases |wire|
  {
    if wire == [] then n else Reach(ReachOne(n, wire[0]), wire[1..])
  }

  /**
   A message a receiver at offset `n` can take: a frame is a slice of the stream and leaves no
   gap; an exit finds the stream closed and complete.
   */
  ghost predicate Fits(all: seq<byte>, eof: bool, n: nat, m: Msg) {
    && (m.Data? ==> m.off <= n && m.off + |m.bytes| <= |all| && m.bytes == all[m.off..m.off + |m.bytes|])
    && (m.Exit? ==> eof && n == |all|)
  }

  ghost predicate Flows(all: seq<byte>, eof: bool, n: nat, wire: seq<Msg>)
    decreases |wire|
  {
    wire == [] || (Fits(all, eof, n, wire[0]) && Flows(all, eof, ReachOne(n, wire[0]), wire[1..]))
  }

  ghost predicate NoTraffic(wire: seq<Msg>) {
    forall m :: m in wire ==> !m.Data? && !m.Exit?
  }

  lemma {:induction false} FlowsAppend(all: seq<byte>, eof: bool, n: nat, wire: seq<Msg>, m: Msg)
    requires Flows(all, eof, n, wire) && Fits(all, eof, Reach(n, wire), m)
    ensures Flows(all, eof, n, wire + [m])
    ensures Reach(n, wire + [m]) == ReachOne(Reach(n, wire), m)
    decreases |wire|
  {
    if wire == [] {
      assert ([] + [m])[0] == m && ([] + [m])[1..] == [];
    } else {
      assert (wire + [m])[0] == wire[0] && (wire + [m])[1..] == wire[1..] + [m];
      FlowsAppend(all, eof, ReachOne(n, wire[0]), wire[1..], m);
    }
  }

  /** Writing more, or closing, breaks nothing in flight, as nothing is written after a close. */
  lemma {:induction false} FlowsGrow(all: seq<byte>, eof: bool, more: seq<byte>, closed: bool, n: nat, wire: seq<Msg>)
    requires Flows(all, eof, n, wire) && all <= more && (eof ==> closed && more == all)
    ensures Flows(more, closed, n, wire)
    decreases |wire|
  {
    if wire != [] {
      var m := wire[0];
      assert m.Data? ==> more[m.off..m.off + |m.bytes|] == all[m.off..m.off + |m.bytes|];
      FlowsGrow(all, eof, more, closed, ReachOne(n, m), wire[1..]);
    }
  }

  lemma {:induction false} QuietFlows(all: seq<byte>, eof: bool, n: nat, wire: seq<Msg>)
    requires NoTraffic(wire)
    ensures Flows(all, eof, n, wire) && Reach(n, wire) == n
    decreases |wire|
  {
    if wire != [] {
      assert wire[0] in wire;
      QuietFlows(all, eof, n, wire[1..]);
    }
  }

  lemma {:induction false} ReachBounds(all: seq<byte>, eof: bool, n: nat, wire: seq<Msg>)
    requires Flows(all, eof, n, wire) && n <= |all|
    ensures n <= Reach(n, wire) <= |all|
    decreases |wire|
  {
    if wire != [] {
      ReachBounds(all, eof, ReachOne(n, wire[0]), wire[1..]);
    }
  }
}
