/** remote/wire.go: the binary data frame, a 16-byte stream id, an 8-byte big-endian offset and a kind. */
module Wire {
  import opened Bytes

  const HEADER_LEN := 16 + 8 + 1

  /** Offsets are 64-bit on the wire. */
  const OFFSET_BOUND: nat := 0x1_0000_0000_0000_0000

  datatype Frame = Frame(id: seq<byte>, kind: byte, off: nat, payload: seq<byte>)
  {
    predicate Valid() {
      |id| == 16 && off < OFFSET_BOUND
    }
  }

  datatype DecodeResult = Decoded(frame: Frame) | ShortFrame

  /** binary.BigEndian.PutUint64, for any width. */
  function PutBigEndian(n: nat, width: nat): (bs: seq<byte>)
    ensures |bs| == width
  {
    if width == 0 then [] else PutBigEndian(n / 256, width - 1) + [n % 256]
  }

  /** binary.BigEndian.Uint64. */
  function BigEndian(bs: seq<byte>): nat {
    if bs == [] then 0 else BigEndian(bs[..|bs| - 1]) * 256 + bs[|bs| - 1]
  }

  function Pow256(k: nat): (p: nat)
    ensures p > 0
  {
    if k == 0 then 1 else 256 * Pow256(k - 1)
  }

  lemma {:induction false} BigEndianPut(n: nat, width: nat)
    requires n < Pow256(width)
    ensures BigEndian(PutBigEndian(n, width)) == n
  {
    if width > 0 {
      BigEndianPut(n / 256, width - 1);
      var bs := PutBigEndian(n, width);
      assert bs[..width - 1] == PutBigEndian(n / 256, width - 1);
    }
  }

  lemma {:induction false} PutBigEndianGet(bs: seq<byte>)
    ensures BigEndian(bs) < Pow256(|bs|) && PutBigEndian(BigEndian(bs), |bs|) == bs
  {
    if bs != [] {
      PutBigEndianGet(bs[..|bs| - 1]);
    }
  }

  function Encoded(f: Frame): seq<byte>
    requires f.Valid()
  {
    f.id + PutBigEndian(f.off, 8) + [f.kind] + f.payload
  }

  function Decode(b: seq<byte>): DecodeResult {
    if |b| < HEADER_LEN then ShortFrame
    else Decoded(Frame(b[..16], b[24], BigEndian(b[16..24]), b[HEADER_LEN..]))
  }

  lemma Pow256Of8()
    ensures Pow256(8) == OFFSET_BOUND
  {
    assert Pow256(4) == 0x1_0000_0000;
  }

  /** What one side encodes the other decodes, and every frame that decodes is the encoding of what it decodes to. */
  lemma FrameRoundTrip(f: Frame, b: seq<byte>)
    requires f.Valid()
    ensures Decode(Encoded(f)) == Decoded(f)
    ensures Decode(b).Decoded? <==> |b| >= HEADER_LEN
    ensures Decode(b).Decoded? ==> Decode(b).frame.Valid() && Encoded(Decode(b).frame) == b
  {
    Pow256Of8();
    BigEndianPut(f.off, 8);
    var e := Encoded(f);
    assert e[..16] == f.id && e[16..24] == PutBigEndian(f.off, 8) && e[24] == f.kind && e[25..] == f.payload;
    if |b| >= HEADER_LEN {
      PutBigEndianGet(b[16..24]);
      assert b == b[..16] + b[16..24] + [b[24]] + b[25..];
    }
  }

  /** encodeData: a buffer of the right size, filled field by field. */
  method EncodeData(f: Frame) returns (b: array<byte>)
    requires f.Valid()
    ensures b[..] == Encoded(f)
  {
    b := new byte[HEADER_LEN + |f.payload|](i => 0);
    Copy(b, 0, f.id);
    Copy(b, 16, PutBigEndian(f.off, 8));
    b[24] := f.kind;
    assert b[..16] == f.id && b[16..24] == PutBigEndian(f.off, 8);
    Copy(b, HEADER_LEN, f.payload);
    assert b[..] == b[..16] + b[16..24] + [b[24]] + b[25..];
  }

  /** copy(b[at:], p) */
  method Copy(b: array<byte>, at: nat, p: seq<byte>)
    requires at + |p| <= b.Length
    modifies b
    ensures b[..at] == old(b[..at]) && b[at..at + |p|] == p && b[at + |p|..] == old(b[at + |p|..])
  {
    for i := 0 to |p|
      invariant b[..at] == old(b[..at]) && b[at..at + i] == p[..i] && b[at + i..] == old(b[at + i..])
    {
      b[at + i] := p[i];
      assert b[at..at + i + 1] == b[at..at + i] + [p[i]];
    }
  }
}
