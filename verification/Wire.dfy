/** Bytes on the wire: MPA frames (section 4.1 of RFC 5044) and DDP segment headers (section 4 of RFC 5041), as the
    two ends of this implementation write and read them on a little-endian host. */
module Wire {
  import opened Options

  type byte = x: int | 0 <= x < 256

  const W16: nat := 0x1_0000
  const W32: nat := 0x1_0000_0000
  const W64: nat := 0x1_0000_0000_0000_0000

  // ---------------------------------------------------------------- numbers

  function Pow256(k: nat): (r: nat)
    ensures r > 0
  {
    if k == 0 then 1 else 256 * Pow256(k - 1)
  }

  /** The `k` low bytes of a number, most significant first. */
  function Be(n: nat, k: nat): (r: seq<byte>)
    ensures |r| == k
  {
    if k == 0 then [] else Be(n / 256, k - 1) + [n % 256]
  }

  /** The `k` low bytes of a number, least significant first: a host-order word in memory. */
  function Le(n: nat, k: nat): (r: seq<byte>)
    ensures |r| == k
  {
    if k == 0 then [] else [n % 256] + Le(n / 256, k - 1)
  }

  function FromBe(b: seq<byte>): nat {
    if b == [] then 0 else 256 * FromBe(b[..|b| - 1]) + b[|b| - 1]
  }

  lemma {:induction false} BeRoundTrip(n: nat, k: nat)
    requires n < Pow256(k)
    ensures FromBe(Be(n, k)) == n
  {
    if k > 0 {
      BeRoundTrip(n / 256, k - 1);
      assert Be(n, k)[..k - 1] == Be(n / 256, k - 1);
    }
  }

  lemma {:induction false} FromBeBound(b: seq<byte>)
    ensures FromBe(b) < Pow256(|b|)
  {
    if b != [] { FromBeBound(b[..|b| - 1]); }
  }

  function FromLe(b: seq<byte>): nat {
    if b == [] then 0 else b[0] + 256 * FromLe(b[1..])
  }

  lemma {:induction false} LeRoundTrip(n: nat, k: nat)
    requires n < Pow256(k)
    ensures FromLe(Le(n, k)) == n
  {
    if k > 0 {
      LeRoundTrip(n / 256, k - 1);
      assert Le(n, k)[1..] == Le(n / 256, k - 1);
    }
  }

  lemma FromBeNext(b: seq<byte>, x: byte)
    ensures FromBe(b + [x]) == 256 * FromBe(b) + x
  {
    assert (b + [x])[..|b|] == b;
  }

  lemma Pow256Is()
    ensures Pow256(2) == W16 && Pow256(4) == W32 && Pow256(8) == W64
  {
    assert Pow256(4) == 0x1_0000_0000 && Pow256(8) == 256 * (256 * (256 * (256 * Pow256(4))));
  }

  /** A number kept in an unsigned word of `w` values. */
  function Wrapped(x: nat, w: nat): (r: nat)
    requires w > 0
    ensures r < w
  {
    if x < w then x else Wrapped(x - w, w)
  }

  lemma {:induction false} WrappedIs(x: nat, w: nat)
    requires w == W32 || w == W64
    ensures Wrapped(x, w) == x % w
    decreases x
  {
    if x >= w { WrappedIs(x - w, w); }
  }

  /** `ntohl` of a word that was sent in host order. */
  function Swapped(n: nat): nat { FromBe(Le(n, 4)) }

  /** The four bytes of a word below 2^16, least significant first. */
  lemma LeSmall(n: nat)
    requires n < W16
    ensures Le(n, 4) == [] + [n % 256] + [n / 256] + [0] + [0]
  {
    var y := n / 256;
    assert Le(n, 4) == [n % 256] + Le(y, 3);
    assert Le(y, 3) == [y % 256] + Le(y / 256, 2) && y % 256 == y && y / 256 == 0;
    assert Le(0, 2) == [0] + Le(0, 1) && Le(0, 1) == [0] + Le(0, 0);
  }

  lemma SwappedIs(n: nat)
    requires n < W16
    ensures Swapped(n) == 256 * (256 * (256 * (n % 256) + n / 256))
  {
    var b: seq<byte> := [];
    LeSmall(n);
    FromBeNext(b, n % 256);
    FromBeNext(b + [n % 256], n / 256);
    FromBeNext(b + [n % 256] + [n / 256], 0);
    FromBeNext(b + [n % 256] + [n / 256] + [0], 0);
  }

  /** For offsets below 2^16 the swap is only harmless at zero. */
  lemma SwapMovesSmall(n: nat)
    requires n < W16
    ensures Swapped(n) == n <==> n == 0
    ensures n > 0 ==> Swapped(n) >= W16
  {
    SwappedIs(n);
    var x, y := n % 256, n / 256;
    assert n == 256 * y + x;
    assert n > 0 ==> 256 * x + y > 0;
  }

  // ---------------------------------------------------------------- pieces

  function Concat(pieces: seq<seq<byte>>): seq<byte> {
    if pieces == [] then [] else Concat(pieces[..|pieces| - 1]) + pieces[|pieces| - 1]
  }

  lemma ConcatNext(pieces: seq<seq<byte>>, p: seq<byte>)
    ensures Concat(pieces + [p]) == Concat(pieces) + p
  {
    assert (pieces + [p])[..|pieces|] == pieces;
  }

  // ---------------------------------------------------------------- MPA frames

  const MPA_HDR: nat := 2
  const MPA_CRC: nat := 4

  function PadLength(len: nat): nat { (len + MPA_HDR) % 4 }

  function TrailerLength(len: nat): nat { PadLength(len) + MPA_CRC }

  function Zeros(n: nat): (r: seq<byte>)
    ensures |r| == n
  {
    seq(n, _ => 0)
  }

  /** Padding and the CRC, which is always zero. */
  function Trailer(len: nat): (r: seq<byte>)
    ensures |r| == PadLength(len) + MPA_CRC
  {
    Zeros(PadLength(len)) + Zeros(MPA_CRC)
  }

  function Frame(ulpdu: seq<byte>): (r: seq<byte>)
    requires |ulpdu| < W16
    ensures |r| == MPA_HDR + |ulpdu| + PadLength(|ulpdu|) + MPA_CRC
  {
    Be(|ulpdu|, MPA_HDR) + ulpdu + Trailer(|ulpdu|)
  }

  function FrameLength(len: nat): nat { MPA_HDR + len + TrailerLength(len) }

  /** The first frame of a stream and what follows it; the bytes of the trailer are not looked at. */
  function ParseFrame(stream: seq<byte>): (r: Option<(seq<byte>, seq<byte>)>)
    ensures r.Some? ==> |r.value.0| > 0 && |r.value.1| < |stream|
  {
    if |stream| < MPA_HDR then None
    else
      var len := FromBe(stream[..MPA_HDR]);
      if len == 0 || |stream| < FrameLength(len) then None
      else Some((stream[MPA_HDR..MPA_HDR + len], stream[FrameLength(len)..]))
  }

  lemma FrameRoundTrip(ulpdu: seq<byte>, rest: seq<byte>)
    requires 0 < |ulpdu| < W16
    ensures ParseFrame(Frame(ulpdu) + rest) == Some((ulpdu, rest))
  {
    var stream := Frame(ulpdu) + rest;
    assert stream[..MPA_HDR] == Be(|ulpdu|, MPA_HDR);
    Pow256Is();
    BeRoundTrip(|ulpdu|, MPA_HDR);
    assert stream[MPA_HDR..MPA_HDR + |ulpdu|] == ulpdu;
  }

  /** The pad makes a frame a multiple of four bytes only when the ULPDU has an even length, which is less than
      section 4.1 of RFC 5044 asks for. */
  lemma FrameAlignment(ulpdu: seq<byte>)
    requires |ulpdu| < W16
    ensures |Frame(ulpdu)| % 4 == 0 <==> |ulpdu| % 2 == 0
  {
  }

  /** The frame of a single byte is ten bytes long. */
  lemma OneByteFrame(x: byte)
    ensures |Frame([x])| == 10 && |Frame([x])| % 4 == 2
  {
  }

  // ---------------------------------------------------------------- DDP segments

  const BIT_T: nat := 128
  const BIT_L: nat := 64

  const TAGGED_HDR: nat := 14
  const UNTAGGED_HDR: nat := 18

  /** `MULPDU`, the most payload a segment carries. */
  const MULPDU: nat := 65014

  predicate IsTagged(bits: byte) { bits / BIT_T % 2 == 1 }
  predicate IsLast(bits: byte) { bits / BIT_L % 2 == 1 }

  /** The control byte as the senders build it: T and L as told, version 1. */
  function Control(tagged: bool, last: bool): (r: byte)
    ensures IsTagged(r) == tagged && IsLast(r) == last
  {
    (if tagged then BIT_T else 0) + (if last then BIT_L else 0) + 1
  }

  /** The bytes themselves: T is the highest bit and L the next. */
  lemma ControlBytes()
    ensures Control(true, true) == 0xC1 && Control(true, false) == 0x81
    ensures Control(false, true) == 0x41 && Control(false, false) == 0x01
  {
  }

  datatype TaggedHeader = TaggedHeader(rsvd: byte, tag: nat, to: nat)
  datatype UntaggedHeader = UntaggedHeader(rsvd: byte, rsvd2: nat, qn: nat, msn: nat)

  predicate TaggedFits(h: TaggedHeader) { h.tag < W32 && h.to < W64 }
  predicate UntaggedFits(h: UntaggedHeader) { h.rsvd2 < W32 && h.qn < W32 && h.msn < W32 }

  function TaggedSegment(h: TaggedHeader, last: bool, payload: seq<byte>): (r: seq<byte>)
    requires TaggedFits(h)
    ensures |r| == TAGGED_HDR + |payload|
  {
    [Control(true, last), h.rsvd] + Be(h.tag, 4) + Be(h.to, 8) + payload
  }

  /** The message offset goes out in host order. */
  function UntaggedSegment(h: UntaggedHeader, mo: nat, last: bool, payload: seq<byte>): (r: seq<byte>)
    requires UntaggedFits(h) && mo < W32
    ensures |r| == UNTAGGED_HDR + |payload|
  {
    [Control(false, last), h.rsvd] + Be(h.rsvd2, 4) + Be(h.qn, 4) + Be(h.msn, 4) + Le(mo, 4) + payload
  }

  function ParseTagged(u: seq<byte>): (r: TaggedHeader)
    requires |u| >= TAGGED_HDR
  {
    TaggedHeader(u[1], FromBe(u[2..6]), FromBe(u[6..14]))
  }

  function ParseUntagged(u: seq<byte>): (r: UntaggedHeader)
    requires |u| >= UNTAGGED_HDR
  {
    UntaggedHeader(u[1], FromBe(u[2..6]), FromBe(u[6..10]), FromBe(u[10..14]))
  }

  function ParseOffset(u: seq<byte>): (r: nat)
    requires |u| >= UNTAGGED_HDR
  {
    FromBe(u[14..18])
  }

  lemma TaggedRoundTrip(h: TaggedHeader, last: bool, payload: seq<byte>)
    requires TaggedFits(h)
    ensures var u := TaggedSegment(h, last, payload);
            ParseTagged(u) == h && u[TAGGED_HDR..] == payload && IsTagged(u[0]) && IsLast(u[0]) == last
  {
    var u := TaggedSegment(h, last, payload);
    Pow256Is();
    assert u[2..6] == Be(h.tag, 4) && u[6..14] == Be(h.to, 8);
    BeRoundTrip(h.tag, 4);
    BeRoundTrip(h.to, 8);
  }

  /** Everything comes back but the offset, which comes back swapped. */
  lemma UntaggedRoundTrip(h: UntaggedHeader, mo: nat, last: bool, payload: seq<byte>)
    requires UntaggedFits(h) && mo < W32
    ensures var u := UntaggedSegment(h, mo, last, payload);
            && ParseUntagged(u) == h && ParseOffset(u) == Swapped(mo)
            && u[UNTAGGED_HDR..] == payload && !IsTagged(u[0]) && IsLast(u[0]) == last
  {
    var u := UntaggedSegment(h, mo, last, payload);
    Pow256Is();
    assert u[2..6] == Be(h.rsvd2, 4) && u[6..10] == Be(h.qn, 4) && u[10..14] == Be(h.msn, 4) && u[14..18] == Le(mo, 4);
    BeRoundTrip(h.rsvd2, 4);
    BeRoundTrip(h.qn, 4);
    BeRoundTrip(h.msn, 4);
  }
}
