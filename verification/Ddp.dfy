/** DDP segmentation and placement as functions: how a gather list becomes segments, and what receiving a stream of
    frames does to memory when each frame is taken whole. */
module Ddp {
  import opened Options
  import opened Wire
  import opened Mpa

  const INT_MAX_PLUS_1: nat := 0x8000_0000

  // ---------------------------------------------------------------- segmentation

  /** A segment's place in its message. */
  datatype Chunk = Chunk(offset: nat, payload: seq<byte>, last: bool)

  /** The length of an entry is converted to a signed 32-bit number, so a longer one is not sent at all. */
  function Sent(sge: seq<byte>): seq<byte> { if |sge| < INT_MAX_PLUS_1 then sge else [] }

  function EntryChunks(data: seq<byte>, offset: nat, final: bool): seq<Chunk> {
    if data == [] then []
    else if |data| <= MULPDU then [Chunk(offset, data, final)]
    else [Chunk(offset, data[..MULPDU], false)] + EntryChunks(data[MULPDU..], offset + MULPDU, final)
  }

  function Chunks(sges: seq<seq<byte>>, offset: nat): seq<Chunk> {
    if sges == [] then []
    else EntryChunks(Sent(sges[0]), offset, |sges| == 1) + Chunks(sges[1..], offset + |Sent(sges[0])|)
  }

  function AllSent(sges: seq<seq<byte>>): seq<byte> {
    if sges == [] then [] else Sent(sges[0]) + AllSent(sges[1..])
  }

  /** Whether the last entry is sent, so that the message has a last segment. */
  predicate Closes(sges: seq<seq<byte>>) { sges != [] && Sent(sges[|sges| - 1]) != [] }

  /** The chunks cut `data` into consecutive pieces of allowed size; only the final one may be marked last, and it is
      marked exactly when `closes`. */
  ghost predicate Partition(chunks: seq<Chunk>, offset: nat, data: seq<byte>, closes: bool) {
    if chunks == [] then data == [] && !closes
    else
      var c := chunks[0];
      && c.offset == offset && 0 < |c.payload| <= MULPDU && |c.payload| <= |data| && c.payload == data[..|c.payload|]
      && (c.last <==> closes && |chunks| == 1)
      && (|chunks| == 1 ==> |c.payload| == |data|)
      && (|chunks| > 1 ==> Partition(chunks[1..], offset + |c.payload|, data[|c.payload|..], closes))
  }

  lemma {:induction false} EntryPartition(data: seq<byte>, offset: nat, final: bool)
    requires data != [] || !final
    ensures Partition(EntryChunks(data, offset, final), offset, data, final)
    decreases |data|
  {
    if |data| > MULPDU {
      EntryPartition(data[MULPDU..], offset + MULPDU, final);
      var chunks := EntryChunks(data, offset, final);
      assert chunks[1..] == EntryChunks(data[MULPDU..], offset + MULPDU, final);
    }
  }

  lemma {:induction false} PartitionAppend(a: seq<Chunk>, b: seq<Chunk>, offset: nat, x: seq<byte>, y: seq<byte>,
                                           closes: bool, offset': nat)
    requires Partition(a, offset, x, false) && Partition(b, offset', y, closes) && offset' == offset + |x|
    ensures Partition(a + b, offset, x + y, closes)
  {
    if a == [] {
      assert a + b == b && x + y == y;
    } else {
      var n := |a[0].payload|;
      assert (a + b)[1..] == a[1..] + b && (x + y)[n..] == x[n..] + y;
      assert (x + y)[..n] == x[..n];
      if |a| == 1 {
        assert a[1..] == [] && x[n..] == [] && offset + n == offset';
        assert a[1..] + b == b && x[n..] + y == y;
      } else {
        PartitionAppend(a[1..], b, offset + n, x[n..], y, closes, offset');
      }
      if b == [] { assert a + b == a && x + y == x; }
    }
  }

  lemma OneEntryPartition(sges: seq<seq<byte>>, offset: nat)
    requires |sges| == 1
    ensures Partition(Chunks(sges, offset), offset, AllSent(sges), Closes(sges))
  {
    var x := Sent(sges[0]);
    assert sges[1..] == [];
    if x != [] { EntryPartition(x, offset, true); }
    assert Chunks(sges, offset) == EntryChunks(x, offset, true) && AllSent(sges) == x;
  }

  lemma MoreEntriesPartition(sges: seq<seq<byte>>, offset: nat, x: seq<byte>, offset': nat)
    requires |sges| > 1 && x == Sent(sges[0]) && offset' == offset + |x|
    requires Partition(Chunks(sges[1..], offset'), offset', AllSent(sges[1..]), Closes(sges[1..]))
    ensures Partition(Chunks(sges, offset), offset, AllSent(sges), Closes(sges))
  {
    EntryPartition(x, offset, false);
    PartitionAppend(EntryChunks(x, offset, false), Chunks(sges[1..], offset'), offset, x, AllSent(sges[1..]),
                    Closes(sges[1..]), offset');
    SplitOff(sges, offset, offset');
  }

  lemma SplitOff(sges: seq<seq<byte>>, offset: nat, offset': nat)
    requires |sges| > 1 && offset' == offset + |Sent(sges[0])|
    ensures Chunks(sges, offset) == EntryChunks(Sent(sges[0]), offset, false) + Chunks(sges[1..], offset')
    ensures AllSent(sges) == Sent(sges[0]) + AllSent(sges[1..]) && Closes(sges) == Closes(sges[1..])
  {
    assert sges[1..][|sges| - 2] == sges[|sges| - 1];
  }

  /** Segmentation is an exact partition of what is sent. */
  lemma {:induction false} ChunksPartition(sges: seq<seq<byte>>, offset: nat)
    ensures Partition(Chunks(sges, offset), offset, AllSent(sges), Closes(sges))
  {
    if sges != [] {
      var x := Sent(sges[0]);
      ChunksPartition(sges[1..], offset + |x|);
      if |sges| == 1 {
        OneEntryPartition(sges, offset);
      } else {
        MoreEntriesPartition(sges, offset, x, offset + |x|);
      }
    }
  }

  /** Header plus payload stay below 2^16, so the 16-bit sum of `mpa_send` never truncates. */
  lemma {:induction false} PartitionSizes(chunks: seq<Chunk>, offset: nat, data: seq<byte>, closes: bool, i: nat)
    requires Partition(chunks, offset, data, closes) && i < |chunks|
    ensures 0 < |chunks[i].payload| && UNTAGGED_HDR + |chunks[i].payload| <= 65032 < W16
    ensures chunks[i].last <==> closes && i == |chunks| - 1
    ensures offset <= chunks[i].offset && chunks[i].offset + |chunks[i].payload| <= offset + |data|
    ensures chunks[i].payload == data[chunks[i].offset - offset..chunks[i].offset - offset + |chunks[i].payload|]
  {
    if i > 0 { PartitionSizes(chunks[1..], offset + |chunks[0].payload|, data[|chunks[0].payload|..], closes, i - 1); }
  }

  /** Segments are as few as they can be: 65014 bytes of an entry fit in each. */
  lemma {:induction false} SegmentCount(data: seq<byte>, offset: nat, final: bool)
    ensures |EntryChunks(data, offset, final)| == (|data| + 65013) / 65014
    decreases |data|
  {
    if |data| > MULPDU {
      SegmentCount(data[MULPDU..], offset + MULPDU, final);
      assert (|data| - 65014 + 65013) / 65014 == (|data| + 65013) / 65014 - 1;
    }
  }

  // ---------------------------------------------------------------- memory

  type Memory = map<nat, byte>

  /** Bytes stored one after the other from a 64-bit address. */
  function Place(mem: Memory, at: nat, data: seq<byte>): Memory
    decreases |data|
  {
    if data == [] then mem else Place(mem[at % W64 := data[0]], at + 1, data[1..])
  }

  lemma {:induction false} PlaceAppend(mem: Memory, at: nat, x: seq<byte>, y: seq<byte>)
    ensures Place(Place(mem, at, x), at + |x|, y) == Place(mem, at, x + y)
    decreases |x|
  {
    if x == [] {
      assert x + y == y;
    } else {
      assert (x + y)[1..] == x[1..] + y;
      PlaceAppend(mem[at % W64 := x[0]], at + 1, x[1..], y);
    }
  }

  /** Exactly the bytes of [at, at + |data|) are written, in order, when that range does not wrap. */
  lemma {:induction false} PlaceIs(mem: Memory, at: nat, data: seq<byte>, a: nat)
    requires at + |data| <= W64
    ensures at <= a < at + |data| ==> a in Place(mem, at, data) && Place(mem, at, data)[a] == data[a - at]
    ensures !(at <= a < at + |data|) ==>
              (a in Place(mem, at, data) <==> a in mem) && (a in mem ==> Place(mem, at, data)[a] == mem[a])
    decreases |data|
  {
    if data != [] { PlaceIs(mem[at % W64 := data[0]], at + 1, data[1..], a); }
  }

  function ByteAt(mem: Memory, a: nat): byte { if a % W64 in mem then mem[a % W64] else 0 }

  /** What is found in memory from an address on; cells never written read as zero. */
  function Bytes(mem: Memory, from: nat, n: nat): (r: seq<byte>)
    ensures |r| == n
  {
    seq<byte>(n, i requires 0 <= i < n => ByteAt(mem, from + i))
  }

  /** Whether address `a` is one of the `n` from `at` on, going round at 2^64. */
  predicate Reaches(at: nat, n: nat, a: nat) { (a - at) % W64 < n }

  lemma SameCell(a: nat, b: nat)
    ensures a % W64 == b % W64 <==> (a - b) % W64 == 0
  {
    var q, r := a / W64 - b / W64, a % W64 - b % W64;
    assert a - b == W64 * q + r;
  }

  lemma OneLess(d: int)
    requires d % W64 > 0
    ensures (d - 1) % W64 == d % W64 - 1
  {
  }

  lemma {:induction false} PlaceKeeps(mem: Memory, at: nat, data: seq<byte>, a: nat)
    requires !Reaches(at, |data|, a)
    ensures ByteAt(Place(mem, at, data), a) == ByteAt(mem, a)
    decreases |data|
  {
    if data != [] {
      OneLess(a - at);
      SameCell(a, at);
      assert a - (at + 1) == a - at - 1;
      PlaceKeeps(mem[at % W64 := data[0]], at + 1, data[1..], a);
    }
  }

  /** Bytes read back as they were placed, wherever they were placed. */
  lemma {:induction false} PlaceReads(mem: Memory, at: nat, data: seq<byte>, i: nat)
    requires i < |data| <= W64
    ensures ByteAt(Place(mem, at, data), at + i) == data[i]
    decreases |data|
  {
    var mem' := mem[at % W64 := data[0]];
    if i > 0 {
      PlaceReads(mem', at + 1, data[1..], i - 1);
    } else {
      assert at - (at + 1) == -1 && -1 % W64 == W64 - 1;
      PlaceKeeps(mem', at + 1, data[1..], at);
    }
  }

  lemma PlacedBytes(mem: Memory, at: nat, data: seq<byte>)
    requires |data| <= W64
    ensures Bytes(Place(mem, at, data), at, |data|) == data
  {
    forall i | 0 <= i < |data| ensures Bytes(Place(mem, at, data), at, |data|)[i] == data[i] {
      PlaceReads(mem, at, data, i);
    }
  }

  lemma BytesSlice(mem: Memory, from: nat, n: nat, off: nat, m: nat)
    requires off + m <= n
    ensures Bytes(mem, from + off, m) == Bytes(mem, from, n)[off..off + m]
  {
    var part, whole := Bytes(mem, from + off, m), Bytes(mem, from, n)[off..off + m];
    forall i | 0 <= i < m ensures part[i] == whole[i] { assert from + off + i == from + (off + i); }
  }

  /** Bytes placed right after others extend them. */
  lemma PlacedNext(mem: Memory, at: nat, n: nat, data: seq<byte>)
    requires n + |data| <= W64
    ensures Bytes(Place(mem, at + n, data), at, n + |data|) == Bytes(mem, at, n) + data
  {
    var mem' := Place(mem, at + n, data);
    forall i | 0 <= i < n + |data| ensures Bytes(mem', at, n + |data|)[i] == (Bytes(mem, at, n) + data)[i] {
      if i < n {
        assert (at + i - (at + n)) % W64 == W64 + i - n;
        PlaceKeeps(mem, at + n, data, at + i);
      } else {
        PlaceReads(mem, at + n, data, i - n);
        assert at + n + (i - n) == at + i;
      }
    }
  }

  /** Byte `i` of the range at `to` is not among the `n` at `at`. */
  predicate Untouched(at: nat, n: nat, to: nat, i: nat) { !Reaches(at, n, to + i) }

  lemma PlacedElsewhere(mem: Memory, at: nat, data: seq<byte>, to: nat, len: nat)
    requires forall i :: 0 <= i < len ==> Untouched(at, |data|, to, i)
    ensures Bytes(Place(mem, at, data), to, len) == Bytes(mem, to, len)
  {
    forall i | 0 <= i < len ensures Bytes(Place(mem, at, data), to, len)[i] == Bytes(mem, to, len)[i] {
      assert Untouched(at, |data|, to, i);
      PlaceKeeps(mem, at, data, to + i);
    }
  }

  // ---------------------------------------------------------------- receiving whole frames

  datatype Region = Region(addr: nat, len: nat)
  type Buffer = nat

  const QUEUES: nat := 3

  /** The receiver: its memory, the registered regions by tag, and the queues of posted buffers. */
  datatype Rx = Rx(mem: Memory, regions: map<nat, Region>, queues: seq<seq<Buffer>>)

  datatype Message =
    | Tagged(bits: byte, tagged: TaggedHeader, len: nat)
    | Untagged(bits: byte, untagged: UntaggedHeader, buffer: Buffer, len: nat)

  /** `ddp_check_stag`: the tag is registered and the offset lies in its region or at its end. */
  predicate StagOk(regions: map<nat, Region>, h: TaggedHeader) {
    h.tag in regions && regions[h.tag].addr <= h.to <= (regions[h.tag].addr + regions[h.tag].len) % W64
  }

  /** `ddp_check_untagged_hdr`: message numbers start at 1 and the expected one never advances. */
  predicate UntaggedOk(queues: seq<seq<Buffer>>, h: UntaggedHeader) { h.qn < QUEUES && h.qn < |queues| && h.msn >= 1 }

  /** A payload is placed where its header says; unless it was marked last the next frame is taken for the next
      segment. */
  function TaggedRest(mem: Memory, last: bool, to: nat, payload: seq<byte>, len: nat,
                      rest: seq<byte>): Option<(Memory, nat, seq<byte>)>
    decreases |rest|
  {
    var mem' := Place(mem, to, payload);
    if last then Some((mem', len + |payload|, rest))
    else
      var f := ParseFrame(rest);
      if f.None? || |f.value.0| <= TAGGED_HDR then None
      else
        var u := f.value.0;
        TaggedRest(mem', IsLast(u[0]), ParseTagged(u).to, u[TAGGED_HDR..], len + |payload|, f.value.1)
  }

  function UntaggedRest(mem: Memory, buffer: Buffer, last: bool, mo: nat, payload: seq<byte>, len: nat,
                        rest: seq<byte>): Option<(Memory, nat, seq<byte>)>
    decreases |rest|
  {
    var mem' := Place(mem, buffer + mo, payload);
    if last then Some((mem', len + |payload|, rest))
    else
      var f := ParseFrame(rest);
      if f.None? || |f.value.0| <= UNTAGGED_HDR then None
      else
        var u := f.value.0;
        UntaggedRest(mem', buffer, IsLast(u[0]), ParseOffset(u), u[UNTAGGED_HDR..], len + |payload|, f.value.1)
  }

  /** The same, for a frame of length `len` at the front of `stream` whose header has been read already. */
  ghost function TaggedFrom(mem: Memory, last: bool, to: nat, stream: seq<byte>, len: nat,
                            acc: nat): Option<(Memory, nat, seq<byte>)> {
    if len <= TAGGED_HDR || |stream| < FrameLength(len) then None
    else TaggedRest(mem, last, to, stream[MPA_HDR + TAGGED_HDR..MPA_HDR + len], acc, stream[FrameLength(len)..])
  }

  ghost function UntaggedFrom(mem: Memory, buffer: Buffer, last: bool, mo: nat, stream: seq<byte>, len: nat,
                              acc: nat): Option<(Memory, nat, seq<byte>)> {
    if len <= UNTAGGED_HDR || |stream| < FrameLength(len) then None
    else UntaggedRest(mem, buffer, last, mo, stream[MPA_HDR + UNTAGGED_HDR..MPA_HDR + len], acc,
                      stream[FrameLength(len)..])
  }

  datatype Got = Got(rx: Rx, msg: Message, rest: seq<byte>)

  function ReceiveTagged(rx: Rx, u: seq<byte>, rest: seq<byte>): Option<Got> {
    if |u| <= TAGGED_HDR || !StagOk(rx.regions, ParseTagged(u)) then None
    else
      var h := ParseTagged(u);
      var r := TaggedRest(rx.mem, IsLast(u[0]), h.to, u[TAGGED_HDR..], 0, rest);
      if r.None? then None else Some(Got(rx.(mem := r.value.0), Tagged(u[0], h, r.value.1), r.value.2))
  }

  function ReceiveUntagged(rx: Rx, u: seq<byte>, rest: seq<byte>): Option<Got> {
    if |u| <= UNTAGGED_HDR || !UntaggedOk(rx.queues, ParseUntagged(u)) || rx.queues[ParseUntagged(u).qn] == [] then None
    else
      var h := ParseUntagged(u);
      var b := rx.queues[h.qn][0];
      var r := UntaggedRest(rx.mem, b, IsLast(u[0]), ParseOffset(u), u[UNTAGGED_HDR..], 0, rest);
      if r.None? then None
      else Some(Got(rx.(mem := r.value.0, queues := rx.queues[h.qn := rx.queues[h.qn][1..]]),
                    Untagged(u[0], h, b, r.value.1), r.value.2))
  }

  /** `ddp_recv` on whole frames: one message from the front of the stream, or none. */
  function Receive(rx: Rx, stream: seq<byte>): Option<Got> {
    var f := ParseFrame(stream);
    if f.None? then None
    else if IsTagged(f.value.0[0]) then ReceiveTagged(rx, f.value.0, f.value.1)
    else ReceiveUntagged(rx, f.value.0, f.value.1)
  }

  // ---------------------------------------------------------------- what is refused

  /** A tagged target that must not be written: the tag is unknown, or the offset lies before the region or after its
      end; of a region that goes round the end of the address space, everything. */
  ghost predicate OutOfRegion(regions: map<nat, Region>, tag: nat, to: nat) {
    || tag !in regions
    || to < regions[tag].addr
    || (regions[tag].addr + regions[tag].len < W64 && to > regions[tag].addr + regions[tag].len)
    || (regions[tag].addr < W64 && regions[tag].len < W64 && regions[tag].addr + regions[tag].len >= W64)
  }

  /** The header at the front of a stream, from its bytes on the wire. */
  ghost predicate StartsTagged(stream: seq<byte>, tag: nat, to: nat) {
    && |stream| >= MPA_HDR + TAGGED_HDR && IsTagged(stream[2])
    && tag == FromBe(stream[4..8]) && to == FromBe(stream[8..16])
  }

  ghost predicate StartsUntagged(stream: seq<byte>, qn: nat, msn: nat) {
    && |stream| >= MPA_HDR + UNTAGGED_HDR && !IsTagged(stream[2])
    && qn == FromBe(stream[8..12]) && msn == FromBe(stream[12..16])
  }

  lemma FrontOfFrame(stream: seq<byte>)
    requires ParseFrame(stream).Some?
    ensures var u := ParseFrame(stream).value.0;
            && |stream| >= MPA_HDR + |u| && u != [] && u[0] == stream[2]
            && (|u| >= TAGGED_HDR ==> u[2..6] == stream[4..8] && u[6..14] == stream[8..16])
            && (|u| >= UNTAGGED_HDR ==> u[6..10] == stream[8..12] && u[10..14] == stream[12..16])
  {
    var u := ParseFrame(stream).value.0;
    assert u == stream[MPA_HDR..MPA_HDR + |u|];
    if |u| >= TAGGED_HDR { TaggedAt(stream, u); }
    if |u| >= UNTAGGED_HDR { UntaggedAt(stream, u); }
  }

  lemma SliceAt(s: seq<byte>, u: seq<byte>, k: nat, i: nat, j: nat)
    requires k + |u| <= |s| && u == s[k..k + |u|] && i <= j <= |u|
    ensures u[i..j] == s[k + i..k + j]
  {
    var a, b := u[i..j], s[k + i..k + j];
    forall x | 0 <= x < |a| ensures a[x] == b[x] { assert u[i + x] == s[k + (i + x)]; }
  }

  lemma TaggedAt(stream: seq<byte>, u: seq<byte>)
    requires |stream| >= MPA_HDR + |u| && u == stream[MPA_HDR..MPA_HDR + |u|] && |u| >= TAGGED_HDR
    ensures u[2..6] == stream[4..8] && u[6..14] == stream[8..16]
  {
    SliceAt(stream, u, MPA_HDR, 2, 6);
    SliceAt(stream, u, MPA_HDR, 6, 14);
  }

  lemma UntaggedAt(stream: seq<byte>, u: seq<byte>)
    requires |stream| >= MPA_HDR + |u| && u == stream[MPA_HDR..MPA_HDR + |u|] && |u| >= UNTAGGED_HDR
    ensures u[6..10] == stream[8..12] && u[10..14] == stream[12..16]
  {
    SliceAt(stream, u, MPA_HDR, 6, 10);
    SliceAt(stream, u, MPA_HDR, 10, 14);
  }

  /** A tagged message is only received for a registered tag and an offset inside its region or at its end. */
  lemma ReceivedIsInRegion(rx: Rx, stream: seq<byte>)
    requires Receive(rx, stream).Some? && Receive(rx, stream).value.msg.Tagged?
    ensures var h := Receive(rx, stream).value.msg.tagged;
            StartsTagged(stream, h.tag, h.to) && !OutOfRegion(rx.regions, h.tag, h.to)
  {
    FrontOfFrame(stream);
  }

  /** One that is out of its region is not received, whatever follows the header. */
  lemma OutOfRegionIsRefused(rx: Rx, stream: seq<byte>, tag: nat, to: nat)
    requires StartsTagged(stream, tag, to) && OutOfRegion(rx.regions, tag, to)
    ensures Receive(rx, stream).None?
  {
    if ParseFrame(stream).Some? { FrontOfFrame(stream); }
  }

  /** An untagged message is only received for one of the three queues, with a message number of at least 1, and a
      buffer in the queue. */
  lemma ReceivedHasQueue(rx: Rx, stream: seq<byte>)
    requires Receive(rx, stream).Some? && Receive(rx, stream).value.msg.Untagged?
    ensures var msg := Receive(rx, stream).value.msg;
            && StartsUntagged(stream, msg.untagged.qn, msg.untagged.msn)
            && msg.untagged.qn < 3 && msg.untagged.msn > 0 && msg.untagged.qn < |rx.queues|
            && rx.queues[msg.untagged.qn] != [] && msg.buffer == rx.queues[msg.untagged.qn][0]
  {
    FrontOfFrame(stream);
  }

  lemma NoQueueIsRefused(rx: Rx, stream: seq<byte>, qn: nat, msn: nat)
    requires StartsUntagged(stream, qn, msn) && (qn >= 3 || msn == 0)
    ensures Receive(rx, stream).None?
  {
    if ParseFrame(stream).Some? { FrontOfFrame(stream); }
  }

  // ---------------------------------------------------------------- the bytes of a message

  ghost predicate Fits(chunks: seq<Chunk>) { forall i :: 0 <= i < |chunks| ==> |chunks[i].payload| <= MULPDU }

  function TaggedFrame(h: TaggedHeader, c: Chunk): seq<byte>
    requires TaggedFits(h) && |c.payload| <= MULPDU
  {
    Frame(TaggedSegment(h.(to := Wrapped(h.to + c.offset, W64)), c.last, c.payload))
  }

  function TaggedBytes(h: TaggedHeader, chunks: seq<Chunk>): seq<byte>
    requires TaggedFits(h) && Fits(chunks)
  {
    if chunks == [] then [] else TaggedFrame(h, chunks[0]) + TaggedBytes(h, chunks[1..])
  }

  function UntaggedFrame(h: UntaggedHeader, c: Chunk): seq<byte>
    requires UntaggedFits(h) && |c.payload| <= MULPDU
  {
    Frame(UntaggedSegment(h, Wrapped(c.offset, W32), c.last, c.payload))
  }

  function UntaggedBytes(h: UntaggedHeader, chunks: seq<Chunk>): seq<byte>
    requires UntaggedFits(h) && Fits(chunks)
  {
    if chunks == [] then [] else UntaggedFrame(h, chunks[0]) + UntaggedBytes(h, chunks[1..])
  }

  lemma PartitionFits(chunks: seq<Chunk>, offset: nat, data: seq<byte>, closes: bool)
    requires Partition(chunks, offset, data, closes)
    ensures Fits(chunks)
  {
    forall i | 0 <= i < |chunks| ensures |chunks[i].payload| <= MULPDU {
      PartitionSizes(chunks, offset, data, closes, i);
    }
  }

  // ---------------------------------------------------------------- tagged messages end to end

  /** What the receiver makes of the first frame of a stream. */
  ghost predicate TaggedFirst(stream: seq<byte>, h: TaggedHeader, last: bool, payload: seq<byte>, rest: seq<byte>) {
    var f := ParseFrame(stream);
    && f.Some? && f.value.1 == rest && var u := f.value.0;
    && |u| > TAGGED_HDR && IsTagged(u[0]) && u[0] == Control(true, last)
    && ParseTagged(u) == h && u[TAGGED_HDR..] == payload
  }

  lemma TaggedSegmentParses(h: TaggedHeader, last: bool, payload: seq<byte>, rest: seq<byte>)
    requires TaggedFits(h) && 0 < |payload| <= MULPDU
    ensures TaggedFirst(Frame(TaggedSegment(h, last, payload)) + rest, h, last, payload, rest)
  {
    var u := TaggedSegment(h, last, payload);
    FrameRoundTrip(u, rest);
    TaggedRoundTrip(h, last, payload);
  }

  /** The receiver goes on with the next segment. */
  lemma TaggedRestNext(mem: Memory, to: nat, payload: seq<byte>, len: nat, stream: seq<byte>, h: TaggedHeader,
                       last: bool, next: seq<byte>, rest: seq<byte>, len': nat)
    requires TaggedFirst(stream, h, last, next, rest) && len' == len + |payload|
    ensures TaggedRest(mem, false, to, payload, len, stream)
            == TaggedRest(Place(mem, to, payload), last, h.to, next, len', rest)
  {
  }

  /** How receiving ends once all the data has been placed: at the end of a last segment, and without one in
      whatever follows. */
  ghost function AfterAll(mem: Memory, to: nat, data: seq<byte>, closes: bool, len: nat,
                          rest: seq<byte>): Option<(Memory, nat, seq<byte>)> {
    if closes then Some((Place(mem, to, data), len + |data|, rest))
    else TaggedRest(Place(mem, to, data), false, to + |data|, [], len + |data|, rest)
  }

  lemma AfterAllSplits(mem: Memory, to: nat, x: seq<byte>, y: seq<byte>, closes: bool, len: nat, rest: seq<byte>,
                       to': nat, len': nat, data: seq<byte>)
    requires to' == to + |x| && len' == len + |x| && data == x + y
    ensures AfterAll(Place(mem, to, x), to', y, closes, len', rest) == AfterAll(mem, to, data, closes, len, rest)
  {
    PlaceAppend(mem, to, x, y);
  }

  lemma AfterOne(mem: Memory, to: nat, data: seq<byte>, closes: bool, len: nat, rest: seq<byte>)
    ensures TaggedRest(mem, closes, to, data, len, rest) == AfterAll(mem, to, data, closes, len, rest)
  {
    assert Place(Place(mem, to, data), to + |data|, []) == Place(mem, to, data);
  }

  lemma TaggedRestStep(mem: Memory, h: TaggedHeader, more: seq<Chunk>, to: nat, payload: seq<byte>, len: nat,
                       rest: seq<byte>, to': nat, len': nat)
    requires TaggedFits(h) && more != [] && Fits(more) && more[0].payload != [] && Fits(more[1..])
    requires to' == h.to + more[0].offset < W64 && len' == len + |payload|
    ensures TaggedRest(mem, false, to, payload, len, TaggedBytes(h, more) + rest)
            == TaggedRest(Place(mem, to, payload), more[0].last, to', more[0].payload, len',
                          TaggedBytes(h, more[1..]) + rest)
  {
    TaggedTail(h, more, rest, to');
    TaggedRestNext(mem, to, payload, len, TaggedBytes(h, more) + rest, h.(to := to'), more[0].last, more[0].payload,
                   TaggedBytes(h, more[1..]) + rest, len');
  }

  lemma PartitionFirst(chunks: seq<Chunk>, offset: nat, data: seq<byte>, closes: bool)
    requires chunks != [] && Partition(chunks, offset, data, closes)
    ensures chunks[0].offset == offset && 0 < |chunks[0].payload| <= |data|
  {
  }

  lemma PartitionHead(chunks: seq<Chunk>, offset: nat, data: seq<byte>, closes: bool) returns (n: nat, y: seq<byte>)
    requires |chunks| > 1 && Partition(chunks, offset, data, closes)
    ensures n == |chunks[0].payload| && !chunks[0].last && data == chunks[0].payload + y
    ensures Partition(chunks[1..], offset + n, y, closes)
  {
    n := |chunks[0].payload|;
    y := data[n..];
  }

  /** Receiving the segments of a partition places all of its data. */
  lemma {:induction false} TaggedRestPlaces(mem: Memory, h: TaggedHeader, chunks: seq<Chunk>, offset: nat,
                                            data: seq<byte>, closes: bool, len: nat, rest: seq<byte>, to: nat)
    requires TaggedFits(h) && chunks != [] && Partition(chunks, offset, data, closes) && Fits(chunks[1..])
             && to == h.to + offset && to + |data| <= W64
    ensures TaggedRest(mem, chunks[0].last, to, chunks[0].payload, len, TaggedBytes(h, chunks[1..]) + rest)
            == AfterAll(mem, to, data, closes, len, rest)
    decreases |chunks|, 1
  {
    if |chunks| == 1 {
      assert TaggedBytes(h, chunks[1..]) + rest == rest && chunks[0].payload == data;
      AfterOne(mem, to, data, closes, len, rest);
    } else {
      var n, y := PartitionHead(chunks, offset, data, closes);
      TaggedRestOneMore(mem, h, chunks, offset, data, closes, len, rest, to, n, y, to + n, len + n);
    }
  }

  lemma {:induction false} TaggedRestOneMore(mem: Memory, h: TaggedHeader, chunks: seq<Chunk>, offset: nat,
                                             data: seq<byte>, closes: bool, len: nat, rest: seq<byte>, to: nat,
                                             n: nat, y: seq<byte>, to': nat, len': nat)
    requires TaggedFits(h) && |chunks| > 1 && Fits(chunks[1..]) && to == h.to + offset && to + |data| <= W64
    requires n == |chunks[0].payload| && !chunks[0].last && data == chunks[0].payload + y && to' == to + n
             && len' == len + n
    requires Partition(chunks[1..], offset + n, y, closes)
    ensures TaggedRest(mem, chunks[0].last, to, chunks[0].payload, len, TaggedBytes(h, chunks[1..]) + rest)
            == AfterAll(mem, to, data, closes, len, rest)
    decreases |chunks|, 0
  {
    var payload, more := chunks[0].payload, chunks[1..];
    PartitionFirst(more, offset + n, y, closes);
    FitsTail(more);
    TaggedRestStep(mem, h, more, to, payload, len, rest, to', len');
    TaggedRestPlaces(Place(mem, to, payload), h, more, offset + n, y, closes, len', rest, to');
    AfterAllSplits(mem, to, payload, y, closes, len, rest, to', len', data);
  }

  lemma TaggedFrameIs(h: TaggedHeader, c: Chunk, to: nat)
    requires TaggedFits(h) && |c.payload| <= MULPDU && to == h.to + c.offset < W64
    ensures TaggedFrame(h, c) == Frame(TaggedSegment(h.(to := to), c.last, c.payload))
  {
  }

  /** The first of the remaining segments, as the receiver sees it. */
  lemma TaggedTail(h: TaggedHeader, chunks: seq<Chunk>, rest: seq<byte>, to: nat)
    requires TaggedFits(h) && chunks != [] && Fits(chunks) && chunks[0].payload != [] && Fits(chunks[1..])
    requires to == h.to + chunks[0].offset < W64
    ensures TaggedFirst(TaggedBytes(h, chunks) + rest, h.(to := to), chunks[0].last, chunks[0].payload,
                        TaggedBytes(h, chunks[1..]) + rest)
  {
    var c := chunks[0];
    TaggedSplits(h, chunks, rest, to);
    TaggedSegmentParses(h.(to := to), c.last, c.payload, TaggedBytes(h, chunks[1..]) + rest);
  }

  lemma Regroup(a: seq<byte>, b: seq<byte>, c: seq<byte>)
    ensures a + b + c == a + (b + c)
  {
  }

  lemma TaggedSplits(h: TaggedHeader, chunks: seq<Chunk>, rest: seq<byte>, to: nat)
    requires TaggedFits(h) && chunks != [] && Fits(chunks) && Fits(chunks[1..]) && to == h.to + chunks[0].offset < W64
    ensures TaggedBytes(h, chunks) + rest
            == Frame(TaggedSegment(h.(to := to), chunks[0].last, chunks[0].payload))
                + (TaggedBytes(h, chunks[1..]) + rest)
  {
    TaggedFrameIs(h, chunks[0], to);
    Regroup(TaggedFrame(h, chunks[0]), TaggedBytes(h, chunks[1..]), rest);
  }

  lemma FitsTail(chunks: seq<Chunk>)
    requires chunks != [] && Fits(chunks)
    ensures Fits(chunks[1..])
  {
    forall i | 0 <= i < |chunks[1..]| ensures |chunks[1..][i].payload| <= MULPDU {
      assert chunks[1..][i] == chunks[i + 1];
    }
  }

  lemma ReceiveTaggedFirst(rx: Rx, stream: seq<byte>, h: TaggedHeader, last: bool, payload: seq<byte>, tail: seq<byte>)
    requires TaggedFirst(stream, h, last, payload, tail) && StagOk(rx.regions, h)
    ensures var r := TaggedRest(rx.mem, last, h.to, payload, 0, tail);
            Receive(rx, stream) == if r.None? then None
              else Some(Got(rx.(mem := r.value.0), Tagged(Control(true, last), h, r.value.1), r.value.2))
  {
  }

  /** A tagged message end to end: if the last entry of the gather list is sent, the target is valid and its range does
      not wrap, then receiving what was sent writes exactly the gathered bytes at [TO, TO + total), reports the
      total, and leaves the stream at what follows. */
  lemma TaggedEndToEnd(rx: Rx, h: TaggedHeader, sges: seq<seq<byte>>, rest: seq<byte>)
    requires TaggedFits(h) && StagOk(rx.regions, h) && Closes(sges) && h.to + |AllSent(sges)| <= W64
    ensures var data, chunks := AllSent(sges), Chunks(sges, 0);
            && Fits(chunks) && chunks != []
            && Receive(rx, TaggedBytes(h, chunks) + rest)
               == Some(Got(rx.(mem := Place(rx.mem, h.to, data)), Tagged(Control(true, chunks[0].last), h, |data|),
                           rest))
  {
    var data, chunks := AllSent(sges), Chunks(sges, 0);
    ChunksPartition(sges, 0);
    PartitionFits(chunks, 0, data, true);
    PartitionFirst(chunks, 0, data, true);
    FitsTail(chunks);
    TaggedTail(h, chunks, rest, h.to);
    ReceiveTaggedFirst(rx, TaggedBytes(h, chunks) + rest, h, chunks[0].last, chunks[0].payload,
                       TaggedBytes(h, chunks[1..]) + rest);
    TaggedRestPlaces(rx.mem, h, chunks, 0, data, true, 0, rest, h.to);
  }

  /** Without a last segment the receiver goes on reading: nothing is received from the message alone. */
  lemma TaggedNeedsLast(rx: Rx, h: TaggedHeader, sges: seq<seq<byte>>)
    requires TaggedFits(h) && !Closes(sges) && h.to + |AllSent(sges)| <= W64
    ensures Fits(Chunks(sges, 0)) && Receive(rx, TaggedBytes(h, Chunks(sges, 0))).None?
  {
    var data, chunks := AllSent(sges), Chunks(sges, 0);
    ChunksPartition(sges, 0);
    PartitionFits(chunks, 0, data, false);
    var stream := TaggedBytes(h, chunks);
    if chunks != [] {
      PartitionFirst(chunks, 0, data, false);
      FitsTail(chunks);
      TaggedTail(h, chunks, [], h.to);
      assert stream + [] == stream;
      TaggedRestPlaces(rx.mem, h, chunks, 0, data, false, 0, [], h.to);
    }
  }

  /** With everything else in order, a tagged message is received from its own bytes exactly when its last entry is
      neither empty nor too long for the signed length. */
  lemma TaggedReceivedIffClosed(rx: Rx, h: TaggedHeader, sges: seq<seq<byte>>)
    requires TaggedFits(h) && StagOk(rx.regions, h) && h.to + |AllSent(sges)| <= W64
    ensures Fits(Chunks(sges, 0)) && (Receive(rx, TaggedBytes(h, Chunks(sges, 0))).Some? <==> Closes(sges))
  {
    if Closes(sges) {
      TaggedEndToEnd(rx, h, sges, []);
      assert TaggedBytes(h, Chunks(sges, 0)) + [] == TaggedBytes(h, Chunks(sges, 0));
    } else {
      TaggedNeedsLast(rx, h, sges);
    }
  }

  /** The whole condition: the tag is registered, the offset lies in its region or at its end, and the last entry is
      sent. */
  lemma TaggedReceivedIff(rx: Rx, h: TaggedHeader, sges: seq<seq<byte>>)
    requires TaggedFits(h) && h.to + |AllSent(sges)| <= W64
    requires h.tag in rx.regions ==> rx.regions[h.tag].addr < W64 && rx.regions[h.tag].len < W64
    ensures Fits(Chunks(sges, 0))
    ensures Receive(rx, TaggedBytes(h, Chunks(sges, 0))).Some?
            <==> !OutOfRegion(rx.regions, h.tag, h.to) && Closes(sges)
  {
    if !OutOfRegion(rx.regions, h.tag, h.to) {
      TaggedReceivedIffClosed(rx, h, sges);
    } else {
      OutOfRegionHasNone(rx, h, sges);
    }
  }

  lemma OutOfRegionHasNone(rx: Rx, h: TaggedHeader, sges: seq<seq<byte>>)
    requires TaggedFits(h) && h.to + |AllSent(sges)| <= W64 && OutOfRegion(rx.regions, h.tag, h.to)
    ensures Fits(Chunks(sges, 0)) && Receive(rx, TaggedBytes(h, Chunks(sges, 0))).None?
  {
    var data, chunks := AllSent(sges), Chunks(sges, 0);
    ChunksPartition(sges, 0);
    PartitionFits(chunks, 0, data, Closes(sges));
    if chunks != [] {
      PartitionFirst(chunks, 0, data, Closes(sges));
      FitsTail(chunks);
      TaggedTail(h, chunks, [], h.to);
      RefusedFirst(rx, TaggedBytes(h, chunks) + [], h, chunks[0].last, chunks[0].payload,
                   TaggedBytes(h, chunks[1..]) + []);
      assert TaggedBytes(h, chunks) + [] == TaggedBytes(h, chunks);
    }
  }

  lemma RefusedFirst(rx: Rx, stream: seq<byte>, h: TaggedHeader, last: bool, payload: seq<byte>, tail: seq<byte>)
    requires TaggedFirst(stream, h, last, payload, tail) && OutOfRegion(rx.regions, h.tag, h.to)
    ensures Receive(rx, stream).None?
  {
  }

  // ---------------------------------------------------------------- untagged messages

  /** The message is one segment: one non-empty entry, which is the last, of at most a segment's payload. */
  predicate OneSegment(sges: seq<seq<byte>>) { |Chunks(sges, 0)| == 1 && Closes(sges) }

  ghost predicate UntaggedFirst(stream: seq<byte>, h: UntaggedHeader, mo: nat, last: bool, payload: seq<byte>,
                                rest: seq<byte>) {
    var f := ParseFrame(stream);
    && f.Some? && f.value.1 == rest && var u := f.value.0;
    && |u| > UNTAGGED_HDR && !IsTagged(u[0]) && u[0] == Control(false, last)
    && ParseUntagged(u) == h && ParseOffset(u) == mo && u[UNTAGGED_HDR..] == payload
  }

  lemma UntaggedSegmentParses(h: UntaggedHeader, mo: nat, last: bool, payload: seq<byte>, rest: seq<byte>)
    requires UntaggedFits(h) && mo < W32 && 0 < |payload| <= MULPDU
    ensures UntaggedFirst(Frame(UntaggedSegment(h, mo, last, payload)) + rest, h, Swapped(mo), last, payload, rest)
  {
    var u := UntaggedSegment(h, mo, last, payload);
    FrameRoundTrip(u, rest);
    UntaggedRoundTrip(h, mo, last, payload);
  }

  lemma OneSegmentIs(sges: seq<seq<byte>>)
    requires OneSegment(sges)
    ensures Chunks(sges, 0) == [Chunk(0, AllSent(sges), true)]
  {
    var data, chunks := AllSent(sges), Chunks(sges, 0);
    ChunksPartition(sges, 0);
    assert Partition(chunks, 0, data, true);
    assert chunks == [chunks[0]] && chunks[0] == Chunk(0, data, true);
  }

  lemma OneLandsAtStart(mem: Memory, b: Buffer, data: seq<byte>)
    ensures PlaceLanded(mem, b, [Chunk(0, data, true)]) == Place(mem, b, data)
  {
    var chunks := [Chunk(0, data, true)];
    SwapMovesSmall(0);
    assert chunks[1..] == [] && Lands(b, chunks[0]) == b;
  }

  /** An untagged message of one segment end to end: the oldest buffer of its queue gets exactly its bytes. */
  lemma UntaggedEndToEnd(rx: Rx, h: UntaggedHeader, sges: seq<seq<byte>>, rest: seq<byte>)
    requires UntaggedFits(h) && UntaggedOk(rx.queues, h) && rx.queues[h.qn] != [] && OneSegment(sges)
    ensures var data, b := AllSent(sges), rx.queues[h.qn][0];
            && Fits(Chunks(sges, 0))
            && Receive(rx, UntaggedBytes(h, Chunks(sges, 0)) + rest)
               == Some(Got(rx.(mem := Place(rx.mem, b, data), queues := rx.queues[h.qn := rx.queues[h.qn][1..]]),
                           Untagged(Control(false, true), h, b, |data|), rest))
  {
    var data, b := AllSent(sges), rx.queues[h.qn][0];
    OneSegmentIs(sges);
    UntaggedReceived(rx, h, sges, rest);
    OneLandsAtStart(rx.mem, b, data);
  }

  /** The receiver's offset of a segment is the sender's. */
  predicate OffsetAgrees(c: Chunk) { OffsetRead(c) == c.offset }

  lemma SmallOffsets(c: Chunk)
    requires c.offset < W16
    ensures OffsetAgrees(c) <==> c.offset == 0
  {
    SwapMovesSmall(c.offset);
  }

  /** Every segment is placed where the sender took it from exactly when the message has at most one: the second
      segment's offset, sent in host order and read in network order, is never right. */
  lemma UntaggedOffsetsAgree(sges: seq<seq<byte>>)
    ensures var chunks := Chunks(sges, 0);
            (forall i :: 0 <= i < |chunks| ==> OffsetAgrees(chunks[i])) <==> |chunks| <= 1
  {
    var chunks := Chunks(sges, 0);
    ChunksPartition(sges, 0);
    if |chunks| > 1 { SecondOffset(chunks, AllSent(sges), Closes(sges)); }
    FirstTwoDecide(chunks);
  }

  lemma FirstTwoDecide(chunks: seq<Chunk>)
    requires |chunks| > 0 ==> chunks[0].offset == 0
    requires |chunks| > 1 ==> 0 < chunks[1].offset < W16
    ensures (forall i :: 0 <= i < |chunks| ==> OffsetAgrees(chunks[i])) <==> |chunks| <= 1
  {
    if |chunks| > 0 { SmallOffsets(chunks[0]); }
    if |chunks| > 1 { SmallOffsets(chunks[1]); }
  }

  lemma SecondOffset(chunks: seq<Chunk>, data: seq<byte>, closes: bool)
    requires |chunks| > 1 && Partition(chunks, 0, data, closes)
    ensures 0 < chunks[1].offset < W16
  {
    var n, y := PartitionHead(chunks, 0, data, closes);
    assert chunks[1..][0] == chunks[1];
  }

  // ---------------------------------------------------------------- untagged messages of several segments

  /** The offset that the receiver reads. */
  function OffsetRead(c: Chunk): nat { Swapped(Wrapped(c.offset, W32)) }

  /** Where the receiver puts a segment of an untagged message. */
  function Lands(b: Buffer, c: Chunk): nat { b + OffsetRead(c) }

  /** Every segment placed at the offset that the receiver reads. */
  function PlaceLanded(mem: Memory, b: Buffer, chunks: seq<Chunk>): Memory
    decreases |chunks|
  {
    if chunks == [] then mem else PlaceLanded(Place(mem, Lands(b, chunks[0]), chunks[0].payload), b, chunks[1..])
  }

  function TotalLength(chunks: seq<Chunk>): nat {
    if chunks == [] then 0 else |chunks[0].payload| + TotalLength(chunks[1..])
  }

  /** Segments with something in them, the final one and no other marked last. */
  ghost predicate ClosedRun(chunks: seq<Chunk>) {
    forall i :: 0 <= i < |chunks| ==> chunks[i].payload != [] && chunks[i].last == (i == |chunks| - 1)
  }

  lemma {:induction false} PartitionTotal(chunks: seq<Chunk>, offset: nat, data: seq<byte>, closes: bool)
    requires Partition(chunks, offset, data, closes)
    ensures TotalLength(chunks) == |data|
  {
    if |chunks| > 1 {
      PartitionTotal(chunks[1..], offset + |chunks[0].payload|, data[|chunks[0].payload|..], closes);
    } else if |chunks| == 1 {
      assert chunks[1..] == [];
    }
  }

  lemma UntaggedTail(h: UntaggedHeader, chunks: seq<Chunk>, rest: seq<byte>, mo: nat)
    requires UntaggedFits(h) && chunks != [] && Fits(chunks) && chunks[0].payload != [] && Fits(chunks[1..])
    requires mo == OffsetRead(chunks[0])
    ensures UntaggedFirst(UntaggedBytes(h, chunks) + rest, h, mo, chunks[0].last, chunks[0].payload,
                          UntaggedBytes(h, chunks[1..]) + rest)
  {
    var c, tail := chunks[0], UntaggedBytes(h, chunks[1..]);
    Regroup(UntaggedFrame(h, c), tail, rest);
    UntaggedSegmentParses(h, Wrapped(c.offset, W32), c.last, c.payload, tail + rest);
  }

  lemma UntaggedRestNext(mem: Memory, b: Buffer, mo: nat, payload: seq<byte>, len: nat, stream: seq<byte>,
                         h: UntaggedHeader, mo': nat, last: bool, next: seq<byte>, rest: seq<byte>, len': nat)
    requires UntaggedFirst(stream, h, mo', last, next, rest) && len' == len + |payload|
    ensures UntaggedRest(mem, b, false, mo, payload, len, stream)
            == UntaggedRest(Place(mem, b + mo, payload), b, last, mo', next, len', rest)
  {
  }

  lemma ClosedTail(chunks: seq<Chunk>)
    requires |chunks| > 1 && ClosedRun(chunks)
    ensures ClosedRun(chunks[1..]) && !chunks[0].last
  {
    var more := chunks[1..];
    forall i | 0 <= i < |more| ensures more[i].payload != [] && more[i].last == (i == |more| - 1) {
      assert more[i] == chunks[i + 1];
    }
  }

  ghost function AllLanded(mem: Memory, b: Buffer, chunks: seq<Chunk>, len: nat, rest: seq<byte>)
    : Option<(Memory, nat, seq<byte>)>
  {
    Some((PlaceLanded(mem, b, chunks), len + TotalLength(chunks), rest))
  }

  lemma OneLands(mem: Memory, b: Buffer, c: Chunk, len: nat, rest: seq<byte>, mo: nat)
    requires mo == OffsetRead(c)
    ensures UntaggedRest(mem, b, true, mo, c.payload, len, rest) == AllLanded(mem, b, [c], len, rest)
  {
    var mem' := Place(mem, b + mo, c.payload);
    assert [c][1..] == [] && PlaceLanded(mem', b, []) == mem' && TotalLength([]) == 0;
    assert PlaceLanded(mem, b, [c]) == mem' && TotalLength([c]) == |c.payload|;
  }

  lemma LandedNext(mem: Memory, b: Buffer, chunks: seq<Chunk>, len: nat, rest: seq<byte>, mo: nat, len': nat)
    requires chunks != [] && mo == OffsetRead(chunks[0]) && len' == len + |chunks[0].payload|
    ensures AllLanded(Place(mem, b + mo, chunks[0].payload), b, chunks[1..], len', rest)
            == AllLanded(mem, b, chunks, len, rest)
  {
  }

  lemma UntaggedRestStep(mem: Memory, h: UntaggedHeader, b: Buffer, c: Chunk, more: seq<Chunk>, len: nat,
                         rest: seq<byte>, mo: nat, mo': nat, len': nat)
    requires UntaggedFits(h) && more != [] && Fits(more) && more[0].payload != [] && Fits(more[1..])
    requires mo' == OffsetRead(more[0]) && len' == len + |c.payload|
    ensures UntaggedRest(mem, b, false, mo, c.payload, len, UntaggedBytes(h, more) + rest)
            == UntaggedRest(Place(mem, b + mo, c.payload), b, more[0].last, mo', more[0].payload, len',
                            UntaggedBytes(h, more[1..]) + rest)
  {
    UntaggedTail(h, more, rest, mo');
    UntaggedRestNext(mem, b, mo, c.payload, len, UntaggedBytes(h, more) + rest, h, mo', more[0].last, more[0].payload,
                     UntaggedBytes(h, more[1..]) + rest, len');
  }

  /** Receiving the segments puts each where the receiver reads its offset. */
  lemma {:induction false} UntaggedRestPlaces(mem: Memory, h: UntaggedHeader, b: Buffer, chunks: seq<Chunk>, len: nat,
                                              rest: seq<byte>, mo: nat)
    requires UntaggedFits(h) && chunks != [] && ClosedRun(chunks) && Fits(chunks) && Fits(chunks[1..])
    requires mo == OffsetRead(chunks[0])
    ensures UntaggedRest(mem, b, chunks[0].last, mo, chunks[0].payload, len, UntaggedBytes(h, chunks[1..]) + rest)
            == AllLanded(mem, b, chunks, len, rest)
    decreases |chunks|, 1
  {
    if |chunks| == 1 {
      assert chunks == [chunks[0]] && UntaggedBytes(h, chunks[1..]) + rest == rest;
      OneLands(mem, b, chunks[0], len, rest, mo);
    } else {
      ClosedTail(chunks);
      FitsTail(chunks[1..]);
      UntaggedRestOneMore(mem, h, b, chunks, len, rest, mo, OffsetRead(chunks[1]), len + |chunks[0].payload|);
    }
  }

  lemma {:induction false} UntaggedRestOneMore(mem: Memory, h: UntaggedHeader, b: Buffer, chunks: seq<Chunk>, len: nat,
                                               rest: seq<byte>, mo: nat, mo': nat, len': nat)
    requires UntaggedFits(h) && |chunks| > 1 && Fits(chunks[1..]) && Fits(chunks[1..][1..])
    requires ClosedRun(chunks[1..]) && !chunks[0].last
    requires mo == OffsetRead(chunks[0]) && mo' == OffsetRead(chunks[1]) && len' == len + |chunks[0].payload|
    ensures UntaggedRest(mem, b, chunks[0].last, mo, chunks[0].payload, len, UntaggedBytes(h, chunks[1..]) + rest)
            == AllLanded(mem, b, chunks, len, rest)
    decreases |chunks|, 0
  {
    var c, more := chunks[0], chunks[1..];
    UntaggedRestStep(mem, h, b, c, more, len, rest, mo, mo', len');
    UntaggedRestPlaces(Place(mem, b + mo, c.payload), h, b, more, len', rest, mo');
    LandedNext(mem, b, chunks, len, rest, mo, len');
  }

  lemma ChunksClosed(sges: seq<seq<byte>>)
    requires Closes(sges)
    ensures var chunks := Chunks(sges, 0);
            && chunks != [] && ClosedRun(chunks) && Fits(chunks) && Fits(chunks[1..]) && chunks[0].offset == 0
            && TotalLength(chunks) == |AllSent(sges)|
  {
    var data, chunks := AllSent(sges), Chunks(sges, 0);
    ChunksPartition(sges, 0);
    PartitionFits(chunks, 0, data, true);
    PartitionTotal(chunks, 0, data, true);
    FitsTail(chunks);
    forall i | 0 <= i < |chunks| ensures chunks[i].payload != [] && chunks[i].last == (i == |chunks| - 1) {
      PartitionSizes(chunks, 0, data, true, i);
    }
  }

  lemma ReceiveClosed(rx: Rx, h: UntaggedHeader, b: Buffer, chunks: seq<Chunk>, rest: seq<byte>, mo: nat)
    requires UntaggedFits(h) && UntaggedOk(rx.queues, h) && rx.queues[h.qn] != [] && b == rx.queues[h.qn][0]
    requires chunks != [] && ClosedRun(chunks) && Fits(chunks) && Fits(chunks[1..]) && mo == OffsetRead(chunks[0])
    ensures Receive(rx, UntaggedBytes(h, chunks) + rest)
            == Some(Got(rx.(mem := PlaceLanded(rx.mem, b, chunks), queues := rx.queues[h.qn := rx.queues[h.qn][1..]]),
                        Untagged(Control(false, chunks[0].last), h, b, TotalLength(chunks)), rest))
  {
    UntaggedTail(h, chunks, rest, mo);
    UntaggedRestPlaces(rx.mem, h, b, chunks, 0, rest, mo);
    ReceiveUntaggedFirst(rx, UntaggedBytes(h, chunks) + rest, h, mo, chunks[0].last, chunks[0].payload,
                         UntaggedBytes(h, chunks[1..]) + rest);
  }

  /** What receiving any untagged message does: it takes the oldest buffer of its queue, reports the total, and puts
      every segment at its swapped offset. */
  lemma UntaggedReceived(rx: Rx, h: UntaggedHeader, sges: seq<seq<byte>>, rest: seq<byte>)
    requires UntaggedFits(h) && UntaggedOk(rx.queues, h) && rx.queues[h.qn] != [] && Closes(sges)
    ensures var chunks, b := Chunks(sges, 0), rx.queues[h.qn][0];
            && Fits(chunks) && chunks != []
            && Receive(rx, UntaggedBytes(h, chunks) + rest)
               == Some(Got(rx.(mem := PlaceLanded(rx.mem, b, chunks),
                               queues := rx.queues[h.qn := rx.queues[h.qn][1..]]),
                           Untagged(Control(false, chunks[0].last), h, b, |AllSent(sges)|), rest))
  {
    var chunks, b := Chunks(sges, 0), rx.queues[h.qn][0];
    ChunksClosed(sges);
    ReceiveClosed(rx, h, b, chunks, rest, OffsetRead(chunks[0]));
  }

  /** Segments none of which is marked last. */
  ghost predicate OpenRun(chunks: seq<Chunk>) {
    forall i :: 0 <= i < |chunks| ==> chunks[i].payload != [] && !chunks[i].last
  }

  lemma ChunksOpen(sges: seq<seq<byte>>)
    requires !Closes(sges)
    ensures var chunks := Chunks(sges, 0); OpenRun(chunks) && Fits(chunks)
  {
    var data, chunks := AllSent(sges), Chunks(sges, 0);
    ChunksPartition(sges, 0);
    PartitionFits(chunks, 0, data, false);
    forall i | 0 <= i < |chunks| ensures chunks[i].payload != [] && !chunks[i].last {
      PartitionSizes(chunks, 0, data, false, i);
    }
  }

  lemma OpenTail(chunks: seq<Chunk>)
    requires chunks != [] && OpenRun(chunks) && Fits(chunks)
    ensures OpenRun(chunks[1..]) && Fits(chunks[1..])
  {
    FitsTail(chunks);
    forall i | 0 <= i < |chunks[1..]| ensures chunks[1..][i].payload != [] && !chunks[1..][i].last {
      assert chunks[1..][i] == chunks[i + 1];
    }
  }

  lemma NothingFollows(mem: Memory, b: Buffer, mo: nat, payload: seq<byte>, len: nat)
    ensures UntaggedRest(mem, b, false, mo, payload, len, []).None?
  {
  }

  /** Without a last segment the receiver runs out of segments. */
  lemma {:induction false} OpenHasNone(mem: Memory, h: UntaggedHeader, b: Buffer, c: Chunk, more: seq<Chunk>,
                                       len: nat, mo: nat)
    requires UntaggedFits(h) && OpenRun(more) && Fits(more)
    ensures UntaggedRest(mem, b, false, mo, c.payload, len, UntaggedBytes(h, more) + []).None?
    decreases |more|
  {
    if more == [] {
      assert UntaggedBytes(h, more) + [] == [];
      NothingFollows(mem, b, mo, c.payload, len);
    } else {
      OpenTail(more);
      var mo', len' := OffsetRead(more[0]), len + |c.payload|;
      UntaggedRestStep(mem, h, b, c, more, len, [], mo, mo', len');
      OpenHasNone(Place(mem, b + mo, c.payload), h, b, more[0], more[1..], len', mo');
    }
  }

  lemma OpenIsNotReceived(rx: Rx, h: UntaggedHeader, b: Buffer, chunks: seq<Chunk>, mo: nat)
    requires UntaggedFits(h) && UntaggedOk(rx.queues, h) && rx.queues[h.qn] != [] && b == rx.queues[h.qn][0]
    requires chunks != [] && OpenRun(chunks) && Fits(chunks) && mo == OffsetRead(chunks[0])
    ensures Receive(rx, UntaggedBytes(h, chunks) + []).None?
  {
    OpenTail(chunks);
    UntaggedTail(h, chunks, [], mo);
    OpenHasNone(rx.mem, h, b, chunks[0], chunks[1..], 0, mo);
    ReceiveUntaggedFirst(rx, UntaggedBytes(h, chunks) + [], h, mo, false, chunks[0].payload,
                         UntaggedBytes(h, chunks[1..]) + []);
  }

  /** The untagged message on the wire starts with its header. */
  lemma UntaggedStarts(h: UntaggedHeader, chunks: seq<Chunk>, mo: nat)
    requires UntaggedFits(h) && chunks != [] && Fits(chunks) && chunks[0].payload != [] && Fits(chunks[1..])
    requires mo == OffsetRead(chunks[0])
    ensures StartsUntagged(UntaggedBytes(h, chunks) + [], h.qn, h.msn)
  {
    UntaggedTail(h, chunks, [], mo);
    FirstStarts(UntaggedBytes(h, chunks) + [], h, mo, chunks[0].last, chunks[0].payload,
                UntaggedBytes(h, chunks[1..]) + []);
  }

  lemma FirstStarts(stream: seq<byte>, h: UntaggedHeader, mo: nat, last: bool, payload: seq<byte>, rest: seq<byte>)
    requires UntaggedFirst(stream, h, mo, last, payload, rest)
    ensures StartsUntagged(stream, h.qn, h.msn)
  {
    FrontOfFrame(stream);
  }

  /** The whole condition for untagged messages: one of the three queues, a message number of at least 1, a buffer
      in the queue, and the last entry is sent. */
  lemma UntaggedReceivedIff(rx: Rx, h: UntaggedHeader, sges: seq<seq<byte>>)
    requires UntaggedFits(h) && |rx.queues| == 3
    ensures Fits(Chunks(sges, 0))
    ensures Receive(rx, UntaggedBytes(h, Chunks(sges, 0)) + []).Some?
            <==> h.qn < 3 && h.msn > 0 && rx.queues[h.qn] != [] && Closes(sges)
  {
    ChunksFit(sges);
    if h.qn < 3 && h.msn > 0 && rx.queues[h.qn] != [] && Closes(sges) {
      UntaggedReceived(rx, h, sges, []);
    } else if h.qn < 3 && h.msn > 0 && rx.queues[h.qn] != [] {
      NotClosedIsNotReceived(rx, h, sges);
    } else {
      RefusedIsNotReceived(rx, h, sges);
    }
  }

  lemma NotClosedIsNotReceived(rx: Rx, h: UntaggedHeader, sges: seq<seq<byte>>)
    requires UntaggedFits(h) && UntaggedOk(rx.queues, h) && rx.queues[h.qn] != [] && !Closes(sges)
    ensures Fits(Chunks(sges, 0)) && Receive(rx, UntaggedBytes(h, Chunks(sges, 0)) + []).None?
  {
    var chunks := Chunks(sges, 0);
    ChunksOpen(sges);
    if chunks != [] { OpenIsNotReceived(rx, h, rx.queues[h.qn][0], chunks, OffsetRead(chunks[0])); }
  }

  lemma NonEmptyChunk(sges: seq<seq<byte>>)
    requires Chunks(sges, 0) != []
    ensures var chunks := Chunks(sges, 0); chunks[0].payload != [] && Fits(chunks) && Fits(chunks[1..])
  {
    ChunksFit(sges);
    FitsTail(Chunks(sges, 0));
    ChunksPartition(sges, 0);
    PartitionFirst(Chunks(sges, 0), 0, AllSent(sges), Closes(sges));
  }

  lemma RefusedIsNotReceived(rx: Rx, h: UntaggedHeader, sges: seq<seq<byte>>)
    requires UntaggedFits(h) && |rx.queues| == 3 && (h.qn >= 3 || h.msn == 0 || rx.queues[h.qn] == [])
    ensures Fits(Chunks(sges, 0)) && Receive(rx, UntaggedBytes(h, Chunks(sges, 0)) + []).None?
  {
    var chunks := Chunks(sges, 0);
    ChunksFit(sges);
    if chunks != [] {
      NonEmptyChunk(sges);
      UntaggedStarts(h, chunks, OffsetRead(chunks[0]));
      if h.qn >= 3 || h.msn == 0 {
        NoQueueIsRefused(rx, UntaggedBytes(h, chunks) + [], h.qn, h.msn);
      } else {
        EmptyQueueIsRefused(rx, UntaggedBytes(h, chunks) + [], h.qn, h.msn);
      }
    }
  }

  lemma EmptyQueueIsRefused(rx: Rx, stream: seq<byte>, qn: nat, msn: nat)
    requires StartsUntagged(stream, qn, msn) && qn < |rx.queues| && rx.queues[qn] == []
    ensures Receive(rx, stream).None?
  {
    if ParseFrame(stream).Some? { FrontOfFrame(stream); }
  }

  lemma ReceiveUntaggedFirst(rx: Rx, stream: seq<byte>, h: UntaggedHeader, mo: nat, last: bool, payload: seq<byte>,
                             tail: seq<byte>)
    requires UntaggedFirst(stream, h, mo, last, payload, tail) && UntaggedOk(rx.queues, h) && rx.queues[h.qn] != []
    ensures var b := rx.queues[h.qn][0]; var r := UntaggedRest(rx.mem, b, last, mo, payload, 0, tail);
            Receive(rx, stream) == if r.None? then None
              else Some(Got(rx.(mem := r.value.0, queues := rx.queues[h.qn := rx.queues[h.qn][1..]]),
                            Untagged(Control(false, last), h, b, r.value.1), r.value.2))
  {
  }

  /** The second segment of an untagged message never lands where it should: it lands 2^16 or more past the start of
      the buffer, and its offset is below that. */
  lemma SecondSegmentLandsOff(sges: seq<seq<byte>>, b: Buffer)
    requires |Chunks(sges, 0)| > 1
    ensures var c := Chunks(sges, 0)[1]; 0 < c.offset < W16 && Lands(b, c) >= b + W16 > b + c.offset
  {
    var chunks := Chunks(sges, 0);
    ChunksPartition(sges, 0);
    SecondOffset(chunks, AllSent(sges), Closes(sges));
    SwapMovesSmall(chunks[1].offset);
  }

  lemma SwapBound(n: nat)
    ensures Swapped(n) < W32
  {
    Pow256Is();
    FromBeBound(Le(n, 4));
  }

  lemma PlaceLandedTwo(mem: Memory, b: Buffer, chunks: seq<Chunk>)
    requires |chunks| == 2
    ensures PlaceLanded(mem, b, chunks)
            == Place(Place(mem, Lands(b, chunks[0]), chunks[0].payload), Lands(b, chunks[1]), chunks[1].payload)
  {
    var mem', more := Place(mem, Lands(b, chunks[0]), chunks[0].payload), chunks[1..];
    assert more[1..] == [] && more[0] == chunks[1];
    assert PlaceLanded(mem', b, more) == PlaceLanded(Place(mem', Lands(b, chunks[1]), chunks[1].payload), b, []);
  }

  /** A byte right after one range and well before another is in neither. */
  lemma BetweenTwo(mem: Memory, b: nat, x: seq<byte>, to: nat, y: seq<byte>)
    requires b + |x| < to < b + W32 && |y| <= MULPDU && |x| <= MULPDU
    ensures ByteAt(Place(Place(mem, b, x), to, y), b + |x|) == ByteAt(mem, b + |x|)
  {
    assert (b + |x| - b) % W64 == |x|;
    PlaceKeeps(mem, b, x, b + |x|);
    assert (b + |x| - to) % W64 == W64 + b + |x| - to;
    PlaceKeeps(Place(mem, b, x), to, y, b + |x|);
  }

  /** The two segments of a message. */
  lemma TwoSegments(sges: seq<seq<byte>>)
    requires |Chunks(sges, 0)| == 2
    ensures var chunks := Chunks(sges, 0);
            && chunks[0].offset == 0 && chunks[1].offset == |chunks[0].payload|
            && |chunks[0].payload| <= MULPDU && |chunks[1].payload| <= MULPDU
  {
    var chunks := Chunks(sges, 0);
    ChunksPartition(sges, 0);
    PartitionFits(chunks, 0, AllSent(sges), Closes(sges));
    PartitionFirst(chunks, 0, AllSent(sges), Closes(sges));
    var n, y := PartitionHead(chunks, 0, AllSent(sges), Closes(sges));
    PartitionFirst(chunks[1..], n, y, Closes(sges));
  }

  /** So of a message of two segments the second is missing from the buffer: the byte where it should start is
      the one that was there before. */
  lemma SecondSegmentIsMissing(mem: Memory, sges: seq<seq<byte>>, b: Buffer)
    requires |Chunks(sges, 0)| == 2
    ensures var chunks := Chunks(sges, 0); var a := b + chunks[1].offset;
            ByteAt(PlaceLanded(mem, b, chunks), a) == ByteAt(mem, a)
  {
    var chunks := Chunks(sges, 0);
    TwoSegments(sges);
    SecondSegmentLandsOff(sges, b);
    SwapBound(Wrapped(chunks[1].offset, W32));
    SwapMovesSmall(0);
    assert Lands(b, chunks[0]) == b;
    PlaceLandedTwo(mem, b, chunks);
    BetweenTwo(mem, b, chunks[0].payload, Lands(b, chunks[1]), chunks[1].payload);
  }

  // ---------------------------------------------------------------- small examples

  lemma OneByteChunks(x: byte, offset: nat)
    ensures Chunks([[x]], offset) == [Chunk(offset, [x], true)] && AllSent([[x]]) == [x]
  {
    assert [[x]][1..] == [];
    assert EntryChunks([x], offset, true) == [Chunk(offset, [x], true)];
  }

  lemma TwoEntryChunks(x: byte, y: byte)
    ensures Chunks([[x], [y]], 0) == [Chunk(0, [x], false), Chunk(1, [y], true)]
  {
    var sges: seq<seq<byte>> := [[x], [y]];
    SplitOff(sges, 0, 1);
    assert sges[1..] == [[y]];
    OneByteChunks(y, 1);
    assert EntryChunks([x], 0, false) == [Chunk(0, [x], false)];
  }

  lemma TwoBytesLand(mem: Memory, b: Buffer, x: byte, y: byte)
    ensures PlaceLanded(mem, b, Chunks([[x], [y]], 0)) == Place(Place(mem, b, [x]), b + 0x100_0000, [y])
  {
    var chunks := Chunks([[x], [y]], 0);
    TwoEntryChunks(x, y);
    SwappedIs(0);
    SwappedIs(1);
    PlaceLandedTwo(mem, b, chunks);
    assert Lands(b, chunks[0]) == b && Lands(b, chunks[1]) == b + 0x100_0000;
  }

  /** Receiving the untagged message `sges` leaves this in memory. */
  ghost predicate Leaves(rx: Rx, h: UntaggedHeader, sges: seq<seq<byte>>, mem: Memory)
    requires UntaggedFits(h)
  {
    ChunksFit(sges);
    var r := Receive(rx, UntaggedBytes(h, Chunks(sges, 0)));
    r.Some? && r.value.rx.mem == mem
  }

  lemma UntaggedLeaves(rx: Rx, h: UntaggedHeader, sges: seq<seq<byte>>, mem: Memory)
    requires UntaggedFits(h) && UntaggedOk(rx.queues, h) && rx.queues[h.qn] != [] && Closes(sges)
    requires mem == PlaceLanded(rx.mem, rx.queues[h.qn][0], Chunks(sges, 0))
    ensures Leaves(rx, h, sges, mem)
  {
    UntaggedReceived(rx, h, sges, []);
    var stream := UntaggedBytes(h, Chunks(sges, 0));
    assert stream + [] == stream;
  }

  /** Two bytes gathered from two entries into one untagged message end up 2^24 bytes apart. */
  lemma TwoBytesApart(rx: Rx, h: UntaggedHeader, x: byte, y: byte, sges: seq<seq<byte>>)
    requires UntaggedFits(h) && UntaggedOk(rx.queues, h) && rx.queues[h.qn] != [] && sges == [[x], [y]]
    ensures var b := rx.queues[h.qn][0]; Leaves(rx, h, sges, Place(Place(rx.mem, b, [x]), b + 0x100_0000, [y]))
  {
    var b := rx.queues[h.qn][0];
    TwoBytesLand(rx.mem, b, x, y);
    UntaggedLeaves(rx, h, sges, Place(Place(rx.mem, b, [x]), b + 0x100_0000, [y]));
  }

  /** One byte in a tagged message whose gather list ends in an empty entry: all of it is sent and it is never
      received. */
  lemma TrailingEmptyEntry(rx: Rx, h: TaggedHeader, x: byte)
    requires TaggedFits(h) && StagOk(rx.regions, h)
    ensures AllSent([[x], []]) == [x] && Fits(Chunks([[x], []], 0))
    ensures Receive(rx, TaggedBytes(h, Chunks([[x], []], 0))).None?
  {
    var sges: seq<seq<byte>> := [[x], []];
    SplitOff(sges, 0, 1);
    assert AllSent(sges[1..]) == AllSent(sges[1..][1..]);
    TaggedReceivedIffClosed(rx, h, sges);
  }

  // ---------------------------------------------------------------- a stream of messages

  datatype Sending =
    | SendTagged(tagged: TaggedHeader, sges: seq<seq<byte>>)
    | SendUntagged(untagged: UntaggedHeader, sges: seq<seq<byte>>)

  /** The receiver can take the message: its range does not wrap, or its queue has a buffer for its one segment. */
  predicate Acceptable(rx: Rx, m: Sending) {
    match m
    case SendTagged(h, sges) => TaggedFits(h) && StagOk(rx.regions, h) && Closes(sges) && h.to + |AllSent(sges)| <= W64
    case SendUntagged(h, sges) =>
      UntaggedFits(h) && UntaggedOk(rx.queues, h) && rx.queues[h.qn] != [] && OneSegment(sges)
  }

  lemma ChunksFit(sges: seq<seq<byte>>)
    ensures Fits(Chunks(sges, 0))
  {
    ChunksPartition(sges, 0);
    PartitionFits(Chunks(sges, 0), 0, AllSent(sges), Closes(sges));
  }

  ghost function MessageBytes(m: Sending): seq<byte>
    requires m.SendTagged? ==> TaggedFits(m.tagged)
    requires m.SendUntagged? ==> UntaggedFits(m.untagged)
  {
    ChunksFit(m.sges);
    if m.SendTagged? then TaggedBytes(m.tagged, Chunks(m.sges, 0)) else UntaggedBytes(m.untagged, Chunks(m.sges, 0))
  }

  /** What the receiver should end up with: the message's bytes in its target, nothing else touched. */
  ghost function Delivered(rx: Rx, m: Sending): (Rx, Message)
    requires Acceptable(rx, m)
  {
    var data := AllSent(m.sges);
    match m
    case SendTagged(h, sges) => (rx.(mem := Place(rx.mem, h.to, data)),
                                 Tagged(Control(true, |Chunks(sges, 0)| == 1), h, |data|))
    case SendUntagged(h, sges) =>
      var b := rx.queues[h.qn][0];
      (rx.(mem := Place(rx.mem, b, data), queues := rx.queues[h.qn := rx.queues[h.qn][1..]]),
       Untagged(Control(false, true), h, b, |data|))
  }

  lemma MessageEndToEnd(rx: Rx, m: Sending, rest: seq<byte>)
    requires Acceptable(rx, m)
    ensures Receive(rx, MessageBytes(m) + rest) == Some(Got(Delivered(rx, m).0, Delivered(rx, m).1, rest))
  {
    match m
    case SendTagged(h, sges) =>
      TaggedEndToEnd(rx, h, sges, rest);
      ChunksPartition(sges, 0);
      PartitionSizes(Chunks(sges, 0), 0, AllSent(sges), true, 0);
    case SendUntagged(h, sges) =>
      UntaggedEndToEnd(rx, h, sges, rest);
  }

  ghost predicate AllAcceptable(rx: Rx, ms: seq<Sending>)
    decreases |ms|
  {
    ms == [] || (Acceptable(rx, ms[0]) && AllAcceptable(Delivered(rx, ms[0]).0, ms[1..]))
  }

  ghost function AllDelivered(rx: Rx, ms: seq<Sending>): (Rx, seq<Message>)
    requires AllAcceptable(rx, ms)
    decreases |ms|
  {
    if ms == [] then (rx, [])
    else
      var d := Delivered(rx, ms[0]);
      var more := AllDelivered(d.0, ms[1..]);
      (more.0, [d.1] + more.1)
  }

  ghost function StreamBytes(rx: Rx, ms: seq<Sending>): seq<byte>
    requires AllAcceptable(rx, ms)
    decreases |ms|
  {
    if ms == [] then [] else MessageBytes(ms[0]) + StreamBytes(Delivered(rx, ms[0]).0, ms[1..])
  }

  ghost predicate Gives(rx: Rx, stream: seq<byte>, g: Got) { Receive(rx, stream) == Some(g) }

  /** As many calls of the receiver as there are messages receive just those. */
  ghost predicate ReceivesAll(rx: Rx, stream: seq<byte>, msgs: seq<Message>, rx': Rx, rest: seq<byte>)
    decreases |msgs|
  {
    if msgs == [] then rx' == rx && rest == stream
    else exists g :: Gives(rx, stream, g) && g.msg == msgs[0] && ReceivesAll(g.rx, g.rest, msgs[1..], rx', rest)
  }

  lemma FirstThenMore(rx: Rx, m: Sending, stream: seq<byte>, tail: seq<byte>, msgs: seq<Message>, rx': Rx,
                      rest: seq<byte>)
    requires Acceptable(rx, m) && stream == MessageBytes(m) + tail
             && ReceivesAll(Delivered(rx, m).0, tail, msgs, rx', rest)
    ensures ReceivesAll(rx, stream, [Delivered(rx, m).1] + msgs, rx', rest)
  {
    MessageEndToEnd(rx, m, tail);
    var g := Got(Delivered(rx, m).0, Delivered(rx, m).1, tail);
    assert Gives(rx, stream, g);
    assert ([g.msg] + msgs)[1..] == msgs;
  }

  /** Messages sent back to back are received as the same messages, one per call, with the same effect, and the stream
      is left at what follows them. */
  lemma {:induction false} StreamStaysInStep(rx: Rx, ms: seq<Sending>, rest: seq<byte>)
    requires AllAcceptable(rx, ms)
    ensures InStep(rx, ms, rest)
    decreases |ms|
  {
    if ms == [] {
      assert StreamBytes(rx, ms) + rest == rest;
    } else {
      StreamStaysInStep(Delivered(rx, ms[0]).0, ms[1..], rest);
      StreamStep(rx, ms, rest);
    }
  }

  ghost predicate InStep(rx: Rx, ms: seq<Sending>, rest: seq<byte>) {
    AllAcceptable(rx, ms) && ReceivesAll(rx, StreamBytes(rx, ms) + rest, AllDelivered(rx, ms).1,
                                         AllDelivered(rx, ms).0, rest)
  }

  lemma StreamSplits(rx: Rx, ms: seq<Sending>, rest: seq<byte>)
    requires AllAcceptable(rx, ms) && ms != []
    ensures var d, more := Delivered(rx, ms[0]), ms[1..];
            && StreamBytes(rx, ms) + rest == MessageBytes(ms[0]) + (StreamBytes(d.0, more) + rest)
            && AllDelivered(rx, ms) == (AllDelivered(d.0, more).0, [d.1] + AllDelivered(d.0, more).1)
  {
    Regroup(MessageBytes(ms[0]), StreamBytes(Delivered(rx, ms[0]).0, ms[1..]), rest);
  }

  lemma StreamStep(rx: Rx, ms: seq<Sending>, rest: seq<byte>)
    requires AllAcceptable(rx, ms) && ms != [] && InStep(Delivered(rx, ms[0]).0, ms[1..], rest)
    ensures InStep(rx, ms, rest)
  {
    var d, more := Delivered(rx, ms[0]), ms[1..];
    StreamSplits(rx, ms, rest);
    FirstThenMore(rx, ms[0], StreamBytes(rx, ms) + rest, StreamBytes(d.0, more) + rest, AllDelivered(d.0, more).1,
                  AllDelivered(d.0, more).0, rest);
  }
}
