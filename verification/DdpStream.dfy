/** The DDP stream as it runs: the segmenting senders and the receiver that reads piece by piece and places each
    payload as it comes. */
module DdpStream {
  import opened Options
  import opened Wire
  import opened Mpa
  import opened Ddp

  // ---------------------------------------------------------------- sending

  /** `hdr.bits |= DDP_FLAG_LAST`. */
  function SetLast(bits: byte): byte { if IsLast(bits) then bits else bits + BIT_L }

  lemma {:induction false} TaggedBytesNext(h: TaggedHeader, done: seq<Chunk>, c: Chunk)
    requires TaggedFits(h) && Fits(done) && |c.payload| <= MULPDU
    ensures Fits(done + [c]) && TaggedBytes(h, done + [c]) == TaggedBytes(h, done) + TaggedFrame(h, c)
    decreases |done|
  {
    if done == [] {
      assert done + [c] == [c] && [c][1..] == [];
    } else {
      FitsTail(done);
      assert (done + [c])[1..] == done[1..] + [c];
      TaggedBytesNext(h, done[1..], c);
    }
  }

  lemma {:induction false} UntaggedBytesNext(h: UntaggedHeader, done: seq<Chunk>, c: Chunk)
    requires UntaggedFits(h) && Fits(done) && |c.payload| <= MULPDU
    ensures Fits(done + [c]) && UntaggedBytes(h, done + [c]) == UntaggedBytes(h, done) + UntaggedFrame(h, c)
    decreases |done|
  {
    if done == [] {
      assert done + [c] == [c] && [c][1..] == [];
    } else {
      FitsTail(done);
      assert (done + [c])[1..] == done[1..] + [c];
      UntaggedBytesNext(h, done[1..], c);
    }
  }

  /** One segment goes out as one frame: control byte, the rest of the header and the payload are gathered. */
  method SendTaggedSegment(sock: Socket, bits: byte, h: TaggedHeader, payload: seq<byte>, ghost last: bool)
    returns (ok: bool)
    requires TaggedFits(h) && |payload| <= MULPDU && bits == Control(true, last)
    modifies sock`sent
    ensures sock.sent == if ok then old(sock.sent) + Frame(TaggedSegment(h, last, payload)) else old(sock.sent)
    ensures sock.reliable ==> ok
  {
    var meta := [h.rsvd] + Be(h.tag, 4) + Be(h.to, 8);
    ok := MpaSend(sock, [[bits], meta, payload]);
    ThreePieces([bits], meta, payload);
    assert [bits] + meta + payload == TaggedSegment(h, last, payload);
    SentFrameIsFrame(TaggedSegment(h, last, payload));
  }

  method SendUntaggedSegment(sock: Socket, bits: byte, h: UntaggedHeader, mo: nat, payload: seq<byte>, ghost last: bool)
    returns (ok: bool)
    requires UntaggedFits(h) && mo < W32 && |payload| <= MULPDU && bits == Control(false, last)
    modifies sock`sent
    ensures sock.sent == if ok then old(sock.sent) + Frame(UntaggedSegment(h, mo, last, payload)) else old(sock.sent)
    ensures sock.reliable ==> ok
  {
    var meta := [h.rsvd] + Be(h.rsvd2, 4) + Be(h.qn, 4) + Be(h.msn, 4) + Le(mo, 4);
    ok := MpaSend(sock, [[bits], meta, payload]);
    ThreePieces([bits], meta, payload);
    assert [bits] + meta + payload == UntaggedSegment(h, mo, last, payload);
    SentFrameIsFrame(UntaggedSegment(h, mo, last, payload));
  }

  lemma ThreePieces(x: seq<byte>, y: seq<byte>, z: seq<byte>)
    ensures Concat([x, y, z]) == x + y + z
  {
    var one, two, three := [x], [x, y], [x, y, z];
    assert three[..2] == two && two[..1] == one && one[..0] == [];
    assert Concat(one) == x;
    assert Concat(two) == x + y;
  }

  /** The chunks of an entry from byte `p` on: one more is done. */
  lemma EntryChunksFrom(done: seq<Chunk>, data: seq<byte>, p: nat, offset: nat, final: bool, n: nat, c: Chunk,
                        p': nat, offset': nat)
    requires p < |data| && n == Min(|data| - p, MULPDU) && p' == p + n && offset' == offset + n
    requires c == Chunk(offset, data[p..p'], final && n == |data| - p)
    ensures done + EntryChunks(data[p..], offset, final) == (done + [c]) + EntryChunks(data[p'..], offset', final)
  {
    var d := data[p..];
    if |d| <= MULPDU {
      assert data[p'..] == [] && data[p..p'] == d;
    } else {
      assert d[..MULPDU] == data[p..p'] && d[MULPDU..] == data[p'..];
    }
    assert EntryChunks(d, offset, final) == [c] + EntryChunks(data[p'..], offset', final);
  }

  lemma ChunksFrom(done: seq<Chunk>, sges: seq<seq<byte>>, i: nat, offset: nat)
    requires i < |sges|
    ensures done + Chunks(sges[i..], offset)
            == (done + EntryChunks(Sent(sges[i]), offset, i == |sges| - 1))
                + Chunks(sges[i + 1..], offset + |Sent(sges[i])|)
  {
    assert sges[i..][1..] == sges[i + 1..] && sges[i..][0] == sges[i];
  }

  /** `x += n` on a word of `w` values. */
  method Advance(x: nat, n: nat, w: nat, ghost total: nat) returns (r: nat)
    requires (w == W64 || w == W32) && x == Wrapped(total, w)
    ensures r == Wrapped(total + n, w)
  {
    WrappedIs(total, w);
    WrappedIs(total + n, w);
    r := (x + n) % w;
  }

  lemma TaggedSent(base: seq<byte>, h: TaggedHeader, done: seq<Chunk>, c: Chunk, to: nat)
    requires TaggedFits(h) && Fits(done) && |c.payload| <= MULPDU && to == Wrapped(h.to + c.offset, W64)
    ensures Fits(done + [c])
    ensures base + TaggedBytes(h, done + [c]) == base + TaggedBytes(h, done)
              + Frame(TaggedSegment(h.(to := to), c.last, c.payload))
  {
    TaggedBytesNext(h, done, c);
    var x, y := TaggedBytes(h, done), TaggedFrame(h, c);
    assert base + (x + y) == base + x + y;
  }

  lemma UntaggedSent(base: seq<byte>, h: UntaggedHeader, done: seq<Chunk>, c: Chunk, mo: nat)
    requires UntaggedFits(h) && Fits(done) && |c.payload| <= MULPDU && mo == Wrapped(c.offset, W32)
    ensures Fits(done + [c])
    ensures base + UntaggedBytes(h, done + [c]) == base + UntaggedBytes(h, done)
              + Frame(UntaggedSegment(h, mo, c.last, c.payload))
  {
    UntaggedBytesNext(h, done, c);
    var x, y := UntaggedBytes(h, done), UntaggedFrame(h, c);
    assert base + (x + y) == base + x + y;
  }

  method SendTaggedChunk(sock: Socket, bits: byte, h: TaggedHeader, to: nat, payload: seq<byte>,
                         ghost base: seq<byte>, ghost done: seq<Chunk>, ghost c: Chunk, ghost next: nat)
    returns (ok: bool, to': nat)
    requires TaggedFits(h) && Fits(done) && |payload| <= MULPDU && bits == Control(true, c.last) && c.payload == payload
    requires to == Wrapped(h.to + c.offset, W64) && sock.sent == base + TaggedBytes(h, done)
    requires next == c.offset + |payload|
    modifies sock`sent
    ensures Fits(done + [c]) && sock.sent == base + TaggedBytes(h, if ok then done + [c] else done)
            && to' == Wrapped(h.to + next, W64)
    ensures sock.reliable ==> ok
  {
    TaggedSent(base, h, done, c, to);
    ok := SendTaggedSegment(sock, bits, h.(to := to), payload, c.last);
    to' := Advance(to, |payload|, W64, h.to + c.offset);
  }

  /** `ddp_send_tagged`: the frames of the message go out in order; after a failure those before it have gone out. */
  method SendTagged(sock: Socket, h: TaggedHeader, sges: seq<seq<byte>>) returns (ok: bool, ghost done: seq<Chunk>)
    requires TaggedFits(h) && forall i :: 0 <= i < |sges| ==> |sges[i]| < W32
    modifies sock`sent
    ensures Fits(done) && sock.sent == old(sock.sent) + TaggedBytes(h, done)
    ensures done <= Chunks(sges, 0) && (ok ==> done == Chunks(sges, 0)) && (sock.reliable ==> ok)
  {
    ghost var base, offset: nat := sock.sent, 0;
    var bits: byte := Control(true, false);
    var to := h.to;
    done, ok := [], true;
    for i := 0 to |sges|
      invariant ok && Fits(done) && sock.sent == base + TaggedBytes(h, done)
      invariant done + Chunks(sges[i..], offset) == Chunks(sges, 0)
      invariant to == Wrapped(h.to + offset, W64) && (i < |sges| ==> bits == Control(true, false))
    {
      ChunksFrom(done, sges, i, offset);
      ok, bits, to, offset, done := SendTaggedEntry(sock, h, sges[i], i == |sges| - 1, to, bits, base, offset, done);
      if !ok { return; }
    }
    assert sges[|sges|..] == [];
  }

  /** One turn of the inner loop: the `n` bytes of the entry from `p` on, which are at `at` in the message. */
  method SendTaggedPiece(sock: Socket, bits: byte, h: TaggedHeader, to: nat, sge: seq<byte>, p: nat, n: nat,
                         lastSge: bool, ghost base: seq<byte>, ghost done: seq<Chunk>, ghost at: nat, ghost next: nat)
    returns (ok: bool, to': nat, ghost done': seq<Chunk>)
    requires TaggedFits(h) && Fits(done) && sock.sent == base + TaggedBytes(h, done) && to == Wrapped(h.to + at, W64)
    requires p < |sge| && n == Min(|sge| - p, MULPDU) && next == at + n
    requires bits == Control(true, lastSge && n == |sge| - p)
    modifies sock`sent
    ensures Fits(done') && sock.sent == base + TaggedBytes(h, done') && (sock.reliable ==> ok)
    ensures ok ==> to' == Wrapped(h.to + next, W64)
    ensures if ok then done' + EntryChunks(sge[p + n..], next, lastSge) == done + EntryChunks(sge[p..], at, lastSge)
            else done' == done
  {
    var payload := sge[p..p + n];
    ghost var c := Chunk(at, payload, lastSge && n == |sge| - p);
    EntryChunksFrom(done, sge, p, at, lastSge, n, c, p + n, next);
    ok, to' := SendTaggedChunk(sock, bits, h, to, payload, base, done, c, next);
    done' := if ok then done + [c] else done;
  }

  /** The inner loop: one entry of the gather list. */
  method SendTaggedEntry(sock: Socket, h: TaggedHeader, sge: seq<byte>, lastSge: bool, start: nat, startBits: byte,
                         ghost base: seq<byte>, ghost offset: nat, ghost before: seq<Chunk>)
    returns (ok: bool, bits: byte, to: nat, ghost at: nat, ghost done: seq<Chunk>)
    requires TaggedFits(h) && Fits(before) && sock.sent == base + TaggedBytes(h, before) && |sge| < W32
    requires start == Wrapped(h.to + offset, W64) && startBits == Control(true, false)
    modifies sock`sent
    ensures Fits(done) && sock.sent == base + TaggedBytes(h, done)
    ensures done <= before + EntryChunks(Sent(sge), offset, lastSge) && (sock.reliable ==> ok)
    ensures ok ==>
              done == before + EntryChunks(Sent(sge), offset, lastSge) && at == offset + |Sent(sge)|
              && to == Wrapped(h.to + at, W64)
    ensures ok && !lastSge ==> bits == Control(true, false)
  {
    ghost var entry, all := Sent(sge), before + EntryChunks(Sent(sge), offset, lastSge);
    var remaining: int := if |sge| < INT_MAX_PLUS_1 then |sge| else |sge| - W32;
    ok, bits, to, at, done := true, startBits, start, offset, before;
    ghost var p: nat := 0;
    assert entry[0..] == entry;
    while remaining > 0
      invariant ok && Fits(done) && sock.sent == base + TaggedBytes(h, done)
      invariant p <= |entry| && at == offset + p && to == Wrapped(h.to + at, W64)
      invariant done + EntryChunks(entry[p..], at, lastSge) == all
      invariant if remaining > 0 then entry == sge && p == |sge| - remaining else p == |entry|
      invariant remaining > 0 || !lastSge ==> bits == Control(true, false)
      decreases remaining
    {
      var n := if remaining > MULPDU then MULPDU else remaining;
      if lastSge && n == remaining { bits := SetLast(bits); }
      ok, to, done := SendTaggedPiece(sock, bits, h, to, sge, |sge| - remaining, n, lastSge, base, done, at, at + n);
      if !ok { return; }
      p, at := p + n, at + n;
      remaining := remaining - n;
    }
    assert entry[p..] == [];
  }

  method SendUntaggedChunk(sock: Socket, bits: byte, h: UntaggedHeader, mo: nat, payload: seq<byte>,
                           ghost base: seq<byte>, ghost done: seq<Chunk>, ghost c: Chunk, ghost next: nat)
    returns (ok: bool, mo': nat)
    requires UntaggedFits(h) && Fits(done) && |payload| <= MULPDU && bits == Control(false, c.last)
             && c.payload == payload
    requires mo == Wrapped(c.offset, W32) && sock.sent == base + UntaggedBytes(h, done)
    requires next == c.offset + |payload|
    modifies sock`sent
    ensures Fits(done + [c]) && sock.sent == base + UntaggedBytes(h, if ok then done + [c] else done)
            && mo' == Wrapped(next, W32)
    ensures sock.reliable ==> ok
  {
    UntaggedSent(base, h, done, c, mo);
    ok := SendUntaggedSegment(sock, bits, h, mo, payload, c.last);
    mo' := Advance(mo, |payload|, W32, c.offset);
  }

  /** `ddp_send_untagged`: as above, with the offset kept and sent in host order; after a failure those before it
      have gone out. */
  method SendUntagged(sock: Socket, h: UntaggedHeader, sges: seq<seq<byte>>) returns (ok: bool, ghost done: seq<Chunk>)
    requires UntaggedFits(h) && forall i :: 0 <= i < |sges| ==> |sges[i]| < W32
    modifies sock`sent
    ensures Fits(done) && sock.sent == old(sock.sent) + UntaggedBytes(h, done)
    ensures done <= Chunks(sges, 0) && (ok ==> done == Chunks(sges, 0)) && (sock.reliable ==> ok)
  {
    ghost var base, offset: nat := sock.sent, 0;
    var bits: byte := Control(false, false);
    var mo: nat := 0;
    done, ok := [], true;
    for i := 0 to |sges|
      invariant ok && Fits(done) && sock.sent == base + UntaggedBytes(h, done)
      invariant done + Chunks(sges[i..], offset) == Chunks(sges, 0)
      invariant mo == Wrapped(offset, W32) && (i < |sges| ==> bits == Control(false, false))
    {
      ChunksFrom(done, sges, i, offset);
      ok, bits, mo, offset, done := SendUntaggedEntry(sock, h, sges[i], i == |sges| - 1, mo, bits, base, offset, done);
      if !ok { return; }
    }
    assert sges[|sges|..] == [];
  }

  /** One turn of the inner loop: the `n` bytes of the entry from `p` on, which are at `at` in the message. */
  method SendUntaggedPiece(sock: Socket, bits: byte, h: UntaggedHeader, mo: nat, sge: seq<byte>, p: nat, n: nat,
                           lastSge: bool, ghost base: seq<byte>, ghost done: seq<Chunk>, ghost at: nat, ghost next: nat)
    returns (ok: bool, mo': nat, ghost done': seq<Chunk>)
    requires UntaggedFits(h) && Fits(done) && sock.sent == base + UntaggedBytes(h, done) && mo == Wrapped(at, W32)
    requires p < |sge| && n == Min(|sge| - p, MULPDU) && next == at + n
    requires bits == Control(false, lastSge && n == |sge| - p)
    modifies sock`sent
    ensures Fits(done') && sock.sent == base + UntaggedBytes(h, done') && (sock.reliable ==> ok)
    ensures ok ==> mo' == Wrapped(next, W32)
    ensures if ok then done' + EntryChunks(sge[p + n..], next, lastSge) == done + EntryChunks(sge[p..], at, lastSge)
            else done' == done
  {
    var payload := sge[p..p + n];
    ghost var c := Chunk(at, payload, lastSge && n == |sge| - p);
    EntryChunksFrom(done, sge, p, at, lastSge, n, c, p + n, next);
    ok, mo' := SendUntaggedChunk(sock, bits, h, mo, payload, base, done, c, next);
    done' := if ok then done + [c] else done;
  }

  /** The inner loop: one entry of the gather list. */
  method SendUntaggedEntry(sock: Socket, h: UntaggedHeader, sge: seq<byte>, lastSge: bool, start: nat,
                           startBits: byte, ghost base: seq<byte>, ghost offset: nat, ghost before: seq<Chunk>)
    returns (ok: bool, bits: byte, mo: nat, ghost at: nat, ghost done: seq<Chunk>)
    requires UntaggedFits(h) && Fits(before) && sock.sent == base + UntaggedBytes(h, before) && |sge| < W32
    requires start == Wrapped(offset, W32) && startBits == Control(false, false)
    modifies sock`sent
    ensures Fits(done) && sock.sent == base + UntaggedBytes(h, done)
    ensures done <= before + EntryChunks(Sent(sge), offset, lastSge) && (sock.reliable ==> ok)
    ensures ok ==>
              done == before + EntryChunks(Sent(sge), offset, lastSge) && at == offset + |Sent(sge)|
              && mo == Wrapped(at, W32)
    ensures ok && !lastSge ==> bits == Control(false, false)
  {
    ghost var entry, all := Sent(sge), before + EntryChunks(Sent(sge), offset, lastSge);
    var remaining: int := if |sge| < INT_MAX_PLUS_1 then |sge| else |sge| - W32;
    ok, bits, mo, at, done := true, startBits, start, offset, before;
    ghost var p: nat := 0;
    assert entry[0..] == entry;
    while remaining > 0
      invariant ok && Fits(done) && sock.sent == base + UntaggedBytes(h, done)
      invariant p <= |entry| && at == offset + p && mo == Wrapped(at, W32)
      invariant done + EntryChunks(entry[p..], at, lastSge) == all
      invariant if remaining > 0 then entry == sge && p == |sge| - remaining else p == |entry|
      invariant remaining > 0 || !lastSge ==> bits == Control(false, false)
      decreases remaining
    {
      var n := if remaining > MULPDU then MULPDU else remaining;
      if lastSge && n == remaining { bits := SetLast(bits); }
      ok, mo, done := SendUntaggedPiece(sock, bits, h, mo, sge, |sge| - remaining, n, lastSge, base, done, at, at + n);
      if !ok { return; }
      p, at := p + n, at + n;
      remaining := remaining - n;
    }
    assert entry[p..] == [];
  }

  // ---------------------------------------------------------------- receiving

  /** The header of the frame at the front of `stream` has been read: `size` bytes of it, or all of a shorter frame. */
  ghost predicate HeaderRead(v: View, stream: seq<byte>, len: nat, size: nat) {
    len > 0 && ReadUpTo(v, stream, len, Min(size, len)) && v.rcvd >= MPA_HDR
  }

  /** Once a frame has been read to its end no further read of it succeeds. */
  lemma NothingAfterEnd(v: View, stream: seq<byte>, len: nat, n: int)
    requires len > 0 && ReadUpTo(v, stream, len, len)
    ensures Read(v, n).None?
  {
  }

  /** Reading the payload: it succeeds exactly when the frame has one and is there to its end. */
  lemma PayloadRead(v: View, stream: seq<byte>, len: nat, size: nat)
    requires HeaderRead(v, stream, len, size) && size > 0
    ensures Read(v, len - size).Some? <==> len > size && |stream| >= FrameLength(len)
    ensures Read(v, len - size).Some? ==>
              Read(v, len - size).value.0 == stream[MPA_HDR + size..MPA_HDR + len]
                && Read(v, len - size).value.1.incoming == stream[FrameLength(len)..]
  {
    if len > size {
      ReadGoesOn(v, stream, len, size, len - size);
    } else {
      NothingAfterEnd(v, stream, len, len - size);
    }
  }

  /** Reading the next header: when it fails there is no further segment. */
  lemma HeaderReads(v: View, size: nat)
    requires v.rcvd == 0 && size > 0
    ensures Read(v, size).None? ==> ParseFrame(v.incoming).None?
    ensures Read(v, size).Some? ==> var w := Read(v, size).value.1;
              |v.incoming| >= MPA_HDR && w.len == FromBe(v.incoming[..MPA_HDR])
                && HeaderRead(w, v.incoming, w.len, size)
              && |Read(v, size).value.0| == Min(size, w.len)
                 && Read(v, size).value.0 == v.incoming[MPA_HDR..MPA_HDR + Min(size, w.len)]
  {
    if |v.incoming| >= MPA_HDR {
      var len := FromBe(v.incoming[..MPA_HDR]);
      if len > 0 { ReadGoesOn(v, v.incoming, len, 0, size); }
    }
  }

  /** What a header says, seen in the bytes read and in the whole frame. */
  lemma TaggedNext(mem: Memory, to: nat, payload: seq<byte>, acc: nat, acc': nat, rest: seq<byte>, len: nat,
                   head: seq<byte>, last: bool, to': nat)
    requires |rest| >= MPA_HDR && len == FromBe(rest[..MPA_HDR]) && len > 0 && MPA_HDR + Min(TAGGED_HDR, len) <= |rest|
    requires head == rest[MPA_HDR..MPA_HDR + Min(TAGGED_HDR, len)] && acc' == acc + |payload|
    requires |head| == TAGGED_HDR ==> last == IsLast(head[0]) && to' == ParseTagged(head).to
    ensures TaggedRest(mem, false, to, payload, acc, rest)
              == TaggedFrom(Place(mem, to, payload), last, to', rest, len, acc')
  {
    if len > TAGGED_HDR && |rest| >= FrameLength(len) {
      var u := rest[MPA_HDR..MPA_HDR + len];
      assert head == u[..TAGGED_HDR] && u[TAGGED_HDR..] == rest[MPA_HDR + TAGGED_HDR..MPA_HDR + len];
      assert head[2..6] == u[2..6] && head[6..14] == u[6..14];
    }
  }

  lemma UntaggedNext(mem: Memory, buffer: Buffer, mo: nat, payload: seq<byte>, acc: nat, acc': nat, rest: seq<byte>,
                     len: nat, head: seq<byte>, last: bool, mo': nat)
    requires |rest| >= MPA_HDR && len == FromBe(rest[..MPA_HDR]) && len > 0
             && MPA_HDR + Min(UNTAGGED_HDR, len) <= |rest|
    requires head == rest[MPA_HDR..MPA_HDR + Min(UNTAGGED_HDR, len)] && acc' == acc + |payload|
    requires |head| == UNTAGGED_HDR ==> last == IsLast(head[0]) && mo' == ParseOffset(head)
    ensures UntaggedRest(mem, buffer, false, mo, payload, acc, rest)
              == UntaggedFrom(Place(mem, buffer + mo, payload), buffer, last, mo', rest, len, acc')
  {
    if len > UNTAGGED_HDR && |rest| >= FrameLength(len) {
      var u := rest[MPA_HDR..MPA_HDR + len];
      assert head == u[..UNTAGGED_HDR] && u[UNTAGGED_HDR..] == rest[MPA_HDR + UNTAGGED_HDR..MPA_HDR + len];
      assert head[14..18] == u[14..18];
    }
  }

  /** The payload of the frame at the front of `stream`, once its header of `size` bytes has been read. */
  method TakePayload(sock: Socket, pkt: Packet, payloadLen: int, ghost stream: seq<byte>, ghost len: nat,
                     ghost size: nat)
    returns (ok: bool, data: seq<byte>)
    requires HeaderRead(ViewOf(sock, pkt), stream, len, size) && size > 0 && payloadLen == len - size
    modifies sock`incoming, pkt
    ensures ok ==> len > size && |stream| >= FrameLength(len) && |data| == payloadLen
    ensures ok ==>
              data == stream[MPA_HDR + size..MPA_HDR + len] && sock.incoming == stream[FrameLength(len)..]
              && |sock.incoming| < |old(sock.incoming)|
    ensures sock.eager && len > size && |stream| >= FrameLength(len) ==> ok
  {
    PayloadRead(ViewOf(sock, pkt), stream, len, size);
    var o: Outcome;
    o, data := MpaRecv(sock, pkt, payloadLen);
    ok := o.Done?;
  }

  /** The header of the next frame. */
  method NextHeader(sock: Socket, pkt: Packet, size: nat) returns (ok: bool, head: seq<byte>)
    requires size > 0
    modifies sock`incoming, pkt
    ensures ok ==> HeaderRead(ViewOf(sock, pkt), old(sock.incoming), pkt.ulpduLen, size)
    ensures ok ==>
              |old(sock.incoming)| >= MPA_HDR + Min(size, pkt.ulpduLen)
              && head == old(sock.incoming)[MPA_HDR..MPA_HDR + Min(size, pkt.ulpduLen)]
    ensures ok ==> |sock.incoming| < |old(sock.incoming)|
    ensures sock.eager && ParseFrame(old(sock.incoming)).Some? ==> ok
  {
    pkt.bytesRcvd := 0;
    HeaderReads(ViewOf(sock, pkt), size);
    var o: Outcome;
    o, head := MpaRecv(sock, pkt, size);
    ok := o.Done?;
  }

  /** The header of the next tagged segment, after one that was not the last. */
  method NextTagged(sock: Socket, pkt: Packet, bits: byte, to: nat, ghost mem: Memory, ghost data: seq<byte>,
                    ghost acc: nat, ghost acc': nat)
    returns (ok: bool, bits': byte, to': nat)
    requires acc' == acc + |data|
    modifies sock`incoming, pkt
    ensures ok ==>
              HeaderRead(ViewOf(sock, pkt), old(sock.incoming), pkt.ulpduLen, TAGGED_HDR)
              && |sock.incoming| < |old(sock.incoming)|
    ensures ok ==> TaggedRest(mem, false, to, data, acc, old(sock.incoming))
                   == TaggedFrom(Place(mem, to, data), IsLast(bits'), to', old(sock.incoming), pkt.ulpduLen, acc')
    ensures sock.eager && TaggedRest(mem, false, to, data, acc, old(sock.incoming)).Some? ==> ok
  {
    ghost var at := sock.incoming;
    var head: seq<byte>;
    ok, head := NextHeader(sock, pkt, TAGGED_HDR);
    bits', to' := bits, to;
    if ok {
      if |head| == TAGGED_HDR { bits', to' := head[0], ParseTagged(head).to; }
      TaggedNext(mem, to, data, acc, acc', at, pkt.ulpduLen, head, IsLast(bits'), to');
    }
  }

  method NextUntagged(sock: Socket, pkt: Packet, bits: byte, buffer: Buffer, mo: nat, ghost mem: Memory,
                      ghost data: seq<byte>, ghost acc: nat, ghost acc': nat)
    returns (ok: bool, bits': byte, mo': nat)
    requires acc' == acc + |data|
    modifies sock`incoming, pkt
    ensures ok ==>
              HeaderRead(ViewOf(sock, pkt), old(sock.incoming), pkt.ulpduLen, UNTAGGED_HDR)
              && |sock.incoming| < |old(sock.incoming)|
    ensures ok ==> UntaggedRest(mem, buffer, false, mo, data, acc, old(sock.incoming))
                   == UntaggedFrom(Place(mem, buffer + mo, data), buffer, IsLast(bits'), mo', old(sock.incoming),
                                   pkt.ulpduLen, acc')
    ensures sock.eager && UntaggedRest(mem, buffer, false, mo, data, acc, old(sock.incoming)).Some? ==> ok
  {
    ghost var at := sock.incoming;
    var head: seq<byte>;
    ok, head := NextHeader(sock, pkt, UNTAGGED_HDR);
    bits', mo' := bits, mo;
    if ok {
      if |head| == UNTAGGED_HDR { bits', mo' := head[0], ParseOffset(head); }
      UntaggedNext(mem, buffer, mo, data, acc, acc', at, pkt.ulpduLen, head, IsLast(bits'), mo');
    }
  }

  lemma TaggedLast(mem: Memory, to: nat, data: seq<byte>, acc: nat, rest: seq<byte>)
    ensures TaggedRest(mem, true, to, data, acc, rest) == Some((Place(mem, to, data), acc + |data|, rest))
  {
  }

  lemma UntaggedLast(mem: Memory, buffer: Buffer, mo: nat, data: seq<byte>, acc: nat, rest: seq<byte>)
    ensures UntaggedRest(mem, buffer, true, mo, data, acc, rest)
              == Some((Place(mem, buffer + mo, data), acc + |data|, rest))
  {
  }

  /** `ddp_stream_context` with the memory that buffers and regions lie in. */
  class Stream {
    const sock: Socket
    var mem: Memory
    var regions: map<nat, Region>
    var queues: seq<seq<Buffer>>

    constructor (sock: Socket, mem: Memory)
      ensures this.sock == sock && this.mem == mem && regions == map[] && queues == [[], [], []]
    {
      this.sock, this.mem, this.regions, this.queues := sock, mem, map[], [[], [], []];
    }

    ghost function RxOf(): Rx
      reads this
    {
      Rx(mem, regions, queues)
    }

    /** `ddp_post_recv`: buffers join the end of their queue; other queue numbers are refused. */
    method PostRecv(qn: int, buffers: seq<Buffer>)
      requires |queues| == QUEUES
      modifies this`queues
      ensures |queues| == QUEUES
      ensures queues == if 0 <= qn < QUEUES then old(queues)[qn := old(queues)[qn] + buffers] else old(queues)
    {
      if 0 <= qn < QUEUES { queues := queues[qn := queues[qn] + buffers]; }
    }

    /** The loop over the segments of a tagged message, from the payload of the first. */
    method TaggedPayloads(pkt: Packet, bits: byte, start: nat, ghost stream: seq<byte>) returns (ok: bool, total: nat)
      requires HeaderRead(ViewOf(sock, pkt), stream, pkt.ulpduLen, TAGGED_HDR)
      modifies this`mem, sock`incoming, pkt
      ensures ok ==>
                TaggedFrom(old(mem), IsLast(bits), start, stream, old(pkt.ulpduLen), 0)
                  == Some((mem, total, sock.incoming))
      ensures sock.eager && TaggedFrom(old(mem), IsLast(bits), start, stream, old(pkt.ulpduLen), 0).Some? ==> ok
    {
      ghost var goal := TaggedFrom(mem, IsLast(bits), start, stream, pkt.ulpduLen, 0);
      ghost var at := stream;
      var current, to, payloadLen := bits, start, pkt.ulpduLen - TAGGED_HDR;
      total := 0;
      while true
        invariant HeaderRead(ViewOf(sock, pkt), at, pkt.ulpduLen, TAGGED_HDR) && payloadLen == pkt.ulpduLen - TAGGED_HDR
        invariant TaggedFrom(mem, IsLast(current), to, at, pkt.ulpduLen, total) == goal
        decreases |sock.incoming|
      {
        var data: seq<byte>;
        ok, data := TakePayload(sock, pkt, payloadLen, at, pkt.ulpduLen, TAGGED_HDR);
        if !ok { return; }
        ghost var was, acc := mem, total;
        assert goal == TaggedRest(was, IsLast(current), to, data, acc, sock.incoming);
        mem := Place(mem, to, data);
        total := total + payloadLen;
        if IsLast(current) {
          TaggedLast(was, to, data, acc, sock.incoming);
          return;
        }
        at := sock.incoming;
        ok, current, to := NextTagged(sock, pkt, current, to, was, data, acc, total);
        if !ok { return; }
        payloadLen := pkt.ulpduLen - TAGGED_HDR;
      }
    }

    /** The loop over the segments of an untagged message. */
    method UntaggedPayloads(pkt: Packet, bits: byte, buffer: Buffer, start: nat, ghost stream: seq<byte>)
      returns (ok: bool, total: nat)
      requires HeaderRead(ViewOf(sock, pkt), stream, pkt.ulpduLen, UNTAGGED_HDR)
      modifies this`mem, sock`incoming, pkt
      ensures ok ==>
                UntaggedFrom(old(mem), buffer, IsLast(bits), start, stream, old(pkt.ulpduLen), 0)
                  == Some((mem, total, sock.incoming))
      ensures sock.eager ==>
                (UntaggedFrom(old(mem), buffer, IsLast(bits), start, stream, old(pkt.ulpduLen), 0).Some? ==> ok)
    {
      ghost var goal := UntaggedFrom(mem, buffer, IsLast(bits), start, stream, pkt.ulpduLen, 0);
      ghost var at := stream;
      var current, mo, payloadLen := bits, start, pkt.ulpduLen - UNTAGGED_HDR;
      total := 0;
      while true
        invariant HeaderRead(ViewOf(sock, pkt), at, pkt.ulpduLen, UNTAGGED_HDR)
                  && payloadLen == pkt.ulpduLen - UNTAGGED_HDR
        invariant UntaggedFrom(mem, buffer, IsLast(current), mo, at, pkt.ulpduLen, total) == goal
        decreases |sock.incoming|
      {
        var data: seq<byte>;
        ok, data := TakePayload(sock, pkt, payloadLen, at, pkt.ulpduLen, UNTAGGED_HDR);
        if !ok { return; }
        ghost var was, acc := mem, total;
        assert goal == UntaggedRest(was, buffer, IsLast(current), mo, data, acc, sock.incoming);
        mem := Place(mem, buffer + mo, data);
        total := total + payloadLen;
        if IsLast(current) {
          UntaggedLast(was, buffer, mo, data, acc, sock.incoming);
          return;
        }
        at := sock.incoming;
        ok, current, mo := NextUntagged(sock, pkt, current, buffer, mo, was, data, acc, total);
        if !ok { return; }
        payloadLen := pkt.ulpduLen - UNTAGGED_HDR;
      }
    }

    /** The first two reads of a message of either kind: the control byte, then the rest of the header. */
    method RestOfHeader(pkt: Packet, size: nat, ghost stream: seq<byte>) returns (ok: bool, more: seq<byte>)
      requires size > 1 && pkt.ulpduLen >= size && HeaderRead(ViewOf(sock, pkt), stream, pkt.ulpduLen, 1)
      modifies sock`incoming, pkt
      ensures ok ==> pkt.ulpduLen == old(pkt.ulpduLen) && HeaderRead(ViewOf(sock, pkt), stream, pkt.ulpduLen, size)
      ensures ok ==> |stream| >= MPA_HDR + size && more == stream[MPA_HDR + 1..MPA_HDR + size]
      ensures sock.eager && |stream| >= FrameLength(old(pkt.ulpduLen)) ==> ok
    {
      ReadGoesOn(ViewOf(sock, pkt), stream, pkt.ulpduLen, 1, size - 1);
      var o: Outcome;
      o, more := MpaRecv(sock, pkt, size - 1);
      ok := o.Done?;
    }

    method RecvTagged(pkt: Packet, bits: byte, ghost stream: seq<byte>) returns (r: Option<Message>)
      requires HeaderRead(ViewOf(sock, pkt), stream, pkt.ulpduLen, 1) && |stream| >= MPA_HDR + 1
               && bits == stream[MPA_HDR]
      modifies this`mem, sock`incoming, pkt
      ensures r.Some? ==> ParseFrame(stream).Some? && var f := ParseFrame(stream).value;
                ReceiveTagged(old(RxOf()), f.0, f.1) == Some(Got(RxOf(), r.value, sock.incoming))
      ensures sock.eager && ParseFrame(stream).Some? ==>
                var f := ParseFrame(stream).value; ReceiveTagged(old(RxOf()), f.0, f.1).Some? ==> r.Some?
      ensures forall tag, to :: StartsTagged(stream, tag, to) && OutOfRegion(old(regions), tag, to) ==>
                                r.None? && mem == old(mem)
    {
      if pkt.ulpduLen < TAGGED_HDR { return None; }
      ghost var len, rx := pkt.ulpduLen, RxOf();
      var ok, more := RestOfHeader(pkt, TAGGED_HDR, stream);
      if !ok { return None; }
      var h := ParseTagged([bits] + more);
      TaggedWhole(rx, stream, len, [bits] + more);
      HeaderOfStream(stream, [bits] + more, regions);
      if !StagOk(regions, h) { return None; }
      var total: nat;
      ok, total := TaggedPayloads(pkt, bits, h.to, stream);
      r := if ok then Some(Tagged(bits, h, total)) else None;
    }

    method RecvUntagged(pkt: Packet, bits: byte, ghost stream: seq<byte>) returns (r: Option<Message>)
      requires HeaderRead(ViewOf(sock, pkt), stream, pkt.ulpduLen, 1) && |stream| >= MPA_HDR + 1
               && bits == stream[MPA_HDR]
      modifies this`mem, this`queues, sock`incoming, pkt
      ensures r.Some? ==> ParseFrame(stream).Some? && var f := ParseFrame(stream).value;
                ReceiveUntagged(old(RxOf()), f.0, f.1) == Some(Got(RxOf(), r.value, sock.incoming))
      ensures sock.eager && ParseFrame(stream).Some? ==>
                var f := ParseFrame(stream).value; ReceiveUntagged(old(RxOf()), f.0, f.1).Some? ==> r.Some?
      ensures forall qn, msn :: StartsUntagged(stream, qn, msn) && (qn >= 3 || msn == 0) ==>
                                r.None? && mem == old(mem) && queues == old(queues)
    {
      if pkt.ulpduLen < UNTAGGED_HDR { return None; }
      ghost var len, rx := pkt.ulpduLen, RxOf();
      var ok, more := RestOfHeader(pkt, UNTAGGED_HDR, stream);
      if !ok { return None; }
      var h, mo := ParseUntagged([bits] + more), ParseOffset([bits] + more);
      UntaggedWhole(rx, stream, len, [bits] + more);
      assert [bits] + more == stream[MPA_HDR..MPA_HDR + UNTAGGED_HDR];
      UntaggedAt(stream, [bits] + more);
      if !UntaggedOk(queues, h) || queues[h.qn] == [] { return None; }
      var buffer := queues[h.qn][0];
      queues := queues[h.qn := queues[h.qn][1..]];
      var total: nat;
      ok, total := UntaggedPayloads(pkt, bits, buffer, mo, stream);
      r := if ok then Some(Untagged(bits, h, buffer, total)) else None;
    }

    /** `ddp_recv` refines receiving whole frames: when it succeeds it has received exactly that message and left the
        stream behind it, and if small reads come whole it succeeds whenever there is a message to receive. */
    method Recv() returns (r: Option<Message>)
      modifies this`mem, this`queues, sock`incoming
      ensures r.Some? ==> Receive(old(RxOf()), old(sock.incoming)) == Some(Got(RxOf(), r.value, sock.incoming))
      ensures sock.eager && Receive(old(RxOf()), old(sock.incoming)).Some? ==> r.Some?
      ensures forall tag, to :: StartsTagged(old(sock.incoming), tag, to) && OutOfRegion(old(regions), tag, to) ==>
                                r.None? && mem == old(mem) && queues == old(queues)
      ensures forall qn, msn :: StartsUntagged(old(sock.incoming), qn, msn) && (qn >= 3 || msn == 0) ==>
                                r.None? && mem == old(mem) && queues == old(queues)
    {
      ghost var stream := sock.incoming;
      var pkt := new Packet();
      var ok, first := NextHeader(sock, pkt, 1);
      if !ok { return None; }
      FirstByte(stream);
      if IsTagged(first[0]) {
        r := RecvTagged(pkt, first[0], stream);
      } else {
        r := RecvUntagged(pkt, first[0], stream);
      }
    }
  }

  /** The header that was read is the one the stream starts with, so a target out of its region fails the check. */
  lemma HeaderOfStream(stream: seq<byte>, head: seq<byte>, regions: map<nat, Region>)
    requires |stream| >= MPA_HDR + TAGGED_HDR && head == stream[MPA_HDR..MPA_HDR + TAGGED_HDR]
    ensures forall tag, to :: StartsTagged(stream, tag, to) && OutOfRegion(regions, tag, to) ==>
                              !StagOk(regions, ParseTagged(head))
  {
    TaggedAt(stream, head);
  }

  lemma FirstByte(stream: seq<byte>)
    ensures ParseFrame(stream).Some? ==> |stream| > MPA_HDR && ParseFrame(stream).value.0[0] == stream[MPA_HDR]
  {
  }

  /** A header that was read is the header of the whole frame, and what is then received is what receiving the whole
      frame would give. */
  lemma TaggedWhole(rx: Rx, stream: seq<byte>, len: nat, head: seq<byte>)
    requires |stream| >= MPA_HDR + TAGGED_HDR && len == FromBe(stream[..MPA_HDR]) && len >= TAGGED_HDR
    requires head == stream[MPA_HDR..MPA_HDR + TAGGED_HDR]
    ensures |stream| < FrameLength(len) <==> ParseFrame(stream).None?
    ensures ParseFrame(stream).Some? ==> var f, h := ParseFrame(stream).value, ParseTagged(head);
              var r := TaggedFrom(rx.mem, IsLast(head[0]), h.to, stream, len, 0);
              ReceiveTagged(rx, f.0, f.1) == if !StagOk(rx.regions, h) || r.None? then None
                                             else Some(Got(rx.(mem := r.value.0), Tagged(head[0], h, r.value.1),
                                                           r.value.2))
  {
    if ParseFrame(stream).Some? {
      var u := ParseFrame(stream).value.0;
      assert head == u[..TAGGED_HDR] && u[TAGGED_HDR..] == stream[MPA_HDR + TAGGED_HDR..MPA_HDR + len];
      assert head[2..6] == u[2..6] && head[6..14] == u[6..14];
    }
  }

  lemma UntaggedWhole(rx: Rx, stream: seq<byte>, len: nat, head: seq<byte>)
    requires |stream| >= MPA_HDR + UNTAGGED_HDR && len == FromBe(stream[..MPA_HDR]) && len >= UNTAGGED_HDR
    requires head == stream[MPA_HDR..MPA_HDR + UNTAGGED_HDR]
    ensures |stream| < FrameLength(len) <==> ParseFrame(stream).None?
    ensures ParseFrame(stream).Some? ==> var f, h := ParseFrame(stream).value, ParseUntagged(head);
              if !UntaggedOk(rx.queues, h) || rx.queues[h.qn] == [] then ReceiveUntagged(rx, f.0, f.1) == None
              else
                var b := rx.queues[h.qn][0];
                var r := UntaggedFrom(rx.mem, b, IsLast(head[0]), ParseOffset(head), stream, len, 0);
                ReceiveUntagged(rx, f.0, f.1) == if r.None? then None
                  else Some(Got(rx.(mem := r.value.0, queues := rx.queues[h.qn := rx.queues[h.qn][1..]]),
                                Untagged(head[0], h, b, r.value.1), r.value.2))
  {
    if ParseFrame(stream).Some? {
      var u := ParseFrame(stream).value.0;
      assert head == u[..UNTAGGED_HDR] && u[UNTAGGED_HDR..] == stream[MPA_HDR + UNTAGGED_HDR..MPA_HDR + len];
      assert head[2..6] == u[2..6] && head[6..10] == u[6..10] && head[10..14] == u[10..14] && head[14..18] == u[14..18];
    }
  }

  /** Both ends together: whatever the short reads, a tagged message that was sent and received has its bytes at
      [TO, TO + total) of the receiver's memory, which is otherwise as it was; and it is received if small reads come
      whole. */
  method TransferTagged(sender: Socket, receiver: Stream, h: TaggedHeader, sges: seq<seq<byte>>)
    returns (sent: bool, r: Option<Message>)
    requires TaggedFits(h) && (forall i :: 0 <= i < |sges| ==> |sges[i]| < W32) && sender != receiver.sock
             && sender.sent == []
    requires StagOk(receiver.regions, h) && Closes(sges) && h.to + |AllSent(sges)| <= W64
    modifies sender`sent, receiver`mem, receiver`queues, receiver.sock`incoming
    ensures r.Some? ==>
              r.value.Tagged? && r.value.tagged == h && r.value.len == |AllSent(sges)| && receiver.sock.incoming == []
    ensures r.Some? ==>
              receiver.mem == Place(old(receiver.mem), h.to, AllSent(sges)) && receiver.queues == old(receiver.queues)
    ensures sent && receiver.sock.eager ==> r.Some?
    ensures sender.reliable ==> sent
  {
    ghost var done;
    sent, done := SendTagged(sender, h, sges);
    r := None;
    if sent {
      receiver.sock.incoming := sender.sent;
      TaggedEndToEnd(receiver.RxOf(), h, sges, []);
      assert sender.sent == TaggedBytes(h, Chunks(sges, 0)) + [];
      r := receiver.Recv();
    }
  }
}
