/** Several reads on their way at once. All the responses waiting to be sent share one source entry, so what a response
    carries depends on the request handled last: when it is right, and runs in which it is not. */
module RdmapPipelined {
  import opened Options
  import opened Wire
  import opened Ddp
  import opened Rdmap
  import opened RdmapSafety
  import opened RdmapRuns
  import opened RdmapReads

  // ---------------------------------------------------------------- when a segment is right

  lemma {:induction false} ReqsFit(w: seq<Seg>, m: nat)
    requires (forall y :: 0 <= y < |w| ==> Written(w[y].kind, w[y].chunk)) && m < |Reqs(w)|
    ensures FieldsFit(Reqs(w)[m])
  {
    if w != [] {
      var v := w[..|w| - 1];
      if m < |Reqs(v)| { ReqsFit(v, m); } else { assert Written(w[|w| - 1].kind, w[|w| - 1].chunk); }
    }
  }

  lemma RespFits(p: Peer, o: Peer, m: nat)
    requires PairOk(p, o) && RequestsWritten(o.spc, o.wire)
    ensures m < |p.resp| ==> FieldsFit(p.resp[m])
    ensures Latest(p).Some? ==> FieldsFit(Latest(p).value)
  {
    var w := o.wire[..p.taken];
    assert RequestsOk(p.resp, p.rpc, w);
    assert forall y :: 0 <= y < |w| ==> Written(w[y].kind, w[y].chunk);
    if m < |p.resp| { ReqsFit(w, m); }
    if Latest(p).Some? { ReqsFit(w, if p.rpc.REnqueue? then |p.resp| else |p.resp| - 1); }
  }

  /** Segment `g` is read from address `from`; it is the segment of `f` at its offset: same bytes of the source, same
      length, and marked last where the source range of `f` ends. */
  predicate OwnSegment(from: nat, g: Seg, f: Fields) {
    && from % W64 == (f.srcTo + g.chunk.offset) % W64
    && |g.chunk.payload| == NextLength(g.chunk.offset, f.len)
    && (g.chunk.last <==> g.chunk.offset + |g.chunk.payload| == f.len)
  }

  /** What `sg.length - remaining` gains by being unsigned. */
  function Borrow(len: nat, left: int): nat { if len < left then W32 else 0 }

  /** The source range of the request handled last ends where that of `f` would end if it were `total` long, and the
      rest of `f` is cut in the same place. */
  predicate SameEnd(latest: Fields, f: Fields, off: nat, total: nat) {
    && (latest.srcTo + latest.len + Borrow(latest.len, total - off)) % W64 == (f.srcTo + total) % W64
    && (f.len == total || (total - off > MULPDU && f.len - off > MULPDU))
  }

  lemma FromEnds(sg: Source, off: nat, total: nat)
    requires off < total < INT_MAX_PLUS_1 && sg.len < W32
    ensures From(sg, off, total) + total == sg.addr + sg.len + Borrow(sg.len, total - off) + off
  {
    var d := sg.len - (total - off);
    assert d % W32 == if d < 0 then d + W32 else d;
  }

  lemma ShiftedCells(a: nat, b: nat, c: nat, d: nat)
    requires a + d == c + b
    ensures a % W64 == b % W64 <==> c % W64 == d % W64
  {
    assert (a - b) % W64 == (c - d) % W64;
    SameCell(a, b);
    SameCell(c, d);
  }

  lemma LengthsAgree(off: nat, total: nat, len: nat)
    requires off < total
    ensures (NextLength(off, total) == NextLength(off, len)
             && (NextLength(off, total) == total - off <==> off + NextLength(off, total) == len))
            <==> (len == total || (total - off > MULPDU && len - off > MULPDU))
  {
  }

  ghost predicate Emits(run: seq<State>, evs: seq<Event>, i: nat, first: bool) {
    && i < |evs| && i < |run| && evs[i] == Event(first, Emit(true))
    && Of(run[i], first).spc.SResp? && !Of(run[i], first).dead
  }

  /** The exact condition, under any pipelining: a segment of response `k` is the one its own request asks for if and
      only if the request handled last ends in the same place. */
  lemma SegmentIsOwnIff(run: seq<State>, evs: seq<Event>, i: nat, first: bool)
    requires Execution(run, evs) && Emits(run, evs, i, first)
    ensures var me, w := Of(run[i], first), Of(run[i + 1], first).wire;
            var k, off, total := me.spc.k, me.spc.off, me.spc.total;
            && k < |me.resp| && Latest(me).Some? && |w| == |me.wire| + 1 && var g := w[|me.wire|];
            && g.kind.KResp? && g.kind.k == k && g.chunk.offset == off
            && g.chunk.payload == Bytes(me.mem, From(me.sg, off, total), |g.chunk.payload|)
            && (OwnSegment(From(me.sg, off, total), g, me.resp[k])
                <==> SameEnd(Latest(me).value, me.resp[k], off, total))
  {
    ExecutionKeepsInv(run, evs, i);
    LatestStays(run, evs, i, first);
    assert StepAt(run, evs, i);
    EmitIsOwnIff(Of(run[i], first), Of(run[i], !first));
  }

  lemma EmitIsOwnIff(me: Peer, o: Peer)
    requires TxOk(me) && TxOk(o) && PairOk(me, o) && LatestOk(me)
    requires me.spc.SResp? && !me.dead && Enabled(me, o, Emit(true))
    ensures var w := Move(me, o, Emit(true)).wire; var k, off, total := me.spc.k, me.spc.off, me.spc.total;
            && k < |me.resp| && Latest(me).Some? && |w| == |me.wire| + 1 && var g := w[|me.wire|];
            && g.kind.KResp? && g.kind.k == k && g.chunk.offset == off
            && g.chunk.payload == Bytes(me.mem, From(me.sg, off, total), |g.chunk.payload|)
            && (OwnSegment(From(me.sg, off, total), g, me.resp[k])
                <==> SameEnd(Latest(me).value, me.resp[k], off, total))
  {
    EmitIs(me, o);
    RespFits(me, o, me.spc.k);
    var k, off, total := me.spc.k, me.spc.off, me.spc.total;
    OwnIff(me, Move(me, o, Emit(true)).wire[|me.wire|], me.resp[k], Latest(me).value);
  }

  lemma OwnIff(me: Peer, g: Seg, f: Fields, latest: Fields)
    requires me.spc.SResp? && me.spc.off < me.spc.total < INT_MAX_PLUS_1 && FieldsFit(latest)
             && me.sg == SourceOf(latest)
    requires g.chunk == RespChunk(me, me.spc.off, me.spc.total)
    ensures OwnSegment(From(me.sg, me.spc.off, me.spc.total), g, f) <==> SameEnd(latest, f, me.spc.off, me.spc.total)
  {
    var off, total := me.spc.off, me.spc.total;
    FromEnds(me.sg, off, total);
    ShiftedCells(From(me.sg, off, total), f.srcTo + off, latest.srcTo + latest.len + Borrow(latest.len, total - off),
                 f.srcTo + total);
    LengthsAgree(off, total, f.len);
  }

  /** For reads of one length the condition is plain: a segment is right exactly when the request handled last has the
      same source. */
  lemma EqualLengthsIff(latest: Fields, f: Fields, off: nat)
    requires FieldsFit(latest) && FieldsFit(f) && off < f.len == latest.len
    ensures SameEnd(latest, f, off, f.len) <==> latest.srcTo == f.srcTo
  {
    ShiftedCells(latest.srcTo + latest.len, f.srcTo + f.len, latest.srcTo, f.srcTo);
  }

  /** A request is passed over without a response exactly when the length in the shared entry is not sendable. */
  lemma ResponseSkippedIff(run: seq<State>, evs: seq<Event>, i: nat, first: bool)
    requires Execution(run, evs) && i < |evs| && evs[i] == Event(first, PickResp)
    ensures Latest(Of(run[i], first)).Some?
    ensures Of(run[i + 1], first).spc.SIdle? <==> !Sendable(Latest(Of(run[i], first)).value)
  {
    LatestStays(run, evs, i, first);
    assert StepAt(run, evs, i);
  }

  // ---------------------------------------------------------------- runs step by step

  ghost function Last(run: seq<State>): State
    requires run != []
  {
    run[|run| - 1]
  }

  /** A run that ends in `s`. */
  ghost predicate EndsIn(run: seq<State>, evs: seq<Event>, s: State) {
    Execution(run, evs) && Last(run) == s
  }

  lemma Extend(run: seq<State>, evs: seq<Event>, s: State, e: Event) returns (run': seq<State>, evs': seq<Event>)
    requires EndsIn(run, evs, s) && CanStep(s, e)
    ensures EndsIn(run', evs', Step(s, e)) && run'[0] == run[0]
  {
    run', evs' := run + [Step(s, e)], evs + [e];
    forall i | 0 <= i < |evs'| ensures StepAt(run', evs', i) {
      if i < |evs| { assert StepAt(run, evs, i); }
    }
  }

  /** A peer that posted a read, sent it and pended it. */
  function Asked(p: Peer, id: nat, f: Fields): Peer {
    p.(app := p.app + [Read(id, f)], appNext := p.appNext + 1, pend := p.pend + [id],
       wire := p.wire + [Seg(KReq(id, f), Chunk(0, FieldBytes(f), true))])
  }

  lemma AskSteps(p: Peer, o: Peer, id: nat, f: Fields)
    requires p.spc.SIdle? && p.appNext == |p.app| && !p.dead && FieldsFit(f)
    ensures var p1 := p.(app := p.app + [Read(id, f)]);
            var p2 := p1.(appNext := p.appNext + 1, spc := SChunks(KReq(id, f), [Chunk(0, FieldBytes(f), true)]));
            var p3 := p2.(spc := SDone(KReq(id, f)), wire := Asked(p, id, f).wire);
            && Enabled(p, o, Post(Read(id, f))) && Move(p, o, Post(Read(id, f))) == p1
            && Enabled(p1, o, PickApp) && Move(p1, o, PickApp) == p2
            && Enabled(p2, o, Emit(true)) && Move(p2, o, Emit(true)) == p3
            && Enabled(p3, o, Finish) && Move(p3, o, Finish) == Asked(p, id, f)
  {
  }

  lemma SendRead(run: seq<State>, evs: seq<Event>, s: State, id: nat, f: Fields)
    returns (run': seq<State>, evs': seq<Event>)
    requires EndsIn(run, evs, s) && s.a.spc.SIdle? && s.a.appNext == |s.a.app| && !s.a.dead && FieldsFit(f)
    ensures EndsIn(run', evs', s.(a := Asked(s.a, id, f))) && run'[0] == run[0]
  {
    AskSteps(s.a, s.b, id, f);
    var s1 := Step(s, Event(true, Post(Read(id, f))));
    var s2 := Step(s1, Event(true, PickApp));
    var s3 := Step(s2, Event(true, Emit(true)));
    run', evs' := Extend(run, evs, s, Event(true, Post(Read(id, f))));
    run', evs' := Extend(run', evs', s1, Event(true, PickApp));
    run', evs' := Extend(run', evs', s2, Event(true, Emit(true)));
    run', evs' := Extend(run', evs', s3, Event(true, Finish));
  }

  /** A peer that received the request `f` in `buf`, handled it, enqueued the response and returned the buffer. */
  function Served(p: Peer, f: Fields, buf: Buffer): Peer {
    p.(taken := p.taken + 1, at := p.at + [buf], mem := Place(p.mem, buf, FieldBytes(f)), sg := SourceOf(f),
       resp := p.resp + [f])
  }

  /** The same with the request received and not handled yet. */
  function Received(p: Peer, id: nat, f: Fields, buf: Buffer): Peer {
    p.(taken := p.taken + 1, at := p.at + [buf], mem := Place(p.mem, buf, FieldBytes(f)),
       spare := p.spare - multiset{buf}, rpc := RHandle(KReq(id, f), buf))
  }

  lemma ReceiveStep(p: Peer, o: Peer, id: nat, f: Fields, buf: Buffer)
    requires p.rpc.RIdle? && p.taken < |o.wire| && o.wire[p.taken] == Seg(KReq(id, f), Chunk(0, FieldBytes(f), true))
    requires buf in p.spare
    ensures Enabled(p, o, Take(buf, true)) && Move(p, o, Take(buf, true)) == Received(p, id, f, buf)
  {
    SwapMovesSmall(0);
  }

  lemma ServeSteps(p: Peer, o: Peer, id: nat, f: Fields, buf: Buffer)
    requires p.rpc.RIdle? && FieldsFit(f) && buf in p.spare
    ensures var p1 := Received(p, id, f, buf);
            var p2 := p1.(sg := SourceOf(f), rpc := REnqueue(f, buf));
            var p3 := p2.(resp := p.resp + [f], rpc := RReplenish(buf));
            && Enabled(p1, o, Handle) && Move(p1, o, Handle) == p2
            && Enabled(p2, o, Enqueue) && Move(p2, o, Enqueue) == p3
            && Enabled(p3, o, Replenish) && Move(p3, o, Replenish) == Served(p, f, buf)
  {
    FieldsReadBack(p.mem, buf, f);
    assert p.spare == (p.spare - multiset{buf}) + multiset{buf};
  }

  lemma ServeRead(run: seq<State>, evs: seq<Event>, s: State, id: nat, f: Fields, buf: Buffer)
    returns (run': seq<State>, evs': seq<Event>)
    requires EndsIn(run, evs, s) && s.b.rpc.RIdle? && s.b.taken < |s.a.wire|
    requires s.a.wire[s.b.taken] == Seg(KReq(id, f), Chunk(0, FieldBytes(f), true))
    requires FieldsFit(f) && buf in s.b.spare
    ensures EndsIn(run', evs', s.(b := Served(s.b, f, buf))) && run'[0] == run[0]
  {
    ReceiveStep(s.b, s.a, id, f, buf);
    ServeSteps(s.b, s.a, id, f, buf);
    var s1 := Step(s, Event(false, Take(buf, true)));
    var s2 := Step(s1, Event(false, Handle));
    var s3 := Step(s2, Event(false, Enqueue));
    run', evs' := Extend(run, evs, s, Event(false, Take(buf, true)));
    run', evs' := Extend(run', evs', s1, Event(false, Handle));
    run', evs' := Extend(run', evs', s2, Event(false, Enqueue));
    run', evs' := Extend(run', evs', s3, Event(false, Replenish));
  }

  /** A peer that sent the next response in one segment, from the source in the shared entry. */
  function Replied(p: Peer): Peer
    requires p.respNext < |p.resp|
  {
    var f := p.resp[p.respNext];
    p.(respNext := p.respNext + 1,
       wire := p.wire + [Seg(KResp(p.respNext, f.sinkTag, f.sinkTo),
                             Chunk(0, Bytes(p.mem, p.sg.addr, p.sg.len), true))])
  }

  lemma ReplySteps(p: Peer, o: Peer)
    requires p.spc.SIdle? && !p.dead && p.respNext < |p.resp| && 0 < p.sg.len <= MULPDU
    ensures var p1 := p.(respNext := p.respNext + 1, spc := SResp(p.respNext, 0, p.sg.len));
            && Enabled(p, o, PickResp) && Move(p, o, PickResp) == p1
            && Enabled(p1, o, Emit(true)) && Move(p1, o, Emit(true)) == Replied(p)
  {
    FromIs(p.sg, 0, p.sg.len);
  }

  lemma Reply(run: seq<State>, evs: seq<Event>, s: State) returns (run': seq<State>, evs': seq<Event>)
    requires EndsIn(run, evs, s) && s.b.spc.SIdle? && !s.b.dead && s.b.respNext < |s.b.resp| && 0 < s.b.sg.len <= MULPDU
    ensures EndsIn(run', evs', s.(b := Replied(s.b))) && run'[0] == run[0]
  {
    ReplySteps(s.b, s.a);
    run', evs' := Extend(run, evs, s, Event(false, PickResp));
    run', evs' := Extend(run', evs', Step(s, Event(false, PickResp)), Event(false, Emit(true)));
  }

  /** A peer that received a one-segment response and completed the read pended first. */
  function Completed(p: Peer, g: Seg): Peer
    requires g.kind.KResp? && p.pendNext < |p.pend|
  {
    p.(taken := p.taken + 1, at := p.at + [g.kind.to + g.chunk.offset],
       mem := Place(p.mem, g.kind.to + g.chunk.offset, g.chunk.payload),
       pendNext := p.pendNext + 1, cq := p.cq + [ReadDone(p.pend[p.pendNext])])
  }

  lemma CompleteSteps(p: Peer, o: Peer)
    requires p.rpc.RIdle? && p.taken < |o.wire| && o.wire[p.taken].kind.KResp? && o.wire[p.taken].chunk.last
    requires p.pendNext < |p.pend|
    ensures var g := o.wire[p.taken];
            && Enabled(p, o, Take(0, true)) && var p1 := Move(p, o, Take(0, true));
            Enabled(p1, o, Handle) && Move(p1, o, Handle) == Completed(p, g)
  {
  }

  lemma Complete(run: seq<State>, evs: seq<Event>, s: State) returns (run': seq<State>, evs': seq<Event>)
    requires EndsIn(run, evs, s) && s.a.rpc.RIdle? && s.a.taken < |s.b.wire|
    requires s.b.wire[s.a.taken].kind.KResp? && s.b.wire[s.a.taken].chunk.last && s.a.pendNext < |s.a.pend|
    ensures EndsIn(run', evs', s.(a := Completed(s.a, s.b.wire[s.a.taken]))) && run'[0] == run[0]
  {
    CompleteSteps(s.a, s.b);
    run', evs' := Extend(run, evs, s, Event(true, Take(0, true)));
    run', evs' := Extend(run', evs', Step(s, Event(true, Take(0, true))), Event(true, Handle));
  }

  // ---------------------------------------------------------------- two reads at once

  /** Both requests are handled before the first response is picked. */
  lemma BothServed(s: State, f1: Fields, f2: Fields, buf: Buffer) returns (run: seq<State>, evs: seq<Event>)
    requires Init(s) && buf in s.b.spare && FieldsFit(f1) && FieldsFit(f2)
    ensures EndsIn(run, evs, State(Asked(Asked(s.a, 1, f1), 2, f2), Served(Served(s.b, f1, buf), f2, buf)))
            && run[0] == s
  {
    run, evs := [s], [];
    var s1 := s.(a := Asked(s.a, 1, f1));
    var s2 := s1.(a := Asked(s1.a, 2, f2));
    var s3 := s2.(b := Served(s2.b, f1, buf));
    run, evs := SendRead(run, evs, s, 1, f1);
    run, evs := SendRead(run, evs, s1, 2, f2);
    run, evs := ServeRead(run, evs, s2, 1, f1, buf);
    run, evs := ServeRead(run, evs, s3, 2, f2, buf);
  }

  lemma AskedReqs(p: Peer, id: nat, f: Fields)
    ensures Reqs(Asked(p, id, f).wire) == Reqs(p.wire) + [f]
  {
    OneMoreSeg(p.wire, Seg(KReq(id, f), Chunk(0, FieldBytes(f), true)));
  }

  /** From any initial state and for any two reads there is a run in which both are on their way at once and the first
      completes with the bytes of the second at its sink. */
  lemma FirstGetsSecondsBytes(s: State, f1: Fields, f2: Fields, buf: Buffer) returns (run: seq<State>, evs: seq<Event>)
    requires Init(s) && buf in s.b.spare && FieldsFit(f1) && FieldsFit(f2) && 0 < f2.len <= MULPDU
    ensures Execution(run, evs) && run[0] == s
    ensures var t := Last(run);
            && t.b.mem == Place(Place(s.b.mem, buf, FieldBytes(f1)), buf, FieldBytes(f2)) && Reqs(t.a.wire) == [f1, f2]
            && t.b.wire == [Seg(KResp(0, f1.sinkTag, f1.sinkTo), Chunk(0, Bytes(t.b.mem, f2.srcTo, f2.len), true))]
            && t.a.cq == [ReadDone(1)] && t.a.mem == Place(s.a.mem, f1.sinkTo, Bytes(t.b.mem, f2.srcTo, f2.len))
  {
    run, evs := BothServed(s, f1, f2, buf);
    var s1 := State(Asked(Asked(s.a, 1, f1), 2, f2), Served(Served(s.b, f1, buf), f2, buf));
    var s2 := s1.(b := Replied(s1.b));
    run, evs := Reply(run, evs, s1);
    run, evs := Complete(run, evs, s2);
    AskedReqs(s.a, 1, f1);
    AskedReqs(Asked(s.a, 1, f1), 2, f2);
  }

  /** For reads of one byte below the buffers: the first read finishes with the byte of the second, while its own source
      holds the same byte at the end as at the beginning. */
  lemma FirstGetsSecondsByte(s: State, f1: Fields, f2: Fields, buf: Buffer) returns (run: seq<State>, evs: seq<Event>)
    requires Init(s) && buf in s.b.spare && FieldsFit(f1) && FieldsFit(f2) && f1.len == f2.len == 1
    requires f1.srcTo < buf && f2.srcTo < buf && buf + FIELDS <= W64
    ensures Execution(run, evs) && run[0] == s && Reqs(Last(run).a.wire) == [f1, f2] && Last(run).a.cq == [ReadDone(1)]
    ensures ByteAt(Last(run).b.mem, f1.srcTo) == ByteAt(s.b.mem, f1.srcTo)
    ensures ByteAt(Last(run).a.mem, f1.sinkTo) == ByteAt(s.b.mem, f2.srcTo)
  {
    run, evs := FirstGetsSecondsBytes(s, f1, f2, buf);
    SourcesLeft(s.b.mem, buf, f1, f2, f1.srcTo);
    SourcesLeft(s.b.mem, buf, f1, f2, f2.srcTo);
    PlaceReads(s.a.mem, f1.sinkTo, Bytes(Last(run).b.mem, f2.srcTo, f2.len), 0);
  }

  /** With numbers: a read of the byte 1 at address 1000 completes with the byte 2. */
  lemma WrongByte(s: State) returns (run: seq<State>, evs: seq<Event>)
    requires Init(s) && 5000 in s.b.spare && s.b.mem == map[1000 := 1, 2000 := 2]
    ensures Execution(run, evs) && run[0] == s && Last(run).a.cq == [ReadDone(1)]
    ensures |Reqs(Last(run).a.wire)| == 2 && Reqs(Last(run).a.wire)[0] == Fields(7, 100, 1, 7, 1000)
    ensures ByteAt(Last(run).b.mem, 1000) == 1 && ByteAt(Last(run).a.mem, 100) == 2
  {
    run, evs := FirstGetsSecondsByte(s, Fields(7, 100, 1, 7, 1000), Fields(7, 200, 1, 7, 2000), 5000);
  }

  lemma SourcesLeft(mem: Memory, buf: Buffer, f1: Fields, f2: Fields, a: nat)
    requires FieldsFit(f1) && FieldsFit(f2) && a < buf && buf + FIELDS <= W64
    ensures ByteAt(Place(Place(mem, buf, FieldBytes(f1)), buf, FieldBytes(f2)), a) == ByteAt(mem, a)
  {
    FieldsRoundTrip(f1);
    FieldsRoundTrip(f2);
    assert (a - buf) % W64 == a - buf + W64;
    PlaceKeeps(mem, buf, FieldBytes(f1), a);
    PlaceKeeps(Place(mem, buf, FieldBytes(f1)), buf, FieldBytes(f2), a);
  }

  // ---------------------------------------------------------------- a read of length zero behind another

  /** A peer that passed over the next response. */
  function Skipped(p: Peer): Peer { p.(respNext := p.respNext + 1) }

  lemma Skip(run: seq<State>, evs: seq<Event>, s: State) returns (run': seq<State>, evs': seq<Event>)
    requires EndsIn(run, evs, s) && s.b.spc.SIdle? && s.b.respNext < |s.b.resp| && s.b.sg.len == 0
    ensures EndsIn(run', evs', s.(b := Skipped(s.b))) && run'[0] == run[0]
  {
    run', evs' := Extend(run, evs, s, Event(false, PickResp));
  }

  /** Why a completion needs all reads to be sendable: for any first read there is a run, with a read of length zero
      behind it and one more after both, in which the first read completes and nothing was ever sent in answer to it. */
  lemma CompletedWithoutResponse(s: State, f1: Fields, f2: Fields, f3: Fields, buf: Buffer)
    returns (run: seq<State>, evs: seq<Event>)
    requires Init(s) && buf in s.b.spare && FieldsFit(f1) && FieldsFit(f2) && FieldsFit(f3)
    requires f2.len == 0 < f3.len <= MULPDU
    ensures Execution(run, evs) && run[0] == s && Last(run).a.cq == [ReadDone(1)]
    ensures Reqs(Last(run).a.wire) == [f1, f2, f3]
    ensures |Last(run).b.wire| == 1 && IsResponse(Last(run).b.wire[0], 2)
  {
    run, evs := BothServed(s, f1, f2, buf);
    var s1 := State(Asked(Asked(s.a, 1, f1), 2, f2), Served(Served(s.b, f1, buf), f2, buf));
    var s2 := s1.(b := Skipped(s1.b));
    var s3 := s2.(b := Skipped(s2.b));
    run, evs := Skip(run, evs, s1);
    run, evs := Skip(run, evs, s2);
    run, evs := ThirdAnswered(run, evs, s3, f3, buf);
    AskedReqs(s.a, 1, f1);
    AskedReqs(Asked(s.a, 1, f1), 2, f2);
    AskedReqs(s3.a, 3, f3);
  }

  /** One more read from start to end. */
  lemma ThirdAnswered(run: seq<State>, evs: seq<Event>, s: State, f: Fields, buf: Buffer)
    returns (run': seq<State>, evs': seq<Event>)
    requires EndsIn(run, evs, s) && FieldsFit(f) && 0 < f.len <= MULPDU && buf in s.b.spare
    requires s.a.spc.SIdle? && s.a.appNext == |s.a.app| && !s.a.dead && s.a.rpc.RIdle? && s.a.taken == |s.b.wire|
    requires s.b.rpc.RIdle? && s.b.taken == |s.a.wire| && s.b.spc.SIdle? && !s.b.dead && s.b.respNext == |s.b.resp|
    requires s.a.pendNext < |s.a.pend|
    ensures Execution(run', evs') && run'[0] == run[0]
    ensures var t := Last(run');
            && t.a.wire == Asked(s.a, 3, f).wire && t.a.cq == s.a.cq + [ReadDone(s.a.pend[s.a.pendNext])]
            && |t.b.wire| == |s.b.wire| + 1 && IsResponse(t.b.wire[|s.b.wire|], s.b.respNext)
  {
    var s1 := s.(a := Asked(s.a, 3, f));
    var s2 := s1.(b := Served(s1.b, f, buf));
    var s3 := s2.(b := Replied(s2.b));
    run', evs' := SendRead(run, evs, s, 3, f);
    run', evs' := ServeRead(run', evs', s1, 3, f, buf);
    run', evs' := Reply(run', evs', s2);
    run', evs' := Complete(run', evs', s3);
  }
}
