/** What holds in every run of two RDMAP peers: completions are ordered and never early, Writes precede the Sends that
    follow them, read buffers never run out, and responses carry what was asked for. */
module RdmapRuns {
  import opened Options
  import opened Wire
  import opened Ddp
  import opened Rdmap
  import opened RdmapSafety

  ghost predicate StepAt(run: seq<State>, evs: seq<Event>, i: nat) {
    i < |evs| && i + 1 < |run| && CanStep(run[i], evs[i]) && run[i + 1] == Step(run[i], evs[i])
  }

  ghost predicate Execution(run: seq<State>, evs: seq<Event>) {
    |run| == |evs| + 1 && Init(run[0]) && forall i :: 0 <= i < |evs| ==> StepAt(run, evs, i)
  }

  lemma InitHolds(s: State)
    requires Init(s)
    ensures Inv(s)
  {
  }

  lemma {:induction false} ExecutionKeepsInv(run: seq<State>, evs: seq<Event>, i: nat)
    requires Execution(run, evs) && i < |run|
    ensures Inv(run[i])
  {
    if i == 0 {
      InitHolds(run[0]);
    } else {
      ExecutionKeepsInv(run, evs, i - 1);
      assert StepAt(run, evs, i - 1);
      StepKeepsInv(run[i - 1], evs[i - 1]);
    }
  }

  function Of(s: State, first: bool): Peer { if first then s.a else s.b }

  /** The channel that a peer sends on only grows. */
  lemma {:induction false} WireGrowsInRuns(run: seq<State>, evs: seq<Event>, i: nat, j: nat, first: bool)
    requires Execution(run, evs) && i <= j < |run|
    ensures Of(run[i], first).wire <= Of(run[j], first).wire
  {
    if i < j {
      WireGrowsInRuns(run, evs, i, j - 1, first);
      assert StepAt(run, evs, j - 1);
      if evs[j - 1].first == first { WireOnlyGrows(Of(run[j - 1], first), Of(run[j - 1], !first), evs[j - 1].act); }
    }
  }

  // ---------------------------------------------------------------- prefixes

  lemma {:induction false} ReqsPrefix(w: seq<Seg>, n: nat)
    requires n <= |w|
    ensures Reqs(w[..n]) <= Reqs(w) && ReqIds(w[..n]) <= ReqIds(w) && Sends(w[..n]) <= Sends(w)
  {
    if n < |w| {
      var v := w[..|w| - 1];
      ReqsPrefix(v, n);
      assert v[..n] == w[..n];
    } else {
      assert w[..n] == w;
    }
  }

  /** Of the responses completed so far, number `m` answers request `m` or a later one. */
  lemma {:induction false} CompletedResponse(w: seq<Seg>, n: nat, m: nat) returns (z: nat)
    requires n <= |w| && (forall y :: 0 <= y < |w| ==> Numbered(w, y)) && m < |Resps(w[..n])|
    ensures z < n && w[z].chunk.last && w[z].kind.KResp? && w[z].kind.k >= m
  {
    z := 0;
    if n > 0 {
      assert w[..n][..n - 1] == w[..n - 1];
      if m < |Resps(w[..n - 1])| {
        z := CompletedResponse(w, n - 1, m);
      } else {
        z := n - 1;
        assert Numbered(w, n - 1);
      }
    }
  }

  // ---------------------------------------------------------------- reads

  /** Read completions are the first of the reads sent, in order. */
  lemma ReadCompletionsInOrder(run: seq<State>, evs: seq<Event>, i: nat, first: bool)
    requires Execution(run, evs) && i < |run|
    ensures var me := Of(run[i], first); ReadsDone(me.cq) <= ReqIds(me.wire)
  {
    ExecutionKeepsInv(run, evs, i);
  }

  /** When a read completes, all that is ever sent in answer to it has been received and placed at its sink, even if
      the response arrived before the read was pended. */
  lemma ReadCompletionsNotEarly(run: seq<State>, evs: seq<Event>, i: nat, j: nat, first: bool, k: nat, y: nat)
    requires Execution(run, evs) && i <= j < |run| && k < |ReadsDone(Of(run[i], first).cq)|
    requires y < |Of(run[j], !first).wire| && Of(run[j], !first).wire[y].kind.KResp?
             && Of(run[j], !first).wire[y].kind.k == k
    ensures var me, w := Of(run[i], first), Of(run[j], !first).wire;
            y < me.taken && me.taken == |me.at| && me.at[y] == w[y].kind.to + w[y].chunk.offset
  {
    ExecutionKeepsInv(run, evs, i);
    ExecutionKeepsInv(run, evs, j);
    WireGrowsInRuns(run, evs, i, j, !first);
    var o := Of(run[j], !first);
    ResponseIsIn(Of(run[i], first), Of(run[i], !first), o.resp, o.respNext, o.spc, o.wire, k, y);
  }

  lemma ResponseIsIn(me: Peer, o: Peer, resp: seq<Fields>, respNext: nat, spc: SendPc, w: seq<Seg>, k: nat, y: nat)
    requires PairOk(me, o) && ReadsOk(me.wire, me.spc, me.pend, me.pendNext, me.cq) && k < |ReadsDone(me.cq)|
    requires o.wire <= w && RespsOk(resp, respNext, spc, w) && y < |w| && w[y].kind.KResp? && w[y].kind.k == k
    ensures y < me.taken && me.taken == |me.at| && me.at[y] == w[y].kind.to + w[y].chunk.offset
  {
    var v := o.wire[..me.taken];
    assert w[..me.taken] == v;
    var z := CompletedResponse(w, me.taken, |ReadsDone(me.cq)| - 1);
    assert y > z ==> Ordered(w, z, y);
    AtTarget(me, v, y);
  }

  lemma AtTarget(me: Peer, v: seq<Seg>, y: nat)
    requires MemoryOk(me.at, me.mem, me.mem0, me.bufs, me.bufNext, me.rpc, v) && y < |v|
    ensures |me.at| == |v| && PlacedAt(me.at, me.bufs, v, y)
  {
  }

  /** A response names the request it answers: it carries the sink tag and offset of the k-th read that the other peer
      sent, under any pipelining. */
  lemma ResponseCarriesSink(run: seq<State>, evs: seq<Event>, i: nat, first: bool, y: nat)
    requires Execution(run, evs) && i < |run|
    requires y < |Of(run[i], first).wire| && Of(run[i], first).wire[y].kind.KResp?
    ensures var kind, asked := Of(run[i], first).wire[y].kind, Reqs(Of(run[i], !first).wire);
            kind.k < |asked| && kind.tag == asked[kind.k].sinkTag && kind.to == asked[kind.k].sinkTo
  {
    ExecutionKeepsInv(run, evs, i);
    var me, o := Of(run[i], first), Of(run[i], !first);
    assert Answers(me.resp, me.wire[y]);
    ReqsPrefix(o.wire, me.taken);
    assert me.resp <= Reqs(o.wire[..me.taken]);
  }

  /** Between requests all the read buffers are in their queue, so with at least one of them no request that arrives
      finds the queue empty. */
  lemma ReadBuffersNeverRunOut(run: seq<State>, evs: seq<Event>, i: nat, first: bool, buf: Buffer, valid: bool)
    requires Execution(run, evs) && i < |run| && Of(run[i], first).rpc.RIdle?
    ensures var me, o := Of(run[i], first), Of(run[i], !first);
            && me.spare == me.pool
            && (me.pool != multiset{} && Enabled(me, o, Take(buf, valid)) && o.wire[me.taken].kind.KReq? ==>
                !Move(me, o, Take(buf, valid)).rpc.RBroken?)
  {
    ExecutionKeepsInv(run, evs, i);
    var me, o := Of(run[i], first), Of(run[i], !first);
    assert PoolOk(me.pool, me.spare, me.rpc);
    if me.pool != multiset{} && Enabled(me, o, Take(buf, valid)) && o.wire[me.taken].kind.KReq? {
      RequestTakesBuffer(me, o.wire[me.taken], buf, valid);
    }
  }

  lemma RequestTakesBuffer(me: Peer, g: Seg, buf: Buffer, valid: bool)
    requires me.rpc.RIdle? && g.kind.KReq? && buf in me.spare
    ensures !TakeStep(me, g, buf, valid).rpc.RBroken?
  {
  }

  // ---------------------------------------------------------------- sends and writes

  /** When a completion queue holds the completion of a Send, everything the other side's send thread put on the channel
      before that Send ended has been received, every Write of it at its target. */
  lemma WritesPrecedeSends(run: seq<State>, evs: seq<Event>, i: nat, first: bool, c: nat, y: nat)
    requires Execution(run, evs) && i < |run| && c < |Of(run[i], first).cq| && Of(run[i], first).cq[c].RecvDone?
    ensures var me, o, n := Of(run[i], first), Of(run[i], !first), Of(run[i], first).cq[c].upTo;
            && 0 < n <= me.taken <= |o.wire| && o.wire[n - 1].kind.KSend? && o.wire[n - 1].chunk.last
               && |me.at| == me.taken
            && (y < n && o.wire[y].kind.KWrite? ==> me.at[y] == o.wire[y].kind.to + o.wire[y].chunk.offset)
  {
    ExecutionKeepsInv(run, evs, i);
    WritesArePlaced(Of(run[i], first), Of(run[i], !first), c, y);
  }

  lemma WritesArePlaced(me: Peer, o: Peer, c: nat, y: nat)
    requires PairOk(me, o) && c < |me.cq| && me.cq[c].RecvDone?
    ensures var n := me.cq[c].upTo;
            && 0 < n <= me.taken <= |o.wire| && o.wire[n - 1].kind.KSend? && o.wire[n - 1].chunk.last
               && |me.at| == me.taken
            && (y < n && o.wire[y].kind.KWrite? ==> me.at[y] == o.wire[y].kind.to + o.wire[y].chunk.offset)
  {
    var w := o.wire[..me.taken];
    assert CompletionOk(me.cq[c], w);
    if y < me.cq[c].upTo { AtTarget(me, w, y); }
  }

  /** Memory is what was there at first with every received payload placed at its address, in order of arrival. */
  lemma MemoryIsWhatWasPlaced(run: seq<State>, evs: seq<Event>, i: nat, first: bool)
    requires Execution(run, evs) && i < |run|
    ensures var me, o := Of(run[i], first), Of(run[i], !first);
            me.taken <= |o.wire| && |me.at| == me.taken && me.mem == PlaceAll(me.mem0, o.wire[..me.taken], me.at)
  {
    ExecutionKeepsInv(run, evs, i);
  }

  /** Receive completions are those of the first requests posted, in order; and the r-th appears only after the r-th
      Send has arrived to its end, all of it in the r-th buffer, even when posting interleaves with arrival. */
  lemma ReceiveCompletionsNotEarly(run: seq<State>, evs: seq<Event>, i: nat, first: bool, r: nat, y: nat)
    requires Execution(run, evs) && i < |run| && r < |RecvsDone(Of(run[i], first).cq)|
    requires y < |Of(run[i], !first).wire|
    requires Of(run[i], !first).wire[y].kind.KSend? && Sends(Of(run[i], !first).wire[..y]) == r
    ensures var me, o := Of(run[i], first), Of(run[i], !first);
            && RecvsDone(me.cq) <= me.rq && y < me.taken <= |o.wire| && me.taken == |me.at|
               && r < Sends(o.wire[..me.taken]) && r < |me.bufs|
            && me.at[y] == me.bufs[r] + Swapped(Wrapped(o.wire[y].chunk.offset, W32))
  {
    ExecutionKeepsInv(run, evs, i);
    SendIsIn(Of(run[i], first), Of(run[i], !first), r, y);
  }

  lemma SendIsIn(me: Peer, o: Peer, r: nat, y: nat)
    requires PairOk(me, o) && r < |RecvsDone(me.cq)| && y < |o.wire| && o.wire[y].kind.KSend? && Sends(o.wire[..y]) == r
    ensures RecvsDone(me.cq) <= me.rq && y < me.taken && me.taken == |me.at| && r < Sends(o.wire[..me.taken])
            && r < |me.bufs|
    ensures me.at[y] == me.bufs[r] + Swapped(Wrapped(o.wire[y].chunk.offset, W32))
  {
    var v := o.wire[..me.taken];
    assert y >= me.taken ==> o.wire[..y][..me.taken] == v;
    if y >= me.taken { ReqsPrefix(o.wire[..y], me.taken); }
    AtTarget(me, v, y);
    assert v[..y] == o.wire[..y];
  }

  // ---------------------------------------------------------------- one read at a time

  /** Requests answered so far. */
  function Answered(p: Peer): int { if p.spc.SResp? then p.respNext - 1 else p.respNext }

  ghost predicate OneOutstanding(s: State, first: bool) { |Reqs(Of(s, !first).wire)| <= Answered(Of(s, first)) + 1 }

  function SourceOf(f: Fields): Source { Source(f.srcTo, f.len) }

  /** The shared entry describes the one response that is waiting or being sent. */
  ghost predicate SourceOk(p: Peer) {
    && (p.rpc.REnqueue? ==> p.sg == SourceOf(p.rpc.fields))
    && (Answered(p) < |p.resp| && p.resp != [] ==> p.sg == SourceOf(p.resp[|p.resp| - 1]))
    && (p.spc.SResp? ==> p.spc.k == |p.resp| - 1 && p.spc.total == p.sg.len < INT_MAX_PLUS_1 && p.spc.off < p.spc.total)
  }

  /** A request is only handled when no earlier one is waiting. */
  lemma NothingWaits(p: Peer, o: Peer)
    requires TxOk(p) && PairOk(p, o) && |Reqs(o.wire)| <= Answered(p) + 1
    ensures |p.resp| <= Answered(p) + 1
    ensures (p.rpc.RHandle? && p.rpc.kind.KReq?) || p.rpc.REnqueue? ==> |p.resp| == Answered(p) && !p.spc.SResp?
  {
    ReqsPrefix(o.wire, p.taken);
  }

  lemma PickKeepsSource(p: Peer, o: Peer)
    requires SourceOk(p) && |p.resp| <= Answered(p) + 1 && p.respNext <= |p.resp| && Enabled(p, o, PickResp)
    ensures SourceOk(Move(p, o, PickResp))
  {
  }

  lemma EmitKeepsSource(p: Peer, o: Peer, ok: bool)
    requires SourceOk(p) && Enabled(p, o, Emit(ok))
    ensures SourceOk(Move(p, o, Emit(ok)))
  {
  }

  lemma OtherKeepsSource(p: Peer, p': Peer)
    requires SourceOk(p) && p'.rpc == p.rpc && p'.sg == p.sg && p'.resp == p.resp && p'.respNext == p.respNext
    requires !p'.spc.SResp? && !p.spc.SResp?
    ensures SourceOk(p')
  {
  }

  lemma SendKeepsSource(p: Peer, o: Peer, act: Action)
    requires SourceOk(p) && |p.resp| <= Answered(p) + 1 && p.respNext <= |p.resp| && Enabled(p, o, act) && BySender(act)
    ensures SourceOk(Move(p, o, act))
  {
    match act
    case PickResp => PickKeepsSource(p, o);
    case Emit(ok) => EmitKeepsSource(p, o, ok);
    case Finish => OtherKeepsSource(p, Move(p, o, act));
    case PickApp => OtherKeepsSource(p, Move(p, o, act));
  }

  lemma RecvKeepsSource(p: Peer, o: Peer, act: Action)
    requires SourceOk(p) && Enabled(p, o, act) && !BySender(act)
    requires (p.rpc.RHandle? && p.rpc.kind.KReq?) || p.rpc.REnqueue? ==> |p.resp| == Answered(p) && !p.spc.SResp?
    ensures SourceOk(Move(p, o, act))
  {
    match act
    case Take(b, valid) => assert SameSender(p, TakeStep(p, o.wire[p.taken], b, valid));
    case _ =>
  }

  lemma MoveKeepsSource(p: Peer, o: Peer, act: Action)
    requires SourceOk(p) && Enabled(p, o, act)
    requires p.respNext <= |p.resp| <= Answered(p) + 1
    requires (p.rpc.RHandle? && p.rpc.kind.KReq?) || p.rpc.REnqueue? ==> |p.resp| == Answered(p) && !p.spc.SResp?
    ensures SourceOk(Move(p, o, act))
  {
    if BySender(act) { SendKeepsSource(p, o, act); } else { RecvKeepsSource(p, o, act); }
  }

  lemma StepKeepsSource(s: State, e: Event, first: bool)
    requires Inv(s) && CanStep(s, e) && OneOutstanding(s, first) && SourceOk(Of(s, first))
    ensures SourceOk(Of(Step(s, e), first))
  {
    var p, o := Of(s, first), Of(s, !first);
    if e.first == first {
      NothingWaits(p, o);
      MoveKeepsSource(p, o, e.act);
    }
  }

  lemma SourceAtFirst(s: State, first: bool)
    requires Init(s)
    ensures SourceOk(Of(s, first))
  {
    var p := Of(s, first);
    assert p.resp == [] && p.spc == SIdle && p.rpc == RIdle;
  }

  lemma SourceNext(run: seq<State>, evs: seq<Event>, i: nat, first: bool)
    requires Execution(run, evs) && i < |evs| && OneOutstanding(run[i], first) && SourceOk(Of(run[i], first))
    ensures SourceOk(Of(run[i + 1], first))
  {
    ExecutionKeepsInv(run, evs, i);
    assert StepAt(run, evs, i);
    StepKeepsSource(run[i], evs[i], first);
  }

  lemma {:induction false} SourceStays(run: seq<State>, evs: seq<Event>, i: nat, first: bool)
    requires Execution(run, evs) && i < |run| && forall j :: 0 <= j < i ==> OneOutstanding(run[j], first)
    ensures SourceOk(Of(run[i], first))
  {
    if i == 0 {
      SourceAtFirst(run[0], first);
    } else {
      SourceStays(run, evs, i - 1, first);
      SourceNext(run, evs, i - 1, first);
    }
  }

  /** The next segment of the answer to a read, as it should be: the bytes of the read's own source range, marked last
      where that range ends, for the read's own sink. */
  ghost function Due(me: Peer, f: Fields): Seg
    requires me.spc.SResp?
  {
    var k, off := me.spc.k, me.spc.off;
    var n := NextLength(off, f.len);
    Seg(KResp(k, f.sinkTag, f.sinkTo), Chunk(off, Bytes(me.mem, f.srcTo + off, n), off + n == f.len))
  }

  lemma RespChunkIs(me: Peer, f: Fields)
    requires me.spc.SResp? && me.sg == SourceOf(f) && me.spc.off < me.spc.total == f.len < INT_MAX_PLUS_1
    ensures RespChunk(me, me.spc.off, me.spc.total) == Due(me, f).chunk
  {
    FromIs(me.sg, me.spc.off, me.spc.total);
  }

  lemma EmitIs(me: Peer, o: Peer)
    requires Enabled(me, o, Emit(true)) && me.spc.SResp? && !me.dead
    ensures var k := me.spc.k;
            Move(me, o, Emit(true)).wire == me.wire
                + [Seg(KResp(k, me.resp[k].sinkTag, me.resp[k].sinkTo), RespChunk(me, me.spc.off, me.spc.total))]
  {
  }

  /** With at most one read outstanding throughout, each segment of a response carries the bytes of the source range of
      the read it answers, at the same offset as it will have at the sink, and the segments end with that range. */
  lemma ReadBytesExact(run: seq<State>, evs: seq<Event>, i: nat, first: bool)
    requires Execution(run, evs) && i < |evs| && forall j :: 0 <= j <= i ==> OneOutstanding(run[j], first)
    requires evs[i] == Event(first, Emit(true)) && Of(run[i], first).spc.SResp? && !Of(run[i], first).dead
    ensures var me, asked := Of(run[i], first), Reqs(Of(run[i], !first).wire);
            && me.spc.k < |asked| && me.spc.off < asked[me.spc.k].len
            && Of(run[i + 1], first).wire == me.wire + [Due(me, asked[me.spc.k])]
  {
    ExecutionKeepsInv(run, evs, i);
    SourceStays(run, evs, i, first);
    assert StepAt(run, evs, i);
    EmitExact(Of(run[i], first), Of(run[i], !first));
  }

  lemma EmitExact(me: Peer, o: Peer)
    requires TxOk(me) && PairOk(me, o) && SourceOk(me) && me.spc.SResp? && !me.dead && Enabled(me, o, Emit(true))
    ensures var asked := Reqs(o.wire);
            && me.spc.k < |asked| && me.spc.off < asked[me.spc.k].len
            && Move(me, o, Emit(true)).wire == me.wire + [Due(me, asked[me.spc.k])]
  {
    ReqsPrefix(o.wire, me.taken);
    assert me.resp <= Reqs(o.wire[..me.taken]);
    RespChunkIs(me, me.resp[me.spc.k]);
    EmitIs(me, o);
  }

  // ---------------------------------------------------------------- pipelined reads

  /** The request that was handled last. */
  ghost function Latest(p: Peer): Option<Fields> {
    if p.rpc.REnqueue? then Some(p.rpc.fields) else if p.resp != [] then Some(p.resp[|p.resp| - 1]) else None
  }

  ghost predicate LatestOk(p: Peer) { Latest(p).Some? ==> p.sg == SourceOf(Latest(p).value) }

  lemma SenderKeepsLatest(p: Peer, o: Peer, act: Action)
    requires LatestOk(p) && Enabled(p, o, act) && BySender(act)
    ensures LatestOk(Move(p, o, act))
  {
    if act.Finish? { FinishKeepsLatest(p); }
  }

  lemma MoveKeepsLatest(p: Peer, o: Peer, act: Action)
    requires LatestOk(p) && Enabled(p, o, act)
    ensures LatestOk(Move(p, o, act))
  {
    if BySender(act) {
      SenderKeepsLatest(p, o, act);
    } else if act.Take? {
      assert SameSender(p, TakeStep(p, o.wire[p.taken], act.buf, act.valid));
    }
  }

  lemma FinishKeepsLatest(p: Peer)
    requires LatestOk(p) && (p.spc.SDone? || p.spc.SFail?)
    ensures LatestOk(FinishStep(p))
  {
  }

  lemma {:induction false} LatestStays(run: seq<State>, evs: seq<Event>, i: nat, first: bool)
    requires Execution(run, evs) && i < |run|
    ensures LatestOk(Of(run[i], first))
  {
    if i > 0 {
      LatestStays(run, evs, i - 1, first);
      assert StepAt(run, evs, i - 1);
      if evs[i - 1].first == first { MoveKeepsLatest(Of(run[i - 1], first), Of(run[i - 1], !first), evs[i - 1].act); }
    }
  }

  /** Without the limit of one read, what holds is this: each segment of a response is read from the source of the
      request that was handled last, whichever request it answers. */
  lemma ResponsesReadLatestSource(run: seq<State>, evs: seq<Event>, i: nat, first: bool)
    requires Execution(run, evs) && i < |evs|
    requires evs[i] == Event(first, Emit(true)) && Of(run[i], first).spc.SResp? && !Of(run[i], first).dead
    ensures var me := Of(run[i], first); var k, off, total := me.spc.k, me.spc.off, me.spc.total;
            && k < |me.resp| && Latest(me).Some? && var n := NextLength(off, total);
            Of(run[i + 1], first).wire
              == me.wire + [Seg(KResp(k, me.resp[k].sinkTag, me.resp[k].sinkTo),
                                Chunk(off, Bytes(me.mem, From(SourceOf(Latest(me).value), off, total), n),
                                      n == total - off))]
  {
    LatestStays(run, evs, i, first);
    assert StepAt(run, evs, i);
    EmitIs(Of(run[i], first), Of(run[i], !first));
  }

  lemma FromIs(sg: Source, off: nat, total: nat)
    requires off < total == sg.len < INT_MAX_PLUS_1
    ensures From(sg, off, total) == sg.addr + off
  {
  }
}
