/** What every run of two RDMAP peers keeps. */
module RdmapSafety {
  import opened Options
  import opened Wire
  import opened Ddp
  import opened Rdmap

  // ---------------------------------------------------------------- messages completed on a channel

  ghost function Resps(w: seq<Seg>): seq<nat> {
    if w == [] then [] else Resps(w[..|w| - 1]) + RespOf(w[|w| - 1])
  }
  ghost function RespOf(g: Seg): seq<nat> { if g.chunk.last && g.kind.KResp? then [g.kind.k] else [] }

  ghost function Reqs(w: seq<Seg>): seq<Fields> {
    if w == [] then [] else Reqs(w[..|w| - 1]) + ReqOf(w[|w| - 1])
  }
  ghost function ReqOf(g: Seg): seq<Fields> { if g.chunk.last && g.kind.KReq? then [g.kind.fields] else [] }

  ghost function ReqIds(w: seq<Seg>): seq<nat> {
    if w == [] then [] else ReqIds(w[..|w| - 1]) + ReqIdOf(w[|w| - 1])
  }
  ghost function ReqIdOf(g: Seg): seq<nat> { if g.chunk.last && g.kind.KReq? then [g.kind.id] else [] }

  ghost function Sends(w: seq<Seg>): nat {
    if w == [] then 0 else Sends(w[..|w| - 1]) + SendOf(w[|w| - 1])
  }
  ghost function SendOf(g: Seg): nat { if g.chunk.last && g.kind.KSend? then 1 else 0 }

  ghost function ReadsDone(cq: seq<Completion>): seq<nat> {
    if cq == [] then [] else ReadsDone(cq[..|cq| - 1]) + if cq[|cq| - 1].ReadDone? then [cq[|cq| - 1].id] else []
  }

  ghost function RecvsDone(cq: seq<Completion>): seq<nat> {
    if cq == [] then [] else RecvsDone(cq[..|cq| - 1]) + if cq[|cq| - 1].RecvDone? then [cq[|cq| - 1].id] else []
  }

  lemma OneMoreSeg(w: seq<Seg>, g: Seg)
    ensures Resps(w + [g]) == Resps(w) + RespOf(g) && Reqs(w + [g]) == Reqs(w) + ReqOf(g)
    ensures ReqIds(w + [g]) == ReqIds(w) + ReqIdOf(g) && Sends(w + [g]) == Sends(w) + SendOf(g)
  {
    assert (w + [g])[..|w|] == w;
  }

  lemma OneMoreDone(cq: seq<Completion>, c: Completion)
    ensures ReadsDone(cq + [c]) == ReadsDone(cq) + if c.ReadDone? then [c.id] else []
    ensures RecvsDone(cq + [c]) == RecvsDone(cq) + if c.RecvDone? then [c.id] else []
  {
    assert (cq + [c])[..|cq|] == cq;
  }

  // ---------------------------------------------------------------- the sending side

  /** A segment that is not the last is followed by one of the same message. */
  ghost predicate GoesOn(w: seq<Seg>, y: nat) { y + 1 < |w| && !w[y].chunk.last ==> w[y + 1].kind == w[y].kind }

  ghost predicate WireOk(w: seq<Seg>) { forall y :: 0 <= y < |w| ==> GoesOn(w, y) }

  /** Only the final chunk is marked last. */
  ghost predicate TodoOk(todo: seq<Chunk>) {
    todo != [] && forall i :: 0 <= i < |todo| ==> todo[i].last == (i == |todo| - 1)
  }

  /** The thread is about to go on with the message that the wire ends in. */
  ghost predicate MidOk(dead: bool, spc: SendPc, wire: seq<Seg>, resp: seq<Fields>) {
    && (spc.SChunks? ==> TodoOk(spc.todo) && !spc.kind.KResp?)
    && (spc.SDone? ==> !spc.kind.KResp?)
    && (spc.SFail? ==> !spc.kind.KResp?)
    && (spc.SResp? ==> spc.k < |resp| && spc.off < spc.total < INT_MAX_PLUS_1)
    && (!dead && wire != [] && !wire[|wire| - 1].chunk.last ==>
          var kind := wire[|wire| - 1].kind;
          (spc.SChunks? && spc.kind == kind)
            || (spc.SResp? && kind == KResp(spc.k, resp[spc.k].sinkTag, resp[spc.k].sinkTo)))
  }

  /** A response on the wire answers the request it names, with that request's sink. */
  ghost predicate Answers(resp: seq<Fields>, g: Seg) {
    g.kind.KResp? ==> g.kind.k < |resp| && g.kind.tag == resp[g.kind.k].sinkTag && g.kind.to == resp[g.kind.k].sinkTo
  }

  /** No more responses were completed before this segment than its own number. */
  ghost predicate Numbered(w: seq<Seg>, y: nat) { y < |w| && w[y].kind.KResp? ==> |Resps(w[..y])| <= w[y].kind.k }

  /** Responses go out in the order of their requests, and nothing follows the end of one. */
  ghost predicate Ordered(w: seq<Seg>, y: nat, z: nat) {
    y < z < |w| && w[y].kind.KResp? && w[z].kind.KResp? ==>
      w[y].kind.k <= w[z].kind.k && (w[y].chunk.last ==> w[y].kind.k < w[z].kind.k)
  }

  /** What the send thread has on the wire is below the request it will answer next. */
  ghost predicate Below(spc: SendPc, respNext: nat, g: Seg) {
    g.kind.KResp? ==> if spc.SResp? then g.kind.k <= spc.k && (g.chunk.last ==> g.kind.k < spc.k)
      else g.kind.k < respNext
  }

  ghost predicate RespsOk(resp: seq<Fields>, respNext: nat, spc: SendPc, wire: seq<Seg>) {
    && respNext <= |resp|
    && (spc.SResp? ==> respNext == spc.k + 1)
    && |Resps(wire)| <= (if spc.SResp? then spc.k else respNext)
    && (forall y :: 0 <= y < |wire| ==> Answers(resp, wire[y]) && Below(spc, respNext, wire[y]))
    && (forall y :: 0 <= y < |wire| ==> Numbered(wire, y))
    && (forall y, z :: 0 <= y < z < |wire| ==> Ordered(wire, y, z))
  }

  /** Reads are pended in the order they were sent; one may have been sent and not pended yet. */
  ghost predicate ReadsOk(wire: seq<Seg>, spc: SendPc, pend: seq<nat>, pendNext: nat, cq: seq<Completion>) {
    && ReqIds(wire) == pend + (if spc.SDone? && spc.kind.KReq? then [spc.kind.id] else [])
    && pendNext <= |pend| && ReadsDone(cq) == pend[..pendNext]
  }

  ghost predicate PostsOk(app: seq<Req>) {
    forall i :: 0 <= i < |app| ==> if app[i].Read? then FieldsFit(app[i].fields) else Closes(app[i].sges)
  }

  /** A read request is one segment with the bytes of its fields. */
  ghost predicate Written(kind: Kind, c: Chunk) {
    kind.KReq? ==> FieldsFit(kind.fields) && c == Chunk(0, FieldBytes(kind.fields), true)
  }

  ghost predicate RequestsWritten(spc: SendPc, wire: seq<Seg>) {
    && (spc.SChunks? && spc.kind.KReq? ==> |spc.todo| == 1 && Written(spc.kind, spc.todo[0]))
    && forall y :: 0 <= y < |wire| ==> Written(wire[y].kind, wire[y].chunk)
  }

  ghost predicate TxOk(p: Peer) {
    && PostsOk(p.app) && WireOk(p.wire) && RequestsWritten(p.spc, p.wire) && MidOk(p.dead, p.spc, p.wire, p.resp)
    && RespsOk(p.resp, p.respNext, p.spc, p.wire) && ReadsOk(p.wire, p.spc, p.pend, p.pendNext, p.cq)
  }

  // ---------------------------------------------------------------- the receiving side

  /** `w` is what has been received: the thread is inside a message, at its end, or between two. */
  ghost predicate PlaceOk(rpc: RecvPc, w: seq<Seg>) {
    match rpc
    case RMsg(kind, _) => w != [] && !w[|w| - 1].chunk.last && w[|w| - 1].kind == kind
    case RHandle(kind, _) => w != [] && w[|w| - 1].chunk.last && w[|w| - 1].kind == kind
    case RBroken => true
    case _ => w == [] || w[|w| - 1].chunk.last
  }

  /** Requests become responses in order; one may be in the hands of the receive thread. */
  ghost predicate RequestsOk(resp: seq<Fields>, rpc: RecvPc, w: seq<Seg>) {
    Reqs(w) == resp + (if rpc.RHandle? && rpc.kind.KReq? then [rpc.kind.fields]
                       else if rpc.REnqueue? then [rpc.fields] else [])
  }

  /** No more reads are completed than responses were received. */
  ghost predicate PendingOk(pendNext: nat, rpc: RecvPc, w: seq<Seg>) {
    pendNext + (if rpc.RHandle? && rpc.kind.KResp? then 1 else 0) <= |Resps(w)|
  }

  /** No more receive requests are completed than Sends were received, each of which has taken the next buffer. */
  ghost predicate ReceivesOk(bufs: seq<Buffer>, rq: seq<nat>, posting: Option<nat>, rqNext: nat, cq: seq<Completion>,
                             rpc: RecvPc, bufNext: nat, w: seq<Seg>) {
    && |bufs| == |rq| + (if posting.Some? then 1 else 0)
    && rqNext <= |rq| && RecvsDone(cq) == rq[..rqNext]
    && rqNext + (if rpc.RHandle? && rpc.kind.KSend? then 1 else 0) <= Sends(w)
    && bufNext == Sends(w) + (if rpc.RMsg? && rpc.kind.KSend? then 1 else 0) <= |bufs|
  }

  ghost predicate CompletionOk(c: Completion, w: seq<Seg>) {
    c.RecvDone? ==> 0 < c.upTo <= |w| && w[c.upTo - 1].chunk.last && w[c.upTo - 1].kind.KSend?
  }

  ghost predicate CompletionsOk(cq: seq<Completion>, w: seq<Seg>) {
    forall i :: 0 <= i < |cq| ==> CompletionOk(cq[i], w)
  }

  /** Where a segment was placed: at the target of a tagged message, in the buffer of its Send. */
  ghost predicate PlacedAt(at: seq<nat>, bufs: seq<Buffer>, w: seq<Seg>, y: nat) {
    && y < |w| && y < |at|
    && (w[y].kind.KWrite? || w[y].kind.KResp? ==> at[y] == w[y].kind.to + w[y].chunk.offset)
    && (w[y].kind.KSend? ==>
        Sends(w[..y]) < |bufs| && at[y] == bufs[Sends(w[..y])] + Swapped(Wrapped(w[y].chunk.offset, W32)))
  }

  /** All the payloads placed one after the other. */
  ghost function PlaceAll(mem: Memory, w: seq<Seg>, at: seq<nat>): Memory
    requires |w| == |at|
  {
    if w == [] then mem else Place(PlaceAll(mem, w[..|w| - 1], at[..|w| - 1]), at[|w| - 1], w[|w| - 1].chunk.payload)
  }

  ghost predicate MemoryOk(at: seq<nat>, mem: Memory, mem0: Memory, bufs: seq<Buffer>, bufNext: nat, rpc: RecvPc,
                           w: seq<Seg>) {
    && |at| == |w| && mem == PlaceAll(mem0, w, at)
    && (forall y :: 0 <= y < |w| ==> PlacedAt(at, bufs, w, y))
    && (rpc.RMsg? && rpc.kind.KSend? ==> 0 < bufNext <= |bufs| && rpc.buf == bufs[bufNext - 1])
  }

  /** The read buffers are all there: in the queue, or with the one request being received. */
  ghost predicate PoolOk(pool: multiset<Buffer>, spare: multiset<Buffer>, rpc: RecvPc) {
    pool == spare + (match rpc
                         case RMsg(kind, b) => if kind.KReq? then multiset{b} else multiset{}
                         case RHandle(kind, b) => if kind.KReq? then multiset{b} else multiset{}
                         case REnqueue(_, b) => multiset{b}
                         case RReplenish(b) => multiset{b}
                         case _ => multiset{})
  }

  /** The request to be handled can be read from its buffer. */
  ghost predicate ReadBack(mem: Memory, rpc: RecvPc) {
    rpc.RHandle? && rpc.kind.KReq? ==> FieldsAt(mem, rpc.buf) == rpc.kind.fields
  }

  ghost predicate RxOk(p: Peer, w: seq<Seg>) {
    && PlaceOk(p.rpc, w) && ReadBack(p.mem, p.rpc) && RequestsOk(p.resp, p.rpc, w) && PendingOk(p.pendNext, p.rpc, w)
    && ReceivesOk(p.bufs, p.rq, p.posting, p.rqNext, p.cq, p.rpc, p.bufNext, w) && CompletionsOk(p.cq, w)
    && MemoryOk(p.at, p.mem, p.mem0, p.bufs, p.bufNext, p.rpc, w) && PoolOk(p.pool, p.spare, p.rpc)
  }

  ghost predicate PairOk(me: Peer, o: Peer) { me.taken <= |o.wire| && RxOk(me, o.wire[..me.taken]) }

  ghost predicate Inv(s: State) { TxOk(s.a) && TxOk(s.b) && PairOk(s.a, s.b) && PairOk(s.b, s.a) }

  // ---------------------------------------------------------------- sending steps

  lemma WireGrows(w: seq<Seg>, g: Seg)
    requires WireOk(w) && (w != [] && !w[|w| - 1].chunk.last ==> w[|w| - 1].kind == g.kind)
    ensures WireOk(w + [g])
  {
    var w' := w + [g];
    forall y | 0 <= y < |w'| ensures GoesOn(w', y) {
      if y < |w| { assert GoesOn(w, y); }
    }
  }

  /** A segment of another kind than a response changes nothing about the responses. */
  lemma RespsSame(resp: seq<Fields>, respNext: nat, spc: SendPc, spc': SendPc, w: seq<Seg>, g: Seg)
    requires RespsOk(resp, respNext, spc, w) && !g.kind.KResp? && !spc.SResp? && !spc'.SResp?
    ensures RespsOk(resp, respNext, spc', w + [g])
  {
    var w' := w + [g];
    OneMoreSeg(w, g);
    forall y | 0 <= y < |w'| ensures Answers(resp, w'[y]) && Below(spc', respNext, w'[y]) {
      if y < |w| { assert Answers(resp, w[y]) && Below(spc, respNext, w[y]); }
    }
    NumberedGrows(w, g);
    OrderedGrows(w, g);
  }

  lemma NumberedGrows(w: seq<Seg>, g: Seg)
    requires (forall y :: 0 <= y < |w| ==> Numbered(w, y)) && (g.kind.KResp? ==> |Resps(w)| <= g.kind.k)
    ensures forall y :: 0 <= y < |w + [g]| ==> Numbered(w + [g], y)
  {
    var w' := w + [g];
    forall y: nat | y < |w'| ensures Numbered(w', y) {
      assert w'[..y] == w[..y];
      if y < |w| { assert Numbered(w, y); } else { assert w[..y] == w; }
    }
  }

  lemma OrderedGrows(w: seq<Seg>, g: Seg)
    requires forall y, z :: 0 <= y < z < |w| ==> Ordered(w, y, z)
    requires g.kind.KResp? ==> forall y :: 0 <= y < |w| ==> Precedes(w[y], g)
    ensures forall y, z :: 0 <= y < z < |w + [g]| ==> Ordered(w + [g], y, z)
  {
    var w' := w + [g];
    forall y: nat, z: nat | y < z < |w'| ensures Ordered(w', y, z) {
      if z < |w| { assert Ordered(w, y, z); } else if g.kind.KResp? { assert Precedes(w[y], g); }
    }
  }

  ghost predicate Precedes(x: Seg, g: Seg) {
    x.kind.KResp? && g.kind.KResp? ==> x.kind.k <= g.kind.k && (x.chunk.last ==> x.kind.k < g.kind.k)
  }

  /** The next segment of the response to request `k`. */
  lemma RespsGrow(resp: seq<Fields>, respNext: nat, spc: SendPc, spc': SendPc, w: seq<Seg>, g: Seg)
    requires RespsOk(resp, respNext, spc, w) && spc.SResp? && spc.k < |resp|
    requires g.kind == KResp(spc.k, resp[spc.k].sinkTag, resp[spc.k].sinkTo)
    requires if g.chunk.last then !spc'.SResp? else spc'.SResp? && spc'.k == spc.k
    ensures RespsOk(resp, respNext, spc', w + [g])
  {
    var w' := w + [g];
    OneMoreSeg(w, g);
    forall y | 0 <= y < |w| ensures Precedes(w[y], g) { assert Below(spc, respNext, w[y]); }
    forall y | 0 <= y < |w'| ensures Answers(resp, w'[y]) && Below(spc', respNext, w'[y]) {
      if y < |w| { assert Answers(resp, w[y]) && Below(spc, respNext, w[y]); }
    }
    NumberedGrows(w, g);
    OrderedGrows(w, g);
  }

  lemma ChunksTodo(sges: seq<seq<byte>>)
    requires Closes(sges)
    ensures TodoOk(Chunks(sges, 0))
  {
    var chunks := Chunks(sges, 0);
    ChunksPartition(sges, 0);
    forall i | 0 <= i < |chunks| ensures chunks[i].last == (i == |chunks| - 1) {
      PartitionSizes(chunks, 0, AllSent(sges), true, i);
    }
  }

  lemma PickAppKeeps(p: Peer, o: Peer)
    requires TxOk(p) && Enabled(p, o, PickApp)
    ensures TxOk(Move(p, o, PickApp))
  {
    var r := p.app[p.appNext];
    if !r.Read? { ChunksTodo(r.sges); }
    RespsMove(p.resp, p.respNext, p.spc, Move(p, o, PickApp).spc, p.wire);
  }

  lemma RespsMove(resp: seq<Fields>, respNext: nat, spc: SendPc, spc': SendPc, w: seq<Seg>)
    requires RespsOk(resp, respNext, spc, w) && !spc'.SResp?
    ensures RespsOk(resp, respNext, spc', w)
  {
    forall y | 0 <= y < |w| ensures Answers(resp, w[y]) && Below(spc', respNext, w[y]) {
      assert Answers(resp, w[y]) && Below(spc, respNext, w[y]);
    }
  }

  lemma PickRespKeeps(p: Peer, o: Peer)
    requires TxOk(p) && Enabled(p, o, PickResp)
    ensures TxOk(Move(p, o, PickResp))
  {
    var p' := Move(p, o, PickResp);
    forall y | 0 <= y < |p.wire| ensures Answers(p.resp, p.wire[y]) && Below(p'.spc, p'.respNext, p.wire[y]) {
      assert Answers(p.resp, p.wire[y]) && Below(p.spc, p.respNext, p.wire[y]);
    }
  }

  lemma NextIsMid(kind: Kind, todo: seq<Chunk>, w: seq<Seg>, resp: seq<Fields>)
    requires TodoOk(todo) && !kind.KResp?
    ensures MidOk(false, Next(kind, todo), w + [Seg(kind, todo[0])], resp)
  {
    if |todo| > 1 {
      var rest := todo[1..];
      forall i | 0 <= i < |rest| ensures rest[i].last == (i == |rest| - 1) { assert rest[i] == todo[i + 1]; }
    }
  }

  lemma FailedKeeps(p: Peer, o: Peer, ok: bool)
    requires TxOk(p) && Enabled(p, o, Emit(ok)) && (p.dead || !ok)
    ensures TxOk(Move(p, o, Emit(ok)))
  {
    RespsMove(p.resp, p.respNext, p.spc, Move(p, o, Emit(ok)).spc, p.wire);
  }

  lemma NextIsWritten(kind: Kind, todo: seq<Chunk>, w: seq<Seg>)
    requires RequestsWritten(SChunks(kind, todo), w) && todo != []
    ensures RequestsWritten(Next(kind, todo), w + [Seg(kind, todo[0])])
  {
    var w' := w + [Seg(kind, todo[0])];
    forall y | 0 <= y < |w'| ensures Written(w'[y].kind, w'[y].chunk) {
      if y < |w| { assert Written(w[y].kind, w[y].chunk); }
    }
  }

  lemma NextIsRead(kind: Kind, todo: seq<Chunk>, w: seq<Seg>, pend: seq<nat>, pendNext: nat, cq: seq<Completion>)
    requires ReadsOk(w, SChunks(kind, todo), pend, pendNext, cq) && TodoOk(todo) && !kind.KResp?
    requires kind.KReq? ==> |todo| == 1
    ensures ReadsOk(w + [Seg(kind, todo[0])], Next(kind, todo), pend, pendNext, cq)
  {
    OneMoreSeg(w, Seg(kind, todo[0]));
  }

  lemma EmitChunkKeeps(p: Peer, o: Peer)
    requires TxOk(p) && Enabled(p, o, Emit(true)) && p.spc.SChunks? && !p.dead
    ensures TxOk(Move(p, o, Emit(true)))
  {
    var kind, todo := p.spc.kind, p.spc.todo;
    var p' := Move(p, o, Emit(true));
    assert p'.spc == Next(kind, todo) && p'.wire == p.wire + [Seg(kind, todo[0])];
    WireGrows(p.wire, Seg(kind, todo[0]));
    NextIsWritten(kind, todo, p.wire);
    NextIsRead(kind, todo, p.wire, p.pend, p.pendNext, p.cq);
    RespsSame(p.resp, p.respNext, p.spc, Next(kind, todo), p.wire, Seg(kind, todo[0]));
    NextIsMid(kind, todo, p.wire, p.resp);
  }

  /** A segment that ends no request leaves the reads as they are. */
  lemma ReadsStay(spc: SendPc, spc': SendPc, w: seq<Seg>, g: Seg, pend: seq<nat>, pendNext: nat, cq: seq<Completion>)
    requires ReadsOk(w, spc, pend, pendNext, cq) && g.kind.KResp? && !spc.SDone? && !spc'.SDone?
    ensures ReadsOk(w + [g], spc', pend, pendNext, cq)
  {
    OneMoreSeg(w, g);
  }

  lemma EmitRespKeeps(p: Peer, o: Peer)
    requires TxOk(p) && Enabled(p, o, Emit(true)) && p.spc.SResp? && !p.dead
    ensures TxOk(Move(p, o, Emit(true)))
  {
    var p', k := Move(p, o, Emit(true)), p.spc.k;
    var g := Seg(KResp(k, p.resp[k].sinkTag, p.resp[k].sinkTo), RespChunk(p, p.spc.off, p.spc.total));
    WireGrows(p.wire, g);
    ReadsStay(p.spc, p'.spc, p.wire, g, p.pend, p.pendNext, p.cq);
    RespsGrow(p.resp, p.respNext, p.spc, p'.spc, p.wire, g);
  }

  lemma ReadsSame(w: seq<Seg>, spc: SendPc, pend: seq<nat>, pendNext: nat, cq: seq<Completion>, c: Completion)
    requires ReadsOk(w, spc, pend, pendNext, cq) && !(spc.SDone? && spc.kind.KReq?) && !c.ReadDone?
    ensures ReadsOk(w, SIdle, pend, pendNext, cq + [c])
  {
    OneMoreDone(cq, c);
  }

  lemma ReadPended(w: seq<Seg>, spc: SendPc, pend: seq<nat>, pendNext: nat, cq: seq<Completion>)
    requires ReadsOk(w, spc, pend, pendNext, cq) && spc.SDone? && spc.kind.KReq?
    ensures ReadsOk(w, SIdle, pend + [spc.kind.id], pendNext, cq)
  {
    assert (pend + [spc.kind.id])[..pendNext] == pend[..pendNext];
  }

  lemma FinishKeeps(p: Peer, o: Peer)
    requires TxOk(p) && Enabled(p, o, Finish)
    ensures TxOk(Move(p, o, Finish))
  {
    var p', kind := Move(p, o, Finish), p.spc.kind;
    RespsMove(p.resp, p.respNext, p.spc, SIdle, p.wire);
    if p.spc.SFail? {
      ReadsSame(p.wire, p.spc, p.pend, p.pendNext, p.cq, Error(kind.id));
    } else if kind.KReq? {
      ReadPended(p.wire, p.spc, p.pend, p.pendNext, p.cq);
    } else {
      ReadsSame(p.wire, p.spc, p.pend, p.pendNext, p.cq, if kind.KSend? then SendDone(kind.id) else WriteDone(kind.id));
    }
  }

  // ---------------------------------------------------------------- receiving steps

  /** The sending state after a step of the receive thread: responses may have been enqueued, reads completed. */
  lemma EnqueueTx(p: Peer, o: Peer)
    requires TxOk(p) && Enabled(p, o, Enqueue)
    ensures TxOk(Move(p, o, Enqueue))
  {
    var p' := Move(p, o, Enqueue);
    forall y | 0 <= y < |p.wire| ensures Answers(p'.resp, p.wire[y]) && Below(p.spc, p.respNext, p.wire[y]) {
      assert Answers(p.resp, p.wire[y]) && Below(p.spc, p.respNext, p.wire[y]);
    }
  }

  lemma ReadsCq(w: seq<Seg>, spc: SendPc, pend: seq<nat>, pendNext: nat, cq: seq<Completion>, c: Completion)
    requires ReadsOk(w, spc, pend, pendNext, cq) && (c.ReadDone? ==> pendNext < |pend| && c.id == pend[pendNext])
    ensures ReadsOk(w, spc, pend, if c.ReadDone? then pendNext + 1 else pendNext, cq + [c])
  {
    OneMoreDone(cq, c);
    assert c.ReadDone? ==> pend[..pendNext + 1] == pend[..pendNext] + [pend[pendNext]];
  }

  lemma HandleTxSend(p: Peer)
    requires TxOk(p) && p.rpc.RHandle? && p.rpc.kind.KSend?
    ensures TxOk(HandleStep(p))
  {
    if p.rqNext < |p.rq| { ReadsCq(p.wire, p.spc, p.pend, p.pendNext, p.cq, RecvDone(p.rq[p.rqNext], p.taken)); }
  }

  lemma HandleTxResp(p: Peer)
    requires TxOk(p) && p.rpc.RHandle? && p.rpc.kind.KResp?
    ensures TxOk(HandleStep(p))
  {
    if p.pendNext < |p.pend| { ReadsCq(p.wire, p.spc, p.pend, p.pendNext, p.cq, ReadDone(p.pend[p.pendNext])); }
  }

  lemma HandleTx(p: Peer, o: Peer)
    requires TxOk(p) && Enabled(p, o, Handle)
    ensures TxOk(Move(p, o, Handle))
  {
    if p.rpc.kind.KSend? { HandleTxSend(p); } else if p.rpc.kind.KResp? { HandleTxResp(p); }
  }

  lemma PlacedGrows(at: seq<nat>, bufs: seq<Buffer>, w: seq<Seg>, g: Seg, x: nat)
    requires |at| == |w| && (forall y :: 0 <= y < |w| ==> PlacedAt(at, bufs, w, y))
    requires g.kind.KWrite? || g.kind.KResp? ==> x == g.kind.to + g.chunk.offset
    requires g.kind.KSend? ==> Sends(w) < |bufs| && x == bufs[Sends(w)] + Swapped(Wrapped(g.chunk.offset, W32))
    ensures forall y :: 0 <= y < |w| + 1 ==> PlacedAt(at + [x], bufs, w + [g], y)
  {
    var w', at' := w + [g], at + [x];
    forall y: nat | y < |w| + 1 ensures PlacedAt(at', bufs, w', y) {
      assert w'[..y] == w[..y];
      if y < |w| { assert PlacedAt(at, bufs, w, y); } else { assert w[..y] == w; }
    }
  }

  lemma PlaceAllGrows(mem: Memory, w: seq<Seg>, at: seq<nat>, g: Seg, x: nat)
    requires |w| == |at|
    ensures PlaceAll(mem, w + [g], at + [x]) == Place(PlaceAll(mem, w, at), x, g.chunk.payload)
  {
    assert (w + [g])[..|w|] == w && (at + [x])[..|w|] == at;
  }

  lemma MemoryGrows(p: Peer, w: seq<Seg>, g: Seg, buf: Buffer, bufNext: nat)
    requires MemoryOk(p.at, p.mem, p.mem0, p.bufs, p.bufNext, p.rpc, w)
    requires g.kind.KSend? ==> bufNext == Sends(w) + 1 <= |p.bufs| && buf == p.bufs[Sends(w)]
    ensures var p' := PlaceStep(p.(bufNext := bufNext), g.kind, buf, g.chunk);
            MemoryOk(p'.at, p'.mem, p'.mem0, p'.bufs, p'.bufNext, p'.rpc, w + [g])
  {
    var x := Target(g.kind, buf, g.chunk);
    PlacedGrows(p.at, p.bufs, w, g, x);
    PlaceAllGrows(p.mem0, w, p.at, g, x);
  }

  lemma CompletionsGrow(cq: seq<Completion>, w: seq<Seg>, g: Seg)
    requires CompletionsOk(cq, w)
    ensures CompletionsOk(cq, w + [g])
  {
    forall i | 0 <= i < |cq| ensures CompletionOk(cq[i], w + [g]) { assert CompletionOk(cq[i], w); }
  }

  /** The receive thread takes the next segment of the message it is in. */
  lemma TakeMoreKeeps(p: Peer, w: seq<Seg>, g: Seg)
    requires RxOk(p, w) && p.rpc.RMsg? && g.kind == p.rpc.kind && !g.kind.KReq?
    ensures RxOk(PlaceStep(p, p.rpc.kind, p.rpc.buf, g.chunk), w + [g])
  {
    OneMoreSeg(w, g);
    MemoryGrows(p, w, g, p.rpc.buf, p.bufNext);
    CompletionsGrow(p.cq, w, g);
  }

  /** It takes the first segment of a Send, and the next buffer for it. */
  lemma TakeSendKeeps(p: Peer, w: seq<Seg>, g: Seg)
    requires RxOk(p, w) && p.rpc.RIdle? && g.kind.KSend? && p.bufNext < |p.bufs|
    ensures RxOk(PlaceStep(p.(bufNext := p.bufNext + 1), g.kind, p.bufs[p.bufNext], g.chunk), w + [g])
  {
    OneMoreSeg(w, g);
    CompletionsGrow(p.cq, w, g);
    MemoryGrows(p, w, g, p.bufs[p.bufNext], p.bufNext + 1);
  }

  lemma RequestReadBack(p: Peer, g: Seg, buf: Buffer)
    requires g.kind.KReq? && Written(g.kind, g.chunk)
    ensures ReadBack(PlaceStep(p, g.kind, buf, g.chunk).mem, PlaceStep(p, g.kind, buf, g.chunk).rpc)
  {
    SwapMovesSmall(0);
    FieldsReadBack(p.mem, buf, g.kind.fields);
  }

  lemma PoolTaken(pool: multiset<Buffer>, spare: multiset<Buffer>, buf: Buffer, rpc: RecvPc)
    requires PoolOk(pool, spare, RIdle) && buf in spare && (rpc.RMsg? || rpc.RHandle?) && rpc.kind.KReq?
             && rpc.buf == buf
    ensures PoolOk(pool, spare - multiset{buf}, rpc)
  {
    assert spare == (spare - multiset{buf}) + multiset{buf};
  }

  /** It takes the first segment of a read request, and any spare buffer for it. */
  lemma TakeReqKeeps(p: Peer, w: seq<Seg>, g: Seg, buf: Buffer)
    requires RxOk(p, w) && p.rpc.RIdle? && g.kind.KReq? && buf in p.spare && Written(g.kind, g.chunk)
    ensures RxOk(PlaceStep(p.(spare := p.spare - multiset{buf}), g.kind, buf, g.chunk), w + [g])
  {
    RequestReadBack(p.(spare := p.spare - multiset{buf}), g, buf);
    PoolTaken(p.pool, p.spare, buf, if g.chunk.last then RHandle(g.kind, buf) else RMsg(g.kind, buf));
    OneMoreSeg(w, g);
    CompletionsGrow(p.cq, w, g);
    MemoryGrows(p, w, g, buf, p.bufNext);
  }

  /** It takes the first segment of a tagged message. */
  lemma TakeTaggedKeeps(p: Peer, w: seq<Seg>, g: Seg)
    requires RxOk(p, w) && p.rpc.RIdle? && (g.kind.KWrite? || g.kind.KResp?)
    ensures RxOk(PlaceStep(p, g.kind, 0, g.chunk), w + [g])
  {
    OneMoreSeg(w, g);
    CompletionsGrow(p.cq, w, g);
    MemoryGrows(p, w, g, 0, p.bufNext);
  }

  lemma BrokenKeeps(p: Peer, w: seq<Seg>)
    requires RxOk(p, w) && p.rpc.RIdle?
    ensures RxOk(p.(rpc := RBroken), w)
  {
  }

  ghost predicate Took(p: Peer, p': Peer, w: seq<Seg>, g: Seg) { RxOk(p', if p'.rpc.RBroken? then w else w + [g]) }

  lemma TakeFirstSend(p: Peer, w: seq<Seg>, g: Seg, buf: Buffer, valid: bool)
    requires RxOk(p, w) && p.rpc.RIdle? && g.kind.KSend?
    ensures Took(p, TakeStep(p, g, buf, valid), w, g)
  {
    if p.bufNext < |p.bufs| { TakeSendKeeps(p, w, g); } else { BrokenKeeps(p, w); }
  }

  lemma TakeFirstReq(p: Peer, w: seq<Seg>, g: Seg, buf: Buffer, valid: bool)
    requires RxOk(p, w) && p.rpc.RIdle? && g.kind.KReq? && Written(g.kind, g.chunk)
    ensures Took(p, TakeStep(p, g, buf, valid), w, g)
  {
    if buf in p.spare { TakeReqKeeps(p, w, g, buf); } else { BrokenKeeps(p, w); }
  }

  lemma TakeFirstTagged(p: Peer, w: seq<Seg>, g: Seg, buf: Buffer, valid: bool)
    requires RxOk(p, w) && p.rpc.RIdle? && (g.kind.KWrite? || g.kind.KResp?)
    ensures Took(p, TakeStep(p, g, buf, valid), w, g)
  {
    if valid { TakeTaggedKeeps(p, w, g); } else { BrokenKeeps(p, w); }
  }

  lemma TakeFirst(p: Peer, w: seq<Seg>, g: Seg, buf: Buffer, valid: bool)
    requires RxOk(p, w) && p.rpc.RIdle? && Written(g.kind, g.chunk)
    ensures Took(p, TakeStep(p, g, buf, valid), w, g)
  {
    match g.kind
    case KSend(_) => TakeFirstSend(p, w, g, buf, valid);
    case KReq(_, _) => TakeFirstReq(p, w, g, buf, valid);
    case _ => TakeFirstTagged(p, w, g, buf, valid);
  }

  lemma TakeKeeps(p: Peer, o: Peer, buf: Buffer, valid: bool)
    requires PairOk(p, o) && WireOk(o.wire) && RequestsWritten(o.spc, o.wire) && Enabled(p, o, Take(buf, valid))
    ensures PairOk(Move(p, o, Take(buf, valid)), o)
  {
    var w, g := o.wire[..p.taken], o.wire[p.taken];
    assert o.wire[..p.taken + 1] == w + [g];
    assert Written(g.kind, g.chunk);
    assert p.rpc.RMsg? ==> GoesOn(o.wire, p.taken - 1) && Written(w[|w| - 1].kind, w[|w| - 1].chunk);
    if p.rpc.RMsg? { TakeMoreKeeps(p, w, g); } else { TakeFirst(p, w, g, buf, valid); }
  }

  lemma HandleReceives(p: Peer, w: seq<Seg>)
    requires RxOk(p, w) && p.rpc.RHandle? && p.rpc.kind.KSend? && p.taken == |w|
    ensures RxOk(HandleStep(p), w)
  {
    if p.rqNext < |p.rq| {
      var c := RecvDone(p.rq[p.rqNext], p.taken);
      OneMoreDone(p.cq, c);
      assert p.rq[..p.rqNext + 1] == p.rq[..p.rqNext] + [p.rq[p.rqNext]];
      CompletionsAdd(p.cq, c, w);
    }
  }

  lemma CompletionsAdd(cq: seq<Completion>, c: Completion, w: seq<Seg>)
    requires CompletionsOk(cq, w) && CompletionOk(c, w)
    ensures CompletionsOk(cq + [c], w)
  {
  }

  lemma HandleResponse(p: Peer, w: seq<Seg>)
    requires RxOk(p, w) && p.rpc.RHandle? && p.rpc.kind.KResp?
    ensures RxOk(HandleStep(p), w)
  {
    if p.pendNext < |p.pend| {
      var c := ReadDone(p.pend[p.pendNext]);
      OneMoreDone(p.cq, c);
      CompletionsAdd(p.cq, c, w);
    }
  }

  lemma HandleRequest(p: Peer, w: seq<Seg>)
    requires RxOk(p, w) && p.rpc.RHandle? && p.rpc.kind.KReq?
    ensures RxOk(HandleStep(p), w)
  {
  }

  lemma HandleOthers(p: Peer, w: seq<Seg>)
    requires RxOk(p, w) && p.rpc.RHandle? && !p.rpc.kind.KSend?
    ensures RxOk(HandleStep(p), w)
  {
    if p.rpc.kind.KResp? { HandleResponse(p, w); } else if p.rpc.kind.KReq? { HandleRequest(p, w); }
  }

  lemma HandleKeeps(p: Peer, o: Peer)
    requires PairOk(p, o) && Enabled(p, o, Handle)
    ensures PairOk(Move(p, o, Handle), o)
  {
    var w := o.wire[..p.taken];
    if p.rpc.kind.KSend? { HandleReceives(p, w); } else { HandleOthers(p, w); }
  }

  lemma QueueKeeps(p: Peer, o: Peer, act: Action)
    requires PairOk(p, o) && Enabled(p, o, act) && (act.Enqueue? || act.Replenish?)
    ensures PairOk(Move(p, o, act), o)
  {
  }

  /** Posting a receive: first the buffer, then the request. */
  lemma PostKeeps(p: Peer, o: Peer, act: Action)
    requires PairOk(p, o) && Enabled(p, o, act) && (act.PostBuffer? || act.PostRequest?)
    ensures PairOk(Move(p, o, act), o)
  {
    var w, p' := o.wire[..p.taken], Move(p, o, act);
    assert p'.rq[..p.rqNext] == p.rq[..p.rqNext];
    forall y | 0 <= y < |w| ensures PlacedAt(p.at, p'.bufs, w, y) { assert PlacedAt(p.at, p.bufs, w, y); }
  }

  /** Completions of the send thread do not disturb those of the receive thread. */
  lemma CqRx(p: Peer, w: seq<Seg>, c: Completion)
    requires RxOk(p, w) && !c.RecvDone?
    ensures RxOk(p.(spc := SIdle, cq := p.cq + [c]), w)
  {
    OneMoreDone(p.cq, c);
    CompletionsAdd(p.cq, c, w);
  }

  lemma FinishRx(p: Peer, o: Peer)
    requires PairOk(p, o) && Enabled(p, o, Finish) && !p.spc.kind.KResp?
    ensures PairOk(Move(p, o, Finish), o)
  {
    var w, kind := o.wire[..p.taken], p.spc.kind;
    if p.spc.SFail? {
      CqRx(p, w, Error(kind.id));
    } else if kind.KSend? {
      CqRx(p, w, SendDone(kind.id));
    } else if kind.KWrite? {
      CqRx(p, w, WriteDone(kind.id));
    }
  }

  // ---------------------------------------------------------------- every run

  /** The other peer has the same view of a channel that has only grown. */
  lemma OtherSees(o: Peer, p: Peer, p': Peer)
    requires PairOk(o, p) && p.wire <= p'.wire
    ensures PairOk(o, p')
  {
    assert p'.wire[..o.taken] == p.wire[..o.taken];
  }

  /** Only four actions are those of the send thread. */
  predicate BySender(act: Action) { act.PickApp? || act.PickResp? || act.Emit? || act.Finish? }

  lemma OthersLeaveSender(p: Peer, o: Peer, act: Action)
    requires Enabled(p, o, act) && !BySender(act)
    ensures var p' := Move(p, o, act);
            p'.dead == p.dead && p'.spc == p.spc && p'.respNext == p.respNext && p'.wire == p.wire
  {
  }

  lemma FinishLeaves(p: Peer, o: Peer)
    requires Enabled(p, o, Finish)
    ensures var p' := Move(p, o, Finish);
            p'.dead == p.dead && p'.spc == SIdle && p'.respNext == p.respNext && p'.wire == p.wire
  {
  }

  lemma EmitIsOneSegment(p: Peer, o: Peer, ok: bool)
    requires Enabled(p, o, Emit(ok))
    ensures var p' := Move(p, o, Emit(ok)); if ok && !p.dead then |p'.wire| == |p.wire| + 1 else p'.wire == p.wire
  {
  }

  lemma OthersLeaveWire(p: Peer, o: Peer, act: Action)
    requires Enabled(p, o, act) && !act.Emit?
    ensures Move(p, o, act).wire == p.wire
  {
    if act.Finish? { FinishLeaves(p, o); } else if !BySender(act) { OthersLeaveSender(p, o, act); }
  }

  lemma EmitGrowsWire(p: Peer, o: Peer, ok: bool)
    requires Enabled(p, o, Emit(ok))
    ensures p.wire <= Move(p, o, Emit(ok)).wire
  {
  }

  lemma WireOnlyGrows(p: Peer, o: Peer, act: Action)
    requires Enabled(p, o, act)
    ensures p.wire <= Move(p, o, act).wire
  {
    if act.Emit? { EmitGrowsWire(p, o, act.ok); } else { OthersLeaveWire(p, o, act); }
  }

  lemma TxMoves(p: Peer, o: Peer, act: Action)
    requires TxOk(p) && Enabled(p, o, act)
    ensures TxOk(Move(p, o, act))
  {
    match act
    case Post(r) =>
    case PickApp => PickAppKeeps(p, o);
    case PickResp => PickRespKeeps(p, o);
    case Emit(ok) =>
      if p.dead || !ok { FailedKeeps(p, o, ok); }
      else if p.spc.SChunks? { EmitChunkKeeps(p, o); } else { EmitRespKeeps(p, o); }
    case Finish => FinishKeeps(p, o);
    case Handle => HandleTx(p, o);
    case Enqueue => EnqueueTx(p, o);
    case Take(b, valid) => assert SameSender(p, Move(p, o, act));
    case _ =>
  }

  lemma RxMoves(p: Peer, o: Peer, act: Action)
    requires PairOk(p, o) && TxOk(p) && TxOk(o) && Enabled(p, o, act)
    ensures PairOk(Move(p, o, act), o)
  {
    match act
    case Finish => FinishRx(p, o);
    case Take(b, valid) => TakeKeeps(p, o, b, valid);
    case Handle => HandleKeeps(p, o);
    case Enqueue => QueueKeeps(p, o, act);
    case Replenish => QueueKeeps(p, o, act);
    case PostBuffer(_, _) => PostKeeps(p, o, act);
    case PostRequest => PostKeeps(p, o, act);
    case _ =>
  }

  lemma StepKeepsInv(s: State, e: Event)
    requires Inv(s) && CanStep(s, e)
    ensures Inv(Step(s, e))
  {
    if e.first {
      TxMoves(s.a, s.b, e.act);
      RxMoves(s.a, s.b, e.act);
      WireOnlyGrows(s.a, s.b, e.act);
      OtherSees(s.b, s.a, Move(s.a, s.b, e.act));
    } else {
      TxMoves(s.b, s.a, e.act);
      RxMoves(s.b, s.a, e.act);
      WireOnlyGrows(s.b, s.a, e.act);
      OtherSees(s.a, s.b, Move(s.b, s.a, e.act));
    }
  }
}
