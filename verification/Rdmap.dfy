/** Two RDMAP peers: on each an application, a send thread and a receive thread, joined by two FIFO channels of DDP
    segments. One queue operation, one segment or one store to shared state per step.

    A queue is modelled as everything ever enqueued together with how much of it has been dequeued. */
module Rdmap {
  import opened Options
  import opened Wire
  import opened Ddp

  /** The fields of a read request. */
  datatype Fields = Fields(sinkTag: nat, sinkTo: nat, len: nat, srcTag: nat, srcTo: nat)

  /** Work requests of the application; what is gathered for Send and Write goes with the request. */
  datatype Req =
    | Send(id: nat, sges: seq<seq<byte>>)
    | Write(id: nat, tag: nat, to: nat, sges: seq<seq<byte>>)
    | Read(id: nat, fields: Fields)

  /** A message on the wire. `k` tells which of the peer's read requests a response answers. */
  datatype Kind =
    | KSend(id: nat)
    | KWrite(id: nat, tag: nat, to: nat)
    | KReq(id: nat, fields: Fields)
    | KResp(k: nat, tag: nat, to: nat)

  datatype Seg = Seg(kind: Kind, chunk: Chunk)

  /** `upTo` is how much of the channel had been received when a receive completed. */
  datatype Completion =
    | SendDone(id: nat)
    | WriteDone(id: nat)
    | ReadDone(id: nat)
    | RecvDone(id: nat, upTo: nat)
    | Error(id: nat)

  datatype SendPc =
    | SIdle
    | SChunks(kind: Kind, todo: seq<Chunk>)
    | SResp(k: nat, off: nat, total: nat)
    | SDone(kind: Kind)
    | SFail(kind: Kind)

  datatype RecvPc =
    | RIdle
    | RMsg(kind: Kind, buf: Buffer)
    | RHandle(kind: Kind, buf: Buffer)
    | REnqueue(fields: Fields, buf: Buffer)
    | RReplenish(buf: Buffer)
    | RBroken

  /** The one scatter-gather entry that all queued read responses point to. */
  datatype Source = Source(addr: nat, len: nat)

  datatype Peer = Peer(
    app: seq<Req>, appNext: nat,          // send queue, requests of the application
    resp: seq<Fields>, respNext: nat,     // send queue, read responses of the receive thread
    spc: SendPc, wire: seq<Seg>, dead: bool,
    pend: seq<nat>, pendNext: nat,        // pending_cq
    cq: seq<Completion>,
    rq: seq<nat>, rqNext: nat,            // receive requests
    bufs: seq<Buffer>, bufNext: nat,      // untagged buffers of SEND_QN
    posting: Option<nat>,                 // a post_recv between its two enqueues
    spare: multiset<Buffer>, pool: multiset<Buffer>, // untagged buffers of READ_QN, now and at the start
    rpc: RecvPc, taken: nat, at: seq<nat>, // segments received and where each was placed
    sg: Source, mem0: Memory, mem: Memory)

  datatype State = State(a: Peer, b: Peer)

  datatype Action =
    | Post(req: Req) | PostBuffer(id: nat, buf: Buffer) | PostRequest
    | PickApp | PickResp | Emit(ok: bool) | Finish
    | Take(buf: Buffer, valid: bool) | Handle | Enqueue | Replenish

  // ---------------------------------------------------------------- what is sent

  function FieldBytes(f: Fields): seq<byte> {
    Le(f.sinkTag, 4) + Le(f.sinkTo, 8) + Le(f.len, 4) + Le(f.srcTag, 4) + Le(f.srcTo, 8)
  }

  const FIELDS: nat := 28

  /** The fields are 32-bit and 64-bit words. */
  predicate FieldsFit(f: Fields) {
    f.sinkTag < W32 && f.sinkTo < W64 && f.len < W32 && f.srcTag < W32 && f.srcTo < W64
  }

  /** The fields as they are read from the buffer that a request was placed in. */
  function FieldsAt(mem: Memory, buf: Buffer): Fields { ParseFields(Bytes(mem, buf, FIELDS)) }

  function ParseFields(b: seq<byte>): Fields
    requires |b| == FIELDS
  {
    Fields(FromLe(b[..4]), FromLe(b[4..12]), FromLe(b[12..16]), FromLe(b[16..20]), FromLe(b[20..]))
  }

  /** Five words one after the other are found where they were put. */
  lemma FieldPlaces(a: seq<byte>, b: seq<byte>, c: seq<byte>, d: seq<byte>, e: seq<byte>)
    requires |a| == 4 && |b| == 8 && |c| == 4 && |d| == 4 && |e| == 8
    ensures var w := a + b + c + d + e; |w| == FIELDS && w[..4] == a && w[4..12] == b && w[12..16] == c
    ensures var w := a + b + c + d + e; w[16..20] == d && w[20..] == e
  {
  }

  lemma FieldsRoundTrip(f: Fields)
    requires FieldsFit(f)
    ensures |FieldBytes(f)| == FIELDS && ParseFields(FieldBytes(f)) == f
  {
    Pow256Is();
    LeRoundTrip(f.sinkTag, 4);
    LeRoundTrip(f.sinkTo, 8);
    LeRoundTrip(f.len, 4);
    LeRoundTrip(f.srcTag, 4);
    LeRoundTrip(f.srcTo, 8);
    FieldPlaces(Le(f.sinkTag, 4), Le(f.sinkTo, 8), Le(f.len, 4), Le(f.srcTag, 4), Le(f.srcTo, 8));
  }

  /** A request placed in a buffer is read back from it. */
  lemma FieldsReadBack(mem: Memory, buf: Buffer, f: Fields)
    requires FieldsFit(f)
    ensures FieldsAt(Place(mem, buf, FieldBytes(f)), buf) == f
  {
    FieldsRoundTrip(f);
    PlacedBytes(mem, buf, FieldBytes(f));
  }

  function KindOf(r: Req): Kind {
    match r
    case Send(id, _) => KSend(id)
    case Write(id, tag, to, _) => KWrite(id, tag, to)
    case Read(id, f) => KReq(id, f)
  }

  function ChunksOf(r: Req): seq<Chunk> {
    if r.Read? then [Chunk(0, FieldBytes(r.fields), true)] else Chunks(r.sges, 0)
  }

  /** The number of bytes the next segment of a response carries. */
  function NextLength(off: nat, total: nat): nat {
    if total - off > MULPDU then MULPDU else if off <= total then total - off else 0
  }

  /** Where the next segment of a response is read from: address and length are loaded afresh. */
  function From(sg: Source, off: nat, total: nat): nat { sg.addr + (sg.len - (total - off)) % W32 }

  function RespChunk(p: Peer, off: nat, total: nat): Chunk {
    var n := NextLength(off, total);
    Chunk(off, Bytes(p.mem, From(p.sg, off, total), n), n == total - off)
  }

  // ---------------------------------------------------------------- the steps of one peer, given the other

  predicate Enabled(me: Peer, o: Peer, act: Action) {
    match act
    case Post(r) => if r.Read? then FieldsFit(r.fields) else Closes(r.sges)
    case PostBuffer(_, _) => me.posting.None?
    case PostRequest => me.posting.Some?
    case PickApp => me.spc.SIdle? && me.appNext < |me.app|
    case PickResp => me.spc.SIdle? && me.respNext < |me.resp|
    case Emit(_) => (me.spc.SChunks? && me.spc.todo != []) || (me.spc.SResp? && me.spc.k < |me.resp|)
    case Finish => me.spc.SDone? || me.spc.SFail?
    case Take(b, _) => me.taken < |o.wire| && (me.rpc.RIdle? || me.rpc.RMsg?)
                       && (me.rpc.RIdle? && o.wire[me.taken].kind.KReq? && me.spare != multiset{} ==> b in me.spare)
    case Handle => me.rpc.RHandle?
    case Enqueue => me.rpc.REnqueue?
    case Replenish => me.rpc.RReplenish?
  }

  /** What is left to send after the first chunk. */
  function Next(kind: Kind, todo: seq<Chunk>): SendPc
    requires todo != []
  {
    if |todo| == 1 then SDone(kind) else SChunks(kind, todo[1..])
  }

  function EmitStep(me: Peer, kind: Kind, c: Chunk, next: SendPc): Peer {
    me.(wire := me.wire + [Seg(kind, c)], spc := next)
  }

  function FinishStep(me: Peer): Peer
    requires me.spc.SDone? || me.spc.SFail?
  {
    var kind := me.spc.kind;
    if kind.KResp? then me.(spc := SIdle)
    else if me.spc.SFail? then me.(spc := SIdle, cq := me.cq + [Error(kind.id)])
    else match kind
      case KSend(id) => me.(spc := SIdle, cq := me.cq + [SendDone(id)])
      case KWrite(id, _, _) => me.(spc := SIdle, cq := me.cq + [WriteDone(id)])
      case KReq(id, _) => me.(spc := SIdle, pend := me.pend + [id])
  }

  /** Where a segment is placed. */
  function Target(kind: Kind, buf: Buffer, c: Chunk): nat {
    match kind
    case KWrite(_, _, to) => to + c.offset
    case KResp(_, _, to) => to + c.offset
    case _ => buf + Swapped(Wrapped(c.offset, W32))
  }

  /** Nothing that the send thread works with has changed. */
  predicate SameSender(p: Peer, p': Peer) {
    && p'.app == p.app && p'.appNext == p.appNext && p'.wire == p.wire && p'.dead == p.dead && p'.spc == p.spc
    && p'.resp == p.resp && p'.respNext == p.respNext && p'.pend == p.pend && p'.pendNext == p.pendNext
    && p'.cq == p.cq && p'.sg == p.sg
  }

  function PlaceStep(me: Peer, kind: Kind, buf: Buffer, c: Chunk): (p: Peer)
    ensures SameSender(me, p) && p.taken == me.taken + 1 && !p.rpc.RBroken? && !p.rpc.REnqueue?
  {
    me.(taken := me.taken + 1, at := me.at + [Target(kind, buf, c)],
        mem := Place(me.mem, Target(kind, buf, c), c.payload),
        rpc := if c.last then RHandle(kind, buf) else RMsg(kind, buf))
  }

  /** `ddp_recv` one segment at a time; the first segment of a message takes a buffer or checks the target. */
  function TakeStep(me: Peer, seg: Seg, buf: Buffer, valid: bool): (p: Peer)
    ensures SameSender(me, p) && !p.rpc.REnqueue? && p.taken == if p.rpc.RBroken? then me.taken else me.taken + 1
  {
    if me.rpc.RMsg? then PlaceStep(me, me.rpc.kind, me.rpc.buf, seg.chunk)
    else match seg.kind
      case KSend(_) =>
        if me.bufNext < |me.bufs|
        then PlaceStep(me.(bufNext := me.bufNext + 1), seg.kind, me.bufs[me.bufNext], seg.chunk)
        else me.(rpc := RBroken)
      case KReq(_, _) =>
        if buf in me.spare then PlaceStep(me.(spare := me.spare - multiset{buf}), seg.kind, buf, seg.chunk)
        else me.(rpc := RBroken)
      case _ => if valid then PlaceStep(me, seg.kind, 0, seg.chunk) else me.(rpc := RBroken)
  }

  function HandleStep(me: Peer): Peer
    requires me.rpc.RHandle?
  {
    match me.rpc.kind
    case KWrite(_, _, _) => me.(rpc := RIdle)
    case KSend(_) =>
      if me.rqNext < |me.rq|
      then me.(rpc := RIdle, rqNext := me.rqNext + 1, cq := me.cq + [RecvDone(me.rq[me.rqNext], me.taken)])
      else me.(rpc := RIdle)
    case KResp(_, _, _) =>
      if me.pendNext < |me.pend|
      then me.(rpc := RIdle, pendNext := me.pendNext + 1, cq := me.cq + [ReadDone(me.pend[me.pendNext])])
      else me.(rpc := RIdle)
    case KReq(_, _) =>
      var f := FieldsAt(me.mem, me.rpc.buf);
      me.(sg := Source(f.srcTo, f.len), rpc := REnqueue(f, me.rpc.buf))
  }

  function Move(me: Peer, o: Peer, act: Action): Peer
    requires Enabled(me, o, act)
  {
    match act
    case Post(r) => me.(app := me.app + [r])
    case PostBuffer(id, b) => me.(bufs := me.bufs + [b], posting := Some(id))
    case PostRequest => me.(rq := me.rq + [me.posting.value], posting := None)
    case PickApp =>
      var r := me.app[me.appNext];
      me.(appNext := me.appNext + 1, spc := SChunks(KindOf(r), ChunksOf(r)))
    case PickResp =>
      var total := if me.sg.len < INT_MAX_PLUS_1 then me.sg.len else 0;
      me.(respNext := me.respNext + 1, spc := if total == 0 then SIdle else SResp(me.respNext, 0, total))
    case Emit(ok) =>
      if me.spc.SChunks? then
        if me.dead || !ok then me.(dead := true, spc := SFail(me.spc.kind))
        else EmitStep(me, me.spc.kind, me.spc.todo[0], Next(me.spc.kind, me.spc.todo))
      else
        var k, off, total := me.spc.k, me.spc.off, me.spc.total;
        var c := RespChunk(me, off, total);
        if me.dead || !ok then me.(dead := true, spc := SIdle)
        else EmitStep(me, KResp(k, me.resp[k].sinkTag, me.resp[k].sinkTo), c,
                      if c.last then SIdle else SResp(k, off + NextLength(off, total), total))
    case Finish => FinishStep(me)
    case Take(b, valid) => TakeStep(me, o.wire[me.taken], b, valid)
    case Handle => HandleStep(me)
    case Enqueue => me.(resp := me.resp + [me.rpc.fields], rpc := RReplenish(me.rpc.buf))
    case Replenish => me.(spare := me.spare + multiset{me.rpc.buf}, rpc := RIdle)
  }

  predicate InitPeer(p: Peer) {
    && p.app == [] && p.appNext == 0 && p.resp == [] && p.respNext == 0 && p.spc == SIdle && p.wire == [] && !p.dead
    && p.pend == [] && p.pendNext == 0 && p.cq == [] && p.rq == [] && p.rqNext == 0 && p.bufs == [] && p.bufNext == 0
    && p.posting == None && p.spare == p.pool && p.rpc == RIdle && p.taken == 0 && p.at == [] && p.mem == p.mem0
  }

  predicate Init(s: State) { InitPeer(s.a) && InitPeer(s.b) }

  datatype Event = Event(first: bool, act: Action)

  predicate CanStep(s: State, e: Event) { if e.first then Enabled(s.a, s.b, e.act) else Enabled(s.b, s.a, e.act) }

  function Step(s: State, e: Event): State
    requires CanStep(s, e)
  {
    if e.first then s.(a := Move(s.a, s.b, e.act)) else s.(b := Move(s.b, s.a, e.act))
  }
}
