/** What applications post against what happens: every message on a channel is that of the next request posted, with the
    request's own target and bytes, and completions report the requests in order. */
module RdmapPosts {
  import opened Options
  import opened Wire
  import opened Ddp
  import opened Rdmap
  import opened RdmapSafety
  import opened RdmapRuns
  import opened RdmapReads

  // ---------------------------------------------------------------- the message of a request

  /** The kind of message that a request asks for, with its own identifier and target. */
  predicate KindIs(r: Req, kind: Kind) {
    match r
    case Send(id, _) => kind.KSend? && kind.id == id
    case Write(id, tag, to, _) => kind.KWrite? && kind.id == id && kind.tag == tag && kind.to == to
    case Read(id, f) => kind.KReq? && kind.id == id && kind.fields == f
  }

  /** The bytes that a request asks to be sent. */
  function DataOf(r: Req): seq<byte> { if r.Read? then FieldBytes(r.fields) else AllSent(r.sges) }

  /** A non-empty piece of `data` at its own offset, marked last where `data` ends. */
  predicate Piece(c: Chunk, data: seq<byte>) {
    && 0 < |c.payload| && c.offset + |c.payload| <= |data|
    && c.payload == data[c.offset..c.offset + |c.payload|]
    && (c.last <==> c.offset + |c.payload| == |data|)
  }

  predicate IsPart(r: Req, g: Seg) { KindIs(r, g.kind) && Piece(g.chunk, DataOf(r)) }

  /** How many messages of the application have ended on a channel. */
  ghost function Ended(w: seq<Seg>): nat {
    if w == [] then 0 else Ended(w[..|w| - 1]) + EndOf(w[|w| - 1])
  }

  ghost function EndOf(g: Seg): nat { if g.chunk.last && !g.kind.KResp? then 1 else 0 }

  lemma EndedNext(w: seq<Seg>, g: Seg)
    ensures Ended(w + [g]) == Ended(w) + EndOf(g)
  {
    assert (w + [g])[..|w|] == w;
  }

  lemma {:induction false} LastPieceEnds(chunks: seq<Chunk>, offset: nat, data: seq<byte>, i: nat)
    requires Partition(chunks, offset, data, true) && i < |chunks|
    ensures chunks[i].last <==> chunks[i].offset + |chunks[i].payload| == offset + |data|
  {
    if |chunks| > 1 {
      var n := |chunks[0].payload|;
      if i > 0 {
        LastPieceEnds(chunks[1..], offset + n, data[n..], i - 1);
      } else {
        PartitionSizes(chunks[1..], offset + n, data[n..], true, 0);
      }
    }
  }

  lemma FieldsArePiece(f: Fields)
    requires FieldsFit(f)
    ensures Piece(Chunk(0, FieldBytes(f), true), FieldBytes(f))
  {
    var b := FieldBytes(f);
    FieldsRoundTrip(f);
    assert b[0..|b|] == b;
  }

  lemma GatheredArePieces(sges: seq<seq<byte>>, i: nat)
    requires Closes(sges) && i < |Chunks(sges, 0)|
    ensures Piece(Chunks(sges, 0)[i], AllSent(sges))
  {
    ChunksPartition(sges, 0);
    PartitionPiece(Chunks(sges, 0), AllSent(sges), i);
  }

  lemma PartitionPiece(chunks: seq<Chunk>, data: seq<byte>, i: nat)
    requires Partition(chunks, 0, data, true) && i < |chunks|
    ensures Piece(chunks[i], data)
  {
    PartitionSizes(chunks, 0, data, true, i);
    LastPieceEnds(chunks, 0, data, i);
  }

  /** The chunks of a request are pieces of its bytes. */
  lemma ChunksArePieces(r: Req, i: nat)
    requires (if r.Read? then FieldsFit(r.fields) else Closes(r.sges)) && i < |ChunksOf(r)|
    ensures Piece(ChunksOf(r)[i], DataOf(r))
  {
    if r.Read? { FieldsArePiece(r.fields); } else { GatheredArePieces(r.sges, i); }
  }

  // ---------------------------------------------------------------- what a channel holds

  /** A segment that is no response belongs to the request whose turn it is. */
  ghost predicate OwnSeg(app: seq<Req>, appNext: nat, w: seq<Seg>, y: nat) {
    y < |w| && !w[y].kind.KResp? ==>
      Ended(w[..y]) < appNext <= |app| && IsPart(app[Ended(w[..y])], w[y])
  }

  ghost predicate OwnSegs(app: seq<Req>, appNext: nat, w: seq<Seg>) {
    forall y :: 0 <= y < |w| ==> OwnSeg(app, appNext, w, y)
  }

  /** What the send thread works on is the request it took last. */
  ghost predicate WorksOn(app: seq<Req>, appNext: nat, spc: SendPc) {
    match spc
    case SChunks(kind, todo) =>
      && 0 < appNext <= |app| && KindIs(app[appNext - 1], kind)
      && forall i :: 0 <= i < |todo| ==> Piece(todo[i], DataOf(app[appNext - 1]))
    case SDone(kind) => 0 < appNext <= |app| && KindIs(app[appNext - 1], kind)
    case SFail(kind) => 0 < appNext <= |app| && KindIs(app[appNext - 1], kind)
    case _ => appNext <= |app|
  }

  /** The requests taken and reported. */
  function Finished(appNext: nat, spc: SendPc): int {
    if spc.SChunks? || spc.SDone? || spc.SFail? then appNext - 1 else appNext
  }

  /** Without a failure every request taken has its message on the channel, but for the one being sent. */
  ghost predicate Caught(dead: bool, spc: SendPc, appNext: nat, ended: nat) {
    && (spc.SDone? ==> !dead) && (spc.SFail? ==> dead)
    && (if dead then ended <= Finished(appNext, spc) else ended == if spc.SChunks? then appNext - 1 else appNext)
  }

  ghost predicate PostedOk(p: Peer) {
    && OwnSegs(p.app, p.appNext, p.wire) && WorksOn(p.app, p.appNext, p.spc)
    && Caught(p.dead, p.spc, p.appNext, Ended(p.wire))
  }

  lemma OwnSegsMore(app: seq<Req>, app': seq<Req>, appNext: nat, appNext': nat, w: seq<Seg>)
    requires OwnSegs(app, appNext, w) && app <= app' && appNext <= appNext' <= |app'|
    ensures OwnSegs(app', appNext', w)
  {
    forall y: nat | y < |w| ensures OwnSeg(app', appNext', w, y) { assert OwnSeg(app, appNext, w, y); }
  }

  lemma OwnSegsGrow(app: seq<Req>, appNext: nat, w: seq<Seg>, g: Seg)
    requires OwnSegs(app, appNext, w)
    requires !g.kind.KResp? ==> Ended(w) < appNext <= |app| && IsPart(app[Ended(w)], g)
    ensures OwnSegs(app, appNext, w + [g])
  {
    var w' := w + [g];
    forall y: nat | y < |w'| ensures OwnSeg(app, appNext, w', y) {
      assert w'[..y] == w[..y];
      if y < |w| { assert OwnSeg(app, appNext, w, y); } else { assert w[..y] == w; }
    }
  }

  lemma PostKeepsPosted(p: Peer, o: Peer, r: Req)
    requires PostedOk(p) && Enabled(p, o, Post(r))
    ensures PostedOk(Move(p, o, Post(r)))
  {
    OwnSegsMore(p.app, p.app + [r], p.appNext, p.appNext, p.wire);
  }

  lemma PickKeepsPosted(p: Peer, o: Peer)
    requires PostedOk(p) && TxOk(p) && Enabled(p, o, PickApp)
    ensures PostedOk(Move(p, o, PickApp))
  {
    var r := p.app[p.appNext];
    OwnSegsMore(p.app, p.app, p.appNext, p.appNext + 1, p.wire);
    forall i | 0 <= i < |ChunksOf(r)| ensures Piece(ChunksOf(r)[i], DataOf(r)) { ChunksArePieces(r, i); }
  }

  lemma NextWorksOn(app: seq<Req>, appNext: nat, kind: Kind, todo: seq<Chunk>)
    requires WorksOn(app, appNext, SChunks(kind, todo)) && todo != []
    ensures WorksOn(app, appNext, Next(kind, todo)) && IsPart(app[appNext - 1], Seg(kind, todo[0]))
  {
    var data, rest := DataOf(app[appNext - 1]), todo[1..];
    assert Piece(todo[0], data);
    forall i | 0 <= i < |rest| ensures Piece(rest[i], data) { assert rest[i] == todo[i + 1]; }
  }

  lemma NextIsCaught(appNext: nat, kind: Kind, todo: seq<Chunk>, ended: nat)
    requires Caught(false, SChunks(kind, todo), appNext, ended) && TodoOk(todo) && !kind.KResp?
    ensures Caught(false, Next(kind, todo), appNext, ended + EndOf(Seg(kind, todo[0])))
  {
  }

  lemma ChunkKeepsPosted(p: Peer, o: Peer)
    requires PostedOk(p) && Enabled(p, o, Emit(true)) && !p.dead && p.spc.SChunks? && TodoOk(p.spc.todo)
    requires !p.spc.kind.KResp?
    ensures PostedOk(Move(p, o, Emit(true)))
  {
    var kind, todo := p.spc.kind, p.spc.todo;
    NextWorksOn(p.app, p.appNext, kind, todo);
    NextIsCaught(p.appNext, kind, todo, Ended(p.wire));
    OwnSegsGrow(p.app, p.appNext, p.wire, Seg(kind, todo[0]));
    EndedNext(p.wire, Seg(kind, todo[0]));
    EmitChunkIs(p, o);
  }

  lemma EmitChunkIs(p: Peer, o: Peer)
    requires Enabled(p, o, Emit(true)) && !p.dead && p.spc.SChunks?
    ensures Move(p, o, Emit(true))
         == p.(wire := p.wire + [Seg(p.spc.kind, p.spc.todo[0])], spc := Next(p.spc.kind, p.spc.todo))
  {
  }

  lemma RespKeepsPosted(p: Peer, o: Peer)
    requires PostedOk(p) && Enabled(p, o, Emit(true)) && !p.dead && p.spc.SResp?
    ensures PostedOk(Move(p, o, Emit(true)))
  {
    EmitIs(p, o);
    var g := Move(p, o, Emit(true)).wire[|p.wire|];
    OwnSegsGrow(p.app, p.appNext, p.wire, g);
    EndedNext(p.wire, g);
  }

  lemma FailKeepsPosted(p: Peer, o: Peer, ok: bool)
    requires PostedOk(p) && Enabled(p, o, Emit(ok)) && (p.dead || !ok)
    ensures PostedOk(Move(p, o, Emit(ok)))
  {
  }

  lemma FinishLeavesApp(p: Peer)
    requires p.spc.SDone? || p.spc.SFail?
    ensures FinishStep(p).app == p.app && FinishStep(p).appNext == p.appNext
  {
  }

  lemma HandleLeavesApp(p: Peer)
    requires p.rpc.RHandle?
    ensures HandleStep(p).app == p.app && HandleStep(p).appNext == p.appNext
  {
  }

  lemma AppStays(p: Peer, o: Peer, act: Action)
    requires Enabled(p, o, act) && !act.Post? && !act.PickApp? && !act.Emit?
    ensures Move(p, o, act).app == p.app && Move(p, o, act).appNext == p.appNext
  {
    if act.Finish? {
      FinishLeavesApp(p);
    } else if act.Handle? {
      HandleLeavesApp(p);
    } else if act.Take? {
      assert SameSender(p, TakeStep(p, o.wire[p.taken], act.buf, act.valid));
    }
  }

  lemma MoveKeepsPosted(p: Peer, o: Peer, act: Action)
    requires PostedOk(p) && TxOk(p) && Enabled(p, o, act)
    ensures PostedOk(Move(p, o, act))
  {
    if act.Post? {
      PostKeepsPosted(p, o, act.req);
    } else if act.PickApp? {
      PickKeepsPosted(p, o);
    } else if act.Emit? {
      if p.dead || !act.ok { FailKeepsPosted(p, o, act.ok); }
      else if p.spc.SChunks? { ChunkKeepsPosted(p, o); } else { RespKeepsPosted(p, o); }
    } else if act.PickResp? {
    } else if act.Finish? {
      AppStays(p, o, act);
      FinishLeaves(p, o);
    } else {
      AppStays(p, o, act);
      OthersLeaveSender(p, o, act);
    }
  }

  lemma PostedNext(run: seq<State>, evs: seq<Event>, i: nat, first: bool)
    requires Execution(run, evs) && i < |evs| && PostedOk(Of(run[i], first))
    ensures PostedOk(Of(run[i + 1], first))
  {
    ExecutionKeepsInv(run, evs, i);
    assert StepAt(run, evs, i);
    if evs[i].first == first { MoveKeepsPosted(Of(run[i], first), Of(run[i], !first), evs[i].act); }
  }

  lemma {:induction false} PostedStays(run: seq<State>, evs: seq<Event>, i: nat, first: bool)
    requires Execution(run, evs) && i < |run|
    ensures PostedOk(Of(run[i], first))
  {
    if i == 0 {
      assert InitPeer(Of(run[0], first));
    } else {
      PostedStays(run, evs, i - 1, first);
      PostedNext(run, evs, i - 1, first);
    }
  }

  // ---------------------------------------------------------------- messages

  lemma {:induction false} SameTurn(w: seq<Seg>, a: nat, y: nat)
    requires a <= y <= |w| && forall x :: a <= x < y ==> !w[x].chunk.last
    ensures Ended(w[..y]) == Ended(w[..a])
  {
    if a < y {
      SameTurn(w, a, y - 1);
      assert w[..y] == w[..y - 1] + [w[y - 1]];
      EndedNext(w[..y - 1], w[y - 1]);
    }
  }

  /** The request whose message ends at `z`. */
  ghost function RequestOf(p: Peer, z: nat): Option<Req> {
    if z < |p.wire| && Ended(p.wire[..z]) < |p.app| then Some(p.app[Ended(p.wire[..z])]) else None
  }

  /** Segments `a` to `z` are the whole message of `r`: its kind and target, and its bytes in order. */
  ghost predicate MessageOf(w: seq<Seg>, a: nat, z: nat, r: Req) {
    && a <= z < |w| && RdmapReads.Message(w, a, z, w[z].kind) && KindIs(r, w[z].kind)
       && Payloads(w, a, z + 1) == DataOf(r)
    && forall y :: a <= y <= z ==> Carries(w, DataOf(r), y)
  }

  lemma EndIsPosted(p: Peer, z: nat) returns (a: nat)
    requires PostedOk(p) && WireOk(p.wire) && (forall y :: 0 <= y < |p.wire| ==> Follows(p.wire, y))
    requires z < |p.wire| && p.wire[z].chunk.last && !p.wire[z].kind.KResp?
    ensures RequestOf(p, z).Some? && MessageOf(p.wire, a, z, RequestOf(p, z).value)
  {
    var w := p.wire;
    a := MessageEnds(w, z);
    assert OwnSeg(p.app, p.appNext, w, z);
    var r := p.app[Ended(w[..z])];
    forall y: nat | a <= y <= z ensures Carries(w, DataOf(r), y) {
      assert Part(w, a, z, w[z].kind, y);
      forall x | y <= x < z ensures !w[x].chunk.last { assert Part(w, a, z, w[z].kind, x); }
      SameTurn(w, y, z);
      assert OwnSeg(p.app, p.appNext, w, y);
    }
    PayloadsAre(w, a, z, z + 1, w[z].kind, DataOf(r));
    assert Part(w, a, z, w[z].kind, z);
    assert DataOf(r)[..|DataOf(r)|] == DataOf(r);
  }

  /** In every run the n-th message on a channel that is no response is that of the n-th request its application posted:
      the request's identifier and target or fields, and its bytes from offset 0 without gap to the segment marked
      last. */
  lemma MessageIsPosted(run: seq<State>, evs: seq<Event>, i: nat, first: bool, z: nat) returns (a: nat)
    requires Execution(run, evs) && i < |run| && z < |Of(run[i], first).wire|
    requires Of(run[i], first).wire[z].chunk.last && !Of(run[i], first).wire[z].kind.KResp?
    ensures var p := Of(run[i], first);
            && Ended(p.wire[..z]) < p.appNext <= |p.app|
            && MessageOf(p.wire, a, z, p.app[Ended(p.wire[..z])])
  {
    ExecutionKeepsInv(run, evs, i);
    PostedStays(run, evs, i, first);
    NoGapsStays(run, evs, i, first);
    var p := Of(run[i], first);
    assert OwnSeg(p.app, p.appNext, p.wire, z);
    a := EndIsPosted(p, z);
  }

  /** And none is left out: until a send fails, as many messages have ended as requests were taken, but for the one
      under way. */
  lemma EveryPostIsSent(run: seq<State>, evs: seq<Event>, i: nat, first: bool)
    requires Execution(run, evs) && i < |run|
    ensures var p := Of(run[i], first);
            && p.appNext <= |p.app| && Ended(p.wire) <= p.appNext
            && (!p.dead ==> Ended(p.wire) == if p.spc.SChunks? then p.appNext - 1 else p.appNext)
  {
    PostedStays(run, evs, i, first);
  }

  // ---------------------------------------------------------------- where the bytes of a request end up

  lemma TakenAt(me: Peer, o: Peer, y: nat)
    requires PairOk(me, o) && y < me.taken
    ensures |me.at| == me.taken <= |o.wire| && me.mem == PlaceAll(me.mem0, o.wire[..me.taken], me.at)
    ensures o.wire[y].kind.KWrite? ==> AtOffset(me.at, o.wire, o.wire[y].kind.to, y)
    ensures o.wire[y].kind.KSend? ==> Sends(o.wire[..y]) < |me.bufs|
                                      && me.at[y] == me.bufs[Sends(o.wire[..y])] + OffsetRead(o.wire[y].chunk)
  {
    var v := o.wire[..me.taken];
    AtTarget(me, v, y);
    assert v[..y] == o.wire[..y];
  }

  /** When a peer has taken the last segment of a Write, it has the bytes that were posted at the address that was
      posted; and it still has them as long as nothing received later was placed there. */
  lemma WriteLands(run: seq<State>, evs: seq<Event>, i: nat, first: bool, z: nat, r: Req)
    requires Execution(run, evs) && i < |run| && z < Of(run[i], first).taken <= |Of(run[i], !first).wire|
    requires Of(run[i], !first).wire[z].chunk.last && RequestOf(Of(run[i], !first), z) == Some(r)
    requires r.Write? && !Of(run[i], !first).wire[z].kind.KResp? && |AllSent(r.sges)| <= W64
    ensures var me, w := Of(run[i], first), Of(run[i], !first).wire;
            && |me.at| == me.taken
            && Bytes(PlaceAll(me.mem0, w[..z + 1], me.at[..z + 1]), r.to, |AllSent(r.sges)|) == AllSent(r.sges)
            && ((forall y :: z < y < me.taken ==> Spares(me.at, w, r.to, |AllSent(r.sges)|, y)) ==>
                Bytes(me.mem, r.to, |AllSent(r.sges)|) == AllSent(r.sges))
  {
    ExecutionKeepsInv(run, evs, i);
    var a := MessageIsPosted(run, evs, i, !first, z);
    var me, o := Of(run[i], first), Of(run[i], !first);
    WriteIsPlaced(me, o, a, z, r);
    if forall y :: z < y < me.taken ==> Spares(me.at, o.wire, r.to, |AllSent(r.sges)|, y) {
      WriteStays(me, o, z, r.to, AllSent(r.sges));
    }
  }

  lemma WriteIsPlaced(me: Peer, o: Peer, a: nat, z: nat, r: Req)
    requires PairOk(me, o) && z < me.taken && MessageOf(o.wire, a, z, r) && r.Write? && |AllSent(r.sges)| <= W64
    ensures var w, data := o.wire, AllSent(r.sges);
            && |me.at| == me.taken
            && Bytes(PlaceAll(me.mem0, w[..z + 1], me.at[..z + 1]), r.to, |data|) == data
  {
    var w, data := o.wire, AllSent(r.sges);
    TakenAt(me, o, z);
    forall y: nat | a <= y <= z ensures AtOffset(me.at, w, r.to, y) && Carries(w, data, y) {
      assert Part(w, a, z, w[z].kind, y);
      TakenAt(me, o, y);
    }
    PayloadsLand(me.mem0, w, me.at, a, z, w[z].kind, r.to, data);
  }

  lemma WriteStays(me: Peer, o: Peer, z: nat, to: nat, data: seq<byte>)
    requires PairOk(me, o) && z < me.taken && |me.at| == me.taken
    requires Bytes(PlaceAll(me.mem0, o.wire[..z + 1], me.at[..z + 1]), to, |data|) == data
    requires forall y :: z < y < me.taken ==> Spares(me.at, o.wire, to, |data|, y)
    ensures Bytes(me.mem, to, |data|) == data
  {
    TakenAt(me, o, z);
    StaysLanded(me.mem0, o.wire, me.at, z + 1, me.taken, to, |data|);
    assert me.at[..me.taken] == me.at;
  }

  /** The same for a Send of one segment, which lands in the buffer whose turn it is. */
  lemma SendLands(run: seq<State>, evs: seq<Event>, i: nat, first: bool, z: nat, r: Req)
    requires Execution(run, evs) && i < |run| && z < Of(run[i], first).taken <= |Of(run[i], !first).wire|
    requires Of(run[i], !first).wire[z].chunk.last && RequestOf(Of(run[i], !first), z) == Some(r)
    requires r.Send? && !Of(run[i], !first).wire[z].kind.KResp? && Of(run[i], !first).wire[z].chunk.offset == 0
    requires |AllSent(r.sges)| <= W64
    ensures var me, w, data := Of(run[i], first), Of(run[i], !first).wire, AllSent(r.sges);
            && |me.at| == me.taken && Sends(w[..z]) < |me.bufs|
            && Bytes(PlaceAll(me.mem0, w[..z + 1], me.at[..z + 1]), me.bufs[Sends(w[..z])], |data|) == data
  {
    ExecutionKeepsInv(run, evs, i);
    var a := MessageIsPosted(run, evs, i, !first, z);
    SendIsPlaced(Of(run[i], first), Of(run[i], !first), a, z, r);
  }

  lemma SendIsPlaced(me: Peer, o: Peer, a: nat, z: nat, r: Req)
    requires PairOk(me, o) && z < me.taken && MessageOf(o.wire, a, z, r) && r.Send? && o.wire[z].chunk.offset == 0
    requires |AllSent(r.sges)| <= W64
    ensures var w, data := o.wire, AllSent(r.sges);
            && |me.at| == me.taken && Sends(w[..z]) < |me.bufs|
            && Bytes(PlaceAll(me.mem0, w[..z + 1], me.at[..z + 1]), me.bufs[Sends(w[..z])], |data|) == data
  {
    var w, data := o.wire, AllSent(r.sges);
    TakenAt(me, o, z);
    StartIsStart(w[z].chunk);
    OnePayload(w, a, z, r);
    PlaceAllLast(me.mem0, w, me.at, z);
    PlacedBytes(PlaceAll(me.mem0, w[..z], me.at[..z]), me.at[z], data);
  }

  lemma StartIsStart(c: Chunk)
    requires c.offset == 0
    ensures OffsetRead(c) == 0
  {
    SwapMovesSmall(0);
  }

  lemma OnePayload(w: seq<Seg>, a: nat, z: nat, r: Req)
    requires MessageOf(w, a, z, r) && w[z].chunk.offset == 0
    ensures w[z].chunk.payload == DataOf(r)
  {
    assert Part(w, a, z, w[z].kind, z);
    assert Payloads(w, a, z + 1) == Payloads(w, a, z) + w[z].chunk.payload;
  }

  lemma PlaceAllLast(mem: Memory, w: seq<Seg>, at: seq<nat>, z: nat)
    requires z < |at| <= |w|
    ensures PlaceAll(mem, w[..z + 1], at[..z + 1]) == Place(PlaceAll(mem, w[..z], at[..z]), at[z], w[z].chunk.payload)
  {
    assert w[..z + 1][..z] == w[..z] && at[..z + 1][..z] == at[..z];
  }

  // ---------------------------------------------------------------- completions of the send thread

  predicate BySendThread(c: Completion) { c.SendDone? || c.WriteDone? || c.Error? }

  ghost function SenderDone(cq: seq<Completion>): seq<Completion> {
    if cq == [] then []
    else SenderDone(cq[..|cq| - 1]) + if BySendThread(cq[|cq| - 1]) then [cq[|cq| - 1]] else []
  }

  lemma SenderDoneNext(cq: seq<Completion>, c: Completion)
    ensures SenderDone(cq + [c]) == SenderDone(cq) + if BySendThread(c) then [c] else []
  {
    assert (cq + [c])[..|cq|] == cq;
  }

  /** What is reported of a request: success for a Send or a Write, nothing yet for a Read, and any failure. */
  function ReportOf(r: Req, sent: bool): seq<Completion> {
    if !sent then [Error(r.id)]
    else match r
      case Send(id, _) => [SendDone(id)]
      case Write(id, _, _, _) => [WriteDone(id)]
      case Read(_, _) => []
  }

  /** The reports of the first `n` requests, of which the first `d` were sent. */
  ghost function Reports(app: seq<Req>, n: nat, d: nat): seq<Completion>
    requires n <= |app|
  {
    if n == 0 then [] else Reports(app, n - 1, d) + ReportOf(app[n - 1], n <= d)
  }

  lemma {:induction false} ReportsSame(app: seq<Req>, app': seq<Req>, n: nat, d: nat, d': nat)
    requires n <= |app| && app <= app' && (d == d' || (n <= d && n <= d'))
    ensures Reports(app', n, d') == Reports(app, n, d)
  {
    if n > 0 { ReportsSame(app, app', n - 1, d, d'); }
  }

  ghost predicate ReportsOk(app: seq<Req>, appNext: nat, spc: SendPc, cq: seq<Completion>, ended: nat) {
    var n := Finished(appNext, spc);
    0 <= n <= |app| && SenderDone(cq) == Reports(app, n, ended)
  }

  ghost predicate ReportedOk(p: Peer) { ReportsOk(p.app, p.appNext, p.spc, p.cq, Ended(p.wire)) }

  lemma ReportAdded(app: seq<Req>, n: nat, d: nat, cq: seq<Completion>, c: Completion)
    requires 0 < n <= |app| && SenderDone(cq) == Reports(app, n - 1, d) && ReportOf(app[n - 1], n <= d) == [c]
    ensures SenderDone(cq + [c]) == Reports(app, n, d)
  {
    SenderDoneNext(cq, c);
  }

  lemma FinishReports(p: Peer)
    requires ReportedOk(p) && (p.spc.SDone? || p.spc.SFail?) && Caught(p.dead, p.spc, p.appNext, Ended(p.wire))
    requires 0 < p.appNext <= |p.app| && KindIs(p.app[p.appNext - 1], p.spc.kind)
    ensures ReportedOk(FinishStep(p))
  {
    if p.spc.SFail? { FailReported(p); } else { DoneReported(p); }
  }

  lemma FailReported(p: Peer)
    requires ReportedOk(p) && p.spc.SFail? && Ended(p.wire) < p.appNext
    requires 0 < p.appNext <= |p.app| && KindIs(p.app[p.appNext - 1], p.spc.kind)
    ensures ReportedOk(FinishStep(p))
  {
    FailIs(p);
    ReportAdded(p.app, p.appNext, Ended(p.wire), p.cq, Error(p.spc.kind.id));
  }

  lemma FailIs(p: Peer)
    requires p.spc.SFail? && !p.spc.kind.KResp?
    ensures FinishStep(p) == p.(spc := SIdle, cq := p.cq + [Error(p.spc.kind.id)])
  {
  }

  function AfterDone(cq: seq<Completion>, kind: Kind): seq<Completion> {
    match kind
    case KSend(id) => cq + [SendDone(id)]
    case KWrite(id, _, _) => cq + [WriteDone(id)]
    case _ => cq
  }

  lemma DoneReports(app: seq<Req>, n: nat, cq: seq<Completion>, kind: Kind)
    requires 0 < n <= |app| && KindIs(app[n - 1], kind) && SenderDone(cq) == Reports(app, n - 1, n)
    ensures SenderDone(AfterDone(cq, kind)) == Reports(app, n, n)
  {
    if kind.KSend? {
      ReportAdded(app, n, n, cq, SendDone(kind.id));
    } else if kind.KWrite? {
      ReportAdded(app, n, n, cq, WriteDone(kind.id));
    }
  }

  lemma DoneIs(p: Peer)
    requires p.spc.SDone?
    ensures FinishStep(p).cq == AfterDone(p.cq, p.spc.kind) && FinishStep(p).spc == SIdle
    ensures FinishStep(p).app == p.app && FinishStep(p).appNext == p.appNext && FinishStep(p).wire == p.wire
  {
  }

  lemma DoneReported(p: Peer)
    requires ReportedOk(p) && p.spc.SDone? && Ended(p.wire) == p.appNext
    requires 0 < p.appNext <= |p.app| && KindIs(p.app[p.appNext - 1], p.spc.kind)
    ensures ReportedOk(FinishStep(p))
  {
    DoneIs(p);
    DoneReports(p.app, p.appNext, p.cq, p.spc.kind);
  }

  lemma EmitReports(p: Peer, o: Peer, ok: bool)
    requires Caught(p.dead, p.spc, p.appNext, Ended(p.wire)) && ReportedOk(p) && Enabled(p, o, Emit(ok))
    ensures ReportedOk(Move(p, o, Emit(ok)))
  {
    var p' := Move(p, o, Emit(ok));
    EmitCounts(p, o, ok);
    ReportsSame(p.app, p.app, Finished(p.appNext, p.spc), Ended(p.wire), Ended(p'.wire));
  }

  lemma EmitCounts(p: Peer, o: Peer, ok: bool)
    requires Caught(p.dead, p.spc, p.appNext, Ended(p.wire)) && Enabled(p, o, Emit(ok))
    ensures var p' := Move(p, o, Emit(ok));
            && p'.app == p.app && p'.appNext == p.appNext && p'.cq == p.cq
            && Finished(p'.appNext, p'.spc) == Finished(p.appNext, p.spc)
            && (Ended(p'.wire) == Ended(p.wire) || Finished(p.appNext, p.spc) <= Ended(p.wire) <= Ended(p'.wire))
  {
    if ok && !p.dead { EmitAdds(p, o); } else { FailLeaves(p, o, ok); }
  }

  lemma FailLeaves(p: Peer, o: Peer, ok: bool)
    requires Enabled(p, o, Emit(ok)) && (p.dead || !ok)
    ensures var p' := Move(p, o, Emit(ok));
            && p'.app == p.app && p'.appNext == p.appNext && p'.cq == p.cq && p'.wire == p.wire
            && Finished(p'.appNext, p'.spc) == Finished(p.appNext, p.spc)
  {
  }

  lemma EmitAdds(p: Peer, o: Peer)
    requires Enabled(p, o, Emit(true)) && !p.dead
    ensures var p' := Move(p, o, Emit(true));
            && p'.app == p.app && p'.appNext == p.appNext && p'.cq == p.cq && Ended(p.wire) <= Ended(p'.wire)
            && Finished(p'.appNext, p'.spc) == Finished(p.appNext, p.spc)
  {
    if p.spc.SChunks? {
      EmitChunkIs(p, o);
      EndedNext(p.wire, Seg(p.spc.kind, p.spc.todo[0]));
    } else {
      EmitIs(p, o);
      EndedNext(p.wire, Move(p, o, Emit(true)).wire[|p.wire|]);
    }
  }

  lemma NotReported(cq: seq<Completion>, c: Completion)
    requires !BySendThread(c)
    ensures SenderDone(cq + [c]) == SenderDone(cq)
  {
    SenderDoneNext(cq, c);
  }

  lemma HandleReports(p: Peer)
    requires p.rpc.RHandle?
    ensures SenderDone(HandleStep(p).cq) == SenderDone(p.cq)
  {
    if p.rpc.kind.KSend? && p.rqNext < |p.rq| {
      NotReported(p.cq, RecvDone(p.rq[p.rqNext], p.taken));
    } else if p.rpc.kind.KResp? && p.pendNext < |p.pend| {
      NotReported(p.cq, ReadDone(p.pend[p.pendNext]));
    }
  }

  lemma PostReports(p: Peer, o: Peer, r: Req)
    requires ReportedOk(p) && Enabled(p, o, Post(r))
    ensures ReportedOk(Move(p, o, Post(r)))
  {
    ReportsSame(p.app, p.app + [r], Finished(p.appNext, p.spc), Ended(p.wire), Ended(p.wire));
  }

  lemma CqStays(p: Peer, o: Peer, act: Action)
    requires Enabled(p, o, act) && !act.Finish? && !act.Handle? && !act.Emit?
    ensures Move(p, o, act).cq == p.cq
  {
    if act.Take? { assert SameSender(p, TakeStep(p, o.wire[p.taken], act.buf, act.valid)); }
  }

  lemma OthersReport(p: Peer, o: Peer, act: Action)
    requires ReportedOk(p) && Enabled(p, o, act) && !act.Post? && !act.Emit? && !act.Finish? && p.appNext <= |p.app|
    ensures ReportedOk(Move(p, o, act))
  {
    if act.PickApp? || act.PickResp? {
      CqStays(p, o, act);
    } else {
      AppStays(p, o, act);
      OthersLeaveSender(p, o, act);
      if act.Handle? { HandleReports(p); } else { CqStays(p, o, act); }
    }
  }

  lemma MoveKeepsReports(p: Peer, o: Peer, act: Action)
    requires PostedOk(p) && ReportedOk(p) && Enabled(p, o, act)
    ensures ReportedOk(Move(p, o, act))
  {
    if act.Post? {
      PostReports(p, o, act.req);
    } else if act.Emit? {
      EmitReports(p, o, act.ok);
    } else if act.Finish? {
      FinishReports(p);
    } else {
      OthersReport(p, o, act);
    }
  }

  lemma ReportsNext(run: seq<State>, evs: seq<Event>, i: nat, first: bool)
    requires Execution(run, evs) && i < |evs| && ReportedOk(Of(run[i], first))
    ensures ReportedOk(Of(run[i + 1], first))
  {
    ExecutionKeepsInv(run, evs, i);
    PostedStays(run, evs, i, first);
    assert StepAt(run, evs, i);
    if evs[i].first == first { MoveKeepsReports(Of(run[i], first), Of(run[i], !first), evs[i].act); }
  }

  /** Sends and Writes are reported in the order they were posted, each as done if its message went out and as failed if
      not; a Read is reported here only if it failed. */
  lemma {:induction false} ReportsInOrder(run: seq<State>, evs: seq<Event>, i: nat, first: bool)
    requires Execution(run, evs) && i < |run|
    ensures ReportedOk(Of(run[i], first))
  {
    if i == 0 {
      assert InitPeer(Of(run[0], first));
    } else {
      ReportsInOrder(run, evs, i - 1, first);
      ReportsNext(run, evs, i - 1, first);
    }
  }

  // ---------------------------------------------------------------- completions of the receive thread

  /** What the receive thread is about to handle finds its partner: a Send a posted request, a response a pended
      read. */
  ghost predicate Met(p: Peer) {
    p.rpc.RHandle? ==> (p.rpc.kind.KSend? ==> p.rqNext < |p.rq|) && (p.rpc.kind.KResp? ==> p.pendNext < |p.pend|)
  }

  ghost predicate MetUpTo(run: seq<State>, evs: seq<Event>, i: nat, first: bool) {
    i <= |evs| && |evs| < |run| && forall j :: 0 <= j < i && evs[j] == Event(first, Handle) ==> Met(Of(run[j], first))
  }

  /** Every Send and every response that arrived to its end is completed, but for the one to be handled. */
  ghost predicate AllCompleted(rqNext: nat, pendNext: nat, rpc: RecvPc, w: seq<Seg>) {
    && Sends(w) == rqNext + (if rpc.RHandle? && rpc.kind.KSend? then 1 else 0)
    && |Resps(w)| == pendNext + (if rpc.RHandle? && rpc.kind.KResp? then 1 else 0)
  }

  ghost predicate CompletedOk(me: Peer, o: Peer) {
    me.taken <= |o.wire| && AllCompleted(me.rqNext, me.pendNext, me.rpc, o.wire[..me.taken])
  }

  lemma PlaceCompletes(me: Peer, kind: Kind, buf: Buffer, g: Seg, w: seq<Seg>)
    requires AllCompleted(me.rqNext, me.pendNext, me.rpc, w) && !me.rpc.RHandle? && g.kind == kind
    ensures var p := PlaceStep(me, kind, buf, g.chunk); AllCompleted(p.rqNext, p.pendNext, p.rpc, w + [g])
  {
    OneMoreSeg(w, g);
  }

  lemma TakeCompletes(me: Peer, o: Peer, buf: Buffer, valid: bool)
    requires CompletedOk(me, o) && Enabled(me, o, Take(buf, valid))
    requires me.rpc.RMsg? ==> o.wire[me.taken].kind == me.rpc.kind
    ensures CompletedOk(Move(me, o, Take(buf, valid)), o)
  {
    var w, g, p := o.wire[..me.taken], o.wire[me.taken], Move(me, o, Take(buf, valid));
    assert o.wire[..me.taken + 1] == w + [g];
    if me.rpc.RMsg? {
      PlaceCompletes(me, me.rpc.kind, me.rpc.buf, g, w);
    } else {
      FirstCompletes(me, g, w, buf, valid);
    }
  }

  lemma MessageGoesOn(me: Peer, o: Peer)
    requires PairOk(me, o) && WireOk(o.wire) && me.taken < |o.wire|
    ensures me.rpc.RMsg? ==> o.wire[me.taken].kind == me.rpc.kind
  {
    assert me.rpc.RMsg? ==> GoesOn(o.wire, me.taken - 1);
  }

  lemma FirstCompletes(me: Peer, g: Seg, w: seq<Seg>, buf: Buffer, valid: bool)
    requires AllCompleted(me.rqNext, me.pendNext, me.rpc, w) && me.rpc.RIdle?
    ensures var p := TakeStep(me, g, buf, valid);
            AllCompleted(p.rqNext, p.pendNext, p.rpc, if p.rpc.RBroken? then w else w + [g])
  {
    if g.kind.KSend? && me.bufNext < |me.bufs| {
      PlaceCompletes(me.(bufNext := me.bufNext + 1), g.kind, me.bufs[me.bufNext], g, w);
    } else if g.kind.KReq? && buf in me.spare {
      PlaceCompletes(me.(spare := me.spare - multiset{buf}), g.kind, buf, g, w);
    } else if (g.kind.KWrite? || g.kind.KResp?) && valid {
      PlaceCompletes(me, g.kind, 0, g, w);
    }
  }

  lemma HandleCompletes(me: Peer, o: Peer)
    requires CompletedOk(me, o) && me.rpc.RHandle? && Met(me)
    ensures CompletedOk(HandleStep(me), o)
  {
  }

  lemma OthersComplete(me: Peer, o: Peer, act: Action)
    requires Enabled(me, o, act) && !act.Take? && !act.Handle? && CompletedOk(me, o)
    ensures CompletedOk(Move(me, o, act), o)
  {
    if act.Finish? { FinishLeavesReceiver(me); }
  }

  lemma FinishLeavesReceiver(p: Peer)
    requires p.spc.SDone? || p.spc.SFail?
    ensures var p' := FinishStep(p);
            p'.rqNext == p.rqNext && p'.pendNext == p.pendNext && p'.rpc == p.rpc && p'.taken == p.taken
  {
  }

  lemma CompletedNext(run: seq<State>, evs: seq<Event>, i: nat, first: bool)
    requires Execution(run, evs) && i < |evs| && MetUpTo(run, evs, i + 1, first)
    requires CompletedOk(Of(run[i], first), Of(run[i], !first))
    ensures CompletedOk(Of(run[i + 1], first), Of(run[i + 1], !first))
  {
    ExecutionKeepsInv(run, evs, i);
    assert StepAt(run, evs, i);
    var me, o := Of(run[i], first), Of(run[i], !first);
    if evs[i].first != first { OtherCompletes(me, o, evs[i].act); } else { MoveCompletes(me, o, evs[i].act); }
  }

  lemma OtherCompletes(me: Peer, o: Peer, act: Action)
    requires CompletedOk(me, o) && Enabled(o, me, act)
    ensures CompletedOk(me, Move(o, me, act))
  {
    WireOnlyGrows(o, me, act);
    assert Move(o, me, act).wire[..me.taken] == o.wire[..me.taken];
  }

  lemma MoveCompletes(me: Peer, o: Peer, act: Action)
    requires PairOk(me, o) && WireOk(o.wire) && CompletedOk(me, o) && Enabled(me, o, act) && (act.Handle? ==> Met(me))
    ensures CompletedOk(Move(me, o, act), o)
  {
    if act.Take? {
      MessageGoesOn(me, o);
      TakeCompletes(me, o, act.buf, act.valid);
    } else if act.Handle? {
      HandleCompletes(me, o);
    } else {
      OthersComplete(me, o, act);
    }
  }

  lemma {:induction false} CompletedStays(run: seq<State>, evs: seq<Event>, i: nat, first: bool)
    requires Execution(run, evs) && i < |run| && MetUpTo(run, evs, i, first)
    ensures CompletedOk(Of(run[i], first), Of(run[i], !first))
  {
    if i == 0 {
      assert InitPeer(Of(run[0], first)) && InitPeer(Of(run[0], !first));
    } else {
      CompletedStays(run, evs, i - 1, first);
      CompletedNext(run, evs, i - 1, first);
    }
  }

  /** When each Send that was handled found a receive request and each response a pended read, as many receives have
      completed as Sends were handled, and as many reads as responses. */
  lemma EveryArrivalCompletes(run: seq<State>, evs: seq<Event>, i: nat, first: bool)
    requires Execution(run, evs) && i < |run| && MetUpTo(run, evs, i, first)
    ensures var me, w := Of(run[i], first), Of(run[i], !first).wire;
            && me.taken <= |w|
            && Sends(w[..me.taken])
               == |RecvsDone(me.cq)| + (if me.rpc.RHandle? && me.rpc.kind.KSend? then 1 else 0)
            && |Resps(w[..me.taken])|
               == |ReadsDone(me.cq)| + (if me.rpc.RHandle? && me.rpc.kind.KResp? then 1 else 0)
  {
    ExecutionKeepsInv(run, evs, i);
    CompletedStays(run, evs, i, first);
  }

  // ---------------------------------------------------------------- what breaks the receive thread

  lemma FirstIsRefusedIff(me: Peer, g: Seg, buf: Buffer, valid: bool)
    requires me.rpc.RIdle? && (g.kind.KReq? && me.spare != multiset{} ==> buf in me.spare)
    ensures TakeStep(me, g, buf, valid).rpc.RBroken?
       <==> if g.kind.KSend? then me.bufNext >= |me.bufs| else if g.kind.KReq? then me.spare == multiset{} else !valid
  {
  }

  /** A receive thread that is between messages stops at the next one exactly when it is a Send for which no buffer has
      been posted yet, a read request and there are no read buffers at all, or a tagged message with an invalid
      target. */
  lemma StopsExactlyWhen(run: seq<State>, evs: seq<Event>, i: nat, first: bool, buf: Buffer, valid: bool)
    requires Execution(run, evs) && i < |evs| && evs[i] == Event(first, Take(buf, valid))
             && Of(run[i], first).rpc.RIdle?
    ensures var me, w := Of(run[i], first), Of(run[i], !first).wire;
            && me.taken < |w| && var kind := w[me.taken].kind;
            Of(run[i + 1], first).rpc.RBroken?
            <==> if kind.KSend? then |me.bufs| <= Sends(w[..me.taken])
                 else if kind.KReq? then me.pool == multiset{} else !valid
  {
    ExecutionKeepsInv(run, evs, i);
    assert StepAt(run, evs, i);
    StopsIff(Of(run[i], first), Of(run[i], !first), buf, valid);
  }

  lemma StopsIff(me: Peer, o: Peer, buf: Buffer, valid: bool)
    requires PairOk(me, o) && me.rpc.RIdle? && Enabled(me, o, Take(buf, valid))
    ensures var w, kind := o.wire, o.wire[me.taken].kind;
            TakeStep(me, w[me.taken], buf, valid).rpc.RBroken?
            <==> if kind.KSend? then |me.bufs| <= Sends(w[..me.taken])
                 else if kind.KReq? then me.pool == multiset{} else !valid
  {
    FirstIsRefusedIff(me, o.wire[me.taken], buf, valid);
    IdleCounts(me, o);
  }

  lemma IdleCounts(me: Peer, o: Peer)
    requires PairOk(me, o) && me.rpc.RIdle?
    ensures me.bufNext == Sends(o.wire[..me.taken]) && me.spare == me.pool
  {
    assert PoolOk(me.pool, me.spare, me.rpc);
  }

  /** Inside a message it never stops. */
  lemma NeverStopsInside(run: seq<State>, evs: seq<Event>, i: nat, first: bool, buf: Buffer, valid: bool)
    requires Execution(run, evs) && i < |evs| && evs[i] == Event(first, Take(buf, valid)) && Of(run[i], first).rpc.RMsg?
    ensures var me, me' := Of(run[i], first), Of(run[i + 1], first);
            (me'.rpc.RMsg? || me'.rpc.RHandle?) && me'.rpc.kind == me.rpc.kind && me'.taken == me.taken + 1
  {
    assert StepAt(run, evs, i);
  }
}
