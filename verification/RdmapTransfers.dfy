/** Whole transfers: what is posted is what an application posted, and from every quiet state of every run a Write or a
    Send, once posted, can run through to its completion on both sides with its bytes in place. */
module RdmapTransfers {
  import opened Options
  import opened Wire
  import opened Ddp
  import opened Rdmap
  import opened RdmapSafety
  import opened RdmapRuns
  import opened RdmapReads
  import opened RdmapPipelined
  import opened RdmapPosts

  // ---------------------------------------------------------------- what was posted

  /** The requests that one application posted in the first `i` steps. */
  ghost function PostsOf(evs: seq<Event>, i: nat, first: bool): seq<Req>
    requires i <= |evs|
  {
    if i == 0 then []
    else PostsOf(evs, i - 1, first)
         + if evs[i - 1].first == first && evs[i - 1].act.Post? then [evs[i - 1].act.req] else []
  }

  lemma AppMoves(p: Peer, o: Peer, act: Action)
    requires Enabled(p, o, act)
    ensures Move(p, o, act).app == p.app + if act.Post? then [act.req] else []
  {
    if act.Emit? { EmitLeavesApp(p, o, act.ok); } else if !act.Post? && !act.PickApp? { AppStays(p, o, act); }
  }

  lemma EmitLeavesApp(p: Peer, o: Peer, ok: bool)
    requires Enabled(p, o, Emit(ok))
    ensures Move(p, o, Emit(ok)).app == p.app
  {
  }

  /** Nothing is dropped between the application and the send queue. */
  lemma {:induction false} AppIsPosted(run: seq<State>, evs: seq<Event>, i: nat, first: bool)
    requires Execution(run, evs) && i < |run|
    ensures Of(run[i], first).app == PostsOf(evs, i, first)
  {
    if i == 0 {
      assert InitPeer(Of(run[0], first));
    } else {
      AppIsPosted(run, evs, i - 1, first);
      assert StepAt(run, evs, i - 1);
      if evs[i - 1].first == first { AppMoves(Of(run[i - 1], first), Of(run[i - 1], !first), evs[i - 1].act); }
    }
  }

  // ---------------------------------------------------------------- a message on its way

  function SegsOf(kind: Kind, chunks: seq<Chunk>): seq<Seg> {
    if chunks == [] then [] else [Seg(kind, chunks[0])] + SegsOf(kind, chunks[1..])
  }

  /** A receiver that took all of the chunks. */
  function AllPlaced(p: Peer, kind: Kind, buf: Buffer, chunks: seq<Chunk>): Peer
    decreases |chunks|
  {
    if chunks == [] then p else AllPlaced(PlaceStep(p, kind, buf, chunks[0]), kind, buf, chunks[1..])
  }

  ghost predicate OnItsWay(s: State, kind: Kind, buf: Buffer, todo: seq<Chunk>) {
    && s.a.spc == SChunks(kind, todo) && !s.a.dead && TodoOk(todo)
    && s.b.rpc == RMsg(kind, buf) && s.b.taken == |s.a.wire|
  }

  function Arrived(s: State, kind: Kind, buf: Buffer, todo: seq<Chunk>): State {
    State(s.a.(wire := s.a.wire + SegsOf(kind, todo), spc := SDone(kind)), AllPlaced(s.b, kind, buf, todo))
  }

  /** The state after the sender sent the next chunk and the receiver took it. */
  function OneMore(s: State, kind: Kind, buf: Buffer, todo: seq<Chunk>): State
    requires todo != []
  {
    State(s.a.(wire := s.a.wire + [Seg(kind, todo[0])], spc := Next(kind, todo)), PlaceStep(s.b, kind, buf, todo[0]))
  }

  lemma ChunkGoes(run: seq<State>, evs: seq<Event>, s: State, kind: Kind, buf: Buffer, todo: seq<Chunk>)
    returns (run': seq<State>, evs': seq<Event>)
    requires EndsIn(run, evs, s) && OnItsWay(s, kind, buf, todo)
    ensures EndsIn(run', evs', OneMore(s, kind, buf, todo)) && run'[0] == run[0]
  {
    EmitChunkIs(s.a, s.b);
    var s1 := Step(s, Event(true, Emit(true)));
    run', evs' := Extend(run, evs, s, Event(true, Emit(true)));
    TakesNext(s1.b, s1.a, kind, buf, todo[0]);
    run', evs' := Extend(run', evs', s1, Event(false, Take(0, true)));
  }

  lemma TakesNext(p: Peer, o: Peer, kind: Kind, buf: Buffer, c: Chunk)
    requires p.taken < |o.wire| && o.wire[p.taken] == Seg(kind, c) && p.rpc == RMsg(kind, buf)
    ensures Enabled(p, o, Take(0, true)) && Move(p, o, Take(0, true)) == PlaceStep(p, kind, buf, c)
  {
  }

  lemma TodoTail(todo: seq<Chunk>)
    requires TodoOk(todo) && |todo| > 1
    ensures TodoOk(todo[1..]) && !todo[0].last
  {
    var rest := todo[1..];
    forall i | 0 <= i < |rest| ensures rest[i].last == (i == |rest| - 1) { assert rest[i] == todo[i + 1]; }
  }

  lemma ArrivedNext(s: State, kind: Kind, buf: Buffer, todo: seq<Chunk>)
    requires |todo| > 0
    ensures Arrived(OneMore(s, kind, buf, todo), kind, buf, todo[1..]) == Arrived(s, kind, buf, todo)
  {
    assert s.a.wire + [Seg(kind, todo[0])] + SegsOf(kind, todo[1..]) == s.a.wire + SegsOf(kind, todo);
  }

  lemma {:induction false} MessageGoes(run: seq<State>, evs: seq<Event>, s: State, kind: Kind, buf: Buffer,
                                       todo: seq<Chunk>)
    returns (run': seq<State>, evs': seq<Event>)
    requires EndsIn(run, evs, s) && OnItsWay(s, kind, buf, todo)
    ensures EndsIn(run', evs', Arrived(s, kind, buf, todo)) && run'[0] == run[0]
    decreases |todo|
  {
    run', evs' := ChunkGoes(run, evs, s, kind, buf, todo);
    ArrivedNext(s, kind, buf, todo);
    var s' := OneMore(s, kind, buf, todo);
    if |todo| > 1 {
      TodoTail(todo);
      run', evs' := MessageGoes(run', evs', s', kind, buf, todo[1..]);
    } else {
      assert todo[1..] == [] && s'.a.wire + [] == s'.a.wire;
    }
  }

  // ---------------------------------------------------------------- from the post on

  /** Both sides are between messages, and everything sent was taken. */
  ghost predicate Quiet(s: State) {
    && s.a.spc.SIdle? && s.a.appNext == |s.a.app| && !s.a.dead && s.b.rpc.RIdle? && s.b.taken == |s.a.wire|
  }

  function Posted(p: Peer, r: Req): Peer {
    p.(app := p.app + [r], appNext := p.appNext + 1, spc := SChunks(KindOf(r), ChunksOf(r)))
  }

  lemma PostsAndPicks(run: seq<State>, evs: seq<Event>, s: State, r: Req)
    returns (run': seq<State>, evs': seq<Event>)
    requires EndsIn(run, evs, s) && Quiet(s) && (r.Send? || r.Write?) && Closes(r.sges)
    ensures EndsIn(run', evs', s.(a := Posted(s.a, r))) && run'[0] == run[0]
  {
    var s1 := s.(a := s.a.(app := s.a.app + [r]));
    run', evs' := Extend(run, evs, s, Event(true, Post(r)));
    run', evs' := Extend(run', evs', s1, Event(true, PickApp));
  }

  /** The receiver at the first segment of a Write, or of a Send for which there is a buffer. */
  function Starts(p: Peer, kind: Kind): Peer { if kind.KSend? then p.(bufNext := p.bufNext + 1) else p }

  function BufferFor(p: Peer, kind: Kind): Buffer {
    if kind.KSend? && p.bufNext < |p.bufs| then p.bufs[p.bufNext] else 0
  }

  lemma TakesFirst(p: Peer, o: Peer, kind: Kind, c: Chunk)
    requires p.taken < |o.wire| && o.wire[p.taken] == Seg(kind, c) && p.rpc.RIdle?
    requires kind.KWrite? || (kind.KSend? && p.bufNext < |p.bufs|)
    ensures Enabled(p, o, Take(0, true))
    ensures Move(p, o, Take(0, true)) == PlaceStep(Starts(p, kind), kind, BufferFor(p, kind), c)
  {
  }

  lemma FirstGoes(run: seq<State>, evs: seq<Event>, s: State, kind: Kind, todo: seq<Chunk>)
    returns (run': seq<State>, evs': seq<Event>)
    requires EndsIn(run, evs, s) && s.a.spc == SChunks(kind, todo) && !s.a.dead && TodoOk(todo)
    requires s.b.rpc.RIdle? && s.b.taken == |s.a.wire| && (kind.KWrite? || (kind.KSend? && s.b.bufNext < |s.b.bufs|))
    ensures EndsIn(run', evs', OneMore(s.(b := Starts(s.b, kind)), kind, BufferFor(s.b, kind), todo))
            && run'[0] == run[0]
  {
    EmitChunkIs(s.a, s.b);
    var s1 := Step(s, Event(true, Emit(true)));
    run', evs' := Extend(run, evs, s, Event(true, Emit(true)));
    TakesFirst(s1.b, s1.a, kind, todo[0]);
    run', evs' := Extend(run', evs', s1, Event(false, Take(0, true)));
  }

  /** The whole message, from the first segment to the last. */
  lemma AllGoes(run: seq<State>, evs: seq<Event>, s: State, kind: Kind, todo: seq<Chunk>)
    returns (run': seq<State>, evs': seq<Event>)
    requires EndsIn(run, evs, s) && s.a.spc == SChunks(kind, todo) && !s.a.dead && TodoOk(todo)
    requires s.b.rpc.RIdle? && s.b.taken == |s.a.wire| && (kind.KWrite? || (kind.KSend? && s.b.bufNext < |s.b.bufs|))
    ensures EndsIn(run', evs', Arrived(s.(b := Starts(s.b, kind)), kind, BufferFor(s.b, kind), todo))
            && run'[0] == run[0]
  {
    var buf, s0 := BufferFor(s.b, kind), s.(b := Starts(s.b, kind));
    run', evs' := FirstGoes(run, evs, s, kind, todo);
    ArrivedNext(s0, kind, buf, todo);
    var s' := OneMore(s0, kind, buf, todo);
    if |todo| > 1 {
      TodoTail(todo);
      run', evs' := MessageGoes(run', evs', s', kind, buf, todo[1..]);
    } else {
      assert todo[1..] == [] && s'.a.wire + [] == s'.a.wire;
    }
  }

  // ---------------------------------------------------------------- what the receiver has then

  /** The parts of a receiver that taking segments leaves alone. */
  ghost predicate SameButTaken(p: Peer, p': Peer) {
    && p'.cq == p.cq && p'.rq == p.rq && p'.rqNext == p.rqNext && p'.bufs == p.bufs && p'.bufNext == p.bufNext
    && p'.pend == p.pend && p'.pendNext == p.pendNext && p'.spc == p.spc && p'.wire == p.wire && p'.dead == p.dead
  }

  lemma {:induction false} AllPlacedKeeps(p: Peer, kind: Kind, buf: Buffer, chunks: seq<Chunk>)
    requires chunks == [] || TodoOk(chunks)
    ensures var p' := AllPlaced(p, kind, buf, chunks);
            SameButTaken(p, p') && p'.taken == p.taken + |chunks| && (chunks != [] ==> p'.rpc == RHandle(kind, buf))
    decreases |chunks|
  {
    if |chunks| > 1 { TodoTail(chunks); }
    if chunks != [] { AllPlacedKeeps(PlaceStep(p, kind, buf, chunks[0]), kind, buf, chunks[1..]); }
  }

  lemma {:induction false} SegsLength(kind: Kind, chunks: seq<Chunk>)
    ensures |SegsOf(kind, chunks)| == |chunks|
  {
    if chunks != [] { SegsLength(kind, chunks[1..]); }
  }

  /** The segments of a Write add up to its bytes at its address. */
  lemma {:induction false} WritePlaces(p: Peer, kind: Kind, chunks: seq<Chunk>, offset: nat, data: seq<byte>, at: nat)
    requires kind.KWrite? && Partition(chunks, offset, data, true) && at == kind.to + offset
    ensures AllPlaced(p, kind, 0, chunks).mem == Place(p.mem, at, data)
    decreases |chunks|
  {
    var c := chunks[0];
    var p' := PlaceStep(p, kind, 0, c);
    assert p'.mem == Place(p.mem, at, c.payload);
    if |chunks| == 1 {
      assert chunks[1..] == [] && c.payload == data;
    } else {
      var n, y := PartitionHead(chunks, offset, data, true);
      WritePlaces(p', kind, chunks[1..], offset + n, y, at + n);
      PlaceAppend(p.mem, at, c.payload, y);
    }
  }

  /** Those of a Send land where the receiver reads their offsets. */
  lemma {:induction false} SendPlaces(p: Peer, kind: Kind, buf: Buffer, chunks: seq<Chunk>)
    requires kind.KSend?
    ensures AllPlaced(p, kind, buf, chunks).mem == PlaceLanded(p.mem, buf, chunks)
    decreases |chunks|
  {
    if chunks != [] { SendPlaces(PlaceStep(p, kind, buf, chunks[0]), kind, buf, chunks[1..]); }
  }

  // ---------------------------------------------------------------- whole transfers

  lemma Reported(p: Peer, o: Peer, kind: Kind)
    requires p.spc == SDone(kind) && (kind.KSend? || kind.KWrite?)
    ensures Enabled(p, o, Finish)
    ensures Move(p, o, Finish)
         == p.(spc := SIdle, cq := p.cq + [if kind.KSend? then SendDone(kind.id) else WriteDone(kind.id)])
  {
  }

  lemma MessageArrives(run: seq<State>, evs: seq<Event>, s: State, r: Req) returns (run': seq<State>, evs': seq<Event>)
    requires EndsIn(run, evs, s) && Quiet(s) && (r.Write? || (r.Send? && s.b.bufNext < |s.b.bufs|)) && Closes(r.sges)
    ensures |run'| > 0 && Execution(run', evs') && run'[0] == run[0]
    ensures Last(run').a.cq == s.a.cq + [if r.Send? then SendDone(r.id) else WriteDone(r.id)]
    ensures var kind := KindOf(r); var p := AllPlaced(Starts(s.b, kind), kind, BufferFor(s.b, kind), Chunks(r.sges, 0));
            p.rpc.RHandle? && Last(run').b == HandleStep(p)
  {
    var kind, chunks := KindOf(r), Chunks(r.sges, 0);
    ChunksTodo(r.sges);
    AllPlacedKeeps(Starts(s.b, kind), kind, BufferFor(s.b, kind), chunks);
    var s1 := s.(a := Posted(s.a, r));
    var s2 := Arrived(s1.(b := Starts(s1.b, kind)), kind, BufferFor(s1.b, kind), chunks);
    run', evs' := PostsAndPicks(run, evs, s, r);
    run', evs' := AllGoes(run', evs', s1, kind, chunks);
    Reported(s2.a, s2.b, kind);
    run', evs' := Extend(run', evs', s2, Event(true, Finish));
    run', evs' := Extend(run', evs', Step(s2, Event(true, Finish)), Event(false, Handle));
  }

  /** From every quiet state of every run, a Write that is posted can run through: it is reported as done, and the other
      peer's memory is what it was with exactly the posted bytes at the posted address. */
  lemma WriteRunsThrough(run: seq<State>, evs: seq<Event>, s: State, r: Req)
    returns (run': seq<State>, evs': seq<Event>)
    requires EndsIn(run, evs, s) && Quiet(s) && r.Write? && Closes(r.sges)
    ensures |run'| > 0 && Execution(run', evs') && run'[0] == run[0] && var t := Last(run');
            && t.a.cq == s.a.cq + [WriteDone(r.id)] && t.b.mem == Place(s.b.mem, r.to, AllSent(r.sges))
            && t.b.cq == s.b.cq && t.b.rpc.RIdle?
  {
    var kind, chunks := KindOf(r), Chunks(r.sges, 0);
    run', evs' := MessageArrives(run, evs, s, r);
    ChunksTodo(r.sges);
    AllPlacedKeeps(s.b, kind, 0, chunks);
    ChunksPartition(r.sges, 0);
    WritePlaces(s.b, kind, chunks, 0, AllSent(r.sges), r.to);
  }

  /** A Send likewise, with a buffer and a receive request posted: both sides complete, and its segments are in the
      buffer where the receiver reads their offsets. */
  lemma SendRunsThrough(run: seq<State>, evs: seq<Event>, s: State, r: Req) returns (run': seq<State>, evs': seq<Event>)
    requires EndsIn(run, evs, s) && Quiet(s) && r.Send? && Closes(r.sges)
    requires s.b.bufNext < |s.b.bufs| && s.b.rqNext < |s.b.rq|
    ensures |run'| > 0 && Execution(run', evs') && run'[0] == run[0] && var t := Last(run');
            && t.a.cq == s.a.cq + [SendDone(r.id)]
            && t.b.mem == PlaceLanded(s.b.mem, s.b.bufs[s.b.bufNext], Chunks(r.sges, 0))
            && t.b.cq == s.b.cq + [RecvDone(s.b.rq[s.b.rqNext], t.b.taken)] && t.b.rpc.RIdle?
  {
    var kind, chunks, buf := KindOf(r), Chunks(r.sges, 0), s.b.bufs[s.b.bufNext];
    run', evs' := MessageArrives(run, evs, s, r);
    ChunksTodo(r.sges);
    AllPlacedKeeps(Starts(s.b, kind), kind, buf, chunks);
    SendPlaces(Starts(s.b, kind), kind, buf, chunks);
  }
}
