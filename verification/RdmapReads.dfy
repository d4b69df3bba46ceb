/** Reads from their posting to their completion: the k-th completion follows the whole response to the k-th read, and
    with one read outstanding at a time that response is the source range of the read, byte for byte. */
module RdmapReads {
  import opened Options
  import opened Wire
  import opened Ddp
  import opened Rdmap
  import opened RdmapSafety
  import opened RdmapRuns

  // ---------------------------------------------------------------- reads that are answered

  /** A length that is a positive number after its conversion to a signed 32-bit one: only such a read gets a
      response. */
  predicate Sendable(f: Fields) { 0 < f.len < INT_MAX_PLUS_1 }

  predicate AskOk(kind: Kind) { kind.KReq? ==> Sendable(kind.fields) }

  /** All the reads posted by one peer are of that kind. */
  ghost predicate SendablePosts(evs: seq<Event>, first: bool) {
    forall i :: 0 <= i < |evs| && evs[i].first == first && evs[i].act.Post? ==> AskOk(KindOf(evs[i].act.req))
  }

  ghost predicate AsksOk(app: seq<Req>, spc: SendPc, wire: seq<Seg>) {
    && (forall i :: 0 <= i < |app| ==> AskOk(KindOf(app[i])))
    && (spc.SChunks? ==> AskOk(spc.kind))
    && (forall y :: 0 <= y < |wire| ==> AskOk(wire[y].kind))
  }

  lemma EmitKeepsAsks(p: Peer, o: Peer, ok: bool)
    requires AsksOk(p.app, p.spc, p.wire) && Enabled(p, o, Emit(ok))
    ensures var p' := Move(p, o, Emit(ok)); AsksOk(p'.app, p'.spc, p'.wire)
  {
  }

  lemma MoveKeepsAsks(p: Peer, o: Peer, act: Action)
    requires AsksOk(p.app, p.spc, p.wire) && Enabled(p, o, act) && (act.Post? ==> AskOk(KindOf(act.req)))
    ensures var p' := Move(p, o, act); AsksOk(p'.app, p'.spc, p'.wire)
  {
    match act
    case Emit(ok) => EmitKeepsAsks(p, o, ok);
    case Take(b, valid) => assert SameSender(p, TakeStep(p, o.wire[p.taken], b, valid));
    case _ =>
  }

  lemma {:induction false} AsksStay(run: seq<State>, evs: seq<Event>, i: nat, first: bool)
    requires Execution(run, evs) && SendablePosts(evs, first) && i < |run|
    ensures var p := Of(run[i], first); AsksOk(p.app, p.spc, p.wire)
  {
    if i > 0 {
      AsksStay(run, evs, i - 1, first);
      assert StepAt(run, evs, i - 1);
      if evs[i - 1].first == first { MoveKeepsAsks(Of(run[i - 1], first), Of(run[i - 1], !first), evs[i - 1].act); }
    }
  }

  lemma {:induction false} ReqsSendable(w: seq<Seg>, m: nat)
    requires (forall y :: 0 <= y < |w| ==> AskOk(w[y].kind)) && m < |Reqs(w)|
    ensures Sendable(Reqs(w)[m])
  {
    if w != [] {
      var v := w[..|w| - 1];
      if m < |Reqs(v)| { ReqsSendable(v, m); } else { assert AskOk(w[|w| - 1].kind); }
    }
  }

  lemma LatestSendable(p: Peer, o: Peer)
    requires PairOk(p, o) && AsksOk(o.app, o.spc, o.wire)
    ensures Latest(p).Some? ==> Sendable(Latest(p).value)
  {
    var w := o.wire[..p.taken];
    assert forall y :: 0 <= y < |w| ==> AskOk(w[y].kind);
    assert RequestsOk(p.resp, p.rpc, w);
    if p.rpc.REnqueue? {
      ReqsSendable(w, |p.resp|);
    } else if p.resp != [] {
      ReqsSendable(w, |p.resp| - 1);
    }
  }

  // ---------------------------------------------------------------- every request gets its response

  /** The responses completed are those to the first requests, and no request was passed over. */
  ghost predicate AllAnswered(dead: bool, spc: SendPc, respNext: nat, wire: seq<Seg>) {
    && (forall m :: 0 <= m < |Resps(wire)| ==> Resps(wire)[m] == m)
    && (!dead ==> |Resps(wire)| == if spc.SResp? then spc.k else respNext)
  }

  lemma AnsweredGrows(dead: bool, spc: SendPc, spc': SendPc, respNext: nat, w: seq<Seg>, g: Seg)
    requires AllAnswered(dead, spc, respNext, w) && !dead
    requires spc.SResp? ==> g.kind.KResp? && g.kind.k == spc.k && respNext == spc.k + 1
    requires spc.SResp? ==> if g.chunk.last then !spc'.SResp? else spc'.SResp? && spc'.k == spc.k
    requires !spc.SResp? ==> !g.kind.KResp? && !spc'.SResp?
    ensures AllAnswered(dead, spc', respNext, w + [g])
  {
    OneMoreSeg(w, g);
  }

  lemma EmitKeepsAnswered(p: Peer, o: Peer)
    requires AllAnswered(p.dead, p.spc, p.respNext, p.wire) && Enabled(p, o, Emit(true)) && !p.dead
    requires p.spc.SResp? ==> p.respNext == p.spc.k + 1
    requires p.spc.SChunks? ==> !p.spc.kind.KResp?
    ensures var p' := Move(p, o, Emit(true)); AllAnswered(p'.dead, p'.spc, p'.respNext, p'.wire)
  {
    var p' := Move(p, o, Emit(true));
    if p.spc.SChunks? {
      AnsweredGrows(p.dead, p.spc, p'.spc, p.respNext, p.wire, Seg(p.spc.kind, p.spc.todo[0]));
    } else {
      EmitIs(p, o);
      AnsweredGrows(p.dead, p.spc, p'.spc, p.respNext, p.wire, p'.wire[|p.wire|]);
    }
  }

  lemma PickKeepsAnswered(p: Peer, o: Peer)
    requires AllAnswered(p.dead, p.spc, p.respNext, p.wire) && Enabled(p, o, PickResp)
    requires LatestOk(p) && (Latest(p).Some? ==> Sendable(Latest(p).value))
    ensures var p' := Move(p, o, PickResp); AllAnswered(p'.dead, p'.spc, p'.respNext, p'.wire)
  {
  }

  lemma MoveKeepsAnswered(p: Peer, o: Peer, act: Action)
    requires AllAnswered(p.dead, p.spc, p.respNext, p.wire) && Enabled(p, o, act) && TxOk(p)
    requires LatestOk(p) && (Latest(p).Some? ==> Sendable(Latest(p).value))
    ensures var p' := Move(p, o, act); AllAnswered(p'.dead, p'.spc, p'.respNext, p'.wire)
  {
    if act.PickResp? {
      PickKeepsAnswered(p, o);
    } else if act.Emit? && act.ok && !p.dead {
      EmitKeepsAnswered(p, o);
    } else if act.Finish? {
      FinishLeaves(p, o);
    } else if !BySender(act) {
      OthersLeaveSender(p, o, act);
    }
  }

  lemma AnsweredNext(s: State, e: Event, first: bool)
    requires Inv(s) && CanStep(s, e) && LatestOk(Of(s, first))
    requires var o := Of(s, !first); AsksOk(o.app, o.spc, o.wire)
    requires var p := Of(s, first); AllAnswered(p.dead, p.spc, p.respNext, p.wire)
    ensures var p := Of(Step(s, e), first); AllAnswered(p.dead, p.spc, p.respNext, p.wire)
  {
    LatestSendable(Of(s, first), Of(s, !first));
    if e.first == first { MoveKeepsAnswered(Of(s, first), Of(s, !first), e.act); }
  }

  lemma AnsweredAtFirst(s: State, first: bool)
    requires Init(s)
    ensures var p := Of(s, first); AllAnswered(p.dead, p.spc, p.respNext, p.wire)
  {
    var p := Of(s, first);
    assert p.wire == [] && p.spc == SIdle && p.respNext == 0;
  }

  lemma AnsweredLater(run: seq<State>, evs: seq<Event>, i: nat, first: bool)
    requires Execution(run, evs) && SendablePosts(evs, !first) && i < |evs|
    requires var p := Of(run[i], first); AllAnswered(p.dead, p.spc, p.respNext, p.wire)
    ensures var p := Of(run[i + 1], first); AllAnswered(p.dead, p.spc, p.respNext, p.wire)
  {
    assert StepAt(run, evs, i);
    ExecutionKeepsInv(run, evs, i);
    LatestStays(run, evs, i, first);
    AsksStay(run, evs, i, !first);
    AnsweredNext(run[i], evs[i], first);
  }

  lemma {:induction false} AnsweredStays(run: seq<State>, evs: seq<Event>, i: nat, first: bool)
    requires Execution(run, evs) && SendablePosts(evs, !first) && i < |run|
    ensures var p := Of(run[i], first); AllAnswered(p.dead, p.spc, p.respNext, p.wire)
  {
    if i == 0 {
      AnsweredAtFirst(run[0], first);
    } else {
      AnsweredStays(run, evs, i - 1, first);
      AnsweredLater(run, evs, i - 1, first);
    }
  }

  // ---------------------------------------------------------------- segments without gap

  /** Where the next segment on the channel starts in its message. */
  ghost function Continues(w: seq<Seg>): nat {
    if w == [] || w[|w| - 1].chunk.last then 0 else w[|w| - 1].chunk.offset + |w[|w| - 1].chunk.payload|
  }

  ghost predicate Follows(w: seq<Seg>, y: nat) { y < |w| && w[y].chunk.offset == Continues(w[..y]) }

  ghost predicate NextTo(todo: seq<Chunk>, i: nat) {
    i + 1 < |todo| ==> todo[i + 1].offset == todo[i].offset + |todo[i].payload|
  }

  ghost predicate NoGaps(dead: bool, spc: SendPc, wire: seq<Seg>) {
    && (forall y :: 0 <= y < |wire| ==> Follows(wire, y))
    && (!dead && spc.SResp? ==> spc.off == Continues(wire))
    && (!dead && spc.SChunks? ==> spc.todo != [] && spc.todo[0].offset == Continues(wire))
    && (spc.SChunks? ==> forall i :: 0 <= i < |spc.todo| ==> NextTo(spc.todo, i))
  }

  lemma {:induction false} PartitionNextTo(chunks: seq<Chunk>, offset: nat, data: seq<byte>, closes: bool, i: nat)
    requires Partition(chunks, offset, data, closes) && i < |chunks|
    ensures chunks[0].offset == offset && NextTo(chunks, i)
  {
    if i > 0 {
      PartitionNextTo(chunks[1..], offset + |chunks[0].payload|, data[|chunks[0].payload|..], closes, i - 1);
    }
  }

  lemma ChunksNextTo(r: Req)
    requires r.Read? || Closes(r.sges)
    ensures var todo := ChunksOf(r);
            todo != [] && todo[0].offset == 0 && forall i :: 0 <= i < |todo| ==> NextTo(todo, i)
  {
    if !r.Read? {
      var todo := ChunksOf(r);
      ChunksPartition(r.sges, 0);
      forall i: nat | i < |todo| ensures NextTo(todo, i) { PartitionNextTo(todo, 0, AllSent(r.sges), true, i); }
      PartitionNextTo(todo, 0, AllSent(r.sges), true, 0);
    }
  }

  lemma FollowsGrows(w: seq<Seg>, g: Seg)
    requires (forall y :: 0 <= y < |w| ==> Follows(w, y)) && g.chunk.offset == Continues(w)
    ensures forall y :: 0 <= y < |w + [g]| ==> Follows(w + [g], y)
  {
    var w' := w + [g];
    forall y: nat | y < |w'| ensures Follows(w', y) {
      assert w'[..y] == w[..y];
      if y < |w| { assert Follows(w, y); } else { assert w[..y] == w; }
    }
  }

  lemma EmitChunkNoGaps(p: Peer, o: Peer)
    requires NoGaps(p.dead, p.spc, p.wire) && TxOk(p) && p.spc.SChunks? && Enabled(p, o, Emit(true)) && !p.dead
    ensures var p' := Move(p, o, Emit(true)); NoGaps(p'.dead, p'.spc, p'.wire)
  {
    var todo := p.spc.todo;
    FollowsGrows(p.wire, Seg(p.spc.kind, todo[0]));
    if |todo| > 1 {
      var rest := todo[1..];
      assert NextTo(todo, 0);
      forall i: nat | i < |rest| ensures NextTo(rest, i) { assert NextTo(todo, i + 1); }
    }
  }

  lemma EmitRespNoGaps(p: Peer, o: Peer)
    requires NoGaps(p.dead, p.spc, p.wire) && TxOk(p) && p.spc.SResp? && Enabled(p, o, Emit(true)) && !p.dead
    ensures var p' := Move(p, o, Emit(true)); NoGaps(p'.dead, p'.spc, p'.wire)
  {
    EmitIs(p, o);
    var p' := Move(p, o, Emit(true));
    FollowsGrows(p.wire, p'.wire[|p.wire|]);
  }

  lemma MoveKeepsNoGaps(p: Peer, o: Peer, act: Action)
    requires NoGaps(p.dead, p.spc, p.wire) && TxOk(p) && Enabled(p, o, act)
    ensures var p' := Move(p, o, act); NoGaps(p'.dead, p'.spc, p'.wire)
  {
    if act.PickApp? {
      ChunksNextTo(p.app[p.appNext]);
    } else if act.Emit? && act.ok && !p.dead {
      if p.spc.SChunks? { EmitChunkNoGaps(p, o); } else { EmitRespNoGaps(p, o); }
    } else if act.Finish? {
      FinishLeaves(p, o);
    } else if !BySender(act) {
      OthersLeaveSender(p, o, act);
    }
  }

  lemma NoGapsNext(s: State, e: Event, first: bool)
    requires Inv(s) && CanStep(s, e)
    requires var p := Of(s, first); NoGaps(p.dead, p.spc, p.wire)
    ensures var p := Of(Step(s, e), first); NoGaps(p.dead, p.spc, p.wire)
  {
    if e.first == first { MoveKeepsNoGaps(Of(s, first), Of(s, !first), e.act); }
  }

  lemma NoGapsAtFirst(s: State, first: bool)
    requires Init(s)
    ensures var p := Of(s, first); NoGaps(p.dead, p.spc, p.wire)
  {
    var p := Of(s, first);
    assert p.wire == [] && p.spc == SIdle;
  }

  lemma NoGapsLater(run: seq<State>, evs: seq<Event>, i: nat, first: bool)
    requires Execution(run, evs) && i < |evs|
    requires var p := Of(run[i], first); NoGaps(p.dead, p.spc, p.wire)
    ensures var p := Of(run[i + 1], first); NoGaps(p.dead, p.spc, p.wire)
  {
    assert StepAt(run, evs, i);
    ExecutionKeepsInv(run, evs, i);
    NoGapsNext(run[i], evs[i], first);
  }

  lemma {:induction false} NoGapsStays(run: seq<State>, evs: seq<Event>, i: nat, first: bool)
    requires Execution(run, evs) && i < |run|
    ensures var p := Of(run[i], first); NoGaps(p.dead, p.spc, p.wire)
  {
    if i == 0 {
      NoGapsAtFirst(run[0], first);
    } else {
      NoGapsStays(run, evs, i - 1, first);
      NoGapsLater(run, evs, i - 1, first);
    }
  }

  // ---------------------------------------------------------------- a message on the channel

  /** The payloads of segments `a` to `z`, without `z`. */
  ghost function Payloads(w: seq<Seg>, a: nat, z: nat): seq<byte>
    requires a <= z <= |w|
  {
    if a == z then [] else Payloads(w, a, z - 1) + w[z - 1].chunk.payload
  }

  /** Segment `y` of a message that is on the channel from `a` to `z`. */
  ghost predicate Part(w: seq<Seg>, a: nat, z: nat, kind: Kind, y: nat) {
    && a <= y <= z < |w| && w[y].kind == kind && (w[y].chunk.last <==> y == z)
    && w[y].chunk.offset == |Payloads(w, a, y)|
  }

  /** Segments `a` to `z` are one message from its start to its end. */
  ghost predicate Message(w: seq<Seg>, a: nat, z: nat, kind: Kind) {
    a <= z < |w| && forall y :: a <= y <= z ==> Part(w, a, z, kind, y)
  }

  ghost predicate SameMessage(w: seq<Seg>, y: nat, z: nat) {
    y <= z < |w| && w[y].kind == w[z].kind && (w[y].chunk.last ==> y == z)
  }

  lemma {:induction false} BeginsAt(w: seq<Seg>, z: nat) returns (a: nat)
    requires WireOk(w) && z < |w|
    ensures a <= z && (a > 0 ==> w[a - 1].chunk.last) && forall y :: a <= y <= z ==> SameMessage(w, y, z)
  {
    a := z;
    if z > 0 && !w[z - 1].chunk.last {
      a := BeginsAt(w, z - 1);
      assert GoesOn(w, z - 1);
      forall y | a <= y <= z ensures SameMessage(w, y, z) {
        if y < z { assert SameMessage(w, y, z - 1); }
      }
    }
  }

  lemma {:induction false} OffsetIs(w: seq<Seg>, a: nat, z: nat, y: nat)
    requires a <= y <= z < |w| && (a > 0 ==> w[a - 1].chunk.last)
    requires forall x :: a <= x <= z ==> SameMessage(w, x, z)
    requires forall x :: 0 <= x < |w| ==> Follows(w, x)
    ensures w[y].chunk.offset == |Payloads(w, a, y)|
  {
    assert Follows(w, y);
    if y > a {
      OffsetIs(w, a, z, y - 1);
      assert SameMessage(w, y - 1, z);
      assert w[..y][|w[..y]| - 1] == w[y - 1];
    } else if a > 0 {
      assert w[..y][|w[..y]| - 1] == w[a - 1];
    }
  }

  /** Every end of a message has the whole message before it. */
  lemma MessageEnds(w: seq<Seg>, z: nat) returns (a: nat)
    requires WireOk(w) && (forall y :: 0 <= y < |w| ==> Follows(w, y)) && z < |w| && w[z].chunk.last
    ensures Message(w, a, z, w[z].kind) && (a > 0 ==> w[a - 1].chunk.last)
  {
    a := BeginsAt(w, z);
    forall y | a <= y <= z ensures Part(w, a, z, w[z].kind, y) {
      assert SameMessage(w, y, z);
      OffsetIs(w, a, z, y);
    }
  }

  /** A message that begins before `n`, where another one begins, ends before it. */
  lemma {:induction false} EndsBefore(w: seq<Seg>, y: nat, n: nat) returns (x: nat)
    requires WireOk(w) && y < n <= |w| && w[n - 1].chunk.last
    ensures y <= x < n && w[x].kind == w[y].kind && w[x].chunk.last
    decreases n - y
  {
    x := y;
    if !w[y].chunk.last {
      assert GoesOn(w, y);
      x := EndsBefore(w, y + 1, n);
    }
  }

  lemma {:induction false} RespsPrefix(w: seq<Seg>, n: nat)
    requires n <= |w|
    ensures Resps(w[..n]) <= Resps(w)
  {
    if n < |w| {
      var v := w[..|w| - 1];
      RespsPrefix(v, n);
      assert v[..n] == w[..n];
    } else {
      assert w[..n] == w;
    }
  }

  lemma {:induction false} EndOfResponse(w: seq<Seg>, n: nat, m: nat) returns (z: nat)
    requires n <= |w| && m < |Resps(w[..n])|
    ensures z < n && w[z].chunk.last && w[z].kind.KResp? && w[z].kind.k == Resps(w[..n])[m]
  {
    z := 0;
    if n > 0 {
      assert w[..n][..n - 1] == w[..n - 1];
      if m < |Resps(w[..n - 1])| { z := EndOfResponse(w, n - 1, m); } else { z := n - 1; }
    }
  }

  // ---------------------------------------------------------------- completions of reads

  predicate IsResponse(g: Seg, k: nat) { g.kind.KResp? && g.kind.k == k }

  /** Segments `a` to `z` are the whole response `k` and nothing else on the channel belongs to it. */
  ghost predicate Response(w: seq<Seg>, a: nat, z: nat, k: nat, f: Fields) {
    && Message(w, a, z, KResp(k, f.sinkTag, f.sinkTo))
    && forall y :: 0 <= y < |w| && IsResponse(w[y], k) ==> a <= y <= z
  }

  lemma ResponseIs(p: Peer, k: nat, n: nat) returns (a: nat, z: nat)
    requires TxOk(p) && NoGaps(p.dead, p.spc, p.wire) && AllAnswered(p.dead, p.spc, p.respNext, p.wire)
    requires n <= |p.wire| && k < |Resps(p.wire[..n])|
    ensures z < n && k < |p.resp| && Response(p.wire, a, z, k, p.resp[k])
  {
    var w := p.wire;
    RespsPrefix(w, n);
    z := EndOfResponse(w, n, k);
    a := MessageEnds(w, z);
    assert Answers(p.resp, w[z]);
    forall y | 0 <= y < |w| && IsResponse(w[y], k) ensures a <= y <= z { ResponseIsOne(w, a, z, k, y); }
  }

  ghost predicate InOrder(w: seq<Seg>) { forall x, y :: 0 <= x < y < |w| ==> Ordered(w, x, y) }

  lemma EndsOnce(w: seq<Seg>, x: nat, z: nat, k: nat)
    requires InOrder(w) && x < z < |w| && w[x].chunk.last && IsResponse(w[x], k) && w[z].kind.KResp?
    ensures w[z].kind.k > k
  {
    assert Ordered(w, x, z);
  }

  lemma ResponseIsOne(w: seq<Seg>, a: nat, z: nat, k: nat, y: nat)
    requires WireOk(w) && InOrder(w)
    requires a <= z < |w| && (a > 0 ==> w[a - 1].chunk.last) && w[z].chunk.last && IsResponse(w[z], k)
    requires y < |w| && IsResponse(w[y], k)
    ensures a <= y <= z
  {
    if y < a {
      var x := EndsBefore(w, y, a);
      EndsOnce(w, x, z, k);
    } else if z < y {
      EndsOnce(w, z, y, k);
    }
  }

  /** Segment `y` was placed at its own offset from `to`. */
  ghost predicate AtOffset(at: seq<nat>, w: seq<Seg>, to: nat, y: nat) {
    y < |at| && y < |w| && at[y] == to + w[y].chunk.offset
  }

  /** When reads of positive length complete, the k-th completion finds the k-th read answered: its whole response, from
      offset 0 to the segment marked last and without gap, has been received and lies at the sink of the read. */
  lemma ReadCompletesWhole(run: seq<State>, evs: seq<Event>, i: nat, first: bool, k: nat) returns (a: nat, z: nat)
    requires Execution(run, evs) && SendablePosts(evs, first) && i < |run| && k < |ReadsDone(Of(run[i], first).cq)|
    ensures var me, w := Of(run[i], first), Of(run[i], !first).wire;
            && z < me.taken <= |w| && k < |Reqs(me.wire)| && Response(w, a, z, k, Reqs(me.wire)[k])
            && forall y :: a <= y <= z ==> AtOffset(me.at, w, Reqs(me.wire)[k].sinkTo, y)
  {
    ExecutionKeepsInv(run, evs, i);
    NoGapsStays(run, evs, i, !first);
    AnsweredStays(run, evs, i, !first);
    a, z := WholeResponse(Of(run[i], first), Of(run[i], !first), k);
  }

  lemma WholeResponse(me: Peer, o: Peer, k: nat) returns (a: nat, z: nat)
    requires TxOk(me) && TxOk(o) && PairOk(me, o) && PairOk(o, me) && k < |ReadsDone(me.cq)|
    requires NoGaps(o.dead, o.spc, o.wire) && AllAnswered(o.dead, o.spc, o.respNext, o.wire)
    ensures z < me.taken <= |o.wire| && k < |Reqs(me.wire)| && Response(o.wire, a, z, k, Reqs(me.wire)[k])
    ensures forall y :: a <= y <= z ==> AtOffset(me.at, o.wire, Reqs(me.wire)[k].sinkTo, y)
  {
    a, z := ResponseIs(o, k, me.taken);
    ReqsPrefix(me.wire, o.taken);
    assert o.resp <= Reqs(me.wire[..o.taken]);
    PlacedAtSink(me, o.wire, a, z, k, Reqs(me.wire)[k]);
  }

  lemma PlacedAtSink(me: Peer, w: seq<Seg>, a: nat, z: nat, k: nat, f: Fields)
    requires z < me.taken <= |w| && Message(w, a, z, KResp(k, f.sinkTag, f.sinkTo))
    requires MemoryOk(me.at, me.mem, me.mem0, me.bufs, me.bufNext, me.rpc, w[..me.taken])
    ensures forall y :: a <= y <= z ==> AtOffset(me.at, w, f.sinkTo, y)
  {
    forall y: nat | a <= y <= z ensures AtOffset(me.at, w, f.sinkTo, y) {
      assert Part(w, a, z, KResp(k, f.sinkTag, f.sinkTo), y);
      assert PlacedAt(me.at, me.bufs, w[..me.taken], y);
    }
  }

  // ---------------------------------------------------------------- where segments come from

  /** The step in which the send thread puts segment `y` on the channel. */
  ghost predicate SendsSegment(run: seq<State>, evs: seq<Event>, e: nat, first: bool, y: nat) {
    && e < |evs| && e + 1 < |run| && evs[e] == Event(first, Emit(true)) && |Of(run[e], first).wire| == y
    && !Of(run[e], first).dead
  }

  lemma {:induction false} EmittedAt(run: seq<State>, evs: seq<Event>, i: nat, first: bool, y: nat) returns (e: nat)
    requires Execution(run, evs) && i < |run| && y < |Of(run[i], first).wire|
    ensures e < i && SendsSegment(run, evs, e, first, y) && y < |Of(run[e + 1], first).wire|
  {
    e := 0;
    if i > 0 {
      assert StepAt(run, evs, i - 1);
      if y < |Of(run[i - 1], first).wire| {
        e := EmittedAt(run, evs, i - 1, first, y);
      } else {
        e := i - 1;
        EmittedNow(run[e], evs[e], first, y);
      }
    }
  }

  lemma EmittedNow(s: State, e: Event, first: bool, y: nat)
    requires CanStep(s, e) && |Of(s, first).wire| <= y < |Of(Step(s, e), first).wire|
    ensures e == Event(first, Emit(true)) && !Of(s, first).dead && |Of(s, first).wire| == y
  {
    if e.first == first {
      var p, o := Of(s, first), Of(s, !first);
      if e.act.Emit? { EmitIsOneSegment(p, o, e.act.ok); } else { OthersLeaveWire(p, o, e.act); }
    }
  }

  /** Segment `g` was filled from the source of `f`, from memory as it was in state `e`. */
  ghost predicate FilledFrom(mem: Memory, f: Fields, g: Seg) {
    && |g.chunk.payload| == NextLength(g.chunk.offset, f.len) && g.chunk.offset < f.len
    && g.chunk.payload == Bytes(mem, f.srcTo + g.chunk.offset, |g.chunk.payload|)
    && (g.chunk.last <==> g.chunk.offset + |g.chunk.payload| == f.len)
  }

  ghost predicate Sending(p: Peer, k: nat) { p.spc.SResp? && p.spc.k == k }

  lemma {:induction false} ReqsGrow(run: seq<State>, evs: seq<Event>, i: nat, j: nat, first: bool)
    requires Execution(run, evs) && i <= j < |run|
    ensures Reqs(Of(run[i], first).wire) <= Reqs(Of(run[j], first).wire)
  {
    WireGrowsInRuns(run, evs, i, j, first);
    var v, w := Of(run[i], first).wire, Of(run[j], first).wire;
    assert w[..|v|] == v;
    ReqsPrefix(w, |v|);
  }

  lemma KindTellsSender(p: Peer, o: Peer)
    requires TxOk(p) && !p.dead && Enabled(p, o, Emit(true))
    ensures var p' := Move(p, o, Emit(true));
            && |p'.wire| == |p.wire| + 1 && p.wire <= p'.wire
            && (p'.wire[|p.wire|].kind.KResp? ==> Sending(p, p'.wire[|p.wire|].kind.k))
  {
  }

  /** With one read outstanding, a segment of a response on the channel was filled from the source of its own read. */
  lemma SegmentIsFilled(run: seq<State>, evs: seq<Event>, i: nat, first: bool, y: nat) returns (e: nat)
    requires Execution(run, evs) && i < |run| && (forall j :: 0 <= j < i ==> OneOutstanding(run[j], first))
    requires y < |Of(run[i], first).wire| && Of(run[i], first).wire[y].kind.KResp?
    ensures var g, asked := Of(run[i], first).wire[y], Reqs(Of(run[i], !first).wire);
            && e < i && SendsSegment(run, evs, e, first, y) && Sending(Of(run[e], first), g.kind.k)
            && g.kind.k < |asked| && FilledFrom(Of(run[e], first).mem, asked[g.kind.k], g)
  {
    e := EmittedAt(run, evs, i, first, y);
    var g := Of(run[i], first).wire[y];
    WireGrowsInRuns(run, evs, e + 1, i, first);
    assert Of(run[e + 1], first).wire[y] == g;
    FilledAt(run, evs, e, first, g);
    ReqsGrow(run, evs, e, i, !first);
  }

  lemma DueIsFilled(me: Peer, f: Fields)
    requires me.spc.SResp? && me.spc.off < f.len
    ensures FilledFrom(me.mem, f, Due(me, f))
  {
  }

  lemma IsSending(run: seq<State>, evs: seq<Event>, e: nat, first: bool, g: Seg)
    requires Execution(run, evs) && e < |evs| && g.kind.KResp?
    requires SendsSegment(run, evs, e, first, |Of(run[e], first).wire|)
    requires var n := |Of(run[e], first).wire|; n < |Of(run[e + 1], first).wire| && Of(run[e + 1], first).wire[n] == g
    ensures Sending(Of(run[e], first), g.kind.k)
  {
    ExecutionKeepsInv(run, evs, e);
    assert StepAt(run, evs, e);
    KindTellsSender(Of(run[e], first), Of(run[e], !first));
  }

  lemma FilledAt(run: seq<State>, evs: seq<Event>, e: nat, first: bool, g: Seg)
    requires Execution(run, evs) && e < |evs| && (forall j :: 0 <= j <= e ==> OneOutstanding(run[j], first))
    requires SendsSegment(run, evs, e, first, |Of(run[e], first).wire|) && g.kind.KResp?
    requires var n := |Of(run[e], first).wire|; n < |Of(run[e + 1], first).wire| && Of(run[e + 1], first).wire[n] == g
    ensures var asked := Reqs(Of(run[e], !first).wire);
            && Sending(Of(run[e], first), g.kind.k)
            && g.kind.k < |asked| && FilledFrom(Of(run[e], first).mem, asked[g.kind.k], g)
  {
    IsSending(run, evs, e, first, g);
    ReadBytesExact(run, evs, e, first);
    DueIsFilled(Of(run[e], first), Reqs(Of(run[e], !first).wire)[g.kind.k]);
  }

  // ---------------------------------------------------------------- what is at the sink

  ghost predicate Sourced(run: seq<State>, evs: seq<Event>, i: nat, first: bool, f: Fields, y: nat) {
    && i < |run| && y < |Of(run[i], first).wire|
    && exists e :: 0 <= e < i && SendsSegment(run, evs, e, first, y)
                   && FilledFrom(Of(run[e], first).mem, f, Of(run[i], first).wire[y])
  }

  /** When a read completes that was alone on its way, its whole response has been received: segments from offset 0
      to the read's length without gap, each filled from the read's own source at its offset when it was sent and placed
      at the same offset of the read's own sink. */
  lemma ReadIsExact(run: seq<State>, evs: seq<Event>, i: nat, first: bool, k: nat) returns (a: nat, z: nat)
    requires Execution(run, evs) && SendablePosts(evs, first) && i < |run| && k < |ReadsDone(Of(run[i], first).cq)|
    requires forall j :: 0 <= j < i ==> OneOutstanding(run[j], !first)
    ensures var me, w := Of(run[i], first), Of(run[i], !first).wire;
            && z < me.taken <= |w| && k < |Reqs(me.wire)| && var f := Reqs(me.wire)[k];
            && Response(w, a, z, k, f) && |Payloads(w, a, z + 1)| == f.len
            && forall y :: a <= y <= z ==> AtOffset(me.at, w, f.sinkTo, y) && Sourced(run, evs, i, !first, f, y)
  {
    a, z := ReadCompletesWhole(run, evs, i, first, k);
    var w, f := Of(run[i], !first).wire, Reqs(Of(run[i], first).wire)[k];
    var other := !first;
    forall y: nat | a <= y <= z ensures Sourced(run, evs, i, other, f, y) {
      assert Part(w, a, z, KResp(k, f.sinkTag, f.sinkTo), y);
      var e := SegmentIsFilled(run, evs, i, !first, y);
    }
    assert Part(w, a, z, KResp(k, f.sinkTag, f.sinkTo), z);
    assert Sourced(run, evs, i, !first, f, z);
  }

  lemma {:induction false} Landed(mem: Memory, w: seq<Seg>, at: seq<nat>, a: nat, z: nat, y: nat, kind: Kind, to: nat)
    requires Message(w, a, z, kind) && z < |at| <= |w| && a <= y <= z + 1 && |Payloads(w, a, y)| <= W64
    requires forall x :: a <= x <= z ==> AtOffset(at, w, to, x)
    ensures Bytes(PlaceAll(mem, w[..y], at[..y]), to, |Payloads(w, a, y)|) == Payloads(w, a, y)
  {
    if y > a {
      Landed(mem, w, at, a, z, y - 1, kind, to);
      assert AtOffset(at, w, to, y - 1) && Part(w, a, z, kind, y - 1);
      var before := PlaceAll(mem, w[..y - 1], at[..y - 1]);
      assert w[..y][..y - 1] == w[..y - 1] && at[..y][..y - 1] == at[..y - 1];
      PlacedNext(before, to, |Payloads(w, a, y - 1)|, w[y - 1].chunk.payload);
    }
  }

  /** Segment `y` was not placed on any of the `len` bytes from `to` on. */
  ghost predicate Spares(at: seq<nat>, w: seq<Seg>, to: nat, len: nat, y: nat) {
    y < |at| && y < |w| ==> forall i :: 0 <= i < len ==> Untouched(at[y], |w[y].chunk.payload|, to, i)
  }

  lemma {:induction false} StaysLanded(mem: Memory, w: seq<Seg>, at: seq<nat>, z: nat, n: nat, to: nat, len: nat)
    requires z <= n <= |at| <= |w| && forall y :: z <= y < n ==> Spares(at, w, to, len, y)
    ensures Bytes(PlaceAll(mem, w[..n], at[..n]), to, len) == Bytes(PlaceAll(mem, w[..z], at[..z]), to, len)
  {
    if n > z {
      StaysLanded(mem, w, at, z, n - 1, to, len);
      assert Spares(at, w, to, len, n - 1);
      assert w[..n][..n - 1] == w[..n - 1] && at[..n][..n - 1] == at[..n - 1];
      PlacedElsewhere(PlaceAll(mem, w[..n - 1], at[..n - 1]), at[n - 1], w[n - 1].chunk.payload, to, len);
    }
  }

  ghost predicate Carries(w: seq<Seg>, data: seq<byte>, y: nat) {
    && y < |w| && w[y].chunk.offset + |w[y].chunk.payload| <= |data|
    && w[y].chunk.payload == data[w[y].chunk.offset..w[y].chunk.offset + |w[y].chunk.payload|]
  }

  lemma {:induction false} PayloadsAre(w: seq<Seg>, a: nat, z: nat, y: nat, kind: Kind, data: seq<byte>)
    requires Message(w, a, z, kind) && a <= y <= z + 1 && forall x :: a <= x <= z ==> Carries(w, data, x)
    ensures |Payloads(w, a, y)| <= |data| && Payloads(w, a, y) == data[..|Payloads(w, a, y)|]
  {
    if y > a {
      PayloadsAre(w, a, z, y - 1, kind, data);
      assert Part(w, a, z, kind, y - 1) && Carries(w, data, y - 1);
    }
  }

  /** The source range of `f` holds `data` whenever the response to read `k` is being sent. */
  ghost predicate SourceHolds(run: seq<State>, i: nat, first: bool, k: nat, f: Fields, data: seq<byte>) {
    && i < |run|
    && forall e :: 0 <= e < i && Sending(Of(run[e], first), k) ==> Bytes(Of(run[e], first).mem, f.srcTo, f.len) == data
  }

  /** No segment received after one of response `k` and not part of it touches the sink. */
  ghost predicate SinkIsLeft(at: seq<nat>, w: seq<Seg>, f: Fields, k: nat) {
    forall x, y :: 0 <= x < y < |at| && y < |w| && IsResponse(w[x], k) && !IsResponse(w[y], k) ==>
      Spares(at, w, f.sinkTo, f.len, y)
  }

  /** So a read delivers: if the source holds `data` as long as the response is being sent, and nothing received after
      the response overwrites the sink, then once the read has completed its sink holds `data`. */
  lemma ReadDelivers(run: seq<State>, evs: seq<Event>, i: nat, first: bool, k: nat, f: Fields, data: seq<byte>)
    requires Execution(run, evs) && SendablePosts(evs, first) && i < |run| && k < |ReadsDone(Of(run[i], first).cq)|
    requires forall j :: 0 <= j < i ==> OneOutstanding(run[j], !first)
    requires k < |Reqs(Of(run[i], first).wire)| && f == Reqs(Of(run[i], first).wire)[k]
    requires SourceHolds(run, i, !first, k, f, data) && SinkIsLeft(Of(run[i], first).at, Of(run[i], !first).wire, f, k)
    ensures Bytes(Of(run[i], first).mem, f.sinkTo, f.len) == data
  {
    var a, z := ReadIsExact(run, evs, i, first, k);
    var me, w := Of(run[i], first), Of(run[i], !first).wire;
    SegmentCarries(run, evs, i, !first, k, f, data, a, z, a);
    forall y: nat | a <= y <= z ensures Carries(w, data, y) {
      SegmentCarries(run, evs, i, !first, k, f, data, a, z, y);
    }
    AsksStay(run, evs, i, first);
    ReqsSendable(me.wire, k);
    MemoryIsWhatWasPlaced(run, evs, i, first);
    ResponseLands(me.mem0, w, me.at, a, z, k, f, data);
    assert w[..me.taken] == w[..|me.at|];
  }

  lemma PayloadsLand(mem: Memory, w: seq<Seg>, at: seq<nat>, a: nat, z: nat, kind: Kind, to: nat, data: seq<byte>)
    requires Message(w, a, z, kind) && z < |at| <= |w|
    requires forall y :: a <= y <= z ==> AtOffset(at, w, to, y) && Carries(w, data, y)
    requires |Payloads(w, a, z + 1)| == |data| <= W64
    ensures Bytes(PlaceAll(mem, w[..z + 1], at[..z + 1]), to, |data|) == data
  {
    PayloadsAre(w, a, z, z + 1, kind, data);
    Landed(mem, w, at, a, z, z + 1, kind, to);
    assert data[..|data|] == data;
  }

  lemma ResponseLands(mem: Memory, w: seq<Seg>, at: seq<nat>, a: nat, z: nat, k: nat, f: Fields, data: seq<byte>)
    requires Message(w, a, z, KResp(k, f.sinkTag, f.sinkTo)) && z < |at| <= |w|
    requires (forall y :: 0 <= y < |w| && IsResponse(w[y], k) ==> a <= y <= z) && SinkIsLeft(at, w, f, k)
    requires forall y :: a <= y <= z ==> AtOffset(at, w, f.sinkTo, y) && Carries(w, data, y)
    requires |Payloads(w, a, z + 1)| == f.len == |data| <= W64
    ensures Bytes(PlaceAll(mem, w[..|at|], at), f.sinkTo, f.len) == data
  {
    PayloadsLand(mem, w, at, a, z, KResp(k, f.sinkTag, f.sinkTo), f.sinkTo, data);
    assert Part(w, a, z, KResp(k, f.sinkTag, f.sinkTo), z) && IsResponse(w[z], k);
    forall y: nat | z + 1 <= y < |at| ensures Spares(at, w, f.sinkTo, f.len, y) { assert !IsResponse(w[y], k); }
    StaysLanded(mem, w, at, z + 1, |at|, f.sinkTo, f.len);
    assert at[..|at|] == at;
  }

  lemma SegmentCarries(run: seq<State>, evs: seq<Event>, i: nat, first: bool, k: nat, f: Fields, data: seq<byte>,
                       a: nat, z: nat, y: nat)
    requires Execution(run, evs) && i < |run| && (forall j :: 0 <= j < i ==> OneOutstanding(run[j], first))
    requires k < |Reqs(Of(run[i], !first).wire)| && f == Reqs(Of(run[i], !first).wire)[k]
    requires SourceHolds(run, i, first, k, f, data)
    requires a <= y <= z && Message(Of(run[i], first).wire, a, z, KResp(k, f.sinkTag, f.sinkTo))
    ensures |data| == f.len && Carries(Of(run[i], first).wire, data, y)
  {
    var w := Of(run[i], first).wire;
    assert Part(w, a, z, KResp(k, f.sinkTag, f.sinkTo), y);
    var e := SegmentIsFilled(run, evs, i, first, y);
    BytesSlice(Of(run[e], first).mem, f.srcTo, f.len, w[y].chunk.offset, |w[y].chunk.payload|);
  }

  /** A peer that sends a read only when all its earlier ones have completed never has two outstanding. */
  lemma WaitingIsEnough(run: seq<State>, evs: seq<Event>, i: nat, first: bool)
    requires Execution(run, evs) && i < |run|
    requires var me := Of(run[i], first); |Reqs(me.wire)| <= |ReadsDone(me.cq)| + 1
    ensures OneOutstanding(run[i], !first)
  {
    ExecutionKeepsInv(run, evs, i);
    var me, o := Of(run[i], first), Of(run[i], !first);
    RespsPrefix(o.wire, me.taken);
    assert |ReadsDone(me.cq)| == me.pendNext <= |Resps(o.wire[..me.taken])|;
  }
}
