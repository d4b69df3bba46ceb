/** What each call of the queue does with its own steps: an enqueue and the moving out of a claim end within a bound on
    the steps of the thread that makes them, whatever the others do; a claim ends with all of its elements moved; and
    from every state an enqueue or a dequeue that runs alone gets done. */
module QueueProgress {
  import opened SubQueue
  import opened SubQueueSafety
  import opened Queue
  import T = Tickets

  // ---------------------------------------------------------------- one enqueue

  /** How many steps a producer has at most before it. */
  ghost function ProducerWork(prod: Prod, tail: nat): int {
    match prod
    case PIdle => 0
    case PNeed(xs, got) => 4 * (Needed(tail, |xs|) - |got|) + |xs| + 2 * |got| + 3
    case PHold(xs, got, _) => 4 * (Needed(tail, |xs|) - |got|) + |xs| + 2 * |got| + 2
    case PWrite(xs, _, k) => |xs| - k + 1
    case PUndo(got, k) => 2 * |got| - k + 2
    case PRelease(got) => |got| + 1
  }

  lemma WorkIsPositive(s: Sub, blocks: seq<Block>, w: Witness)
    requires Core(s, blocks, w) && !s.prod.PIdle?
    ensures ProducerWork(s.prod, s.t.tail) > 0
  {
    assert ProdOk(s.prod, s.index, w.place, s.t.tail, s.tailBlock);
  }

  /** Each step of the producer is progress. */
  lemma ProducerAdvances(s: Sub, sh: Shared, w: Witness, from: Source)
    requires Core(s, sh.blocks, w) && Enabled(s, sh, Produce(from)) && !ProdStep(s, sh, from).0.crashed
    ensures var s' := ProdStep(s, sh, from).0;
      s'.prod.PIdle? || ProducerWork(s'.prod, s'.t.tail) < ProducerWork(s.prod, s.t.tail)
  {
    assert ProdOk(s.prod, s.index, w.place, s.t.tail, s.tailBlock);
  }

  /** The producer's own steps among the steps i .. j. */
  ghost function OwnSteps(evs: seq<Event>, p: nat, i: nat, j: nat): nat
    requires j <= |evs|
  {
    if j <= i then 0 else OwnSteps(evs, p, i, j - 1) + if Produces(evs[j - 1], p) then 1 else 0
  }

  ghost predicate Produces(ev: Event, p: nat) { ev.SubStep? && ev.p == p && ev.a.Produce? }

  lemma EnqueueStarts(run: seq<State>, evs: seq<Event>, i: nat, p: nat, xs: seq<int>)
    requires Execution(run, evs) && i < |evs| && p < |run[i].subs| && evs[i] == SubStep(p, Enqueue(xs))
    ensures p < |run[i + 1].subs| && var s, s' := run[i].subs[p], run[i + 1].subs[p];
      s'.prod == PNeed(xs, []) && s'.t.tail == s.t.tail
  {
    assert StepAt(run, evs, i);
  }

  lemma EnqueueGoesOn(run: seq<State>, evs: seq<Event>, j: nat, p: nat)
    requires Execution(run, evs) && j < |evs| && Busy(run, j, p) && p < |run[j + 1].subs|
    ensures var s, s' := run[j].subs[p], run[j + 1].subs[p];
      s'.prod.PIdle? || ProducerWork(s'.prod, s'.t.tail) + (if Produces(evs[j], p) then 1 else 0)
                        <= ProducerWork(s.prod, s.t.tail)
  {
    assert StepAt(run, evs, j);
    NoBadAccess(run, evs, j + 1, p);
    if evs[j].SubStep? && evs[j].p == p {
      if evs[j].a.Produce? {
        var ws := ExecutionKeepsInv(run, evs, j);
        ProducerAdvances(run[j].subs[p], run[j].sh, ws[p], evs[j].a.from);
      } else {
        OthersLeaveProducer(run[j].subs[p], run[j].sh, evs[j].a);
      }
    }
  }

  /** An enqueue ends: while it is under way the producer has made fewer than four steps for each block it needs,
      one for each element, and three more; and it can always make the next one. */
  lemma {:induction false} EnqueueEnds(run: seq<State>, evs: seq<Event>, i: nat, j: nat, p: nat, xs: seq<int>)
    requires Enqueueing(run, evs, i, j, p, xs) && Busy(run, j, p)
    ensures var s, s' := run[i].subs[p], run[j].subs[p];
      && OwnSteps(evs, p, i + 1, j) + ProducerWork(s'.prod, s'.t.tail) <= 4 * Needed(s.t.tail, |xs|) + |xs| + 3
      && 0 < ProducerWork(s'.prod, s'.t.tail) && Can(run[j], SubStep(p, Produce(Nothing)))
    decreases j
  {
    if j == i + 1 {
      EnqueueStarts(run, evs, i, p, xs);
    } else {
      assert Busy(run, j - 1, p);
      EnqueueEnds(run, evs, i, j - 1, p, xs);
      EnqueueGoesOn(run, evs, j - 1, p);
    }
    var ws := ExecutionKeepsInv(run, evs, j);
    WorkIsPositive(run[j].subs[p], run[j].sh.blocks, ws[p]);
  }

  // ---------------------------------------------------------------- an enqueue that is granted every block

  /** Where a producer takes its next block from when it is alone: the initial pool, the free list, the heap. */
  ghost function Requisition(sh: Shared): Source {
    if sh.pool < sh.poolEnd then FromPool else if sh.free != {} then (var b :| b in sh.free; FromFree(b)) else FromHeap
  }

  ghost function NextStep(s: Sub, sh: Shared): Source {
    if s.prod.PNeed? && |s.prod.got| < Needed(s.t.tail, |s.prod.xs|) then Requisition(sh) else Nothing
  }

  lemma Extend(run: seq<State>, evs: seq<Event>, ev: Event) returns (run': seq<State>, evs': seq<Event>)
    requires Execution(run, evs) && Can(run[|evs|], ev)
    ensures Execution(run', evs') && run' == run + [Next(run[|evs|], ev)] && evs' == evs + [ev]
  {
    run', evs' := run + [Next(run[|evs|], ev)], evs + [ev];
    forall i | 0 <= i < |evs'| ensures StepAt(run', evs', i) {
      if i < |evs| { assert StepAt(run, evs, i); }
    }
  }

  /** The producer has not been refused a block. */
  predicate Granted(prod: Prod) { prod.PNeed? || prod.PHold? || prod.PWrite? }

  lemma GrantedGoesOn(s: Sub, sh: Shared, w: Witness)
    requires Core(s, sh.blocks, w) && Granted(s.prod)
    ensures Enabled(s, sh, Produce(NextStep(s, sh))) && var s' := ProdStep(s, sh, NextStep(s, sh)).0;
      !s'.crashed ==>
        Granted(s'.prod) || (s'.prod.PIdle? && s.prod.PWrite? && s'.items == s.items + s.prod.xs)
  {
    assert ProdOk(s.prod, s.index, w.place, s.t.tail, s.tailBlock);
  }

  /** The call goes on and is not refused. */
  ghost predicate Going(run: seq<State>, evs: seq<Event>, i: nat, p: nat, xs: seq<int>) {
    && |run| == |evs| + 1 && i < |evs| && Enqueueing(run, evs, i, |evs|, p, xs)
    && p < |run[|evs|].subs| && Granted(run[|evs|].subs[p].prod)
  }

  lemma GoingStep(run: seq<State>, evs: seq<Event>, i: nat, p: nat, xs: seq<int>)
    returns (run': seq<State>, evs': seq<Event>)
    requires Going(run, evs, i, p, xs)
    ensures |run'| == |evs'| + 1 == |run| + 1 && run <= run' && evs <= evs'
    ensures Enqueueing(run', evs', i, |evs'|, p, xs) && p < |run'[|evs'|].subs| && p < |run[|evs|].subs|
    ensures var s, s' := run[|evs|].subs[p], run'[|evs'|].subs[p];
      || (Granted(s'.prod) && ProducerWork(s'.prod, s'.t.tail) < ProducerWork(s.prod, s.t.tail))
      || (s'.prod.PIdle? && s'.items == run[i].subs[p].items + xs)
  {
    var j := |evs|;
    var ws := ExecutionKeepsInv(run, evs, j);
    var s, sh := run[j].subs[p], run[j].sh;
    GrantedGoesOn(s, sh, ws[p]);
    run', evs' := Extend(run, evs, SubStep(p, Produce(NextStep(s, sh))));
    NoBadAccess(run', evs', j + 1, p);
    ProducerAdvances(s, sh, ws[p], NextStep(s, sh));
    ProgressInRuns(run, evs, i, j, p, xs);
    StillEnqueueing(run, evs, run', evs', i, p, xs);
  }

  lemma StillEnqueueing(run: seq<State>, evs: seq<Event>, run': seq<State>, evs': seq<Event>, i: nat, p: nat,
                        xs: seq<int>)
    requires Going(run, evs, i, p, xs) && Execution(run', evs') && run <= run' && evs <= evs' && |run'| == |run| + 1
    ensures Enqueueing(run', evs', i, |evs'|, p, xs)
  {
    forall m | i < m < |evs'| ensures Busy(run', m, p) {
      assert m < |evs| ==> Busy(run, m, p);
    }
  }

  lemma {:induction false} GoingEnds(run: seq<State>, evs: seq<Event>, i: nat, p: nat, xs: seq<int>, n: int)
    returns (run': seq<State>, evs': seq<Event>)
    requires Going(run, evs, i, p, xs)
    requires n == ProducerWork(run[|evs|].subs[p].prod, run[|evs|].subs[p].t.tail)
    ensures |run'| == |evs'| + 1 && run <= run' && evs <= evs' && Enqueueing(run', evs', i, |evs'|, p, xs)
    ensures p < |run'[|evs'|].subs| && p < |run[i].subs| && var s' := run'[|evs'|].subs[p];
      s'.prod.PIdle? && s'.items == run[i].subs[p].items + xs
    decreases n
  {
    assert Busy(run, |evs|, p);
    EnqueueEnds(run, evs, i, |evs|, p, xs);
    run', evs' := GoingStep(run, evs, i, p, xs);
    if !run'[|evs'|].subs[p].prod.PIdle? {
      var s' := run'[|evs'|].subs[p];
      run', evs' := GoingEnds(run', evs', i, p, xs, ProducerWork(s'.prod, s'.t.tail));
    }
  }

  /** From every state of every run an idle producer can enqueue any elements: running alone, taking its blocks from the
      pool while it lasts, then from the free list, then from the heap, it publishes them all. */
  lemma EnqueueCanSucceed(run: seq<State>, evs: seq<Event>, p: nat, xs: seq<int>)
    returns (run': seq<State>, evs': seq<Event>)
    requires Execution(run, evs) && p < |run[|evs|].subs| && run[|evs|].subs[p].prod.PIdle?
    ensures |run'| == |evs'| + 1 && run <= run' && evs <= evs' && Enqueueing(run', evs', |evs|, |evs'|, p, xs)
    ensures p < |run'[|evs'|].subs| && var s' := run'[|evs'|].subs[p];
      s'.prod.PIdle? && s'.items == run[|evs|].subs[p].items + xs
  {
    var i := |evs|;
    run', evs' := Extend(run, evs, SubStep(p, Enqueue(xs)));
    EnqueueStarts(run', evs', i, p, xs);
    var s' := run'[i + 1].subs[p];
    run', evs' := GoingEnds(run', evs', i, p, xs, ProducerWork(s'.prod, s'.t.tail));
  }

  // ---------------------------------------------------------------- one claim

  ghost function ClaimWork(m: Move): int {
    match m
    case MIdle => 0
    case MLook(i, e) => 5 * (e - i)
    case MMove(_, i, stop, e, _) => 5 * (e - stop) + (stop - i) + 3
    case MClear(_, i, e) => 5 * (e - i) + 2
    case MFree(_, i, e) => 5 * (e - i) + 1
  }

  /** How far the claim first .. e has come. */
  ghost predicate ClaimSoFar(s: Sub, c: nat, first: nat, e: nat) {
    && c < |s.moves| && var m := s.moves[c];
    && (!m.MIdle? ==> m.e == e && first <= m.i)
    && forall k :: first <= k < (if m.MIdle? then e else m.i) ==> k in s.got
  }

  /** The parts of a consumer's state that its progress needs. */
  ghost predicate InBounds(m: Move) {
    match m
    case MIdle => true
    case MLook(i, e) => i < e
    case MMove(lo, i, stop, e, _) => lo < stop && i <= stop == StopOf(lo, e) && lo <= i
    case MClear(_, i, e) => i <= e
    case MFree(_, i, e) => i <= e
  }

  lemma MoveIsInBounds(s: Sub, blocks: seq<Block>, w: Witness, c: nat)
    requires Core(s, blocks, w) && c < |s.moves|
    ensures InBounds(s.moves[c])
  {
    assert MoveOk(s.moves[c], c, w.owner, s.got, s.index, w.stage, w.place);
  }

  lemma MoveAdvances(s: Sub, blocks: seq<Block>, c: nat)
    requires c < |s.moves| && !s.moves[c].MIdle? && InBounds(s.moves[c]) && !MoveStep(s, blocks, c).0.crashed
    ensures var s' := MoveStep(s, blocks, c).0;
      c < |s'.moves| && ClaimWork(s'.moves[c]) < ClaimWork(s.moves[c])
  {
  }

  lemma MoveKeepsSoFar(s: Sub, blocks: seq<Block>, c: nat, first: nat, e: nat)
    requires ClaimSoFar(s, c, first, e) && !s.moves[c].MIdle? && InBounds(s.moves[c])
    requires !MoveStep(s, blocks, c).0.crashed
    ensures ClaimSoFar(MoveStep(s, blocks, c).0, c, first, e)
  {
  }

  /** Steps of others leave a claim alone and take no delivery back. */
  lemma OthersLeaveClaim(s: Sub, sh: Shared, a: Action, c: nat)
    requires Enabled(s, sh, a) && c < |s.moves| && !s.moves[c].MIdle? && a != MoveOut(c)
    requires |s.moves| == |s.t.pcs| && s.t.pcs[c].Claimed?
    ensures var s' := Step(s, sh, a).0;
      c < |s'.moves| && s'.moves[c] == s.moves[c] && forall k :: k in s.got ==> k in s'.got
  {
  }

  ghost predicate Moving(run: seq<State>, j: nat, p: nat, c: nat) {
    j < |run| && p < |run[j].subs| && c < |run[j].subs[p].moves| && !run[j].subs[p].moves[c].MIdle?
  }

  /** Consumer `c` from the state in which it has a claim until it is idle again. */
  ghost predicate MovesOut(run: seq<State>, evs: seq<Event>, i: nat, j: nat, p: nat, c: nat) {
    Execution(run, evs) && i <= j < |run| && forall m :: i <= m < j ==> Moving(run, m, p, c)
  }

  ghost function MoveSteps(evs: seq<Event>, p: nat, c: nat, i: nat, j: nat): nat
    requires j <= |evs|
  {
    if j <= i then 0 else MoveSteps(evs, p, c, i, j - 1) + if evs[j - 1] == SubStep(p, MoveOut(c)) then 1 else 0
  }

  lemma ClaimGoesOn(run: seq<State>, evs: seq<Event>, j: nat, p: nat, c: nat, first: nat, e: nat)
    requires Execution(run, evs) && j < |evs| && Moving(run, j, p, c) && ClaimSoFar(run[j].subs[p], c, first, e)
    ensures p < |run[j + 1].subs| && ClaimSoFar(run[j + 1].subs[p], c, first, e)
    ensures ClaimWork(run[j + 1].subs[p].moves[c]) + (if evs[j] == SubStep(p, MoveOut(c)) then 1 else 0)
            <= ClaimWork(run[j].subs[p].moves[c])
  {
    assert StepAt(run, evs, j);
    NoBadAccess(run, evs, j + 1, p);
    var ws := ExecutionKeepsInv(run, evs, j);
    var s, blocks := run[j].subs[p], run[j].sh.blocks;
    if evs[j] == SubStep(p, MoveOut(c)) {
      MoveIsInBounds(s, blocks, ws[p], c);
      MoveAdvances(s, blocks, c);
      MoveKeepsSoFar(s, blocks, c, first, e);
    } else if evs[j].SubStep? && evs[j].p == p {
      OthersLeaveClaim(s, run[j].sh, evs[j].a, c);
    }
  }

  /** A claim is moved out within five of the consumer's own steps for each of its elements, whatever the others do; and
      when the consumer is idle again every element of the claim has been delivered. */
  lemma {:induction false} ClaimEnds(run: seq<State>, evs: seq<Event>, i: nat, j: nat, p: nat, c: nat, first: nat,
                                     e: nat)
    requires MovesOut(run, evs, i, j, p, c)
    requires p < |run[i].subs| && c < |run[i].subs[p].moves| && run[i].subs[p].moves[c] == MLook(first, e)
    ensures p < |run[j].subs| && ClaimSoFar(run[j].subs[p], c, first, e)
    ensures MoveSteps(evs, p, c, i, j) + ClaimWork(run[j].subs[p].moves[c]) <= 5 * (e - first)
    ensures run[j].subs[p].moves[c].MIdle? ==> forall k :: first <= k < e ==> k in run[j].subs[p].got
    ensures !run[j].subs[p].moves[c].MIdle? ==>
              ClaimWork(run[j].subs[p].moves[c]) > 0 && Can(run[j], SubStep(p, MoveOut(c)))
    decreases j
  {
    if i < j {
      ClaimEnds(run, evs, i, j - 1, p, c, first, e);
      assert Moving(run, j - 1, p, c);
      ClaimGoesOn(run, evs, j - 1, p, c, first, e);
    }
    var ws := ExecutionKeepsInv(run, evs, j);
    MoveIsInBounds(run[j].subs[p], run[j].sh.blocks, ws[p], c);
  }

  // ---------------------------------------------------------------- a dequeue that runs alone

  /** The run goes on, and only sub-queue `p` changes; nothing was enqueued in it. */
  ghost predicate GoesOn(run: seq<State>, evs: seq<Event>, run': seq<State>, evs': seq<Event>, p: nat) {
    && |run| == |evs| + 1 && |run'| == |evs'| + 1 && run <= run' && evs <= evs' && Execution(run', evs')
    && p < |run[|evs|].subs| && p < |run'[|evs'|].subs|
    && run'[|evs'|].subs[p].items == run[|evs|].subs[p].items
  }

  lemma ShapeIs(run: seq<State>, evs: seq<Event>, p: nat)
    requires Execution(run, evs) && p < |run[|evs|].subs|
    ensures var s := run[|evs|].subs[p];
      && |s.moves| == |s.t.pcs| && |s.items| == s.t.tail && !s.crashed
      && (forall c :: 0 <= c < |s.moves| ==> (s.moves[c].MIdle? <==> !s.t.pcs[c].Claimed?))
  {
    var ws := ExecutionKeepsInv(run, evs, |evs|);
    assert SubQueueSafety.Inv(run[|evs|].subs[p], run[|evs|].sh.blocks, ws[p]);
  }

  /** What the next load returns when nobody else is at work. */
  function UpToDate(t: T.State, c: nat): nat
    requires c < |t.pcs|
  {
    if t.pcs[c].Tail? then t.over else if t.pcs[c].Over? then t.opt else t.tail
  }

  lemma {:induction false} TicketsRun(run: seq<State>, evs: seq<Event>, p: nat, c: nat)
    returns (run': seq<State>, evs': seq<Event>)
    requires Execution(run, evs) && p < |run[|evs|].subs| && c < |run[|evs|].subs[p].t.pcs|
    requires !run[|evs|].subs[p].t.pcs[c].Claimed?
    ensures GoesOn(run, evs, run', evs', p) && var s, s' := run[|evs|].subs[p], run'[|evs'|].subs[p];
      && s'.t == T.Solo(s.t, c) && c < |s'.t.pcs| && c < |s'.moves| && s'.got == s.got
      && (s'.t.pcs[c].Claimed? ==> s'.moves[c] == MLook(s'.t.pcs[c].first, s'.t.pcs[c].first + s'.t.pcs[c].a))
    decreases T.Rank(run[|evs|].subs[p].t.pcs[c])
  {
    ShapeIs(run, evs, p);
    var s := run[|evs|].subs[p];
    if s.t.pcs[c].Idle? {
      run', evs' := run, evs;
    } else {
      var a := T.Run(c, UpToDate(s.t, c));
      run', evs' := Extend(run, evs, SubStep(p, Ticket(a)));
      T.CallAdvances(s.t, a, c);
      if !run'[|evs'|].subs[p].t.pcs[c].Claimed? {
        run', evs' := TicketsRun(run', evs', p, c);
      } else {
        ShapeIs(run', evs', p);
      }
    }
  }

  lemma {:induction false} MovesRun(run: seq<State>, evs: seq<Event>, i: nat, p: nat, c: nat, n: int)
    returns (run': seq<State>, evs': seq<Event>)
    requires i <= |evs| && MovesOut(run, evs, i, |evs|, p, c) && p < |run[i].subs| && c < |run[i].subs[p].moves|
    requires run[i].subs[p].moves[c].MLook? && p < |run[|evs|].subs| && c < |run[|evs|].subs[p].moves|
    requires n == ClaimWork(run[|evs|].subs[p].moves[c])
    ensures GoesOn(run, evs, run', evs', p) && MovesOut(run', evs', i, |evs'|, p, c)
    ensures c < |run'[|evs'|].subs[p].moves| && run'[|evs'|].subs[p].moves[c].MIdle?
    ensures run'[|evs'|].subs[p].t.head == run[|evs|].subs[p].t.head
    decreases n
  {
    var s := run[|evs|].subs[p];
    ClaimEnds(run, evs, i, |evs|, p, c, run[i].subs[p].moves[c].i, run[i].subs[p].moves[c].e);
    if s.moves[c].MIdle? {
      run', evs' := run, evs;
    } else {
      run', evs' := Extend(run, evs, SubStep(p, MoveOut(c)));
      assert Moving(run, |evs|, p, c);
      ClaimGoesOn(run', evs', |evs|, p, c, run[i].subs[p].moves[c].i, run[i].subs[p].moves[c].e);
      MoveLeavesItems(s, run[|evs|].sh, c);
      StillMoving(run, evs, run', evs', i, p, c);
      run', evs' := MovesRun(run', evs', i, p, c, ClaimWork(run'[|evs'|].subs[p].moves[c]));
    }
  }

  lemma MoveLeavesItems(s: Sub, sh: Shared, c: nat)
    requires Enabled(s, sh, MoveOut(c))
    ensures var s' := Step(s, sh, MoveOut(c)).0; s'.items == s.items && s'.t.head == s.t.head
  {
  }

  lemma StillMoving(run: seq<State>, evs: seq<Event>, run': seq<State>, evs': seq<Event>, i: nat, p: nat, c: nat)
    requires i <= |evs| && MovesOut(run, evs, i, |evs|, p, c) && Moving(run, |evs|, p, c) && |run| == |evs| + 1
    requires Execution(run', evs') && run <= run' && evs <= evs' && |evs'| == |evs| + 1
    ensures MovesOut(run', evs', i, |evs'|, p, c)
  {
    forall m | i <= m < |evs'| ensures Moving(run', m, p, c) {
      assert m < |evs| ==> Moving(run, m, p, c);
    }
  }

  lemma GotIsItem(run: seq<State>, evs: seq<Event>, p: nat, k: nat)
    requires Execution(run, evs) && p < |run[|evs|].subs| && k in run[|evs|].subs[p].got
    ensures var s := run[|evs|].subs[p]; k < |s.items| && s.got[k] == s.items[k]
  {
    var ws := ExecutionKeepsInv(run, evs, |evs|);
    GotFacts(run[|evs|].subs[p], run[|evs|].sh.blocks, ws[p]);
  }

  /** From every state of every run in which no dequeue is deciding, an idle consumer can dequeue: running alone it gets
      the oldest elements, as many as it asks for or as there are, in the order they were enqueued. */
  lemma DequeueCanSucceed(run: seq<State>, evs: seq<Event>, p: nat, c: nat, max: nat)
    returns (run': seq<State>, evs': seq<Event>)
    requires Execution(run, evs) && p < |run[|evs|].subs| && c < |run[|evs|].subs[p].t.pcs| && max > 0
    requires run[|evs|].subs[p].t.pcs[c].Idle?
    requires forall e :: 0 <= e < |run[|evs|].subs[p].t.pcs| ==> T.AtRest(run[|evs|].subs[p].t.pcs[e])
    ensures GoesOn(run, evs, run', evs', p) && var s, s' := run[|evs|].subs[p], run'[|evs'|].subs[p];
      && s.t.head <= s.t.tail && var n := T.Min(max, s.t.tail - s.t.head);
      && s'.t.head == s.t.head + n && |s.items| == s.t.tail
      && forall k :: s.t.head <= k < s.t.head + n ==> k in s'.got && s'.got[k] == s.items[k]
  {
    ShapeIs(run, evs, p);
    var ws := ExecutionKeepsInv(run, evs, |evs|);
    var s := run[|evs|].subs[p];
    T.SoloDequeueIsExact(s.t, ws[p].verdicts, c, max);
    var r1, e1 := Extend(run, evs, SubStep(p, Ticket(T.Call(c, max, s.t.tail))));
    var r2, e2 := TicketsRun(r1, e1, p, c);
    run', evs' := r2, e2;
    var s2 := r2[|e2|].subs[p];
    if s2.t.pcs[c].Claimed? {
      run', evs' := MovesRun(r2, e2, |e2|, p, c, ClaimWork(s2.moves[c]));
      ClaimEnds(run', evs', |e2|, |evs'|, p, c, s2.moves[c].i, s2.moves[c].e);
      forall k: nat | k in run'[|evs'|].subs[p].got ensures k < |s.items| && run'[|evs'|].subs[p].got[k] == s.items[k] {
        GotIsItem(run', evs', p, k);
      }
    }
  }
}
