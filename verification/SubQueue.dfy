/** One producer's sub-queue: elements in blocks of 32, the block index, enqueueing and block reclamation.

    Consumers get their claims from the module Tickets; here they move the elements out, count each block
    down, and the one that completes a block clears its index entry and frees it.  The producer takes one
    block per multiple of 32, writes, and publishes the tail last; when an allocation fails it undoes what
    it did.  The block index is a map from block numbers to blocks with atomic reads; the module BlockReaders
    proves that lookups in the circular array, load by load, find what such a map holds.  The free list is
    a set with an atomic add and take; FreeList.IsASet proves that the lock-free list acts as one. */
module SubQueue {
  import T = Tickets

  const BLOCK: nat := 32

  datatype Slot = Empty | Full(x: int)

  /** `done` is `elementsCompletelyDequeued`. */
  datatype Block = Block(slots: seq<Slot>, done: nat)

  /** The initial pool is the blocks pool .. poolEnd. */
  datatype Shared = Shared(blocks: seq<Block>, free: set<nat>, pool: nat, poolEnd: nat)

  datatype Prod =
    | PIdle
    | PNeed(xs: seq<int>, got: seq<nat>)              // taking blocks for xs
    | PHold(xs: seq<int>, got: seq<nat>, b: nat)      // has a block that is not in the index yet
    | PWrite(xs: seq<int>, got: seq<nat>, k: nat)     // writing xs[k]
    | PUndo(got: seq<nat>, k: nat)                    // failed: clearing the entry of got[k]
    | PRelease(got: seq<nat>)                         // failed: returning blocks to the free list

  datatype Move =
    | MIdle
    | MLook(i: nat, e: nat)                                      // owns i .. e, about to find the block of i
    | MMove(lo: nat, i: nat, stop: nat, e: nat, b: nat)          // moving lo .. stop out of block b, at i
    | MClear(b: nat, i: nat, e: nat)                             // b is used up, about to clear its entry
    | MFree(b: nat, i: nat, e: nat)                              // about to return b to the free list

  /** `items` and `got` record every element enqueued and the element delivered for each index. */
  datatype Sub = Sub(
    t: T.State, index: map<nat, nat>, tailBlock: nat, prod: Prod, moves: seq<Move>,
    items: seq<int>, got: map<nat, int>, crashed: bool)

  datatype Source = FromPool | FromFree(b: nat) | FromHeap | Nothing

  datatype Action = Ticket(a: T.Action) | MoveOut(c: nat) | Enqueue(xs: seq<int>) | Produce(from: Source)

  /** The number of the first block that holds no published element. */
  function NextBlock(tail: nat): nat { (tail + BLOCK - 1) / BLOCK }

  /** How many multiples of 32 lie in tail .. tail + n. */
  function Needed(tail: nat, n: nat): nat { NextBlock(tail + n) - NextBlock(tail) }

  predicate Enabled(s: Sub, sh: Shared, a: Action) {
    match a
    case Ticket(ta) =>
      T.Enabled(s.t, ta) && |s.moves| == |s.t.pcs| && !ta.Publish? && !ta.Release?
      && (ta.Call? ==> s.moves[ta.c].MIdle? && ta.max > 0)
    case MoveOut(c) => c < |s.moves| && !s.moves[c].MIdle?
    case Enqueue(xs) => s.prod.PIdle?
    case Produce(from) =>
      match from
      case FromPool => s.prod.PNeed? && sh.pool < sh.poolEnd && |s.prod.got| < Needed(s.t.tail, |s.prod.xs|)
      case FromFree(b) => s.prod.PNeed? && b in sh.free && |s.prod.got| < Needed(s.t.tail, |s.prod.xs|)
      case FromHeap => s.prod.PNeed? && |s.prod.got| < Needed(s.t.tail, |s.prod.xs|)
      case Nothing => !s.prod.PIdle?
  }

  // ---------------------------------------------------------------------------------------------
  // Consumers

  function AfterBlock(s: Sub, c: nat, i: nat, e: nat): Sub
    requires c < |s.moves|
  {
    if i < e then s.(moves := s.moves[c := MLook(i, e)])
    else if T.Enabled(s.t, T.Release(c)) then s.(moves := s.moves[c := MIdle], t := T.Step(s.t, T.Release(c)))
    else s.(crashed := true)
  }

  function StopOf(i: nat, e: nat): nat { T.Min(i / BLOCK * BLOCK + BLOCK, e) }

  /** Reading through a null entry or from a slot without an element sets `crashed`. */
  function MoveStep(s: Sub, blocks: seq<Block>, c: nat): (Sub, seq<Block>)
    requires c < |s.moves|
  {
    match s.moves[c]
    case MIdle => (s, blocks)
    case MLook(i, e) =>
      if i / BLOCK in s.index then (s.(moves := s.moves[c := MMove(i, i, StopOf(i, e), e, s.index[i / BLOCK])]), blocks)
      else (s.(crashed := true), blocks)
    case MMove(lo, i, stop, e, b) =>
      if b >= |blocks| || |blocks[b].slots| != BLOCK then (s.(crashed := true), blocks)
      else if i < stop then
        var slot := blocks[b].slots[i % BLOCK];
        if slot.Empty? then (s.(crashed := true), blocks)
        else (s.(moves := s.moves[c := MMove(lo, i + 1, stop, e, b)], got := s.got[i := slot.x]),
              blocks[b := blocks[b].(slots := blocks[b].slots[i % BLOCK := Empty])])
      else if stop < lo then (s.(crashed := true), blocks)
      else
        var done := blocks[b].done + (stop - lo);
        (if done == BLOCK then s.(moves := s.moves[c := MClear(b, stop, e)]) else AfterBlock(s, c, stop, e),
         blocks[b := blocks[b].(done := done)])
    case MClear(b, i, e) =>
      (s.(index := s.index - {(i - 1) / BLOCK}, moves := s.moves[c := MFree(b, i, e)]), blocks)
    case MFree(b, i, e) => (AfterBlock(s, c, i, e), blocks)
  }

  // ---------------------------------------------------------------------------------------------
  // Producer

  /** The block that index `tail + k` is written to: the block the queue ended in, or one just taken. */
  function Target(s: Sub, got: seq<nat>, k: nat): nat {
    var q, p := (s.t.tail + k) / BLOCK, NextBlock(s.t.tail);
    if q < p || q - p >= |got| then s.tailBlock else got[q - p]
  }

  function Take(s: Sub, b: nat): Sub
    requires s.prod.PNeed?
  {
    s.(prod := PHold(s.prod.xs, s.prod.got, b))
  }

  /** Writing over an element that has not been moved out sets `crashed`. */
  function ProdStep(s: Sub, sh: Shared, from: Source): (Sub, Shared)
    requires Enabled(s, sh, Produce(from))
  {
    match from
    case FromPool => (Take(s, sh.pool), sh.(pool := sh.pool + 1))
    case FromFree(b) => (Take(s, b), sh.(free := sh.free - {b}))
    case FromHeap => (Take(s, |sh.blocks|), sh.(blocks := sh.blocks + [Block(seq(BLOCK, _ => Empty), 0)]))
    case Nothing =>
      match s.prod
      case PNeed(xs, got) =>
        if |got| == Needed(s.t.tail, |xs|) then (s.(prod := PWrite(xs, got, 0)), sh)
        else (s.(prod := PUndo(got, 0)), sh)
      case PHold(xs, got, b) =>
        if b >= |sh.blocks| then (s.(crashed := true), sh)
        else (s.(prod := PNeed(xs, got + [b]), index := s.index[NextBlock(s.t.tail) + |got| := b]),
              sh.(blocks := sh.blocks[b := sh.blocks[b].(done := 0)]))
      case PWrite(xs, got, k) =>
        if k < |xs| then
          var b, j := Target(s, got, k), (s.t.tail + k) % BLOCK;
          if b >= |sh.blocks| || |sh.blocks[b].slots| != BLOCK || sh.blocks[b].slots[j].Full?
          then (s.(crashed := true), sh)
          else (s.(prod := PWrite(xs, got, k + 1)),
                sh.(blocks := sh.blocks[b := sh.blocks[b].(slots := sh.blocks[b].slots[j := Full(xs[k])])]))
        else
          (s.(t := T.Step(s.t, T.Publish(|xs|)), items := s.items + xs, prod := PIdle,
              tailBlock := if got == [] then s.tailBlock else got[|got| - 1]), sh)
      case PUndo(got, k) =>
        if k < |got| then (s.(index := s.index - {NextBlock(s.t.tail) + k}, prod := PUndo(got, k + 1)), sh)
        else (s.(prod := PRelease(got)), sh)
      case PRelease(got) =>
        if got == [] then (s.(prod := PIdle), sh)
        else (s.(prod := PRelease(got[1..])), sh.(free := sh.free + {got[0]}))
  }

  function TicketStep(s: Sub, ta: T.Action): Sub
    requires T.Enabled(s.t, ta) && |s.moves| == |s.t.pcs| && !ta.Publish?
  {
    var t' := T.Step(s.t, ta);
    if ta.Run? && t'.pcs[ta.c].Claimed? then
      s.(t := t', moves := s.moves[ta.c := MLook(t'.pcs[ta.c].first, t'.pcs[ta.c].first + t'.pcs[ta.c].a)])
    else s.(t := t')
  }

  function Step(s: Sub, sh: Shared, a: Action): (Sub, Shared)
    requires Enabled(s, sh, a)
  {
    match a
    case Ticket(ta) => (TicketStep(s, ta), sh)
    case MoveOut(c) =>
      var (s', blocks') := MoveStep(s, sh.blocks, c);
      (s', sh.(blocks := blocks', free := if s.moves[c].MFree? then sh.free + {s.moves[c].b} else sh.free))
    case Enqueue(xs) => (s.(prod := PNeed(xs, [])), sh)
    case Produce(from) => ProdStep(s, sh, from)
  }

  predicate Init(s: Sub) {
    && T.Init(s.t) && s.index == map[] && s.prod.PIdle? && |s.moves| == |s.t.pcs|
    && (forall c :: 0 <= c < |s.moves| ==> s.moves[c].MIdle?)
    && s.items == [] && s.got == map[] && !s.crashed
  }
}
