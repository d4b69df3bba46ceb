/** Safety of the sub-queue: what every step of the producer and of every consumer keeps. */
module SubQueueSafety {
  import opened SubQueue
  import T = Tickets

  /** Which consumer an index below the head belongs to, until it is counted off. */
  datatype Owner = Counted | By(c: nat)

  /** What became of a block that holds published elements. */
  datatype Stage = Live | Clearing(c: nat) | Gone

  /** Where a block of this sub-queue is. */
  datatype Place = At(q: nat) | WithProducer | WithConsumer(c: nat)

  datatype Witness = Witness(
    verdicts: seq<T.Verdict>, owner: seq<Owner>, stage: seq<Stage>, place: map<nat, Place>)

  // ---------------------------------------------------------------------------------------------
  // Counting the elements of a block that are counted off

  predicate IsCounted(owner: seq<Owner>, k: nat) { k < |owner| && owner[k].Counted? }

  function CountedIn(owner: seq<Owner>, lo: nat, n: nat): nat {
    if n == 0 then 0 else CountedIn(owner, lo, n - 1) + (if IsCounted(owner, lo + n - 1) then 1 else 0)
  }

  lemma {:induction false} CountedBound(owner: seq<Owner>, lo: nat, n: nat)
    ensures CountedIn(owner, lo, n) <= n
    ensures CountedIn(owner, lo, n) == n <==> forall k :: lo <= k < lo + n ==> IsCounted(owner, k)
  {
    if n > 0 { CountedBound(owner, lo, n - 1); }
  }

  lemma {:induction false} CountedSame(a: seq<Owner>, b: seq<Owner>, lo: nat, n: nat)
    requires forall k :: lo <= k < lo + n ==> (IsCounted(a, k) <==> IsCounted(b, k))
    ensures CountedIn(a, lo, n) == CountedIn(b, lo, n)
  {
    if n > 0 { CountedSame(a, b, lo, n - 1); }
  }

  /** Counting off the indices from .. to. */
  function CountOff(owner: seq<Owner>, from: nat, to: nat): (r: seq<Owner>) {
    seq(|owner|, k requires 0 <= k < |owner| => if from <= k < to then Counted else owner[k])
  }

  lemma {:induction false} CountOffAdds(owner: seq<Owner>, lo: nat, n: nat, from: nat, to: nat)
    requires lo <= from <= to <= |owner|
    requires forall k :: from <= k < to ==> owner[k].By?
    ensures CountedIn(CountOff(owner, from, to), lo, n)
         == CountedIn(owner, lo, n) + (if lo + n <= from then 0 else T.Min(to, lo + n) - from)
  {
    if n > 0 { CountOffAdds(owner, lo, n - 1, from, to); }
  }

  // ---------------------------------------------------------------------------------------------
  // The invariant, piece by piece

  /** The indices the consumer has claimed and not counted off. */
  predicate InClaim(m: Move, k: nat) {
    match m
    case MIdle => false
    case MLook(i, e) => i <= k < e
    case MMove(lo, i, stop, e, b) => lo <= k < e
    case MClear(b, i, e) => i <= k < e
    case MFree(b, i, e) => i <= k < e
  }

  predicate Owned(owner: seq<Owner>, got: map<nat, int>, c: nat, lo: nat, i: nat, e: nat) {
    && lo <= i <= e <= |owner|
    && (forall k :: lo <= k < e ==> owner[k] == By(c))
    && (forall k :: lo <= k < i ==> k in got)
    && (forall k :: i <= k < e ==> k !in got)
  }

  predicate MoveOk(m: Move, c: nat, owner: seq<Owner>, got: map<nat, int>, index: map<nat, nat>,
                   stage: seq<Stage>, place: map<nat, Place>) {
    match m
    case MIdle => true
    case MLook(i, e) => i < e && Owned(owner, got, c, i, i, e)
    case MMove(lo, i, stop, e, b) =>
      lo < stop && i <= stop && stop == StopOf(lo, e) && Owned(owner, got, c, lo, i, e)
      && lo / BLOCK in index && index[lo / BLOCK] == b
    case MClear(b, i, e) =>
      0 < i && Owned(owner, got, c, i, i, e)
      && (i - 1) / BLOCK < |stage| && stage[(i - 1) / BLOCK] == Clearing(c)
      && (i - 1) / BLOCK in index && index[(i - 1) / BLOCK] == b
    case MFree(b, i, e) => Owned(owner, got, c, i, i, e) && b in place && place[b] == WithConsumer(c)
  }

  predicate IndexOk(k: nat, owner: seq<Owner>, moves: seq<Move>, items: seq<int>, got: map<nat, int>)
    requires k < |owner| && |owner| <= |items|
  {
    && (owner[k].By? ==> owner[k].c < |moves| && InClaim(moves[owner[k].c], k))
    && (owner[k].Counted? ==> k in got)
    && (k in got ==> got[k] == items[k])
  }

  predicate StageOk(q: nat, stage: seq<Stage>, owner: seq<Owner>, index: map<nat, nat>, blocks: seq<Block>,
                    moves: seq<Move>)
    requires q < |stage|
  {
    match stage[q]
    case Live =>
      q in index && CountedIn(owner, q * BLOCK, BLOCK) < BLOCK
      && index[q] < |blocks| && blocks[index[q]].done == CountedIn(owner, q * BLOCK, BLOCK)
    case Clearing(c) =>
      q in index && CountedIn(owner, q * BLOCK, BLOCK) == BLOCK
      && c < |moves| && moves[c].MClear? && moves[c].i > 0 && (moves[c].i - 1) / BLOCK == q
    case Gone => q !in index && CountedIn(owner, q * BLOCK, BLOCK) == BLOCK
  }

  /** What the slot of index k holds: an element that is published or being published, and not moved out. */
  function Expected(k: nat, items: seq<int>, got: map<nat, int>, prod: Prod): Slot {
    if k < |items| then (if k in got then Empty else Full(items[k]))
    else if prod.PWrite? && k - |items| < prod.k && prod.k <= |prod.xs| then Full(prod.xs[k - |items|])
    else Empty
  }

  predicate SlotsOk(q: nat, block: Block, items: seq<int>, got: map<nat, int>, prod: Prod) {
    |block.slots| == BLOCK &&
    forall j :: 0 <= j < BLOCK ==> block.slots[j] == Expected(q * BLOCK + j, items, got, prod)
  }

  predicate Vacant(block: Block) {
    |block.slots| == BLOCK && forall j :: 0 <= j < BLOCK ==> block.slots[j] == Empty
  }

  /** The blocks in the producer's hands outside the index. */
  function Hand(prod: Prod): seq<nat> {
    match prod
    case PHold(xs, got, b) => [b]
    case PUndo(got, k) => if k <= |got| then got[..k] else []
    case PRelease(got) => got
    case _ => []
  }

  predicate PlaceOk(b: nat, place: map<nat, Place>, index: map<nat, nat>, moves: seq<Move>, prod: Prod,
                    blocks: seq<Block>)
    requires b in place
  {
    b < |blocks| &&
    match place[b]
    case At(q) => q in index && index[q] == b
    case WithProducer => b in Hand(prod) && Vacant(blocks[b])
    case WithConsumer(c) => c < |moves| && moves[c].MFree? && moves[c].b == b && Vacant(blocks[b])
  }

  /** The entries beyond the published blocks that the producer has filled: got[j] at block p + j, from `k` on. */
  function Filled(prod: Prod): (seq<nat>, nat) {
    match prod
    case PNeed(xs, got) => (got, 0)
    case PHold(xs, got, b) => (got, 0)
    case PWrite(xs, got, k) => (got, 0)
    case PUndo(got, k) => (got, k)
    case _ => ([], 0)
  }

  predicate EntryOk(q: nat, index: map<nat, nat>, place: map<nat, Place>, blocks: seq<Block>, items: seq<int>,
                    got: map<nat, int>, prod: Prod)
    requires q in index
  {
    && index[q] < |blocks| && SlotsOk(q, blocks[index[q]], items, got, prod)
    && index[q] in place && place[index[q]] == At(q)
    && (q >= NextBlock(|items|) ==>
          && Filled(prod).1 <= q - NextBlock(|items|) < |Filled(prod).0|
          && index[q] == Filled(prod).0[q - NextBlock(|items|)] && blocks[index[q]].done == 0)
  }

  predicate Differ(s: seq<nat>, i: nat, j: nat)
    requires i < j < |s|
  {
    s[i] != s[j]
  }

  predicate Distinct(s: seq<nat>) { forall i, j :: 0 <= i < j < |s| ==> Differ(s, i, j) }

  predicate FilledAt(index: map<nat, nat>, p: nat, blocks: seq<nat>, j: nat)
    requires j < |blocks|
  {
    p + j in index && index[p + j] == blocks[j]
  }

  predicate ProdOk(prod: Prod, index: map<nat, nat>, place: map<nat, Place>, tail: nat, tailBlock: nat) {
    && Distinct(Filled(prod).0) && Distinct(Hand(prod))
    && (forall b :: b in Hand(prod) ==> b in place && place[b].WithProducer?)
    && (forall j :: Filled(prod).1 <= j < |Filled(prod).0| ==> FilledAt(index, NextBlock(tail), Filled(prod).0, j))
    && (tail % BLOCK != 0 ==> tail / BLOCK in index ==> index[tail / BLOCK] == tailBlock)
    && match prod
       case PNeed(xs, got) => |got| <= Needed(tail, |xs|)
       case PHold(xs, got, b) => |got| < Needed(tail, |xs|)
       case PWrite(xs, got, k) => |got| == Needed(tail, |xs|) && k <= |xs|
       case PUndo(got, k) => k <= |got|
       case _ => true
  }

  // The pieces for all consumers, indices, blocks and entries.

  predicate MovesOk(moves: seq<Move>, owner: seq<Owner>, got: map<nat, int>, index: map<nat, nat>,
                    stage: seq<Stage>, place: map<nat, Place>) {
    forall c :: 0 <= c < |moves| ==> MoveOk(moves[c], c, owner, got, index, stage, place)
  }

  predicate IndicesOk(owner: seq<Owner>, moves: seq<Move>, items: seq<int>, got: map<nat, int>) {
    && |owner| <= |items|
    && (forall k :: k in got ==> k < |owner|)
    && (forall k :: 0 <= k < |owner| ==> IndexOk(k, owner, moves, items, got))
  }

  predicate StagesOk(stage: seq<Stage>, owner: seq<Owner>, index: map<nat, nat>, blocks: seq<Block>, moves: seq<Move>) {
    forall q :: 0 <= q < |stage| ==> StageOk(q, stage, owner, index, blocks, moves)
  }

  predicate EntriesOk(index: map<nat, nat>, place: map<nat, Place>, blocks: seq<Block>, items: seq<int>,
                      got: map<nat, int>, prod: Prod) {
    forall q :: q in index ==> EntryOk(q, index, place, blocks, items, got, prod)
  }

  predicate PlacesOk(place: map<nat, Place>, index: map<nat, nat>, moves: seq<Move>, prod: Prod, blocks: seq<Block>) {
    forall b :: b in place ==> PlaceOk(b, place, index, moves, prod, blocks)
  }

  predicate ShapeOk(s: Sub, w: Witness) {
    && !s.crashed
    && |s.moves| == |s.t.pcs| && |s.items| == s.t.tail && |w.owner| == s.t.head
    && |w.stage| == NextBlock(s.t.tail)
    && (forall c :: 0 <= c < |s.moves| ==> (s.moves[c].MIdle? <==> !s.t.pcs[c].Claimed?))
  }

  /** Everything but the tickets. */
  predicate Core(s: Sub, blocks: seq<Block>, w: Witness) {
    && ShapeOk(s, w)
    && MovesOk(s.moves, w.owner, s.got, s.index, w.stage, w.place)
    && IndicesOk(w.owner, s.moves, s.items, s.got)
    && StagesOk(w.stage, w.owner, s.index, blocks, s.moves)
    && EntriesOk(s.index, w.place, blocks, s.items, s.got, s.prod)
    && PlacesOk(w.place, s.index, s.moves, s.prod, blocks)
    && ProdOk(s.prod, s.index, w.place, s.t.tail, s.tailBlock)
  }

  /** A dequeue is for at least one element, so a claim is never empty. */
  predicate Asks(pc: T.Pc) {
    match pc
    case Tail(max, _) => max > 0
    case Over(max, _, _) => max > 0
    case Take(d, _) => d > 0
    case Taken(d, _, _) => d > 0
    case Claim(a) => a > 0
    case _ => true
  }

  ghost predicate Inv(s: Sub, blocks: seq<Block>, w: Witness) {
    && T.Inv(s.t, w.verdicts)
    && (forall c :: 0 <= c < |s.t.pcs| ==> Asks(s.t.pcs[c]))
    && Core(s, blocks, w)
  }

  // ---------------------------------------------------------------------------------------------
  // Frames: what a change to one consumer or one block leaves alone

  lemma IndicesMove(owner: seq<Owner>, moves: seq<Move>, items: seq<int>, got: map<nat, int>, c: nat, m: Move)
    requires IndicesOk(owner, moves, items, got) && c < |moves|
    requires forall k :: 0 <= k < |owner| && owner[k] == By(c) ==> InClaim(m, k)
    ensures IndicesOk(owner, moves[c := m], items, got)
  {
    var moves' := moves[c := m];
    forall k | 0 <= k < |owner| ensures IndexOk(k, owner, moves', items, got) {
      assert IndexOk(k, owner, moves, items, got);
    }
  }

  lemma StagesMove(stage: seq<Stage>, owner: seq<Owner>, index: map<nat, nat>, blocks: seq<Block>, moves: seq<Move>,
                   c: nat, m: Move)
    requires StagesOk(stage, owner, index, blocks, moves) && c < |moves|
    requires forall q :: 0 <= q < |stage| ==> stage[q] != Clearing(c)
    ensures StagesOk(stage, owner, index, blocks, moves[c := m])
  {
    var moves' := moves[c := m];
    forall q | 0 <= q < |stage| ensures StageOk(q, stage, owner, index, blocks, moves') {
      assert StageOk(q, stage, owner, index, blocks, moves);
    }
  }

  lemma PlacesMove(place: map<nat, Place>, index: map<nat, nat>, moves: seq<Move>, prod: Prod, blocks: seq<Block>,
                   c: nat, m: Move)
    requires PlacesOk(place, index, moves, prod, blocks) && c < |moves|
    requires forall b :: b in place ==> place[b] != WithConsumer(c)
    ensures PlacesOk(place, index, moves[c := m], prod, blocks)
  {
    var moves' := moves[c := m];
    forall b | b in place ensures PlaceOk(b, place, index, moves', prod, blocks) {
      assert PlaceOk(b, place, index, moves, prod, blocks);
    }
  }

  /** A consumer that is not clearing or freeing has no block in its hands. */
  lemma EmptyHanded(s: Sub, blocks: seq<Block>, w: Witness, c: nat)
    requires StagesOk(w.stage, w.owner, s.index, blocks, s.moves) && PlacesOk(w.place, s.index, s.moves, s.prod, blocks)
    requires c < |s.moves|
    ensures !s.moves[c].MClear? ==> forall q :: 0 <= q < |w.stage| ==> w.stage[q] != Clearing(c)
    ensures !s.moves[c].MFree? ==> forall b :: b in w.place ==> w.place[b] != WithConsumer(c)
  {
    forall q | 0 <= q < |w.stage| && !s.moves[c].MClear? ensures w.stage[q] != Clearing(c) {
      assert StageOk(q, w.stage, w.owner, s.index, blocks, s.moves);
    }
    forall b | b in w.place && !s.moves[c].MFree? ensures w.place[b] != WithConsumer(c) {
      assert PlaceOk(b, w.place, s.index, s.moves, s.prod, blocks);
    }
  }

  /** The indices a consumer owns are those of its claim. */
  lemma OwnedInClaim(s: Sub, w: Witness, c: nat)
    requires IndicesOk(w.owner, s.moves, s.items, s.got)
    ensures forall k :: 0 <= k < |w.owner| && w.owner[k] == By(c) ==> c < |s.moves| && InClaim(s.moves[c], k)
  {
    forall k | 0 <= k < |w.owner| && w.owner[k] == By(c) ensures c < |s.moves| && InClaim(s.moves[c], k) {
      assert IndexOk(k, w.owner, s.moves, s.items, s.got);
    }
  }

  lemma StagesSlots(stage: seq<Stage>, owner: seq<Owner>, index: map<nat, nat>, blocks: seq<Block>, moves: seq<Move>,
                    b: nat, block: Block)
    requires StagesOk(stage, owner, index, blocks, moves) && b < |blocks| && block.done == blocks[b].done
    ensures StagesOk(stage, owner, index, blocks[b := block], moves)
  {
    var blocks' := blocks[b := block];
    forall q | 0 <= q < |stage| ensures StageOk(q, stage, owner, index, blocks', moves) {
      assert StageOk(q, stage, owner, index, blocks, moves);
    }
  }

  lemma PlacesBlock(place: map<nat, Place>, index: map<nat, nat>, moves: seq<Move>, prod: Prod, blocks: seq<Block>,
                    b: nat, block: Block)
    requires PlacesOk(place, index, moves, prod, blocks) && b < |blocks|
    requires (b in place && place[b].At?) || block.slots == blocks[b].slots
    ensures PlacesOk(place, index, moves, prod, blocks[b := block])
  {
    var blocks' := blocks[b := block];
    forall d | d in place ensures PlaceOk(d, place, index, moves, prod, blocks') {
      assert PlaceOk(d, place, index, moves, prod, blocks);
    }
  }

  lemma EntriesDone(index: map<nat, nat>, place: map<nat, Place>, blocks: seq<Block>, items: seq<int>,
                    got: map<nat, int>, prod: Prod, b: nat, done: nat)
    requires EntriesOk(index, place, blocks, items, got, prod) && b < |blocks|
    requires b in place && place[b].At? && place[b].q < NextBlock(|items|)
    ensures EntriesOk(index, place, blocks[b := blocks[b].(done := done)], items, got, prod)
  {
    var blocks' := blocks[b := blocks[b].(done := done)];
    forall q | q in index ensures EntryOk(q, index, place, blocks', items, got, prod) {
      assert EntryOk(q, index, place, blocks, items, got, prod);
    }
  }

  /** Clearing an entry of a published block, or dropping a place that is not the producer's. */
  lemma ProdFrame(prod: Prod, index: map<nat, nat>, place: map<nat, Place>, tail: nat, tailBlock: nat,
                  index': map<nat, nat>, place': map<nat, Place>)
    requires ProdOk(prod, index, place, tail, tailBlock)
    requires forall q :: q in index' ==> q in index && index'[q] == index[q]
    requires forall q :: q in index && q >= NextBlock(tail) ==> q in index'
    requires forall b :: b in place && place[b].WithProducer? ==> b in place' && place'[b].WithProducer?
    ensures ProdOk(prod, index', place', tail, tailBlock)
  {
    var (blocks, from) := Filled(prod);
    forall j | from <= j < |blocks| ensures FilledAt(index', NextBlock(tail), blocks, j) {
      assert FilledAt(index, NextBlock(tail), blocks, j);
    }
  }

  // ---------------------------------------------------------------------------------------------
  // Consumer steps

  function ClaimWitness(w: Witness, c: nat, a: nat): Witness {
    w.(owner := w.owner + seq(a, _ => By(c)))
  }

  lemma MoreOwners(s: Sub, blocks: seq<Block>, w: Witness, c: nat, a: nat)
    requires Core(s, blocks, w) && |w.owner| + a <= |s.items|
    ensures var w' := ClaimWitness(w, c, a);
      && MovesOk(s.moves, w'.owner, s.got, s.index, w.stage, w.place)
      && StagesOk(w.stage, w'.owner, s.index, blocks, s.moves)
  {
    var w' := ClaimWitness(w, c, a);
    forall e | 0 <= e < |s.moves| ensures MoveOk(s.moves[e], e, w'.owner, s.got, s.index, w.stage, w.place) {
      assert MoveOk(s.moves[e], e, w.owner, s.got, s.index, w.stage, w.place);
    }
    forall q | 0 <= q < |w.stage| ensures StageOk(q, w.stage, w'.owner, s.index, blocks, s.moves) {
      assert StageOk(q, w.stage, w.owner, s.index, blocks, s.moves);
      CountedSame(w.owner, w'.owner, q * BLOCK, BLOCK);
    }
  }

  lemma ClaimKeeps(s: Sub, blocks: seq<Block>, w: Witness, c: nat, seen: nat)
    requires Core(s, blocks, w) && T.Enabled(s.t, T.Run(c, seen)) && s.t.pcs[c].Claim? && s.t.pcs[c].a > 0
    requires s.t.head + s.t.pcs[c].a <= s.t.tail
    ensures Core(TicketStep(s, T.Run(c, seen)), blocks, ClaimWitness(w, c, s.t.pcs[c].a))
  {
    var a := s.t.pcs[c].a;
    var s', w' := TicketStep(s, T.Run(c, seen)), ClaimWitness(w, c, a);
    var m := MLook(s.t.head, s.t.head + a);
    assert s'.moves == s.moves[c := m];
    MoreOwners(s, blocks, w, c, a);
    EmptyHanded(s, blocks, w, c);
    StagesMove(w.stage, w'.owner, s.index, blocks, s.moves, c, m);
    PlacesMove(w.place, s.index, s.moves, s.prod, blocks, c, m);
    assert MoveOk(m, c, w'.owner, s.got, s.index, w.stage, w.place);
    OwnedInClaim(s, w, c);
    forall k | 0 <= k < |w'.owner| ensures IndexOk(k, w'.owner, s'.moves, s.items, s.got) {
      if k < |w.owner| { assert IndexOk(k, w.owner, s.moves, s.items, s.got); }
    }
  }

  /** The block of a claimed index that is not counted off is live: its entry is there to be found. */
  lemma ClaimedBlockIsLive(s: Sub, blocks: seq<Block>, w: Witness, k: nat)
    requires StagesOk(w.stage, w.owner, s.index, blocks, s.moves) && |w.stage| == NextBlock(|s.items|)
    requires k < |w.owner| <= |s.items| && w.owner[k].By?
    ensures k / BLOCK < |w.stage| && w.stage[k / BLOCK].Live? && k / BLOCK in s.index
  {
    var q := k / BLOCK;
    assert StageOk(q, w.stage, w.owner, s.index, blocks, s.moves);
    CountedBound(w.owner, q * BLOCK, BLOCK);
    assert !IsCounted(w.owner, k);
  }

  lemma LookKeeps(s: Sub, blocks: seq<Block>, w: Witness, c: nat)
    requires Core(s, blocks, w) && c < |s.moves| && s.moves[c].MLook?
    ensures Core(MoveStep(s, blocks, c).0, blocks, w) && MoveStep(s, blocks, c).1 == blocks
  {
    var m := s.moves[c];
    assert MoveOk(m, c, w.owner, s.got, s.index, w.stage, w.place);
    ClaimedBlockIsLive(s, blocks, w, m.i);
    var m' := MMove(m.i, m.i, StopOf(m.i, m.e), m.e, s.index[m.i / BLOCK]);
    EmptyHanded(s, blocks, w, c);
    OwnedInClaim(s, w, c);
    IndicesMove(w.owner, s.moves, s.items, s.got, c, m');
    StagesMove(w.stage, w.owner, s.index, blocks, s.moves, c, m');
    PlacesMove(w.place, s.index, s.moves, s.prod, blocks, c, m');
    assert MovesOk(s.moves[c := m'], w.owner, s.got, s.index, w.stage, w.place);
  }

  // Moving one element out: only the slot of index i changes.

  lemma SlotsAfterMove(q: nat, block: Block, items: seq<int>, got: map<nat, int>, prod: Prod, i: nat, x: int)
    requires SlotsOk(q, block, items, got, prod) && i < |items|
    ensures i / BLOCK == q ==> SlotsOk(q, block.(slots := block.slots[i % BLOCK := Empty]), items, got[i := x], prod)
    ensures i / BLOCK != q ==> SlotsOk(q, block, items, got[i := x], prod)
  {
  }

  lemma EntriesAfterMove(index: map<nat, nat>, place: map<nat, Place>, blocks: seq<Block>, items: seq<int>,
                         got: map<nat, int>, prod: Prod, i: nat, x: int)
    requires EntriesOk(index, place, blocks, items, got, prod) && i < |items| && i / BLOCK in index
    requires index[i / BLOCK] < |blocks| && |blocks[index[i / BLOCK]].slots| == BLOCK
    ensures var b := index[i / BLOCK];
      EntriesOk(index, place, blocks[b := blocks[b].(slots := blocks[b].slots[i % BLOCK := Empty])], items,
                got[i := x], prod)
  {
    var b := index[i / BLOCK];
    var blocks' := blocks[b := blocks[b].(slots := blocks[b].slots[i % BLOCK := Empty])];
    assert EntryOk(i / BLOCK, index, place, blocks, items, got, prod);
    forall q | q in index ensures EntryOk(q, index, place, blocks', items, got[i := x], prod) {
      assert EntryOk(q, index, place, blocks, items, got, prod);
      SlotsAfterMove(q, blocks[index[q]], items, got, prod, i, x);
    }
  }

  lemma OtherMoveKeepsGot(m: Move, e: nat, owner: seq<Owner>, got: map<nat, int>, index: map<nat, nat>,
                          stage: seq<Stage>, place: map<nat, Place>, i: nat, x: int)
    requires MoveOk(m, e, owner, got, index, stage, place) && i < |owner| && owner[i] != By(e)
    ensures MoveOk(m, e, owner, got[i := x], index, stage, place)
  {
    assert !InClaim(m, i);
  }

  /** The element that is moved out is the one that was enqueued at that index. */
  lemma MoveOneEffect(s: Sub, blocks: seq<Block>, w: Witness, c: nat)
    requires c < |s.moves| && s.moves[c].MMove? && s.moves[c].i < s.moves[c].stop && |w.owner| <= |s.items|
    requires MoveOk(s.moves[c], c, w.owner, s.got, s.index, w.stage, w.place)
    requires EntryOk(s.moves[c].lo / BLOCK, s.index, w.place, blocks, s.items, s.got, s.prod)
    ensures var m := s.moves[c];
      && m.i < |w.owner| && m.i / BLOCK == m.lo / BLOCK && w.owner[m.i] == By(c) && m.b < |blocks|
      && MoveStep(s, blocks, c)
         == (s.(moves := s.moves[c := MMove(m.lo, m.i + 1, m.stop, m.e, m.b)], got := s.got[m.i := s.items[m.i]]),
             blocks[m.b := blocks[m.b].(slots := blocks[m.b].slots[m.i % BLOCK := Empty])])
  {
    var m := s.moves[c];
    var q := m.lo / BLOCK;
    assert m.i / BLOCK == q;
    assert blocks[m.b].slots[m.i % BLOCK] == Expected(q * BLOCK + m.i % BLOCK, s.items, s.got, s.prod);
  }

  /** The step changes the consumer's own block and no other. */
  predicate Touches(s: Sub, blocks: seq<Block>, w: Witness, c: nat)
    requires c < |s.moves| && s.moves[c].MMove?
  {
    var blocks' := MoveStep(s, blocks, c).1;
    && s.moves[c].b in w.place && s.moves[c].b < |blocks| == |blocks'|
    && blocks' == blocks[s.moves[c].b := blocks'[s.moves[c].b]]
  }

  lemma MoveOneMoves(moves: seq<Move>, owner: seq<Owner>, items: seq<int>, got: map<nat, int>, index: map<nat, nat>,
                     stage: seq<Stage>, place: map<nat, Place>, c: nat)
    requires MovesOk(moves, owner, got, index, stage, place) && IndicesOk(owner, moves, items, got)
    requires c < |moves| && moves[c].MMove? && moves[c].i < moves[c].stop <= |owner|
    ensures var m := moves[c]; var moves' := moves[c := MMove(m.lo, m.i + 1, m.stop, m.e, m.b)];
      && MovesOk(moves', owner, got[m.i := items[m.i]], index, stage, place)
      && IndicesOk(owner, moves', items, got[m.i := items[m.i]])
  {
    var m := moves[c];
    var moves', got' := moves[c := MMove(m.lo, m.i + 1, m.stop, m.e, m.b)], got[m.i := items[m.i]];
    assert MoveOk(m, c, owner, got, index, stage, place);
    forall e | 0 <= e < |moves| ensures MoveOk(moves'[e], e, owner, got', index, stage, place) {
      if e != c { OtherMoveKeepsGot(moves[e], e, owner, got, index, stage, place, m.i, items[m.i]); }
    }
    forall k | 0 <= k < |owner| ensures IndexOk(k, owner, moves', items, got') {
      assert IndexOk(k, owner, moves, items, got);
    }
  }

  /** The counts and the place of the block are as before, only a slot of it has changed. */
  lemma MoveOnePlaces(s: Sub, blocks: seq<Block>, w: Witness, c: nat)
    requires Core(s, blocks, w) && c < |s.moves| && s.moves[c].MMove? && s.moves[c].i < s.moves[c].stop
    ensures var (s', blocks') := MoveStep(s, blocks, c);
      && StagesOk(w.stage, w.owner, s.index, blocks', s'.moves) && PlacesOk(w.place, s.index, s'.moves, s.prod, blocks')
  {
    var m := s.moves[c];
    assert MoveOk(m, c, w.owner, s.got, s.index, w.stage, w.place);
    assert EntryOk(m.lo / BLOCK, s.index, w.place, blocks, s.items, s.got, s.prod);
    MoveOneEffect(s, blocks, w, c);
    var (s', blocks') := MoveStep(s, blocks, c);
    EmptyHanded(s, blocks, w, c);
    StagesSlots(w.stage, w.owner, s.index, blocks, s.moves, m.b, blocks'[m.b]);
    StagesMove(w.stage, w.owner, s.index, blocks', s.moves, c, s'.moves[c]);
    PlacesBlock(w.place, s.index, s.moves, s.prod, blocks, m.b, blocks'[m.b]);
    PlacesMove(w.place, s.index, s.moves, s.prod, blocks', c, s'.moves[c]);
  }

  lemma MoveOneKeeps(s: Sub, blocks: seq<Block>, w: Witness, c: nat)
    requires Core(s, blocks, w) && c < |s.moves| && s.moves[c].MMove? && s.moves[c].i < s.moves[c].stop
    ensures Core(MoveStep(s, blocks, c).0, MoveStep(s, blocks, c).1, w) && Touches(s, blocks, w, c)
  {
    var m := s.moves[c];
    var i := m.i;
    assert MoveOk(m, c, w.owner, s.got, s.index, w.stage, w.place);
    assert EntryOk(m.lo / BLOCK, s.index, w.place, blocks, s.items, s.got, s.prod);
    MoveOneEffect(s, blocks, w, c);
    MoveOnePlaces(s, blocks, w, c);
    EntriesAfterMove(s.index, w.place, blocks, s.items, s.got, s.prod, i, s.items[i]);
    MoveOneMoves(s.moves, w.owner, s.items, s.got, s.index, w.stage, w.place, c);
  }

  // Counting a stretch off.

  /** The block is complete after this consumer's stretch. */
  predicate Completes(w: Witness, m: Move)
    requires m.MMove?
  {
    CountedIn(CountOff(w.owner, m.lo, m.stop), m.lo / BLOCK * BLOCK, BLOCK) == BLOCK
  }

  function CountWitness(w: Witness, m: Move, c: nat): Witness
    requires m.MMove? && m.lo / BLOCK < |w.stage|
  {
    w.(owner := CountOff(w.owner, m.lo, m.stop),
       stage := if Completes(w, m) then w.stage[m.lo / BLOCK := Clearing(c)] else w.stage)
  }

  lemma OtherMoveKeepsOwner(m: Move, e: nat, owner: seq<Owner>, got: map<nat, int>, index: map<nat, nat>,
                            stage: seq<Stage>, place: map<nat, Place>, from: nat, to: nat, c: nat, q: nat)
    requires MoveOk(m, e, owner, got, index, stage, place) && from <= to <= |owner| && e != c
    requires forall k :: from <= k < to ==> owner[k] == By(c)
    requires q < |stage| && stage[q] == Live
    ensures MoveOk(m, e, CountOff(owner, from, to), got, index, stage, place)
    ensures MoveOk(m, e, CountOff(owner, from, to), got, index, stage[q := Clearing(c)], place)
  {
    forall k | 0 <= k < |owner| && owner[k] == By(e) ensures CountOff(owner, from, to)[k] == By(e) {
    }
  }

  /** What the step does to the block and to the consumer. */
  lemma CountEffect(s: Sub, blocks: seq<Block>, w: Witness, c: nat)
    requires c < |s.moves| == |s.t.pcs| && s.moves[c].MMove? && s.moves[c].i == s.moves[c].stop && s.t.pcs[c].Claimed?
    requires MoveOk(s.moves[c], c, w.owner, s.got, s.index, w.stage, w.place)
    requires s.moves[c].lo / BLOCK < |w.stage|
    requires StageOk(s.moves[c].lo / BLOCK, w.stage, w.owner, s.index, blocks, s.moves)
             && w.stage[s.moves[c].lo / BLOCK].Live?
    requires EntryOk(s.moves[c].lo / BLOCK, s.index, w.place, blocks, s.items, s.got, s.prod)
    ensures var m := s.moves[c]; var q := m.lo / BLOCK; var w' := CountWitness(w, m, c);
      var (s', blocks') := MoveStep(s, blocks, c);
      && m.b < |blocks|
      && blocks' == blocks[m.b := blocks[m.b].(done := CountedIn(w'.owner, q * BLOCK, BLOCK))]
      && s' == s.(moves := s'.moves, t := s'.t)
      && (s'.t == s.t || s'.t == T.Goto(s.t, c, T.Idle))
      && s'.moves == s.moves[c := if Completes(w, m) then MClear(m.b, m.stop, m.e)
                                  else if m.stop < m.e then MLook(m.stop, m.e) else MIdle]
      && (s'.moves[c].MIdle? <==> s'.t != s.t)
      && (m.stop - 1) / BLOCK == q && CountedIn(w'.owner, q * BLOCK, BLOCK) <= BLOCK
  {
    var m := s.moves[c];
    CountOffAdds(w.owner, m.lo / BLOCK * BLOCK, BLOCK, m.lo, m.stop);
    CountedBound(CountOff(w.owner, m.lo, m.stop), m.lo / BLOCK * BLOCK, BLOCK);
  }

  lemma CountStages(s: Sub, blocks: seq<Block>, w: Witness, c: nat)
    requires StagesOk(w.stage, w.owner, s.index, blocks, s.moves)
             && EntriesOk(s.index, w.place, blocks, s.items, s.got, s.prod)
    requires c < |s.moves| == |s.t.pcs| && s.moves[c].MMove? && s.moves[c].i == s.moves[c].stop && s.t.pcs[c].Claimed?
    requires MoveOk(s.moves[c], c, w.owner, s.got, s.index, w.stage, w.place)
    requires s.moves[c].lo / BLOCK < |w.stage| && w.stage[s.moves[c].lo / BLOCK].Live?
    ensures StagesOk(CountWitness(w, s.moves[c], c).stage, CountWitness(w, s.moves[c], c).owner, s.index,
                     MoveStep(s, blocks, c).1, MoveStep(s, blocks, c).0.moves)
  {
    var m := s.moves[c];
    var q := m.lo / BLOCK;
    assert StageOk(q, w.stage, w.owner, s.index, blocks, s.moves);
    assert EntryOk(q, s.index, w.place, blocks, s.items, s.got, s.prod);
    CountEffect(s, blocks, w, c);
    var (s', blocks') := MoveStep(s, blocks, c);
    var w' := CountWitness(w, m, c);
    forall r | 0 <= r < |w'.stage| ensures StageOk(r, w'.stage, w'.owner, s.index, blocks', s'.moves) {
      assert StageOk(r, w.stage, w.owner, s.index, blocks, s.moves);
      if r != q {
        CountedSame(w.owner, w'.owner, r * BLOCK, BLOCK);
        if r in s.index { assert EntryOk(r, s.index, w.place, blocks, s.items, s.got, s.prod); }
      }
    }
  }

  lemma CountIndices(owner: seq<Owner>, moves: seq<Move>, items: seq<int>, got: map<nat, int>, c: nat, m': Move)
    requires IndicesOk(owner, moves, items, got) && c < |moves| && moves[c].MMove?
    requires moves[c].lo <= moves[c].stop <= moves[c].e <= |owner|
    requires forall k :: moves[c].lo <= k < moves[c].stop ==> k in got
    requires forall k :: moves[c].stop <= k < moves[c].e ==> InClaim(m', k)
    ensures IndicesOk(CountOff(owner, moves[c].lo, moves[c].stop), moves[c := m'], items, got)
  {
    var owner', moves' := CountOff(owner, moves[c].lo, moves[c].stop), moves[c := m'];
    forall k | 0 <= k < |owner'| ensures IndexOk(k, owner', moves', items, got) {
      assert IndexOk(k, owner, moves, items, got);
    }
  }

  lemma CountMoves(moves: seq<Move>, got: map<nat, int>, index: map<nat, nat>, w: Witness, c: nat, m': Move)
    requires MovesOk(moves, w.owner, got, index, w.stage, w.place) && c < |moves| && moves[c].MMove?
    requires moves[c].lo / BLOCK < |w.stage| && w.stage[moves[c].lo / BLOCK].Live?
    requires MoveOk(m', c, CountWitness(w, moves[c], c).owner, got, index, CountWitness(w, moves[c], c).stage, w.place)
    ensures MovesOk(moves[c := m'], CountWitness(w, moves[c], c).owner, got, index,
                    CountWitness(w, moves[c], c).stage, w.place)
  {
    var m := moves[c];
    var moves', w' := moves[c := m'], CountWitness(w, m, c);
    assert MoveOk(m, c, w.owner, got, index, w.stage, w.place);
    forall e | 0 <= e < |moves| ensures MoveOk(moves'[e], e, w'.owner, got, index, w'.stage, w.place) {
      if e != c {
        OtherMoveKeepsOwner(moves[e], e, w.owner, got, index, w.stage, w.place, m.lo, m.stop, c, m.lo / BLOCK);
      }
    }
  }

  /** The entry and the place of the block are as before, only its count has changed. */
  lemma CountPlaces(s: Sub, blocks: seq<Block>, w: Witness, c: nat)
    requires Core(s, blocks, w) && c < |s.moves| && s.moves[c].MMove? && s.moves[c].i == s.moves[c].stop
    ensures var (s', blocks') := MoveStep(s, blocks, c);
      && EntriesOk(s.index, w.place, blocks', s.items, s.got, s.prod)
      && PlacesOk(w.place, s.index, s'.moves, s.prod, blocks')
  {
    var m := s.moves[c];
    assert MoveOk(m, c, w.owner, s.got, s.index, w.stage, w.place);
    ClaimedBlockIsLive(s, blocks, w, m.lo);
    assert EntryOk(m.lo / BLOCK, s.index, w.place, blocks, s.items, s.got, s.prod);
    CountEffect(s, blocks, w, c);
    var (s', blocks') := MoveStep(s, blocks, c);
    EmptyHanded(s, blocks, w, c);
    EntriesDone(s.index, w.place, blocks, s.items, s.got, s.prod, m.b, blocks'[m.b].done);
    PlacesBlock(w.place, s.index, s.moves, s.prod, blocks, m.b, blocks'[m.b]);
    PlacesMove(w.place, s.index, s.moves, s.prod, blocks', c, s'.moves[c]);
  }

  lemma CountKeeps(s: Sub, blocks: seq<Block>, w: Witness, c: nat)
    requires Core(s, blocks, w) && c < |s.moves| && s.moves[c].MMove? && s.moves[c].i == s.moves[c].stop
    ensures s.moves[c].lo / BLOCK < |w.stage|
    ensures Core(MoveStep(s, blocks, c).0, MoveStep(s, blocks, c).1, CountWitness(w, s.moves[c], c))
            && Touches(s, blocks, w, c)
  {
    var m := s.moves[c];
    var q := m.lo / BLOCK;
    assert MoveOk(m, c, w.owner, s.got, s.index, w.stage, w.place);
    ClaimedBlockIsLive(s, blocks, w, m.lo);
    assert StageOk(q, w.stage, w.owner, s.index, blocks, s.moves);
    assert EntryOk(q, s.index, w.place, blocks, s.items, s.got, s.prod);
    CountEffect(s, blocks, w, c);
    CountStages(s, blocks, w, c);
    CountPlaces(s, blocks, w, c);
    CountOwners(s, blocks, w, c);
  }

  /** Each claim and each index is as before or counted off. */
  lemma CountOwners(s: Sub, blocks: seq<Block>, w: Witness, c: nat)
    requires Core(s, blocks, w) && c < |s.moves| && s.moves[c].MMove? && s.moves[c].i == s.moves[c].stop
    requires s.moves[c].lo / BLOCK < |w.stage|
    ensures var (s', w') := (MoveStep(s, blocks, c).0, CountWitness(w, s.moves[c], c));
      && MovesOk(s'.moves, w'.owner, s.got, s.index, w'.stage, w.place) && IndicesOk(w'.owner, s'.moves, s.items, s.got)
  {
    var m := s.moves[c];
    assert MoveOk(m, c, w.owner, s.got, s.index, w.stage, w.place);
    ClaimedBlockIsLive(s, blocks, w, m.lo);
    assert StageOk(m.lo / BLOCK, w.stage, w.owner, s.index, blocks, s.moves);
    CountEffect(s, blocks, w, c);
    var s' := MoveStep(s, blocks, c).0;
    CountIndices(w.owner, s.moves, s.items, s.got, c, s'.moves[c]);
    CountMoves(s.moves, s.got, s.index, w, c, s'.moves[c]);
  }

  // Clearing the entry of a block that is used up, and freeing the block.

  function ClearWitness(w: Witness, m: Move, c: nat): Witness
    requires m.MClear? && 0 < m.i && (m.i - 1) / BLOCK < |w.stage|
  {
    w.(stage := w.stage[(m.i - 1) / BLOCK := Gone], place := w.place[m.b := WithConsumer(c)])
  }

  /** Nothing is left in a block whose 32 elements have been counted off. */
  lemma UsedUpBlockIsVacant(s: Sub, blocks: seq<Block>, w: Witness, q: nat)
    requires IndicesOk(w.owner, s.moves, s.items, s.got) && EntriesOk(s.index, w.place, blocks, s.items, s.got, s.prod)
    requires q in s.index && CountedIn(w.owner, q * BLOCK, BLOCK) == BLOCK
    ensures s.index[q] < |blocks| && Vacant(blocks[s.index[q]])
  {
    assert EntryOk(q, s.index, w.place, blocks, s.items, s.got, s.prod);
    CountedBound(w.owner, q * BLOCK, BLOCK);
    var block := blocks[s.index[q]];
    forall j | 0 <= j < BLOCK ensures block.slots[j] == Empty {
      assert IsCounted(w.owner, q * BLOCK + j);
      assert IndexOk(q * BLOCK + j, w.owner, s.moves, s.items, s.got);
    }
  }

  lemma ClearMoves(s: Sub, blocks: seq<Block>, w: Witness, c: nat, q: nat)
    requires MovesOk(s.moves, w.owner, s.got, s.index, w.stage, w.place) && c < |s.moves| && s.moves[c].MClear?
    requires StagesOk(w.stage, w.owner, s.index, blocks, s.moves) && |w.stage| == NextBlock(|s.items|)
             && |w.owner| <= |s.items|
    requires 0 < s.moves[c].i && q == (s.moves[c].i - 1) / BLOCK < |w.stage| && w.stage[q] == Clearing(c)
    requires s.moves[c].b in w.place && w.place[s.moves[c].b] == At(q)
    ensures MovesOk(s.moves[c := MFree(s.moves[c].b, s.moves[c].i, s.moves[c].e)], w.owner, s.got, s.index - {q},
                    ClearWitness(w, s.moves[c], c).stage, ClearWitness(w, s.moves[c], c).place)
  {
    var w', index' := ClearWitness(w, s.moves[c], c), s.index - {q};
    var moves' := s.moves[c := MFree(s.moves[c].b, s.moves[c].i, s.moves[c].e)];
    forall e | 0 <= e < |s.moves| ensures MoveOk(moves'[e], e, w.owner, s.got, index', w'.stage, w'.place) {
      assert MoveOk(s.moves[e], e, w.owner, s.got, s.index, w.stage, w.place);
      if s.moves[e].MMove? && s.moves[e].lo / BLOCK == q {
        ClaimedBlockIsLive(s, blocks, w, s.moves[e].lo);
      }
    }
  }

  lemma ClearStages(stage: seq<Stage>, owner: seq<Owner>, index: map<nat, nat>, blocks: seq<Block>, moves: seq<Move>,
                    c: nat, q: nat, m: Move)
    requires StagesOk(stage, owner, index, blocks, moves) && c < |moves| && moves[c].MClear? && q < |stage|
    requires stage[q] == Clearing(c) && moves[c].i > 0 && (moves[c].i - 1) / BLOCK == q
    ensures StagesOk(stage[q := Gone], owner, index - {q}, blocks, moves[c := m])
  {
    var stage', index', moves' := stage[q := Gone], index - {q}, moves[c := m];
    assert StageOk(q, stage, owner, index, blocks, moves);
    forall r | 0 <= r < |stage'| ensures StageOk(r, stage', owner, index', blocks, moves') {
      assert StageOk(r, stage, owner, index, blocks, moves);
    }
  }

  lemma ClearPlaces(s: Sub, blocks: seq<Block>, w: Witness, c: nat, q: nat)
    requires EntriesOk(s.index, w.place, blocks, s.items, s.got, s.prod)
             && PlacesOk(w.place, s.index, s.moves, s.prod, blocks)
    requires c < |s.moves| && s.moves[c].MClear? && q in s.index && s.index[q] == s.moves[c].b
             && q < NextBlock(s.t.tail)
    requires s.index[q] < |blocks| && Vacant(blocks[s.index[q]])
    requires ProdOk(s.prod, s.index, w.place, s.t.tail, s.tailBlock)
    ensures var place' := w.place[s.moves[c].b := WithConsumer(c)]; var index' := s.index - {q};
      && EntriesOk(index', place', blocks, s.items, s.got, s.prod)
      && PlacesOk(place', index', s.moves[c := MFree(s.moves[c].b, s.moves[c].i, s.moves[c].e)], s.prod, blocks)
      && ProdOk(s.prod, index', place', s.t.tail, s.tailBlock)
  {
    var b := s.moves[c].b;
    var place', index' := w.place[b := WithConsumer(c)], s.index - {q};
    var moves' := s.moves[c := MFree(b, s.moves[c].i, s.moves[c].e)];
    assert EntryOk(q, s.index, w.place, blocks, s.items, s.got, s.prod);
    forall r | r in index' ensures EntryOk(r, index', place', blocks, s.items, s.got, s.prod) {
      assert EntryOk(r, s.index, w.place, blocks, s.items, s.got, s.prod);
    }
    forall d | d in place' ensures PlaceOk(d, place', index', moves', s.prod, blocks) {
      if d != b { assert PlaceOk(d, w.place, s.index, s.moves, s.prod, blocks); }
    }
    ProdFrame(s.prod, s.index, w.place, s.t.tail, s.tailBlock, index', place');
  }

  lemma ClearKeeps(s: Sub, blocks: seq<Block>, w: Witness, c: nat)
    requires Core(s, blocks, w) && c < |s.moves| && s.moves[c].MClear?
    ensures 0 < s.moves[c].i && (s.moves[c].i - 1) / BLOCK < |w.stage| && MoveStep(s, blocks, c).1 == blocks
    ensures Core(MoveStep(s, blocks, c).0, blocks, ClearWitness(w, s.moves[c], c)) && s.moves[c].b in w.place
  {
    var m := s.moves[c];
    assert MoveOk(m, c, w.owner, s.got, s.index, w.stage, w.place);
    var q := (m.i - 1) / BLOCK;
    assert StageOk(q, w.stage, w.owner, s.index, blocks, s.moves);
    assert EntryOk(q, s.index, w.place, blocks, s.items, s.got, s.prod);
    UsedUpBlockIsVacant(s, blocks, w, q);
    ClearMoves(s, blocks, w, c, q);
    ClearStages(w.stage, w.owner, s.index, blocks, s.moves, c, q, MFree(m.b, m.i, m.e));
    ClearPlaces(s, blocks, w, c, q);
    OwnedInClaim(s, w, c);
    IndicesMove(w.owner, s.moves, s.items, s.got, c, MFree(m.b, m.i, m.e));
  }

  lemma DropPlace(s: Sub, blocks: seq<Block>, w: Witness, c: nat, m: Move)
    requires c < |s.moves| && s.moves[c].MFree? && s.moves[c].b in w.place && w.place[s.moves[c].b] == WithConsumer(c)
    requires EntriesOk(s.index, w.place, blocks, s.items, s.got, s.prod)
             && PlacesOk(w.place, s.index, s.moves, s.prod, blocks)
    ensures var place' := w.place - {s.moves[c].b};
      && EntriesOk(s.index, place', blocks, s.items, s.got, s.prod)
      && PlacesOk(place', s.index, s.moves[c := m], s.prod, blocks)
  {
    var place', moves' := w.place - {s.moves[c].b}, s.moves[c := m];
    forall r | r in s.index ensures EntryOk(r, s.index, place', blocks, s.items, s.got, s.prod) {
      assert EntryOk(r, s.index, w.place, blocks, s.items, s.got, s.prod);
    }
    forall d | d in place' ensures PlaceOk(d, place', s.index, moves', s.prod, blocks) {
      assert PlaceOk(d, w.place, s.index, s.moves, s.prod, blocks);
    }
  }

  lemma FreeMoves(moves: seq<Move>, owner: seq<Owner>, got: map<nat, int>, index: map<nat, nat>,
                  stage: seq<Stage>, place: map<nat, Place>, c: nat, m: Move)
    requires MovesOk(moves, owner, got, index, stage, place) && c < |moves| && moves[c].MFree?
    requires MoveOk(m, c, owner, got, index, stage, place - {moves[c].b})
    ensures MovesOk(moves[c := m], owner, got, index, stage, place - {moves[c].b})
  {
    var moves', place' := moves[c := m], place - {moves[c].b};
    assert MoveOk(moves[c], c, owner, got, index, stage, place);
    forall e | 0 <= e < |moves| ensures MoveOk(moves'[e], e, owner, got, index, stage, place') {
      assert MoveOk(moves[e], e, owner, got, index, stage, place);
    }
  }

  lemma FreeKeeps(s: Sub, blocks: seq<Block>, w: Witness, c: nat)
    requires Core(s, blocks, w) && c < |s.moves| && s.moves[c].MFree?
    ensures s.moves[c].b in w.place && s.moves[c].b < |blocks| && Vacant(blocks[s.moves[c].b])
    ensures MoveStep(s, blocks, c).1 == blocks
    ensures Core(MoveStep(s, blocks, c).0, blocks, w.(place := w.place - {s.moves[c].b}))
  {
    var m := s.moves[c];
    assert MoveOk(m, c, w.owner, s.got, s.index, w.stage, w.place);
    assert PlaceOk(m.b, w.place, s.index, s.moves, s.prod, blocks);
    var s' := MoveStep(s, blocks, c).0;
    DropPlace(s, blocks, w, c, s'.moves[c]);
    FreeMoves(s.moves, w.owner, s.got, s.index, w.stage, w.place, c, s'.moves[c]);
    ProdFrame(s.prod, s.index, w.place, s.t.tail, s.tailBlock, s.index, w.place - {m.b});
    EmptyHanded(s, blocks, w, c);
    StagesMove(w.stage, w.owner, s.index, blocks, s.moves, c, s'.moves[c]);
    OwnedInClaim(s, w, c);
    IndicesMove(w.owner, s.moves, s.items, s.got, c, s'.moves[c]);
  }

  // ---------------------------------------------------------------------------------------------
  // Producer steps

  /** The producer only adds and removes entries beyond the published blocks, and never a consumer's place. */
  lemma MovesProducer(moves: seq<Move>, owner: seq<Owner>, got: map<nat, int>, index: map<nat, nat>, stage: seq<Stage>,
                      place: map<nat, Place>, index': map<nat, nat>, stage': seq<Stage>, place': map<nat, Place>)
    requires MovesOk(moves, owner, got, index, stage, place) && |owner| <= BLOCK * |stage| && stage <= stage'
    requires forall q :: q in index && q < |stage| ==> q in index' && index'[q] == index[q]
    requires forall b :: b in place && place[b].WithConsumer? ==> b in place' && place'[b] == place[b]
    ensures MovesOk(moves, owner, got, index', stage', place')
  {
    forall c | 0 <= c < |moves| ensures MoveOk(moves[c], c, owner, got, index', stage', place') {
      assert MoveOk(moves[c], c, owner, got, index, stage, place);
    }
  }

  lemma StagesProducer(stage: seq<Stage>, owner: seq<Owner>, index: map<nat, nat>, blocks: seq<Block>, moves: seq<Move>,
                       index': map<nat, nat>, blocks': seq<Block>)
    requires StagesOk(stage, owner, index, blocks, moves) && |blocks| <= |blocks'|
    requires forall q :: 0 <= q < |stage| ==> (q in index <==> q in index')
    requires forall q :: q in index && q < |stage| ==>
               index'[q] == index[q] && (index[q] < |blocks| ==> blocks'[index[q]].done == blocks[index[q]].done)
    ensures StagesOk(stage, owner, index', blocks', moves)
  {
    forall q | 0 <= q < |stage| ensures StageOk(q, stage, owner, index', blocks', moves) {
      assert StageOk(q, stage, owner, index, blocks, moves);
    }
  }

  /** Steps of the producer that only change its program counter. */
  lemma ProducerTurns(s: Sub, blocks: seq<Block>, w: Witness, prod': Prod)
    requires Core(s, blocks, w)
    requires ProdOk(prod', s.index, w.place, s.t.tail, s.tailBlock)
    requires Filled(prod') == Filled(s.prod) || (Filled(prod').0 == [] && Filled(s.prod).1 >= |Filled(s.prod).0|)
    requires Hand(prod') == Hand(s.prod)
    requires s.prod.PWrite? ==> s.prod.k == 0
    requires prod'.PWrite? ==> prod'.k == 0
    ensures Core(s.(prod := prod'), blocks, w)
  {
    forall q | q in s.index ensures EntryOk(q, s.index, w.place, blocks, s.items, s.got, prod') {
      assert EntryOk(q, s.index, w.place, blocks, s.items, s.got, s.prod);
    }
    forall b | b in w.place ensures PlaceOk(b, w.place, s.index, s.moves, prod', blocks) {
      assert PlaceOk(b, w.place, s.index, s.moves, s.prod, blocks);
    }
  }

  lemma NewBlock(s: Sub, blocks: seq<Block>, w: Witness, block: Block)
    requires Core(s, blocks, w)
    ensures Core(s, blocks + [block], w)
  {
    var blocks' := blocks + [block];
    StagesProducer(w.stage, w.owner, s.index, blocks, s.moves, s.index, blocks');
    forall q | q in s.index ensures EntryOk(q, s.index, w.place, blocks', s.items, s.got, s.prod) {
      assert EntryOk(q, s.index, w.place, blocks, s.items, s.got, s.prod);
    }
    forall b | b in w.place ensures PlaceOk(b, w.place, s.index, s.moves, s.prod, blocks') {
      assert PlaceOk(b, w.place, s.index, s.moves, s.prod, blocks);
    }
  }

  /** Taking a vacant block that nobody in this sub-queue has. */
  lemma TakeKeeps(s: Sub, blocks: seq<Block>, w: Witness, b: nat)
    requires Core(s, blocks, w) && s.prod.PNeed? && |s.prod.got| < Needed(s.t.tail, |s.prod.xs|)
    requires b !in w.place && b < |blocks| && Vacant(blocks[b])
    ensures Core(Take(s, b), blocks, w.(place := w.place[b := WithProducer]))
  {
    var s', place' := Take(s, b), w.place[b := WithProducer];
    MovesProducer(s.moves, w.owner, s.got, s.index, w.stage, w.place, s.index, w.stage, place');
    forall q | q in s.index ensures EntryOk(q, s.index, place', blocks, s.items, s.got, s'.prod) {
      assert EntryOk(q, s.index, w.place, blocks, s.items, s.got, s.prod);
    }
    forall d | d in place' ensures PlaceOk(d, place', s.index, s.moves, s'.prod, blocks) {
      if d != b { assert PlaceOk(d, w.place, s.index, s.moves, s.prod, blocks); }
    }
  }

  lemma InstallEntries(s: Sub, blocks: seq<Block>, w: Witness, q: nat, b: nat, prod': Prod)
    requires EntriesOk(s.index, w.place, blocks, s.items, s.got, s.prod)
             && PlacesOk(w.place, s.index, s.moves, s.prod, blocks)
    requires s.prod.PHold? && s.prod.b == b && q == NextBlock(|s.items|) + |s.prod.got| && b in w.place
             && w.place[b].WithProducer?
    requires forall k :: k in s.got ==> k < |s.items|
    requires prod' == PNeed(s.prod.xs, s.prod.got + [b]) && b < |blocks|
    ensures var index' := s.index[q := b]; var place' := w.place[b := At(q)];
            var blocks' := blocks[b := blocks[b].(done := 0)];
      && q !in s.index
      && EntriesOk(index', place', blocks', s.items, s.got, prod')
      && PlacesOk(place', index', s.moves, prod', blocks')
  {
    var index', place', blocks' := s.index[q := b], w.place[b := At(q)], blocks[b := blocks[b].(done := 0)];
    forall r | r in s.index ensures r != q { assert EntryOk(r, s.index, w.place, blocks, s.items, s.got, s.prod); }
    assert PlaceOk(b, w.place, s.index, s.moves, s.prod, blocks);
    forall r | r in index' ensures EntryOk(r, index', place', blocks', s.items, s.got, prod') {
      if r != q { assert EntryOk(r, s.index, w.place, blocks, s.items, s.got, s.prod); }
    }
    forall d | d in place' ensures PlaceOk(d, place', index', s.moves, prod', blocks') {
      if d != b { assert PlaceOk(d, w.place, s.index, s.moves, s.prod, blocks); }
    }
  }

  lemma InstallKeeps(s: Sub, blocks: seq<Block>, w: Witness, q: nat, b: nat)
    requires Core(s, blocks, w) && s.prod.PHold? && b == s.prod.b && q == NextBlock(s.t.tail) + |s.prod.got|
    ensures b in w.place && b < |blocks|
    ensures Core(s.(index := s.index[q := b], prod := PNeed(s.prod.xs, s.prod.got + [b])),
                 blocks[b := blocks[b].(done := 0)], w.(place := w.place[b := At(q)]))
  {
    var index', place' := s.index[q := b], w.place[b := At(q)];
    assert Hand(s.prod)[0] == b;
    assert PlaceOk(b, w.place, s.index, s.moves, s.prod, blocks);
    var blocks' := blocks[b := blocks[b].(done := 0)];
    InstallEntries(s, blocks, w, q, b, PNeed(s.prod.xs, s.prod.got + [b]));
    MovesProducer(s.moves, w.owner, s.got, s.index, w.stage, w.place, index', w.stage, place');
    forall r | r in s.index ensures s.index[r] != b {
      assert EntryOk(r, s.index, w.place, blocks, s.items, s.got, s.prod);
    }
    StagesProducer(w.stage, w.owner, s.index, blocks, s.moves, index', blocks');
    InstallProd(s, w, q, b);
  }

  lemma InstallProd(s: Sub, w: Witness, q: nat, b: nat)
    requires ProdOk(s.prod, s.index, w.place, s.t.tail, s.tailBlock)
    requires s.prod.PHold? && s.prod.b == b && q == NextBlock(s.t.tail) + |s.prod.got| && q !in s.index
    requires forall r :: r in s.index ==> s.index[r] != b
    ensures ProdOk(PNeed(s.prod.xs, s.prod.got + [b]), s.index[q := b], w.place[b := At(q)], s.t.tail, s.tailBlock)
  {
    var got, got', index' := s.prod.got, s.prod.got + [b], s.index[q := b];
    forall j | 0 <= j < |got'| ensures FilledAt(index', NextBlock(s.t.tail), got', j) {
      if j < |got| { assert FilledAt(s.index, NextBlock(s.t.tail), got, j); }
    }
    forall i, j | 0 <= i < j < |got'| ensures Differ(got', i, j) {
      assert FilledAt(s.index, NextBlock(s.t.tail), got, i);
      assert j < |got| ==> Differ(got, i, j);
    }
  }

  // Writing one element.

  /** The block written to belongs to the producer: it is in the index, for the block number of the element. */
  lemma WriteTarget(s: Sub, blocks: seq<Block>, w: Witness)
    requires ShapeOk(s, w) && StagesOk(w.stage, w.owner, s.index, blocks, s.moves) && |w.owner| <= s.t.tail
    requires ProdOk(s.prod, s.index, w.place, s.t.tail, s.tailBlock) && s.prod.PWrite? && s.prod.k < |s.prod.xs|
    ensures var q := (s.t.tail + s.prod.k) / BLOCK; q in s.index && s.index[q] == Target(s, s.prod.got, s.prod.k)
  {
    var p, q := NextBlock(s.t.tail), (s.t.tail + s.prod.k) / BLOCK;
    if q < p {
      assert q == s.t.tail / BLOCK;
      assert StageOk(q, w.stage, w.owner, s.index, blocks, s.moves);
      CountedBound(w.owner, q * BLOCK, BLOCK);
      assert !IsCounted(w.owner, s.t.tail);
    } else {
      assert q - p < |s.prod.got|;
      assert FilledAt(s.index, p, s.prod.got, q - p);
    }
  }

  /** The slot written to is empty: no element is ever overwritten. */
  lemma WriteEffect(s: Sub, sh: Shared, w: Witness, q: nat, b: nat)
    requires s.prod.PWrite? && s.prod.k < |s.prod.xs| && |s.items| == s.t.tail
    requires q == (s.t.tail + s.prod.k) / BLOCK && b == Target(s, s.prod.got, s.prod.k) && q in s.index
             && s.index[q] == b
    requires EntryOk(q, s.index, w.place, sh.blocks, s.items, s.got, s.prod)
    ensures b < |sh.blocks| && |sh.blocks[b].slots| == BLOCK
    ensures ProdStep(s, sh, Nothing)
         == (s.(prod := PWrite(s.prod.xs, s.prod.got, s.prod.k + 1)),
             sh.(blocks := sh.blocks[b := sh.blocks[b].(
               slots := sh.blocks[b].slots[(s.t.tail + s.prod.k) % BLOCK := Full(s.prod.xs[s.prod.k])])]))
  {
    var i := s.t.tail + s.prod.k;
    assert sh.blocks[b].slots[i % BLOCK] == Expected(q * BLOCK + i % BLOCK, s.items, s.got, s.prod);
  }

  lemma SlotsAfterWrite(q: nat, block: Block, items: seq<int>, got: map<nat, int>, xs: seq<int>, blocks: seq<nat>,
                        k: nat)
    requires SlotsOk(q, block, items, got, PWrite(xs, blocks, k)) && k < |xs|
    ensures var i, prod' := |items| + k, PWrite(xs, blocks, k + 1);
      && (i / BLOCK == q ==> SlotsOk(q, block.(slots := block.slots[i % BLOCK := Full(xs[k])]), items, got, prod'))
      && (i / BLOCK != q ==> SlotsOk(q, block, items, got, prod'))
  {
  }

  lemma WriteEntries(s: Sub, blocks: seq<Block>, w: Witness, q: nat, b: nat, prod': Prod)
    requires EntriesOk(s.index, w.place, blocks, s.items, s.got, s.prod)
             && PlacesOk(w.place, s.index, s.moves, s.prod, blocks)
    requires s.prod.PWrite? && s.prod.k < |s.prod.xs| && q == (|s.items| + s.prod.k) / BLOCK && q in s.index
             && s.index[q] == b
    requires b < |blocks| && |blocks[b].slots| == BLOCK && prod' == PWrite(s.prod.xs, s.prod.got, s.prod.k + 1)
    ensures var blocks' := blocks[b := blocks[b].(
              slots := blocks[b].slots[(|s.items| + s.prod.k) % BLOCK := Full(s.prod.xs[s.prod.k])])];
      && EntriesOk(s.index, w.place, blocks', s.items, s.got, prod')
      && PlacesOk(w.place, s.index, s.moves, prod', blocks')
  {
    var block' := blocks[b].(slots := blocks[b].slots[(|s.items| + s.prod.k) % BLOCK := Full(s.prod.xs[s.prod.k])]);
    var blocks' := blocks[b := block'];
    assert EntryOk(q, s.index, w.place, blocks, s.items, s.got, s.prod);
    PlacesBlock(w.place, s.index, s.moves, s.prod, blocks, b, block');
    forall d | d in w.place ensures PlaceOk(d, w.place, s.index, s.moves, prod', blocks') {
      assert PlaceOk(d, w.place, s.index, s.moves, s.prod, blocks');
    }
    forall r | r in s.index ensures EntryOk(r, s.index, w.place, blocks', s.items, s.got, prod') {
      assert EntryOk(r, s.index, w.place, blocks, s.items, s.got, s.prod);
      SlotsAfterWrite(r, blocks[s.index[r]], s.items, s.got, s.prod.xs, s.prod.got, s.prod.k);
    }
  }

  lemma WriteKeeps(s: Sub, sh: Shared, w: Witness)
    requires Core(s, sh.blocks, w) && s.prod.PWrite? && s.prod.k < |s.prod.xs|
    ensures var b := Target(s, s.prod.got, s.prod.k); var (s', sh') := ProdStep(s, sh, Nothing);
      && Core(s', sh'.blocks, w) && b in w.place && b < |sh.blocks| == |sh'.blocks|
      && sh' == sh.(blocks := sh.blocks[b := sh'.blocks[b]])
  {
    var q := (s.t.tail + s.prod.k) / BLOCK;
    WriteTarget(s, sh.blocks, w);
    var b, prod' := s.index[q], PWrite(s.prod.xs, s.prod.got, s.prod.k + 1);
    assert EntryOk(q, s.index, w.place, sh.blocks, s.items, s.got, s.prod);
    WriteEffect(s, sh, w, q, b);
    var blocks' := ProdStep(s, sh, Nothing).1.blocks;
    StagesSlots(w.stage, w.owner, s.index, sh.blocks, s.moves, b, blocks'[b]);
    WriteEntries(s, sh.blocks, w, q, b, prod');
    forall j | 0 <= j < |s.prod.got| ensures FilledAt(s.index, NextBlock(s.t.tail), prod'.got, j) {
      assert FilledAt(s.index, NextBlock(s.t.tail), s.prod.got, j);
    }
  }

  // Publishing the tail.

  function PublishWitness(s: Sub, w: Witness): Witness
    requires s.prod.PWrite?
  {
    w.(stage := w.stage + seq(Needed(s.t.tail, |s.prod.xs|), _ => Live))
  }

  lemma SlotsAfterPublish(q: nat, block: Block, items: seq<int>, got: map<nat, int>, xs: seq<int>, blocks: seq<nat>)
    requires SlotsOk(q, block, items, got, PWrite(xs, blocks, |xs|)) && forall k :: k in got ==> k < |items|
    ensures SlotsOk(q, block, items + xs, got, PIdle)
  {
  }

  lemma {:induction false} CountedBeyond(owner: seq<Owner>, lo: nat, n: nat)
    requires |owner| <= lo
    ensures CountedIn(owner, lo, n) == 0
  {
    if n > 0 { CountedBeyond(owner, lo, n - 1); }
  }

  lemma PublishStages(s: Sub, blocks: seq<Block>, w: Witness)
    requires Core(s, blocks, w) && s.prod.PWrite? && s.prod.k == |s.prod.xs|
    ensures StagesOk(PublishWitness(s, w).stage, w.owner, s.index, blocks, s.moves)
  {
    var stage', p := PublishWitness(s, w).stage, NextBlock(s.t.tail);
    forall q | 0 <= q < |stage'| ensures StageOk(q, stage', w.owner, s.index, blocks, s.moves) {
      if q < p {
        assert StageOk(q, w.stage, w.owner, s.index, blocks, s.moves);
      } else {
        assert FilledAt(s.index, p, s.prod.got, q - p);
        assert EntryOk(q, s.index, w.place, blocks, s.items, s.got, s.prod);
        CountedBeyond(w.owner, q * BLOCK, BLOCK);
      }
    }
  }

  lemma PublishEntries(s: Sub, blocks: seq<Block>, w: Witness)
    requires Core(s, blocks, w) && s.prod.PWrite? && s.prod.k == |s.prod.xs|
    ensures EntriesOk(s.index, w.place, blocks, s.items + s.prod.xs, s.got, PIdle)
    ensures PlacesOk(w.place, s.index, s.moves, PIdle, blocks)
  {
    var items' := s.items + s.prod.xs;
    forall r | r in s.index ensures EntryOk(r, s.index, w.place, blocks, items', s.got, PIdle) {
      assert EntryOk(r, s.index, w.place, blocks, s.items, s.got, s.prod);
      SlotsAfterPublish(r, blocks[s.index[r]], s.items, s.got, s.prod.xs, s.prod.got);
    }
    forall d | d in w.place ensures PlaceOk(d, w.place, s.index, s.moves, PIdle, blocks) {
      assert PlaceOk(d, w.place, s.index, s.moves, s.prod, blocks);
    }
  }

  lemma PublishProd(s: Sub, place: map<nat, Place>)
    requires ProdOk(s.prod, s.index, place, s.t.tail, s.tailBlock) && s.prod.PWrite? && s.prod.k == |s.prod.xs|
    ensures ProdOk(PIdle, s.index, place, s.t.tail + |s.prod.xs|,
                   if s.prod.got == [] then s.tailBlock else s.prod.got[|s.prod.got| - 1])
  {
    var got := s.prod.got;
    if got != [] {
      assert FilledAt(s.index, NextBlock(s.t.tail), got, |got| - 1);
    }
  }

  lemma PublishKeeps(s: Sub, sh: Shared, w: Witness)
    requires Core(s, sh.blocks, w) && s.prod.PWrite? && s.prod.k == |s.prod.xs|
    ensures Core(ProdStep(s, sh, Nothing).0, sh.blocks, PublishWitness(s, w)) && ProdStep(s, sh, Nothing).1 == sh
  {
    var s', w' := ProdStep(s, sh, Nothing).0, PublishWitness(s, w);
    PublishStages(s, sh.blocks, w);
    PublishEntries(s, sh.blocks, w);
    PublishProd(s, w.place);
    MovesProducer(s.moves, w.owner, s.got, s.index, w.stage, w.place, s.index, w'.stage, w.place);
    forall k | 0 <= k < |w.owner| ensures IndexOk(k, w.owner, s.moves, s'.items, s.got) {
      assert IndexOk(k, w.owner, s.moves, s.items, s.got);
    }
  }

  // Undoing a failed enqueue.

  lemma UndoEntries(s: Sub, blocks: seq<Block>, w: Witness, q: nat, b: nat)
    requires EntriesOk(s.index, w.place, blocks, s.items, s.got, s.prod)
             && PlacesOk(w.place, s.index, s.moves, s.prod, blocks)
    requires s.prod.PUndo? && s.prod.k < |s.prod.got| && b == s.prod.got[s.prod.k]
             && q == NextBlock(|s.items|) + s.prod.k
    requires q in s.index && s.index[q] == b && forall k :: k in s.got ==> k < |s.items|
    ensures var index' := s.index - {q}; var place' := w.place[b := WithProducer];
            var prod' := PUndo(s.prod.got, s.prod.k + 1);
      && EntriesOk(index', place', blocks, s.items, s.got, prod')
      && PlacesOk(place', index', s.moves, prod', blocks)
  {
    var index', place', prod' := s.index - {q}, w.place[b := WithProducer], PUndo(s.prod.got, s.prod.k + 1);
    assert EntryOk(q, s.index, w.place, blocks, s.items, s.got, s.prod);
    assert Hand(prod') == Hand(s.prod) + [b];
    forall r | r in index' ensures EntryOk(r, index', place', blocks, s.items, s.got, prod') {
      assert EntryOk(r, s.index, w.place, blocks, s.items, s.got, s.prod);
    }
    forall d | d in place' ensures PlaceOk(d, place', index', s.moves, prod', blocks) {
      if d != b { assert PlaceOk(d, w.place, s.index, s.moves, s.prod, blocks); }
    }
  }

  lemma UndoProd(s: Sub, place: map<nat, Place>, q: nat, b: nat)
    requires ProdOk(s.prod, s.index, place, s.t.tail, s.tailBlock)
    requires s.prod.PUndo? && s.prod.k < |s.prod.got| && b == s.prod.got[s.prod.k]
             && q == NextBlock(s.t.tail) + s.prod.k
    ensures ProdOk(PUndo(s.prod.got, s.prod.k + 1), s.index - {q}, place[b := WithProducer], s.t.tail, s.tailBlock)
  {
    var k, got, p := s.prod.k, s.prod.got, NextBlock(s.t.tail);
    var index', prod' := s.index - {q}, PUndo(got, k + 1);
    assert Hand(prod') == Hand(s.prod) + [b];
    forall i, j | 0 <= i < j < |Hand(prod')| ensures Differ(Hand(prod'), i, j) { assert Differ(got, i, j); }
    forall j | k + 1 <= j < |got| ensures FilledAt(index', p, got, j) { assert FilledAt(s.index, p, got, j); }
  }

  lemma UndoOneKeeps(s: Sub, blocks: seq<Block>, w: Witness, q: nat, b: nat)
    requires Core(s, blocks, w) && s.prod.PUndo? && s.prod.k < |s.prod.got|
    requires q == NextBlock(s.t.tail) + s.prod.k && b == s.prod.got[s.prod.k]
    ensures b in w.place
    ensures Core(s.(index := s.index - {q}, prod := PUndo(s.prod.got, s.prod.k + 1)), blocks,
                 w.(place := w.place[b := WithProducer]))
  {
    var index', place' := s.index - {q}, w.place[b := WithProducer];
    assert FilledAt(s.index, NextBlock(s.t.tail), s.prod.got, s.prod.k);
    assert EntryOk(q, s.index, w.place, blocks, s.items, s.got, s.prod);
    MovesProducer(s.moves, w.owner, s.got, s.index, w.stage, w.place, index', w.stage, place');
    StagesProducer(w.stage, w.owner, s.index, blocks, s.moves, index', blocks);
    UndoEntries(s, blocks, w, q, b);
    UndoProd(s, w.place, q, b);
  }

  lemma ReleaseOneKeeps(s: Sub, blocks: seq<Block>, w: Witness)
    requires Core(s, blocks, w) && s.prod.PRelease? && s.prod.got != []
    ensures var b := s.prod.got[0];
      && b in w.place && b < |blocks| && Vacant(blocks[b])
      && Core(s.(prod := PRelease(s.prod.got[1..])), blocks, w.(place := w.place - {b}))
  {
    var got := s.prod.got;
    var b, prod', place' := got[0], PRelease(got[1..]), w.place - {got[0]};
    assert b in Hand(s.prod);
    assert PlaceOk(b, w.place, s.index, s.moves, s.prod, blocks);
    MovesProducer(s.moves, w.owner, s.got, s.index, w.stage, w.place, s.index, w.stage, place');
    forall r | r in s.index ensures EntryOk(r, s.index, place', blocks, s.items, s.got, prod') {
      assert EntryOk(r, s.index, w.place, blocks, s.items, s.got, s.prod);
    }
    forall d | d in place' ensures PlaceOk(d, place', s.index, s.moves, prod', blocks) {
      assert PlaceOk(d, w.place, s.index, s.moves, s.prod, blocks);
    }
    forall j | 0 <= j < |Hand(prod')| ensures Hand(prod')[j] in place' && place'[Hand(prod')[j]].WithProducer? {
      assert Differ(got, 0, j + 1);
      assert Hand(prod')[j] in Hand(s.prod);
    }
    forall i, j | 0 <= i < j < |Hand(prod')| ensures Differ(Hand(prod'), i, j) { assert Differ(got, i + 1, j + 1); }
  }

  // ---------------------------------------------------------------------------------------------
  // Every step keeps the invariant

  /** A block that may be handed to this sub-queue. */
  predicate Available(sh: Shared, w: Witness, b: nat) {
    b < |sh.blocks| && b !in w.place && Vacant(sh.blocks[b])
  }

  /** How a step moves blocks between this sub-queue and the free list, the pool and the heap. */
  datatype Deal = Keep | OutOfPool | OutOfHeap | OutOfFree(b: nat) | IntoFree(b: nat)

  /** The deal, and that the step leaves the blocks of everybody else alone; `keys` are the blocks held here. */
  predicate Transfer(deal: Deal, sh: Shared, keys: set<nat>, sh': Shared, keys': set<nat>) {
    && |sh'.blocks| == |sh.blocks| + (if deal.OutOfHeap? then 1 else 0) && sh'.poolEnd == sh.poolEnd
    && (forall b :: 0 <= b < |sh.blocks| && b !in keys ==> sh'.blocks[b] == sh.blocks[b])
    && sh'.pool == sh.pool + (if deal.OutOfPool? then 1 else 0)
    && match deal
       case Keep => keys' == keys && sh'.free == sh.free
       case OutOfPool => keys' == keys + {sh.pool} && sh'.free == sh.free && sh.pool < sh.poolEnd
       case OutOfHeap => keys' == keys + {|sh.blocks|} && sh'.free == sh.free
       case OutOfFree(b) => keys' == keys + {b} && sh'.free == sh.free - {b} && b in sh.free
       case IntoFree(b) =>
         keys' == keys - {b} && sh'.free == sh.free + {b} && b in keys && b < |sh.blocks| && Vacant(sh'.blocks[b])
  }

  /** The step keeps the invariant but for the tickets, and makes the deal. */
  predicate Keeps(s: Sub, sh: Shared, a: Action, w: Witness, w': Witness, deal: Deal) {
    Enabled(s, sh, a) && w'.verdicts == w.verdicts &&
    var (s', sh') := Step(s, sh, a);
    Transfer(deal, sh, w.place.Keys, sh', w'.place.Keys) && Core(s', sh'.blocks, w')
  }

  lemma MoveStretch(s: Sub, sh: Shared, w: Witness, c: nat) returns (w': Witness, deal: Deal)
    requires Core(s, sh.blocks, w) && c < |s.moves| && s.moves[c].MMove?
    ensures Keeps(s, sh, MoveOut(c), w, w', deal)
  {
    deal, w' := Keep, w;
    assert MoveOk(s.moves[c], c, w.owner, s.got, s.index, w.stage, w.place);
    if s.moves[c].i < s.moves[c].stop {
      MoveOneKeeps(s, sh.blocks, w, c);
    } else {
      CountKeeps(s, sh.blocks, w, c);
      w' := CountWitness(w, s.moves[c], c);
    }
  }

  lemma ClearStep(s: Sub, sh: Shared, w: Witness, c: nat) returns (w': Witness, deal: Deal)
    requires Core(s, sh.blocks, w) && c < |s.moves| && s.moves[c].MClear?
    ensures Keeps(s, sh, MoveOut(c), w, w', deal)
  {
    ClearKeeps(s, sh.blocks, w, c);
    deal, w' := Keep, ClearWitness(w, s.moves[c], c);
    assert w'.place.Keys == w.place.Keys;
  }

  lemma FreeStep(s: Sub, sh: Shared, w: Witness, c: nat) returns (w': Witness, deal: Deal)
    requires Core(s, sh.blocks, w) && c < |s.moves| && s.moves[c].MFree?
    ensures Keeps(s, sh, MoveOut(c), w, w', deal)
  {
    var b := s.moves[c].b;
    FreeKeeps(s, sh.blocks, w, c);
    deal, w' := IntoFree(b), w.(place := w.place - {b});
    assert w'.place.Keys == w.place.Keys - {b};
  }

  lemma MoveOutKeeps(s: Sub, sh: Shared, w: Witness, c: nat) returns (w': Witness, deal: Deal)
    requires Core(s, sh.blocks, w) && c < |s.moves| && !s.moves[c].MIdle?
    ensures Keeps(s, sh, MoveOut(c), w, w', deal)
  {
    match s.moves[c]
    case MLook(_, _) =>
      LookKeeps(s, sh.blocks, w, c);
      deal, w' := Keep, w;
    case MMove(_, _, _, _, _) => w', deal := MoveStretch(s, sh, w, c);
    case MClear(_, _, _) => w', deal := ClearStep(s, sh, w, c);
    case MFree(_, _, _) => w', deal := FreeStep(s, sh, w, c);
  }

  lemma TakeAny(s: Sub, sh: Shared, w: Witness, from: Source) returns (w': Witness, deal: Deal)
    requires Core(s, sh.blocks, w) && Enabled(s, sh, Produce(from)) && !from.Nothing?
    requires from.FromPool? ==> Available(sh, w, sh.pool)
    requires from.FromFree? ==> Available(sh, w, from.b)
    ensures var (s', sh') := ProdStep(s, sh, from);
      Core(s', sh'.blocks, w') && Transfer(deal, sh, w.place.Keys, sh', w'.place.Keys)
    ensures w'.verdicts == w.verdicts
  {
    var sh' := ProdStep(s, sh, from).1;
    var b := if from.FromPool? then sh.pool else if from.FromFree? then from.b else |sh.blocks|;
    if from.FromHeap? {
      NewBlock(s, sh.blocks, w, sh'.blocks[b]);
      forall d | d in w.place ensures d != b { assert PlaceOk(d, w.place, s.index, s.moves, s.prod, sh.blocks); }
    }
    TakeKeeps(s, sh'.blocks, w, b);
    w' := w.(place := w.place[b := WithProducer]);
    deal := if from.FromPool? then OutOfPool else if from.FromFree? then OutOfFree(b) else OutOfHeap;
    assert w'.place.Keys == w.place.Keys + {b};
  }

  /** The blocks are all there, or there are no more to be had. */
  lemma NeedTurns(s: Sub, blocks: seq<Block>, w: Witness)
    requires Core(s, blocks, w) && s.prod.PNeed?
    ensures Core(s.(prod := PUndo(s.prod.got, 0)), blocks, w)
    ensures |s.prod.got| == Needed(s.t.tail, |s.prod.xs|) ==>
            Core(s.(prod := PWrite(s.prod.xs, s.prod.got, 0)), blocks, w)
  {
    ProducerTurns(s, blocks, w, PUndo(s.prod.got, 0));
    if |s.prod.got| == Needed(s.t.tail, |s.prod.xs|) {
      ProducerTurns(s, blocks, w, PWrite(s.prod.xs, s.prod.got, 0));
    }
  }

  /** All entries are cleared, or all blocks returned. */
  lemma UndoTurns(s: Sub, blocks: seq<Block>, w: Witness)
    requires Core(s, blocks, w)
    ensures s.prod.PUndo? && s.prod.k >= |s.prod.got| ==> Core(s.(prod := PRelease(s.prod.got)), blocks, w)
    ensures s.prod == PRelease([]) ==> Core(s.(prod := PIdle), blocks, w)
  {
    if s.prod.PUndo? && s.prod.k >= |s.prod.got| {
      assert s.prod.got[..s.prod.k] == s.prod.got;
      ProducerTurns(s, blocks, w, PRelease(s.prod.got));
    }
    if s.prod == PRelease([]) {
      ProducerTurns(s, blocks, w, PIdle);
    }
  }

  lemma UndoStep(s: Sub, sh: Shared, w: Witness) returns (w': Witness, deal: Deal)
    requires Core(s, sh.blocks, w) && s.prod.PUndo? && s.prod.k < |s.prod.got|
    ensures Keeps(s, sh, Produce(Nothing), w, w', deal)
  {
    var b := s.prod.got[s.prod.k];
    UndoOneKeeps(s, sh.blocks, w, NextBlock(s.t.tail) + s.prod.k, b);
    deal, w' := Keep, w.(place := w.place[b := WithProducer]);
    assert w'.place.Keys == w.place.Keys;
  }

  lemma UndoneStep(s: Sub, sh: Shared, w: Witness) returns (w': Witness, deal: Deal)
    requires Core(s, sh.blocks, w) && s.prod.PUndo? && s.prod.k >= |s.prod.got|
    ensures Keeps(s, sh, Produce(Nothing), w, w', deal)
  {
    deal, w' := Keep, w;
    UndoTurns(s, sh.blocks, w);
  }

  lemma ReleaseStep(s: Sub, sh: Shared, w: Witness) returns (w': Witness, deal: Deal)
    requires Core(s, sh.blocks, w) && s.prod.PRelease?
    ensures Keeps(s, sh, Produce(Nothing), w, w', deal)
  {
    deal, w' := Keep, w;
    UndoTurns(s, sh.blocks, w);
    if s.prod.got != [] {
      var b := s.prod.got[0];
      ReleaseOneKeeps(s, sh.blocks, w);
      deal, w' := IntoFree(b), w.(place := w.place - {b});
      assert w'.place.Keys == w.place.Keys - {b};
    }
  }

  lemma NeedStep(s: Sub, sh: Shared, w: Witness) returns (w': Witness, deal: Deal)
    requires Core(s, sh.blocks, w) && s.prod.PNeed?
    ensures Keeps(s, sh, Produce(Nothing), w, w', deal)
  {
    deal, w' := Keep, w;
    NeedTurns(s, sh.blocks, w);
  }

  lemma HoldStep(s: Sub, sh: Shared, w: Witness) returns (w': Witness, deal: Deal)
    requires Core(s, sh.blocks, w) && s.prod.PHold?
    ensures Keeps(s, sh, Produce(Nothing), w, w', deal)
  {
    var q, b := NextBlock(s.t.tail) + |s.prod.got|, s.prod.b;
    InstallKeeps(s, sh.blocks, w, q, b);
    deal, w' := Keep, w.(place := w.place[b := At(q)]);
    assert w'.place.Keys == w.place.Keys;
  }

  lemma WriteStep(s: Sub, sh: Shared, w: Witness) returns (w': Witness, deal: Deal)
    requires Core(s, sh.blocks, w) && s.prod.PWrite?
    ensures Keeps(s, sh, Produce(Nothing), w, w', deal)
  {
    if s.prod.k < |s.prod.xs| {
      WriteKeeps(s, sh, w);
      deal, w' := Keep, w;
    } else {
      PublishKeeps(s, sh, w);
      deal, w' := Keep, PublishWitness(s, w);
    }
  }

  lemma ProduceStep(s: Sub, sh: Shared, w: Witness, from: Source) returns (w': Witness, deal: Deal)
    requires Core(s, sh.blocks, w) && Enabled(s, sh, Produce(from))
    requires from.FromPool? ==> Available(sh, w, sh.pool)
    requires from.FromFree? ==> Available(sh, w, from.b)
    ensures Keeps(s, sh, Produce(from), w, w', deal)
  {
    if !from.Nothing? {
      w', deal := TakeAny(s, sh, w, from);
    } else {
      match s.prod
      case PNeed(_, _) => w', deal := NeedStep(s, sh, w);
      case PHold(_, _, _) => w', deal := HoldStep(s, sh, w);
      case PWrite(_, _, _) => w', deal := WriteStep(s, sh, w);
      case PUndo(_, _) =>
        if s.prod.k < |s.prod.got| { w', deal := UndoStep(s, sh, w); } else { w', deal := UndoneStep(s, sh, w); }
      case PRelease(_) => w', deal := ReleaseStep(s, sh, w);
    }
  }

  lemma EnqueueStep(s: Sub, sh: Shared, w: Witness, xs: seq<int>)
    requires Core(s, sh.blocks, w) && s.prod.PIdle?
    ensures Keeps(s, sh, Enqueue(xs), w, w, Keep)
  {
    ProducerTurns(s, sh.blocks, w, PNeed(xs, []));
  }

  /** The steps that take and decide tickets change nothing else; a claim becomes a range to move out. */
  lemma TicketCore(s: Sub, blocks: seq<Block>, w: Witness, ta: T.Action)
    requires Core(s, blocks, w) && T.Enabled(s.t, ta) && !ta.Publish? && !ta.Release?
             && (ta.Call? ==> s.moves[ta.c].MIdle?)
    requires ta.Run? ==> !s.t.pcs[ta.c].Claim?
    ensures Core(TicketStep(s, ta), blocks, w)
  {
  }

  lemma TicketAsks(t: T.State, ta: T.Action)
    requires T.Enabled(t, ta) && (ta.Call? ==> ta.max > 0) && forall c :: 0 <= c < |t.pcs| ==> Asks(t.pcs[c])
    ensures forall c :: 0 <= c < |t.pcs| ==> Asks(T.Step(t, ta).pcs[c])
  {
  }

  lemma ClaimFits(t: T.State, ta: T.Action, v: seq<T.Verdict>)
    requires T.Inv(t, v) && T.Enabled(t, ta) && ta.Run? && t.pcs[ta.c].Claim?
    ensures t.head + t.pcs[ta.c].a <= t.tail
  {
    T.StepKeepsInv(t, ta, v);
    T.HeadWithinTail(T.Step(t, ta), v);
  }

  lemma TicketStepCore(s: Sub, blocks: seq<Block>, w: Witness, ta: T.Action, v: seq<T.Verdict>) returns (w': Witness)
    requires Core(s, blocks, w) && T.Enabled(s.t, ta) && !ta.Publish? && !ta.Release?
    requires ta.Call? ==> s.moves[ta.c].MIdle?
    requires ta.Run? && s.t.pcs[ta.c].Claim? ==> s.t.pcs[ta.c].a > 0 && s.t.head + s.t.pcs[ta.c].a <= s.t.tail
    ensures Core(TicketStep(s, ta), blocks, w') && w'.place == w.place && w'.verdicts == v
  {
    if ta.Run? && s.t.pcs[ta.c].Claim? {
      ClaimKeeps(s, blocks, w, ta.c, ta.seen);
      w' := ClaimWitness(w, ta.c, s.t.pcs[ta.c].a).(verdicts := v);
    } else {
      TicketCore(s, blocks, w, ta);
      w' := w.(verdicts := v);
    }
  }

  lemma TicketStepKeeps(s: Sub, blocks: seq<Block>, w: Witness, ta: T.Action) returns (w': Witness)
    requires Inv(s, blocks, w) && T.Enabled(s.t, ta) && !ta.Publish? && !ta.Release?
    requires ta.Call? ==> s.moves[ta.c].MIdle? && ta.max > 0
    ensures Inv(TicketStep(s, ta), blocks, w') && w'.place == w.place
  {
    T.StepKeepsInv(s.t, ta, w.verdicts);
    TicketAsks(s.t, ta);
    if ta.Run? && s.t.pcs[ta.c].Claim? { ClaimFits(s.t, ta, w.verdicts); }
    w' := TicketStepCore(s, blocks, w, ta, T.NextVerdicts(s.t, ta, w.verdicts));
  }

  /** What the other steps do to the counters: nothing, the release of a claim, or the publication of the tail. */
  lemma CountersAfter(s: Sub, sh: Shared, a: Action) returns (ta: T.Action)
    requires Enabled(s, sh, a) && !a.Ticket?
    ensures T.Enabled(s.t, ta) && (ta.Publish? || ta.Release?) && Step(s, sh, a).0.t == T.Step(s.t, ta)
  {
    ta := T.Publish(0);
    if a.MoveOut? && Step(s, sh, a).0.t != s.t { ta := T.Release(a.c); }
    if a.Produce? && a.from.Nothing? && s.prod.PWrite? && s.prod.k >= |s.prod.xs| { ta := T.Publish(|s.prod.xs|); }
  }

  /** Every step of the sub-queue keeps the invariant, and says how it deals with blocks. */
  lemma StepKeepsInv(s: Sub, sh: Shared, w: Witness, a: Action) returns (w': Witness, deal: Deal)
    requires Inv(s, sh.blocks, w) && Enabled(s, sh, a)
    requires a.Produce? && a.from.FromPool? ==> Available(sh, w, sh.pool)
    requires a.Produce? && a.from.FromFree? ==> Available(sh, w, a.from.b)
    ensures Inv(Step(s, sh, a).0, Step(s, sh, a).1.blocks, w')
    ensures Transfer(deal, sh, w.place.Keys, Step(s, sh, a).1, w'.place.Keys)
  {
    if a.Ticket? {
      deal := Keep;
      w' := TicketStepKeeps(s, sh.blocks, w, a.a);
    } else {
      w', deal := OtherStepKeeps(s, sh, w, a);
      TicketsKept(s, sh, w, a);
    }
  }

  lemma OtherStepKeeps(s: Sub, sh: Shared, w: Witness, a: Action) returns (w': Witness, deal: Deal)
    requires Core(s, sh.blocks, w) && Enabled(s, sh, a) && !a.Ticket?
    requires a.Produce? && a.from.FromPool? ==> Available(sh, w, sh.pool)
    requires a.Produce? && a.from.FromFree? ==> Available(sh, w, a.from.b)
    ensures Keeps(s, sh, a, w, w', deal)
  {
    match a
    case MoveOut(c) => w', deal := MoveOutKeeps(s, sh, w, c);
    case Enqueue(xs) => EnqueueStep(s, sh, w, xs); w', deal := w, Keep;
    case Produce(from) => w', deal := ProduceStep(s, sh, w, from);
  }

  lemma TicketsKept(s: Sub, sh: Shared, w: Witness, a: Action)
    requires T.Inv(s.t, w.verdicts) && (forall c :: 0 <= c < |s.t.pcs| ==> Asks(s.t.pcs[c]))
    requires Enabled(s, sh, a) && !a.Ticket?
    ensures var t := Step(s, sh, a).0.t; T.Inv(t, w.verdicts) && forall c :: 0 <= c < |t.pcs| ==> Asks(t.pcs[c])
  {
    var ta := CountersAfter(s, sh, a);
    T.StepKeepsInv(s.t, ta, w.verdicts);
  }

  /** Only the blocks held here matter to the invariant. */
  lemma BlocksFrame(s: Sub, blocks: seq<Block>, w: Witness, blocks': seq<Block>)
    requires Inv(s, blocks, w) && |blocks| <= |blocks'|
    requires forall b :: b in w.place && b < |blocks| ==> blocks'[b] == blocks[b]
    ensures Inv(s, blocks', w)
  {
    forall q | 0 <= q < |w.stage| ensures StageOk(q, w.stage, w.owner, s.index, blocks', s.moves) {
      assert StageOk(q, w.stage, w.owner, s.index, blocks, s.moves);
      assert q in s.index ==> EntryOk(q, s.index, w.place, blocks, s.items, s.got, s.prod);
    }
    forall q | q in s.index ensures EntryOk(q, s.index, w.place, blocks', s.items, s.got, s.prod) {
      assert EntryOk(q, s.index, w.place, blocks, s.items, s.got, s.prod);
    }
    forall b | b in w.place ensures PlaceOk(b, w.place, s.index, s.moves, s.prod, blocks') {
      assert PlaceOk(b, w.place, s.index, s.moves, s.prod, blocks);
    }
  }

  lemma InitHolds(s: Sub, blocks: seq<Block>)
    requires Init(s)
    ensures Inv(s, blocks, Witness([], [], [], map[]))
  {
    T.SumsIdle(s.t.pcs);
  }
}
