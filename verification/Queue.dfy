/** The whole queue: any number of producers with their sub-queues, any number of consumers, and the blocks
    they share through the initial pool, the free list and the heap. */
module Queue {
  import opened SubQueue
  import opened SubQueueSafety
  import T = Tickets

  datatype State = State(subs: seq<Sub>, sh: Shared)

  /** A thread that enqueues for the first time adds a sub-queue; every other step is a step of one sub-queue. */
  datatype Event = NewProducer(s: Sub) | SubStep(p: nat, a: Action)

  predicate Can(g: State, ev: Event) {
    match ev
    case NewProducer(s) => Init(s)
    case SubStep(p, a) => p < |g.subs| && Enabled(g.subs[p], g.sh, a)
  }

  function Next(g: State, ev: Event): State
    requires Can(g, ev)
  {
    match ev
    case NewProducer(s) => g.(subs := g.subs + [s])
    case SubStep(p, a) =>
      var (s', sh') := Step(g.subs[p], g.sh, a);
      State(g.subs[p := s'], sh')
  }

  /** At first there are no producers and only the blocks of the initial pool. */
  predicate Start(g: State) {
    && g.subs == [] && g.sh.free == {} && g.sh.pool == 0 && g.sh.poolEnd == |g.sh.blocks|
    && forall b :: 0 <= b < |g.sh.blocks| ==> Vacant(g.sh.blocks[b])
  }

  ghost predicate StepAt(run: seq<State>, evs: seq<Event>, i: nat) {
    i < |evs| && i + 1 < |run| && Can(run[i], evs[i]) && run[i + 1] == Next(run[i], evs[i])
  }

  ghost predicate Execution(run: seq<State>, evs: seq<Event>) {
    |run| == |evs| + 1 && Start(run[0]) && forall i :: 0 <= i < |evs| ==> StepAt(run, evs, i)
  }

  // ---------------------------------------------------------------------------------------------
  // The invariant

  predicate InPool(sh: Shared, b: nat) { sh.pool <= b < sh.poolEnd }

  predicate Unheld(ws: seq<Witness>, b: nat) {
    forall p :: 0 <= p < |ws| ==> b !in ws[p].place
  }

  predicate Apart(ws: seq<Witness>, p: nat, r: nat)
    requires p < |ws| && r < |ws|
  {
    ws[p].place.Keys !! ws[r].place.Keys
  }

  /** A block that is free or in the pool is vacant and nobody's; and every block is somewhere. */
  predicate BlockOk(sh: Shared, ws: seq<Witness>, b: nat)
    requires b < |sh.blocks|
  {
    if b in sh.free || InPool(sh, b) then Vacant(sh.blocks[b]) && Unheld(ws, b) && !(b in sh.free && InPool(sh, b))
    else exists p :: 0 <= p < |ws| && b in ws[p].place
  }

  ghost predicate Inv(g: State, ws: seq<Witness>) {
    && |ws| == |g.subs| && g.sh.poolEnd <= |g.sh.blocks|
    && (forall b :: b in g.sh.free ==> b < |g.sh.blocks|)
    && (forall p :: 0 <= p < |ws| ==> SubQueueSafety.Inv(g.subs[p], g.sh.blocks, ws[p]))
    && (forall p, r :: 0 <= p < r < |ws| ==> Apart(ws, p, r))
    && (forall b :: 0 <= b < |g.sh.blocks| ==> BlockOk(g.sh, ws, b))
  }

  lemma HeldInRange(s: Sub, blocks: seq<Block>, w: Witness)
    requires SubQueueSafety.Inv(s, blocks, w)
    ensures forall b :: b in w.place ==> b < |blocks|
  {
    forall b | b in w.place ensures b < |blocks| {
      assert PlaceOk(b, w.place, s.index, s.moves, s.prod, blocks);
    }
  }

  /** The others keep their blocks to themselves. */
  lemma OthersApart(ws: seq<Witness>, p: nat, r: nat, b: nat)
    requires p < |ws| && r < |ws| && p != r && b in ws[p].place
    requires forall i, j :: 0 <= i < j < |ws| ==> Apart(ws, i, j)
    ensures b !in ws[r].place
  {
    if p < r { assert Apart(ws, p, r); } else { assert Apart(ws, r, p); }
    assert b in ws[p].place.Keys;
  }

  lemma BlocksAfterDeal(sh: Shared, ws: seq<Witness>, p: nat, sh': Shared, w': Witness, deal: Deal, b: nat)
    requires p < |ws| && Transfer(deal, sh, ws[p].place.Keys, sh', w'.place.Keys) && b < |sh'.blocks|
    requires forall i, j :: 0 <= i < j < |ws| ==> Apart(ws, i, j)
    requires forall d :: d in ws[p].place ==> d < |sh.blocks|
    requires b < |sh.blocks| ==> BlockOk(sh, ws, b)
    requires sh.poolEnd <= |sh.blocks| && forall d :: d in sh.free ==> d < |sh.blocks|
    ensures BlockOk(sh', ws[p := w'], b)
  {
    var ws' := ws[p := w'];
    assert b in ws[p].place <==> b in ws[p].place.Keys;
    assert b in w'.place <==> b in w'.place.Keys;
    if b in sh'.free || InPool(sh', b) {
      forall r | 0 <= r < |ws'| ensures b !in ws'[r].place {
        if r != p && b in ws[p].place { OthersApart(ws, p, r, b); }
      }
    } else if b >= |sh.blocks| || b in sh.free || InPool(sh, b) {
      assert b in ws'[p].place;
    } else {
      var r :| 0 <= r < |ws| && b in ws[r].place;
      assert b in ws'[r].place;
    }
  }

  lemma ApartAfterDeal(g: State, ws: seq<Witness>, p: nat, sh': Shared, w': Witness, deal: Deal, i: nat, j: nat)
    requires Inv(g, ws) && p < |ws| && Transfer(deal, g.sh, ws[p].place.Keys, sh', w'.place.Keys) && i < j < |ws|
    ensures Apart(ws[p := w'], i, j)
  {
    var ws' := ws[p := w'];
    assert Apart(ws, i, j);
    if i == p || j == p {
      var r := if i == p then j else i;
      HeldInRange(g.subs[r], g.sh.blocks, ws[r]);
      forall b | b in w'.place.Keys ensures b !in ws[r].place.Keys {
        if b in ws[p].place.Keys {
          OthersApart(ws, p, r, b);
        } else if b < |g.sh.blocks| {
          assert BlockOk(g.sh, ws, b);
        }
      }
    }
  }

  /** Every step of every producer and consumer keeps the invariant of the whole queue. */
  /** The other sub-queues do not hold the blocks that a step changes. */
  lemma OthersKeepInv(g: State, ws: seq<Witness>, p: nat, sh': Shared, w': Witness, deal: Deal, r: nat)
    requires Inv(g, ws) && p < |ws| && r < |ws| && r != p
    requires Transfer(deal, g.sh, ws[p].place.Keys, sh', w'.place.Keys)
    ensures SubQueueSafety.Inv(g.subs[r], sh'.blocks, ws[r])
  {
    forall b | b in ws[r].place && b < |g.sh.blocks| ensures sh'.blocks[b] == g.sh.blocks[b] {
      OthersApart(ws, r, p, b);
    }
    BlocksFrame(g.subs[r], g.sh.blocks, ws[r], sh'.blocks);
  }

  lemma StepKeepsInv(g: State, ws: seq<Witness>, p: nat, a: Action) returns (ws': seq<Witness>)
    requires Inv(g, ws) && Can(g, SubStep(p, a))
    ensures Inv(Next(g, SubStep(p, a)), ws')
  {
    if a.Produce? && a.from.FromPool? { assert BlockOk(g.sh, ws, g.sh.pool); }
    if a.Produce? && a.from.FromFree? { assert BlockOk(g.sh, ws, a.from.b); }
    var w', deal := SubQueueSafety.StepKeepsInv(g.subs[p], g.sh, ws[p], a);
    var g' := Next(g, SubStep(p, a));
    ws' := ws[p := w'];
    forall r | 0 <= r < |ws| ensures SubQueueSafety.Inv(g'.subs[r], g'.sh.blocks, ws'[r]) {
      if r != p { OthersKeepInv(g, ws, p, g'.sh, w', deal, r); }
    }
    forall i, j | 0 <= i < j < |ws'| ensures Apart(ws', i, j) {
      ApartAfterDeal(g, ws, p, g'.sh, w', deal, i, j);
    }
    HeldInRange(g.subs[p], g.sh.blocks, ws[p]);
    forall b | 0 <= b < |g'.sh.blocks| ensures BlockOk(g'.sh, ws', b) {
      assert b < |g.sh.blocks| ==> BlockOk(g.sh, ws, b);
      BlocksAfterDeal(g.sh, ws, p, g'.sh, w', deal, b);
    }
  }

  lemma NewProducerKeepsInv(g: State, ws: seq<Witness>, s: Sub)
    requires Inv(g, ws) && Init(s)
    ensures Inv(Next(g, NewProducer(s)), ws + [Witness([], [], [], map[])])
  {
    var g', ws' := Next(g, NewProducer(s)), ws + [Witness([], [], [], map[])];
    InitHolds(s, g.sh.blocks);
    forall i, j | 0 <= i < j < |ws'| ensures Apart(ws', i, j) {
      if j < |ws| { assert Apart(ws, i, j); }
    }
    forall b | 0 <= b < |g.sh.blocks| ensures BlockOk(g.sh, ws', b) {
      assert BlockOk(g.sh, ws, b);
      if !(b in g.sh.free || InPool(g.sh, b)) {
        var r :| 0 <= r < |ws| && b in ws[r].place;
        assert b in ws'[r].place;
      }
    }
  }

  lemma {:induction false} ExecutionKeepsInv(run: seq<State>, evs: seq<Event>, i: nat) returns (ws: seq<Witness>)
    requires Execution(run, evs) && i < |run|
    ensures Inv(run[i], ws)
  {
    if i == 0 {
      ws := [];
    } else {
      var vs := ExecutionKeepsInv(run, evs, i - 1);
      assert StepAt(run, evs, i - 1);
      match evs[i - 1]
      case NewProducer(s) =>
        NewProducerKeepsInv(run[i - 1], vs, s);
        ws := vs + [Witness([], [], [], map[])];
      case SubStep(p, a) =>
        ws := StepKeepsInv(run[i - 1], vs, p, a);
    }
  }

  // ---------------------------------------------------------------------------------------------
  // What every execution guarantees

  /** No consumer ever follows a null entry or reads a slot without an element, and no producer ever writes
      over an element that has not been moved out. */
  lemma NoBadAccess(run: seq<State>, evs: seq<Event>, i: nat, p: nat)
    requires Execution(run, evs) && i < |run| && p < |run[i].subs|
    ensures !run[i].subs[p].crashed
  {
    var ws := ExecutionKeepsInv(run, evs, i);
    assert SubQueueSafety.Inv(run[i].subs[p], run[i].sh.blocks, ws[p]);
  }

  /** The blocks a sub-queue has: in its index, in its producer's hands, or in a consumer's hands. */
  ghost predicate HasBlock(s: Sub, b: nat) {
    || (exists q :: q in s.index && s.index[q] == b)
    || b in Hand(s.prod)
    || (exists c: nat :: Frees(s, c, b))
  }

  /** Within a sub-queue too a block is in one place: under one number of the index, once in the producer's hands, or
      in the hands of one consumer. */
  ghost predicate OnePlaceIn(s: Sub, b: nat) {
    && (forall q, r :: q in s.index && r in s.index && s.index[q] == b && s.index[r] == b ==> q == r)
    && (forall i, j :: 0 <= i < j < |Hand(s.prod)| && Hand(s.prod)[i] == b ==> Hand(s.prod)[j] != b)
    && (forall c, e :: Frees(s, c, b) && Frees(s, e, b) ==> c == e)
    && (b in Hand(s.prod) ==> (forall q :: q in s.index ==> s.index[q] != b) && forall c :: !Frees(s, c, b))
    && (forall q, c :: q in s.index && s.index[q] == b ==> !Frees(s, c, b))
  }

  predicate Frees(s: Sub, c: nat, b: nat) { c < |s.moves| && s.moves[c].MFree? && s.moves[c].b == b }

  lemma HasItsPlaces(s: Sub, blocks: seq<Block>, w: Witness, b: nat)
    requires SubQueueSafety.Inv(s, blocks, w)
    ensures HasBlock(s, b) <==> b in w.place
  {
    if b in w.place {
      assert PlaceOk(b, w.place, s.index, s.moves, s.prod, blocks);
      assert w.place[b].WithConsumer? ==> Frees(s, w.place[b].c, b);
    }
    forall q | q in s.index && s.index[q] == b ensures b in w.place {
      assert EntryOk(q, s.index, w.place, blocks, s.items, s.got, s.prod);
    }
    forall c: nat | Frees(s, c, b) ensures b in w.place {
      assert MoveOk(s.moves[c], c, w.owner, s.got, s.index, w.stage, w.place);
    }
  }

  lemma HasOnePlace(s: Sub, blocks: seq<Block>, w: Witness, b: nat)
    requires SubQueueSafety.Inv(s, blocks, w)
    ensures OnePlaceIn(s, b)
  {
    forall q | q in s.index && s.index[q] == b ensures b in w.place && w.place[b] == At(q) {
      assert EntryOk(q, s.index, w.place, blocks, s.items, s.got, s.prod);
    }
    forall c: nat | Frees(s, c, b) ensures b in w.place && w.place[b] == WithConsumer(c) {
      assert MoveOk(s.moves[c], c, w.owner, s.got, s.index, w.stage, w.place);
    }
    forall i, j | 0 <= i < j < |Hand(s.prod)| && Hand(s.prod)[i] == b ensures Hand(s.prod)[j] != b {
      assert Differ(Hand(s.prod), i, j);
    }
  }

  /** Every block is in exactly one place: the pool, the free list, or one place of one sub-queue; and what is in the
      pool or on the free list holds no element. */
  lemma EveryBlockInOnePlace(run: seq<State>, evs: seq<Event>, i: nat, b: nat)
    requires Execution(run, evs) && i < |run| && b < |run[i].sh.blocks|
    ensures var g := run[i];
      && !(b in g.sh.free && InPool(g.sh, b))
      && (b in g.sh.free || InPool(g.sh, b) ==>
            Vacant(g.sh.blocks[b]) && forall p :: 0 <= p < |g.subs| ==> !HasBlock(g.subs[p], b))
      && (b in g.sh.free || InPool(g.sh, b) || exists p :: 0 <= p < |g.subs| && HasBlock(g.subs[p], b))
      && (forall p :: 0 <= p < |g.subs| ==> OnePlaceIn(g.subs[p], b))
      && forall p, r :: 0 <= p < r < |g.subs| ==> !(HasBlock(g.subs[p], b) && HasBlock(g.subs[r], b))
  {
    var g := run[i];
    var ws := ExecutionKeepsInv(run, evs, i);
    assert BlockOk(g.sh, ws, b);
    forall p | 0 <= p < |g.subs| ensures HasBlock(g.subs[p], b) <==> b in ws[p].place {
      HasItsPlaces(g.subs[p], g.sh.blocks, ws[p], b);
    }
    forall p | 0 <= p < |g.subs| ensures OnePlaceIn(g.subs[p], b) {
      HasOnePlace(g.subs[p], g.sh.blocks, ws[p], b);
    }
    forall p, r | 0 <= p < r < |g.subs| ensures !(HasBlock(g.subs[p], b) && HasBlock(g.subs[r], b)) {
      if b in ws[p].place { OthersApart(ws, p, r, b); }
    }
  }

  // Elements

  /** The elements delivered for the first n indices. */
  ghost function Delivered(got: map<nat, int>, n: nat): multiset<int> {
    if n == 0 then multiset{} else Delivered(got, n - 1) + (if n - 1 in got then multiset{got[n - 1]} else multiset{})
  }

  /** What is stored for index k: the content of its slot in the block that the index leads to. */
  ghost function Stored(s: Sub, blocks: seq<Block>, k: nat): Slot {
    if k / BLOCK in s.index && s.index[k / BLOCK] < |blocks| && |blocks[s.index[k / BLOCK]].slots| == BLOCK
    then blocks[s.index[k / BLOCK]].slots[k % BLOCK] else Empty
  }

  /** The elements in the slots of the first n indices. */
  ghost function Held(s: Sub, blocks: seq<Block>, n: nat): multiset<int> {
    if n == 0 then multiset{} else Held(s, blocks, n - 1) + InSlot(Stored(s, blocks, n - 1))
  }

  ghost function InSlot(slot: Slot): multiset<int> { if slot.Full? then multiset{slot.x} else multiset{} }

  /** The element enqueued under index k is delivered and its slot empty, or it is in its slot. */
  ghost predicate Accounted(s: Sub, blocks: seq<Block>, k: nat) {
    && k < |s.items|
    && if k in s.got then s.got[k] == s.items[k] && Stored(s, blocks, k) == Empty
       else Stored(s, blocks, k) == Full(s.items[k])
  }

  lemma DeliveredOrStored(s: Sub, blocks: seq<Block>, w: Witness, k: nat)
    requires SubQueueSafety.Inv(s, blocks, w) && k < |s.items|
    ensures Accounted(s, blocks, k)
  {
    var q := k / BLOCK;
    GotFacts(s, blocks, w);
    assert StageOk(q, w.stage, w.owner, s.index, blocks, s.moves);
    CountedBound(w.owner, q * BLOCK, BLOCK);
    if IsCounted(w.owner, k) { assert IndexOk(k, w.owner, s.moves, s.items, s.got); }
    if q in s.index {
      assert EntryOk(q, s.index, w.place, blocks, s.items, s.got, s.prod);
      assert blocks[s.index[q]].slots[k % BLOCK] == Expected(q * BLOCK + k % BLOCK, s.items, s.got, s.prod);
    }
  }

  lemma AddToEither(d: multiset<int>, h: multiset<int>, dx: multiset<int>, hx: multiset<int>, x: multiset<int>)
    requires (dx == x && hx == multiset{}) || (dx == multiset{} && hx == x)
    ensures (d + dx) + (h + hx) == (d + h) + x
  {
  }

  lemma OneMoreItem(items: seq<int>, k: nat, n: nat)
    requires n == k + 1 <= |items|
    ensures multiset(items[..n]) == multiset(items[..k]) + multiset{items[k]}
  {
    assert items[..n] == items[..k] + [items[k]];
  }

  lemma {:induction false} DeliveredPlusHeld(s: Sub, blocks: seq<Block>, n: nat)
    requires n <= |s.items| && forall k :: 0 <= k < n ==> Accounted(s, blocks, k)
    ensures Delivered(s.got, n) + Held(s, blocks, n) == multiset(s.items[..n])
  {
    if n > 0 {
      var k := n - 1;
      DeliveredPlusHeld(s, blocks, k);
      var x, dx := multiset{s.items[k]}, if k in s.got then multiset{s.got[k]} else multiset{};
      var hx := InSlot(Stored(s, blocks, k));
      assert Accounted(s, blocks, k);
      AddToEither(Delivered(s.got, k), Held(s, blocks, k), dx, hx, x);
      OneMoreItem(s.items, k, n);
    }
  }

  lemma GotFacts(s: Sub, blocks: seq<Block>, w: Witness)
    requires SubQueueSafety.Inv(s, blocks, w)
    ensures |s.items| == s.t.tail && s.t.head <= s.t.tail
    ensures forall k :: k in s.got ==> k < s.t.head && s.got[k] == s.items[k]
  {
    forall k | k in s.got ensures k < s.t.head && s.got[k] == s.items[k] {
      assert IndexOk(k, w.owner, s.moves, s.items, s.got);
    }
  }

  /** Conservation: what has been delivered from a sub-queue and what lies in the slots of its blocks, at the indices
      below the tail, is what was enqueued; and each index is in one of the two with its own element. */
  lemma Conservation(run: seq<State>, evs: seq<Event>, i: nat, p: nat)
    requires Execution(run, evs) && i < |run| && p < |run[i].subs|
    ensures var s, blocks := run[i].subs[p], run[i].sh.blocks;
      && Delivered(s.got, |s.items|) + Held(s, blocks, |s.items|) == multiset(s.items)
      && (forall k :: 0 <= k < |s.items| ==> Accounted(s, blocks, k))
  {
    var ws := ExecutionKeepsInv(run, evs, i);
    var s, blocks := run[i].subs[p], run[i].sh.blocks;
    forall k | 0 <= k < |s.items| ensures Accounted(s, blocks, k) { DeliveredOrStored(s, blocks, ws[p], k); }
    DeliveredPlusHeld(s, blocks, |s.items|);
    assert s.items[..|s.items|] == s.items;
  }

  /** A step that moves an element out delivers, for an index that is claimed by this consumer and was never
      delivered before, exactly the element that was enqueued at that index. */
  lemma DeliveryIsExact(run: seq<State>, evs: seq<Event>, i: nat, p: nat, c: nat)
    requires Execution(run, evs) && i < |evs| && evs[i] == SubStep(p, MoveOut(c))
    requires p < |run[i].subs| && c < |run[i].subs[p].moves|
    requires run[i].subs[p].moves[c].MMove? && run[i].subs[p].moves[c].i < run[i].subs[p].moves[c].stop
    ensures var s := run[i].subs[p]; var k := s.moves[c].i;
      && k < s.t.head && k !in s.got && k < |s.items|
      && p < |run[i + 1].subs| && run[i + 1].subs[p].got == s.got[k := s.items[k]]
      && forall e :: 0 <= e < |s.moves| && e != c ==> !InClaim(s.moves[e], k)
  {
    var ws := ExecutionKeepsInv(run, evs, i);
    var s, w, blocks := run[i].subs[p], ws[p], run[i].sh.blocks;
    assert StepAt(run, evs, i);
    assert MoveOk(s.moves[c], c, w.owner, s.got, s.index, w.stage, w.place);
    assert EntryOk(s.moves[c].lo / BLOCK, s.index, w.place, blocks, s.items, s.got, s.prod);
    MoveOneEffect(s, blocks, w, c);
    forall e | 0 <= e < |s.moves| && e != c ensures !InClaim(s.moves[e], s.moves[c].i) {
      assert MoveOk(s.moves[e], e, w.owner, s.got, s.index, w.stage, w.place);
    }
  }

  /** A consumer that is about to clear an entry and free the block is the only one, and all 32 elements of the
      block have been delivered. */
  lemma FreedOnceWhenUsedUp(run: seq<State>, evs: seq<Event>, i: nat, p: nat, c: nat)
    requires Execution(run, evs) && i < |run| && p < |run[i].subs|
    requires c < |run[i].subs[p].moves| && run[i].subs[p].moves[c].MClear?
    ensures var s := run[i].subs[p]; var q := (s.moves[c].i - 1) / BLOCK;
      && 0 < s.moves[c].i && q in s.index && s.index[q] == s.moves[c].b
      && (forall k :: q * BLOCK <= k < q * BLOCK + BLOCK ==> k in s.got)
      && forall e :: 0 <= e < |s.moves| && e != c && s.moves[e].MClear? ==> (s.moves[e].i - 1) / BLOCK != q
  {
    var ws := ExecutionKeepsInv(run, evs, i);
    var s, w, blocks := run[i].subs[p], ws[p], run[i].sh.blocks;
    assert MoveOk(s.moves[c], c, w.owner, s.got, s.index, w.stage, w.place);
    var q := (s.moves[c].i - 1) / BLOCK;
    assert StageOk(q, w.stage, w.owner, s.index, blocks, s.moves);
    CountedBound(w.owner, q * BLOCK, BLOCK);
    forall k | q * BLOCK <= k < q * BLOCK + BLOCK ensures k in s.got {
      assert IsCounted(w.owner, k);
      assert IndexOk(k, w.owner, s.moves, s.items, s.got);
    }
    forall e | 0 <= e < |s.moves| && e != c && s.moves[e].MClear? ensures (s.moves[e].i - 1) / BLOCK != q {
      assert MoveOk(s.moves[e], e, w.owner, s.got, s.index, w.stage, w.place);
    }
  }

  /** In this step a consumer of sub-queue p clears the entry of block number q. */
  ghost predicate Clears(run: seq<State>, evs: seq<Event>, i: nat, p: nat, q: nat) {
    && i < |evs| && i < |run| && p < |run[i].subs| && evs[i].SubStep? && evs[i].p == p && evs[i].a.MoveOut?
    && evs[i].a.c < |run[i].subs[p].moves|
    && var m := run[i].subs[p].moves[evs[i].a.c]; m.MClear? && m.i > 0 && (m.i - 1) / BLOCK == q
  }

  /** A number below the published blocks that is not in the index never comes back. */
  ghost predicate Past(s: Sub, q: nat) { q !in s.index && q < NextBlock(s.t.tail) }

  lemma PastStays(s: Sub, sh: Shared, a: Action, q: nat)
    requires Enabled(s, sh, a) && Past(s, q)
    ensures Past(Step(s, sh, a).0, q)
  {
    match a
    case Produce(from) => PastStaysProducing(s, sh, from, q);
    case _ =>
  }

  lemma PastStaysProducing(s: Sub, sh: Shared, from: Source, q: nat)
    requires Enabled(s, sh, Produce(from)) && Past(s, q)
    ensures Past(ProdStep(s, sh, from).0, q)
  {
  }

  lemma {:induction false} PastStaysInRuns(run: seq<State>, evs: seq<Event>, i: nat, j: nat, p: nat, q: nat)
    requires Execution(run, evs) && i <= j < |run| && p < |run[i].subs| && Past(run[i].subs[p], q)
    ensures p < |run[j].subs| && Past(run[j].subs[p], q)
  {
    if i < j {
      PastStaysInRuns(run, evs, i, j - 1, p, q);
      assert StepAt(run, evs, j - 1);
      if evs[j - 1].SubStep? && evs[j - 1].p == p { PastStays(run[j - 1].subs[p], run[j - 1].sh, evs[j - 1].a, q); }
    }
  }

  lemma ClearedIsPast(run: seq<State>, evs: seq<Event>, i: nat, p: nat, q: nat)
    requires Execution(run, evs) && Clears(run, evs, i, p, q)
    ensures q in run[i].subs[p].index && p < |run[i + 1].subs| && Past(run[i + 1].subs[p], q)
  {
    var ws := ExecutionKeepsInv(run, evs, i);
    assert StepAt(run, evs, i);
    var s, w, c := run[i].subs[p], ws[p], evs[i].a.c;
    assert MoveOk(s.moves[c], c, w.owner, s.got, s.index, w.stage, w.place);
  }

  /** Once per fill over time: no two steps of a run clear the entry of the same block number of a sub-queue. */
  lemma ClearedOnlyOnce(run: seq<State>, evs: seq<Event>, i: nat, j: nat, p: nat, q: nat)
    requires Execution(run, evs) && i < j && Clears(run, evs, i, p, q)
    ensures !Clears(run, evs, j, p, q)
  {
    ClearedIsPast(run, evs, i, p, q);
    if Clears(run, evs, j, p, q) {
      ClearedIsPast(run, evs, j, p, q);
      PastStaysInRuns(run, evs, i + 1, j, p, q);
    }
  }

  /** A claimed element that has not been moved out yet is in its own live block, untouched. */
  lemma ClaimedElementIsThere(run: seq<State>, evs: seq<Event>, i: nat, p: nat, c: nat, k: nat)
    requires Execution(run, evs) && i < |run| && p < |run[i].subs| && c < |run[i].subs[p].moves|
    requires InClaim(run[i].subs[p].moves[c], k) && k !in run[i].subs[p].got
    ensures var s := run[i].subs[p];
      && k < |s.items| && k / BLOCK in s.index && s.index[k / BLOCK] < |run[i].sh.blocks|
      && |run[i].sh.blocks[s.index[k / BLOCK]].slots| == BLOCK
      && run[i].sh.blocks[s.index[k / BLOCK]].slots[k % BLOCK] == Full(s.items[k])
  {
    var ws := ExecutionKeepsInv(run, evs, i);
    var s, w, blocks := run[i].subs[p], ws[p], run[i].sh.blocks;
    assert MoveOk(s.moves[c], c, w.owner, s.got, s.index, w.stage, w.place);
    ClaimedBlockIsLive(s, blocks, w, k);
    var q := k / BLOCK;
    assert EntryOk(q, s.index, w.place, blocks, s.items, s.got, s.prod);
    assert blocks[s.index[q]].slots[k % BLOCK] == Expected(q * BLOCK + k % BLOCK, s.items, s.got, s.prod);
  }

  // Enqueueing is all or nothing

  /** One block for every multiple of 32 in the range of the new elements. */
  lemma NeededIsPerMultiple(tail: nat, n: nat)
    ensures Needed(tail, 0) == 0
    ensures Needed(tail, n + 1) == Needed(tail, n) + (if (tail + n) % BLOCK == 0 then 1 else 0)
  {
  }

  /** The block that the producer of p takes, or returns to the free list, in one step. */
  ghost function TakenIn(g: State, ev: Event, p: nat): seq<nat> {
    if !(ev.SubStep? && ev.p == p && ev.a.Produce?) then []
    else match ev.a.from
      case FromPool => [g.sh.pool]
      case FromFree(b) => [b]
      case FromHeap => [|g.sh.blocks|]
      case Nothing => []
  }

  ghost function ReturnedIn(g: State, ev: Event, p: nat): seq<nat> {
    if ev == SubStep(p, Produce(Nothing)) && p < |g.subs| && g.subs[p].prod.PRelease? && g.subs[p].prod.got != []
    then [g.subs[p].prod.got[0]] else []
  }

  /** The blocks that the producer of p takes, and returns, in the steps i .. j. */
  ghost function Taken(run: seq<State>, evs: seq<Event>, i: nat, j: nat, p: nat): seq<nat>
    requires j <= |evs| && j <= |run|
  {
    if j <= i then [] else Taken(run, evs, i, j - 1, p) + TakenIn(run[j - 1], evs[j - 1], p)
  }

  ghost function Returned(run: seq<State>, evs: seq<Event>, i: nat, j: nat, p: nat): seq<nat>
    requires j <= |evs| && j <= |run|
  {
    if j <= i then [] else Returned(run, evs, i, j - 1, p) + ReturnedIn(run[j - 1], evs[j - 1], p)
  }

  /** A block that is returned is on the free list after the step. */
  lemma ReturnedIsFree(run: seq<State>, evs: seq<Event>, i: nat, p: nat, b: nat)
    requires Execution(run, evs) && i < |evs| && b in ReturnedIn(run[i], evs[i], p)
    ensures b in run[i + 1].sh.free
  {
    assert StepAt(run, evs, i);
  }

  predicate SameTail(s: Sub, s': Sub) {
    s'.items == s.items && s'.t.tail == s.t.tail && s'.tailBlock == s.tailBlock
  }

  /** Of the entries of published blocks none was added or changed. */
  ghost predicate NoneAdded(s: Sub, s': Sub) {
    forall q :: q in s'.index && q < NextBlock(s.t.tail) ==> q in s.index && s'.index[q] == s.index[q]
  }

  /** The producer is working on the enqueue of xs, or undoing it: `took` are the blocks taken so far, `gave` those
      returned. */
  ghost predicate Working(s: Sub, xs: seq<int>, took: seq<nat>, gave: seq<nat>) {
    match s.prod
    case PIdle => false
    case PNeed(ys, got) => ys == xs && took == got && gave == [] && |took| <= Needed(s.t.tail, |xs|)
    case PHold(ys, got, b) => ys == xs && took == got + [b] && gave == [] && |took| <= Needed(s.t.tail, |xs|)
    case PWrite(ys, got, k) => ys == xs && took == got && gave == [] && |got| == Needed(s.t.tail, |xs|)
    case PUndo(got, _) => took == got && gave == [] && |took| < Needed(s.t.tail, |xs|)
    case PRelease(got) => took == gave + got && |took| < Needed(s.t.tail, |xs|)
  }

  /** What a finished enqueue has done: it did not get all the blocks it needs and gave back those it took; or it took
      exactly those it needs, they are in the index under the numbers after the published ones, and all of xs is
      published. */
  ghost predicate Undone(s: Sub, s': Sub, xs: seq<int>, took: seq<nat>, gave: seq<nat>) {
    SameTail(s, s') && gave == took && |took| < Needed(s.t.tail, |xs|)
  }

  ghost predicate Done(s: Sub, s': Sub, xs: seq<int>, took: seq<nat>, gave: seq<nat>) {
    && s'.items == s.items + xs && s'.t.tail == s.t.tail + |xs| && gave == [] && |took| == Needed(s.t.tail, |xs|)
    && (forall j :: 0 <= j < |took| ==> FilledAt(s'.index, NextBlock(s.t.tail), took, j))
    && s'.tailBlock == if took == [] then s.tailBlock else took[|took| - 1]
  }

  /** One step of a call that is under way: it goes on, gives up with everything returned, or finishes. */
  ghost predicate Advances(s: Sub, s': Sub, xs: seq<int>, took: seq<nat>, gave: seq<nat>, took': seq<nat>,
                           gave': seq<nat>) {
    || (Working(s', xs, took', gave') && SameTail(s, s'))
    || (s'.prod.PIdle? && SameTail(s, s') && took' == gave' && |took'| < Needed(s.t.tail, |xs|))
    || (s'.prod.PIdle? && s.prod.PWrite? && took' == took == s.prod.got && gave' == gave == [] && s'.index == s.index
        && s'.items == s.items + xs && s'.t.tail == s.t.tail + |xs| && |took| == Needed(s.t.tail, |xs|)
        && s'.tailBlock == if took == [] then s.tailBlock else took[|took| - 1])
  }

  ghost predicate ProdAdvances(s: Sub, sh: Shared, from: Source, xs: seq<int>, took: seq<nat>, gave: seq<nat>, g: State,
                               p: nat)
    requires Enabled(s, sh, Produce(from))
  {
    var ev := SubStep(p, Produce(from));
    Advances(s, ProdStep(s, sh, from).0, xs, took, gave, took + TakenIn(g, ev, p), gave + ReturnedIn(g, ev, p))
  }

  lemma TakingAdvances(s: Sub, sh: Shared, from: Source, xs: seq<int>, took: seq<nat>, gave: seq<nat>, g: State, p: nat)
    requires Enabled(s, sh, Produce(from)) && Working(s, xs, took, gave) && p < |g.subs| && g.subs[p] == s && g.sh == sh
    requires !s.prod.PWrite? && !s.prod.PRelease?
    ensures ProdAdvances(s, sh, from, xs, took, gave, g, p)
  {
  }

  lemma WritingAdvances(s: Sub, sh: Shared, from: Source, xs: seq<int>, took: seq<nat>, gave: seq<nat>, g: State,
                        p: nat)
    requires Enabled(s, sh, Produce(from)) && Working(s, xs, took, gave) && p < |g.subs| && g.subs[p] == s && g.sh == sh
    requires s.prod.PWrite?
    ensures ProdAdvances(s, sh, from, xs, took, gave, g, p)
  {
  }

  lemma ReleasingAdvances(s: Sub, sh: Shared, from: Source, xs: seq<int>, took: seq<nat>, gave: seq<nat>, g: State,
                          p: nat)
    requires Enabled(s, sh, Produce(from)) && Working(s, xs, took, gave) && p < |g.subs| && g.subs[p] == s && g.sh == sh
    requires s.prod.PRelease?
    ensures ProdAdvances(s, sh, from, xs, took, gave, g, p)
  {
    if s.prod.got != [] {
      assert s.prod.got == [s.prod.got[0]] + s.prod.got[1..];
    }
  }

  lemma WorkingProd(s: Sub, sh: Shared, from: Source, xs: seq<int>, took: seq<nat>, gave: seq<nat>, g: State, p: nat)
    requires Enabled(s, sh, Produce(from)) && Working(s, xs, took, gave) && p < |g.subs| && g.subs[p] == s && g.sh == sh
    ensures ProdAdvances(s, sh, from, xs, took, gave, g, p)
  {
    if s.prod.PWrite? {
      WritingAdvances(s, sh, from, xs, took, gave, g, p);
    } else if s.prod.PRelease? {
      ReleasingAdvances(s, sh, from, xs, took, gave, g, p);
    } else {
      TakingAdvances(s, sh, from, xs, took, gave, g, p);
    }
  }

  lemma OthersLeaveProducer(s: Sub, sh: Shared, a: Action)
    requires Enabled(s, sh, a) && !s.prod.PIdle? && !a.Produce?
    ensures var s' := Step(s, sh, a).0; s'.prod == s.prod && SameTail(s, s')
  {
  }

  lemma NoneAddedStep(s: Sub, sh: Shared, a: Action)
    requires Enabled(s, sh, a)
    ensures NoneAdded(s, Step(s, sh, a).0)
  {
    if a.Produce? { NoneAddedProducing(s, sh, a.from); }
  }

  lemma NoneAddedProducing(s: Sub, sh: Shared, from: Source)
    requires Enabled(s, sh, Produce(from))
    ensures NoneAdded(s, ProdStep(s, sh, from).0)
  {
  }

  /** The producer from its first step until it is idle again. */
  ghost predicate Enqueueing(run: seq<State>, evs: seq<Event>, i: nat, j: nat, p: nat, xs: seq<int>) {
    && Execution(run, evs) && i < j < |run| && p < |run[i].subs| && evs[i] == SubStep(p, Enqueue(xs))
    && forall m :: i < m < j ==> Busy(run, m, p)
  }

  ghost predicate Busy(run: seq<State>, m: nat, p: nat) {
    m < |run| && p < |run[m].subs| && !run[m].subs[p].prod.PIdle?
  }

  /** How far the enqueue is in state j. */
  ghost predicate Progress(run: seq<State>, evs: seq<Event>, i: nat, j: nat, p: nat, xs: seq<int>)
    requires i < j < |run| && |run| == |evs| + 1
  {
    && p < |run[i].subs| && p < |run[j].subs|
    && var s, s' := run[i].subs[p], run[j].subs[p];
    && var took, gave := Taken(run, evs, i, j, p), Returned(run, evs, i, j, p);
    && NoneAdded(s, s')
    && (|| (Working(s', xs, took, gave) && SameTail(s, s'))
        || (s'.prod.PIdle? && Undone(s, s', xs, took, gave))
        || (s'.prod.PIdle? && Done(s, s', xs, took, gave)))
  }

  lemma ProgressStarts(run: seq<State>, evs: seq<Event>, i: nat, p: nat, xs: seq<int>)
    requires Execution(run, evs) && i < |evs| && p < |run[i].subs| && evs[i] == SubStep(p, Enqueue(xs))
    ensures Progress(run, evs, i, i + 1, p, xs)
  {
    assert StepAt(run, evs, i);
    assert Taken(run, evs, i, i, p) == [] && Returned(run, evs, i, i, p) == [];
    assert TakenIn(run[i], evs[i], p) == [] && ReturnedIn(run[i], evs[i], p) == [];
  }

  /** A step that leaves the producer, the tail and the old entries alone. */
  lemma ProgressUnchanged(run: seq<State>, evs: seq<Event>, i: nat, j: nat, p: nat, xs: seq<int>)
    requires i < j < |evs| && |run| == |evs| + 1 && Progress(run, evs, i, j, p, xs) && Busy(run, j, p)
    requires p < |run[j + 1].subs| && run[j + 1].subs[p].prod == run[j].subs[p].prod
    requires SameTail(run[j].subs[p], run[j + 1].subs[p]) && NoneAdded(run[j].subs[p], run[j + 1].subs[p])
    requires TakenIn(run[j], evs[j], p) == [] && ReturnedIn(run[j], evs[j], p) == []
    ensures Progress(run, evs, i, j + 1, p, xs)
  {
    var took, gave := Taken(run, evs, i, j, p), Returned(run, evs, i, j, p);
    assert Taken(run, evs, i, j + 1, p) == took && Returned(run, evs, i, j + 1, p) == gave;
  }

  /** One step of anybody while the enqueue is under way. */
  lemma ProgressGoesOn(run: seq<State>, evs: seq<Event>, i: nat, j: nat, p: nat, xs: seq<int>)
    requires Execution(run, evs) && i < j < |evs| && Progress(run, evs, i, j, p, xs) && Busy(run, j, p)
    ensures Progress(run, evs, i, j + 1, p, xs)
  {
    assert StepAt(run, evs, j);
    if evs[j].SubStep? && evs[j].p == p {
      NoneAddedStep(run[j].subs[p], run[j].sh, evs[j].a);
      if evs[j].a.Produce? {
        ProgressProduces(run, evs, i, j, p, xs);
      } else {
        OthersLeaveProducer(run[j].subs[p], run[j].sh, evs[j].a);
        ProgressUnchanged(run, evs, i, j, p, xs);
      }
    } else {
      ProgressUnchanged(run, evs, i, j, p, xs);
    }
  }

  lemma ProgressProduces(run: seq<State>, evs: seq<Event>, i: nat, j: nat, p: nat, xs: seq<int>)
    requires Execution(run, evs) && i < j < |evs| && Progress(run, evs, i, j, p, xs) && Busy(run, j, p)
    requires evs[j].SubStep? && evs[j].p == p && evs[j].a.Produce?
    requires p < |run[j + 1].subs| && NoneAdded(run[j].subs[p], run[j + 1].subs[p])
    ensures Progress(run, evs, i, j + 1, p, xs)
  {
    assert StepAt(run, evs, j);
    var took, gave, s1 := Taken(run, evs, i, j, p), Returned(run, evs, i, j, p), run[j].subs[p];
    WorkingProd(s1, run[j].sh, evs[j].a.from, xs, took, gave, run[j], p);
    if s1.prod.PWrite? { AllInstalled(run, evs, j, p); }
  }

  lemma AllInstalled(run: seq<State>, evs: seq<Event>, j: nat, p: nat)
    requires Execution(run, evs) && j < |run| && p < |run[j].subs| && run[j].subs[p].prod.PWrite?
    ensures var s := run[j].subs[p];
      forall k :: 0 <= k < |s.prod.got| ==> FilledAt(s.index, NextBlock(s.t.tail), s.prod.got, k)
  {
    var ws := ExecutionKeepsInv(run, evs, j);
    var s := run[j].subs[p];
    assert ProdOk(s.prod, s.index, ws[p].place, s.t.tail, s.tailBlock);
  }

  lemma {:induction false} ProgressInRuns(run: seq<State>, evs: seq<Event>, i: nat, j: nat, p: nat, xs: seq<int>)
    requires Enqueueing(run, evs, i, j, p, xs)
    ensures Progress(run, evs, i, j, p, xs)
  {
    if j == i + 1 {
      ProgressStarts(run, evs, i, p, xs);
    } else {
      ProgressInRuns(run, evs, i, j - 1, p, xs);
      assert Busy(run, j - 1, p);
      ProgressGoesOn(run, evs, i, j - 1, p, xs);
    }
  }

  /** The entry of a published block is missing only after all 32 of its elements were delivered. */
  ghost predicate MissingMeansDelivered(s: Sub, q: nat) {
    q < NextBlock(s.t.tail) && q !in s.index ==> forall k :: q * BLOCK <= k < q * BLOCK + BLOCK ==> k in s.got
  }

  lemma EntriesAtRest(s: Sub, blocks: seq<Block>, w: Witness, q: nat)
    requires SubQueueSafety.Inv(s, blocks, w) && s.prod.PIdle?
    ensures (q in s.index ==> q < NextBlock(s.t.tail)) && MissingMeansDelivered(s, q)
  {
    if q in s.index { assert EntryOk(q, s.index, w.place, blocks, s.items, s.got, s.prod); }
    if q < NextBlock(s.t.tail) && q !in s.index {
      assert StageOk(q, w.stage, w.owner, s.index, blocks, s.moves);
      CountedBound(w.owner, q * BLOCK, BLOCK);
      forall k | q * BLOCK <= k < q * BLOCK + BLOCK ensures k in s.got {
        assert IsCounted(w.owner, k);
        assert IndexOk(k, w.owner, s.moves, s.items, s.got);
      }
    }
  }

  /** When the producer is idle again after the enqueue of xs, then either it was refused a block, elements, tail
      and tail block are as before and all the blocks it took were returned to the free list, in order; or all of xs
      is published, it took exactly one block per multiple of 32, and they are in the index under the numbers after
      the published ones. In both cases no other entry was added or changed, none lies beyond the tail's blocks, and
      one is only missing if its block was used up. */
  lemma EnqueueAllOrNothing(run: seq<State>, evs: seq<Event>, i: nat, j: nat, p: nat, xs: seq<int>)
    requires Enqueueing(run, evs, i, j, p, xs) && p < |run[j].subs| && run[j].subs[p].prod.PIdle?
    ensures var s, s' := run[i].subs[p], run[j].subs[p];
      var took, gave := Taken(run, evs, i, j, p), Returned(run, evs, i, j, p);
      && (Undone(s, s', xs, took, gave) || Done(s, s', xs, took, gave))
      && NoneAdded(s, s')
      && (forall q :: q in s'.index ==> q < NextBlock(s'.t.tail))
      && (forall q :: MissingMeansDelivered(s', q))
  {
    ProgressInRuns(run, evs, i, j, p, xs);
    var ws := ExecutionKeepsInv(run, evs, j);
    var s' := run[j].subs[p];
    forall q: nat ensures (q in s'.index ==> q < NextBlock(s'.t.tail)) && MissingMeansDelivered(s', q) {
      EntriesAtRest(s', run[j].sh.blocks, ws[p], q);
    }
  }

  // With no operation in flight

  predicate Quiet(s: Sub) {
    s.prod.PIdle? && forall c :: 0 <= c < |s.t.pcs| ==> s.t.pcs[c].Idle?
  }

  /** In a quiet sub-queue the counters agree, exactly the elements before the head have been delivered, and
      exactly the blocks with an element at or after the head, or with room after the tail, are in the index. */
  lemma QuietSubQueue(run: seq<State>, evs: seq<Event>, i: nat, p: nat)
    requires Execution(run, evs) && i < |run| && p < |run[i].subs| && Quiet(run[i].subs[p])
    ensures var s := run[i].subs[p];
      && s.t.opt == s.t.over + s.t.head
      && (forall k :: k in s.got <==> 0 <= k < s.t.head)
      && (forall q :: q in s.index <==> 0 <= q < NextBlock(s.t.tail) && s.t.head < q * BLOCK + BLOCK)
  {
    var ws := ExecutionKeepsInv(run, evs, i);
    var s, w, blocks := run[i].subs[p], ws[p], run[i].sh.blocks;
    T.QuiescentCounters(s.t, w.verdicts);
    forall k | 0 <= k < |w.owner| ensures IsCounted(w.owner, k) && k in s.got {
      assert IndexOk(k, w.owner, s.moves, s.items, s.got);
    }
    forall q | 0 <= q < NextBlock(s.t.tail) ensures q in s.index <==> s.t.head < q * BLOCK + BLOCK {
      assert StageOk(q, w.stage, w.owner, s.index, blocks, s.moves);
      CountedBound(w.owner, q * BLOCK, BLOCK);
      if s.t.head < q * BLOCK + BLOCK {
        assert !IsCounted(w.owner, q * BLOCK + BLOCK - 1);
      }
    }
    forall q | q in s.index ensures q < NextBlock(s.t.tail) {
      assert EntryOk(q, s.index, w.place, blocks, s.items, s.got, s.prod);
    }
  }
}
