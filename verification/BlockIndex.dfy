/** The block index as the producer and the consumers change it in place: headers, entries and the tail. */
module BlockIndex {
  import opened RingArithmetic
  import opened BlockRing
  import SubQueue

  const INITIAL_SIZE: nat := 32

  class Header {
    const capacity: nat
    const index: seq<Entry>
    const prev: Header?
    var tail: nat

    constructor (capacity: nat, index: seq<Entry>, prev: Header?, tail: nat)
      ensures this.capacity == capacity && this.index == index && this.prev == prev && this.tail == tail
    {
      this.capacity, this.index, this.prev, this.tail := capacity, index, prev, tail;
    }
  }

  ghost function FirstRing(index: seq<Entry>): Ring { Ring(5, 0, -1, -1, index) }

  /** The header's fields are those of the ring, with the tail at the number inserted last. */
  ghost predicate Shows(h: Header, r: Ring, top: int)
    reads h
  {
    Size(r) > 0 && h.index == r.index && h.capacity == Size(r) && h.tail == Slot(r.anchor, Size(r), top)
  }

  ghost predicate EntryShows(e: Entry, num: map<Entry, int>, val: map<Entry, Ref>)
    reads e
  {
    e in num && e in val && e.key == KeyOf(num[e]) && e.value == val[e]
  }

  ghost predicate Mirrors(num: map<Entry, int>, val: map<Entry, Ref>)
    reads num.Keys
  {
    forall e :: e in num ==> EntryShows(e, num, val)
  }

  /** What the rest of the system answers for one block: the sub-queue is full, memory for a larger index is
      granted, and the block that was requisitioned, if any. */
  datatype Answer = Answer(full: bool, granted: bool, block: Ref)

  /** What clearing an entry and inserting one do to the map that the index stands for. */
  lemma ClearStands(s: State, live: map<int, Block>, q: int)
    requires Inv(s) && StandsFor(s, live) && q in live
    ensures Inv(Stored(s, q, Null)) && StandsFor(Stored(s, q, Null), live - {q})
    ensures s.cur.low < s.top && s.cur.high - Size(s.cur) < s.top && At(s.cur, q) in s.num
    ensures At(s.cur, q) in s.val && s.val[At(s.cur, q)] == To(live[q])
  {
    StandsForIs(s, live);
    ClearRemovesBlock(s, q);
    StandsForIs(Stored(s, q, Null), live - {q});
  }

  lemma InsertStands(s: State, live: map<int, Block>)
    requires Inv(s) && !s.pending && StandsFor(s, live) && s.top + 1 - Size(s.cur) !in live
    ensures Inv(Keyed(s)) && StandsFor(Keyed(s), live)
  {
    StandsForIs(s, live);
    InsertKeepsMap(s);
    StandsForIs(Keyed(s), live);
  }

  lemma InExtension(m': map<int, Block>, m: map<int, Block>, first: int, blocks: seq<Block>, q: int)
    requires Extends(m', m, first, blocks)
    ensures q in m' ==> q in m || first <= q
  {
    assert ExtendsAt(m', m, first, blocks, q);
  }

  class BlockIndex {
    var header: Header?
    var nextCapacity: nat
    ghost var s: State
    /** The map the index stands for: from the numbers of the blocks in it to the blocks. */
    ghost var live: map<int, Block>

    ghost predicate Tied()
      reads this, header, s.num.Keys
    {
      if header == null then nextCapacity == INITIAL_SIZE && s == State([], FirstRing([]), map[], map[], -1, false)
      else Shape(s) && Shows(header, s.cur, s.top) && nextCapacity == 2 * header.capacity && Mirrors(s.num, s.val)
    }

    ghost predicate Valid()
      reads this, header, s.num.Keys
    {
      Tied() && (header != null ==> Inv(s)) && StandsFor(s, live)
    }

    constructor (granted: bool)
      ensures Valid() && live == map[] && !s.pending && s.top == -1
      ensures header == null <==> !granted
    {
      header, nextCapacity := null, INITIAL_SIZE;
      s, live := State([], FirstRing([]), map[], map[], -1, false), map[];
      new;
      StandsForIs(s, live);
      if granted { First(); }
    }

    /** `new_block_index` without a previous one. */
    method First()
      requires Valid() && header == null
      modifies this
      ensures Valid() && header != null && live == map[] && s.top == -1 && !s.pending && Size(s.cur) == INITIAL_SIZE
      ensures fresh(header) && fresh(s.num.Keys)
    {
      var entries := MakeEntries(nextCapacity, map[]);
      header := new Header(nextCapacity, entries, null, nextCapacity - 1);
      nextCapacity := 2 * nextCapacity;
      s := State([], FirstRing(entries), map e | e in entries :: -1, map e | e in entries :: e.value, -1, false);
      FirstRingHolds(entries, s.num);
      live := map[];
      StandsForIs(s, live);
    }

    /** `new_block_index` after a previous one: twice the capacity, the old entries first. */
    method Grow()
      requires Valid() && header != null && !s.pending && nextCapacity <= MAX_CAPACITY
      requires s.top + 1 - Size(s.cur) in live
      modifies this
      ensures Valid() && header != null && live == old(live) && s.top == old(s.top) && !s.pending
      ensures Size(s.cur) == 2 * old(Size(s.cur)) && s.past == old(s.past + [s.cur]) && s.top + 1 - Size(s.cur) !in live
      ensures fresh(header) && header.prev == old(header) && forall e :: e in s.num ==> e in old(s.num) || fresh(e)
    {
      var h: Header;
      h, s := GrownHeader(header, nextCapacity, s, live);
      header := h;
      nextCapacity := 2 * nextCapacity;
    }

    /** The stores of `insert_block_index_entry`, once it has found a slot that is free. */
    method Rekey(base: int) returns (entry: Entry)
      requires Valid() && header != null && !s.pending && s.top + 1 - Size(s.cur) !in live && base == KeyOf(s.top + 1)
      modifies this`s, header, s.num.Keys
      ensures Valid() && live == old(live) && s.top == old(s.top) + 1 && s.pending && entry == At(s.cur, s.top)
      ensures s.num.Keys == old(s.num.Keys) && entry in s.num
    {
      InsertStands(s, live);
      NextNumber(s.cur, s.num, s.top);
      SlotNext(s.cur.anchor, Size(s.cur), s.top);
      var newTail := (header.tail + 1) % header.capacity;
      entry := header.index[newTail];
      entry.key := base;
      header.tail := newTail;
      s := Keyed(s);
    }

    /** `insert_block_index_entry`: reuses the slot after the tail when it is dead or was never used, else grows
        the index. It fails only without an index, or when that slot's block is live and memory is refused; no
        allocator can grant more than 2^59 slots. */
    method InsertEntry(base: int, granted: bool) returns (entry: Entry?)
      requires Valid() && !s.pending && base == KeyOf(s.top + 1)
      modifies this, header, s.num.Keys
      ensures Valid() && live == old(live)
      ensures entry == null <==> old(header == null || (!(granted && nextCapacity <= MAX_CAPACITY)
                                                        && s.top + 1 - Size(s.cur) in live))
      ensures entry == null ==> header == old(header) && s == old(s) && nextCapacity == old(nextCapacity)
      ensures entry != null ==>
                header != null && s.top == old(s.top) + 1 && s.pending && entry == At(s.cur, s.top) && entry in s.num
      ensures (forall e :: e in s.num ==> e in old(s.num) || fresh(e)) && (header == old(header) || fresh(header))
    {
      if header == null { return null; }
      var free := NextIsFree();
      if !free {
        if !(granted && nextCapacity <= MAX_CAPACITY) { return null; }
        Grow();
      }
      entry := Rekey(base);
    }

    /** The test for a slot that is dead or was never used. */
    method NextIsFree() returns (free: bool)
      requires Valid() && header != null && !s.pending
      ensures free <==> s.top + 1 - Size(s.cur) !in live
    {
      SlotNext(s.cur.anchor, Size(s.cur), s.top);
      StandsForIs(s, live);
      NextSlotFree(s);
      var newTail := (header.tail + 1) % header.capacity;
      var found := header.index[newTail];
      assert EntryShows(found, s.num, s.val);
      KeyIsValid(s.num[found]);
      free := found.key == INVALID || found.value == Null;
    }

    /** The store of the new block into the entry just inserted. */
    method StoreBlock(entry: Entry, b: Block)
      requires Valid() && s.pending && entry == At(s.cur, s.top)
      modifies this`s, this`live, entry
      ensures Valid() && !s.pending && s.top == old(s.top) && live == old(live)[s.top := b]
      ensures s.num == old(s.num)
    {
      StandsForIs(s, live);
      StoreAddsBlock(s, b);
      assert KeyedAt(s.cur, s.num, s.top);
      entry.value := To(b);
      s, live := Stored(s, s.top, To(b)).(pending := false), live[s.top := b];
      StandsForIs(s, live);
    }

    /** `rewind_block_index_tail`. */
    method RewindTail()
      requires header != null && Shows(header, s.cur, s.top)
      modifies header
      ensures Shows(header, s.cur, s.top - 1)
    {
      SlotNext(s.cur.anchor, Size(s.cur), s.top);
      header.tail := (header.tail - 1) % header.capacity;
    }

    /** The entry just inserted is taken back when there is no block for it. */
    method TakeBack(entry: Entry)
      requires Valid() && s.pending && entry == At(s.cur, s.top)
      modifies this`s, header, entry
      ensures Valid() && !s.pending && s.top == old(s.top) - 1 && live == old(live) && s.num == old(s.num)
    {
      StandsForIs(s, live);
      RewindRestoresMap(s);
      assert KeyedAt(s.cur, s.num, s.top);
      RewindTail();
      entry.value := Null;
      s := Stored(s, s.top, Null).(top := s.top - 1, pending := false);
      StandsForIs(s, live);
    }

    /** `get_block_index_entry_for_index`, for the 64-bit index of element number `n`. */
    method EntryForIndex(index: int, ghost n: nat) returns (entry: Entry)
      requires Tied() && header != null && index == n % WRAP
      requires s.cur.low < s.top && s.cur.high - Size(s.cur) < s.top
      ensures entry == At(s.cur, n / BLOCK)
    {
      RoundWrapped(n);
      LookupFromTail(s, n / BLOCK);
      var base := index - index % BLOCK;
      var tail := header.tail;
      var tailBase := header.index[tail].key;
      assert EntryShows(header.index[tail], s.num, s.val);
      entry := header.index[LookupSlot(base, tail, tailBase, header.capacity)];
    }

    /** What a consumer does with the index once a block is used up: finds the entry, takes its block and clears
        the entry. */
    method Retire(index: int, ghost n: nat) returns (b: Block)
      requires Valid() && index == n % WRAP && n / BLOCK in live
      modifies this`s, this`live, s.num.Keys
      ensures Valid() && b == old(live)[n / BLOCK] && live == old(live) - {n / BLOCK}
      ensures s.top == old(s.top) && s.num == old(s.num) && s.pending == old(s.pending)
    {
      assert header != null by { assert AgreesAt(s, live, n / BLOCK); }
      ClearStands(s, live, n / BLOCK);
      var entry := EntryForIndex(index, n);
      assert EntryShows(entry, s.num, s.val);
      b := entry.value.block;
      entry.value := Null;
      s, live := Stored(s, n / BLOCK, Null), live - {n / BLOCK};
    }

    /** A bulk enqueue that ran out of blocks gives back the ones it took: the map is what it was. */
    method Undo(before: int, taken: seq<Block>, ghost base: int, ghost m: map<int, Block>)
      requires Valid() && header != null && !s.pending && base >= -1 && base + |taken| == s.top
      requires before == Base(base) && Undoable(s, base)
      requires Extends(live, m, base + 1, taken) && forall q :: q in m ==> q <= base
      modifies this`s, this`live, header, s.num.Keys
      ensures Valid() && live == m && s.top == base && !s.pending && s.num == old(s.num)
    {
      ghost var was := s;
      UndoLoop(before, |taken|, base);
      UndoRestoresMap(was, s, live, m, base, taken);
      live := m;
    }

    /** The undo loop: entries are found and cleared from the oldest up, and the tail moves back once for each. */
    method UndoLoop(before: int, count: nat, ghost base: int)
      requires Tied() && header != null && base >= -1 && base + count == s.top
      requires before == Base(base) && Undoable(s, base)
      modifies this`s, header, s.num.Keys
      ensures Tied() && Undone(old(s), s, base, count)
    {
      ghost var s0, q := s, base;
      UndoneStart(s, base);
      var current := before;
      for j := 0 to count
        invariant q == base + j && current == Base(q)
        invariant Tied() && Undone(s0, s, base, j)
      {
        current := NextIndex(current, q);
        q := q + 1;
        UndoneStep(s0, s, base, j);
        UndoOne(current, q);
      }
    }

    method UndoOne(current: int, ghost q: nat)
      requires Tied() && header != null && s.cur.low < s.top && s.cur.high - Size(s.cur) < s.top
      requires current == Base(q) && s.cur.high - Size(s.cur) < q <= s.cur.high
      requires Shape(UndoStep(s, q))
      modifies this`s, header, s.num.Keys
      ensures Tied() && header != null && s == UndoStep(old(s), q)
    {
      BaseIs(q);
      var entry := EntryForIndex(current, q * BLOCK);
      assert KeyedAt(s.cur, s.num, q);
      entry.value := Null;
      RewindTail();
      s := UndoStep(s, q);
    }

    /** The allocation loop of a bulk enqueue: either every block it needs is in the index, or the index is as it
        was and `taken` are the blocks to be given back. */
    method Reserve(startTail: int, count: nat, answers: seq<Answer>, ghost start: nat)
      returns (ok: bool, taken: seq<Block>)
      requires Valid() && !s.pending && startTail == start % WRAP && s.top + 1 == (start + 31) / BLOCK
      requires count < WRAP / 2 && SubQueue.Needed(start, count) <= |answers|
      modifies this, header, s.num.Keys
      ensures Valid() && !s.pending && |taken| <= SubQueue.Needed(start, count)
      ensures forall i :: 0 <= i < |taken| ==> answers[i].block == To(taken[i])
      ensures ok ==>
                |taken| == SubQueue.Needed(start, count) && s.top == old(s.top) + |taken|
                && Extends(live, old(live), old(s.top) + 1, taken)
      ensures !ok ==>
                s.top == old(s.top) && live == old(live) && |taken| < SubQueue.Needed(start, count)
                && Refused(answers[|taken|], s.top + |taken| + 1, live, s.top)
    {
      ghost var base, m := s.top, live;
      LiveUpToTop(s, m);
      var before, diff := BlockBaseDiff(startTail, count, start);
      ok, taken := AddAll(before, diff, answers, SubQueue.Needed(start, count), m);
      ExtendsByNone(live, m, base + 1);
      if !ok && taken != [] {
        ExtendedIsUndoable(s, live, m, base, taken);
        Undo(before, taken, base, m);
      }
    }

    method AddAll(before: int, total: int, answers: seq<Answer>, ghost needed: nat, ghost m: map<int, Block>)
      returns (ok: bool, taken: seq<Block>)
      requires Valid() && !s.pending && before == Base(s.top) && total == BLOCK * needed && needed <= |answers|
               && live == m
      modifies this, header, s.num.Keys
      ensures Valid() && !s.pending && (header == old(header) || fresh(header))
              && forall e :: e in s.num ==> e in old(s.num) || fresh(e)
      ensures if ok then |taken| == needed
              else |taken| < needed && Refused(answers[|taken|], s.top + 1, m, old(s.top))
      ensures s.top == old(s.top) + |taken| && Extends(live, m, old(s.top) + 1, taken)
              && (taken != [] ==> header != null)
      ensures forall i :: 0 <= i < |taken| ==> answers[i].block == To(taken[i])
    {
      var current, diff := before, total;
      ghost var base := s.top;
      taken, ok := [], true;
      ExtendsByNone(m, m, base + 1);
      while diff > 0
        invariant Valid() && !s.pending && (taken != [] ==> header != null)
        invariant (header == old(header) || fresh(header)) && forall e :: e in s.num ==> e in old(s.num) || fresh(e)
        invariant diff == BLOCK * (needed - |taken|) >= 0 && current == Base(s.top)
        invariant s.top == base + |taken| && Extends(live, m, base + 1, taken)
        invariant forall i :: 0 <= i < |taken| ==> answers[i].block == To(taken[i])
      {
        var a := answers[|taken|];
        diff := diff - BLOCK;
        current := NextIndex(current, s.top);
        ok, taken := AddNext(current, a, taken, base, m);
        if !ok { return; }
      }
    }

    /** One more block, or what the next one is refused for. */
    method AddNext(current: int, a: Answer, taken: seq<Block>, ghost base: int, ghost m: map<int, Block>)
      returns (ok: bool, more: seq<Block>)
      requires Valid() && !s.pending && current == KeyOf(s.top + 1)
      requires s.top == base + |taken| && Extends(live, m, base + 1, taken)
      modifies this, header, s.num.Keys
      ensures Valid() && !s.pending && (header == old(header) || fresh(header))
      ensures forall e :: e in s.num ==> e in old(s.num) || fresh(e)
      ensures s.top == base + |more| && Extends(live, m, base + 1, more)
      ensures if ok then header != null && a.block.To? && more == taken + [a.block.block]
              else more == taken && Refused(a, s.top + 1, m, base) && (old(header) != null ==> header != null)
    {
      ghost var was := live;
      ok := AddOne(current, a);
      if ok {
        ExtendsByOne(was, m, base + 1, taken, s.top, a.block.block);
        more := taken + [a.block.block];
      } else {
        InExtension(live, m, base + 1, taken, s.top + 1 - Size(s.cur));
        more := taken;
      }
    }

    /** Something that block number `q` needs is not given, when the blocks in `m` and the numbers after `base` are in
        the index: room, the block itself, or memory for a larger index where the slot is still in use. */
    ghost predicate Refused(a: Answer, q: int, m: map<int, Block>, base: int)
      reads this
    {
      || a.full || a.block == Null || header == null
      || (!(a.granted && nextCapacity <= MAX_CAPACITY) && (q - Size(s.cur) in m || base < q - Size(s.cur)))
    }

    /** One turn of the allocation loop. */
    method AddOne(current: int, a: Answer) returns (ok: bool)
      requires Valid() && !s.pending && current == KeyOf(s.top + 1)
      modifies this, header, s.num.Keys
      ensures Valid() && !s.pending && (header == old(header) || fresh(header))
      ensures forall e :: e in s.num ==> e in old(s.num) || fresh(e)
      ensures ok ==>
                header != null && !a.full && a.block.To? && s.top == old(s.top) + 1
                && live == old(live)[s.top := a.block.block]
      ensures !ok ==> s.top == old(s.top) && live == old(live)
      ensures !ok <==> old(Refused(a, s.top + 1, live, s.top))
      ensures !ok ==> Refused(a, s.top + 1, live, s.top)
    {
      if a.full { return false; }
      var entry := InsertEntry(current, a.granted);
      if entry == null { return false; }
      ok := a.block.To?;
      if ok { StoreBlock(entry, a.block.block); } else { TakeBack(entry); }
    }
  }

  /** `currentTailIndex += BLOCK_SIZE` on a 64-bit index. */
  method NextIndex(current: int, ghost q: int) returns (next: int)
    requires current == Base(q)
    ensures next == Base(q + 1)
  {
    BaseNext(q);
    next := (current + BLOCK) % WRAP;
  }

  /** The 64-bit arithmetic that says where the missing blocks start and how many there are. */
  method BlockBaseDiff(startTail: int, count: nat, ghost start: nat) returns (current: int, diff: int)
    requires startTail == start % WRAP && count < WRAP / 2
    ensures current == Base((start + 31) / BLOCK - 1) && diff == BLOCK * SubQueue.Needed(start, count)
  {
    current := (startTail - 1) % WRAP;
    current := current - current % BLOCK;
    var last := (startTail + count - 1) % WRAP;
    last := last - last % BLOCK;
    diff := (last - current) % WRAP;
    RoundedTail(start, -1);
    RoundedTail(start, count - 1);
    BaseDifference((start + count - 1) / BLOCK, (start - 1) / BLOCK);
    NeededIs(start, count);
  }

  lemma RoundedTail(start: nat, d: int)
    ensures var x := (start % WRAP + d) % WRAP; x - x % BLOCK == Base((start + d) / BLOCK)
  {
    ModAdd(start, d, WRAP);
    RoundWrapped(start + d);
  }

  lemma NeededIs(start: nat, count: nat)
    requires count < WRAP / 2
    ensures (start - 1) / BLOCK == (start + 31) / BLOCK - 1
    ensures ((start + count - 1) / BLOCK - (start - 1) / BLOCK) % MAX_CAPACITY == SubQueue.Needed(start, count)
  {
  }

  method GrownHeader(prev: Header, nextCapacity: nat, ghost s: State, ghost live: map<int, Block>)
    returns (h: Header, ghost s': State)
    requires Inv(s) && !s.pending && Shows(prev, s.cur, s.top) && Mirrors(s.num, s.val) && StandsFor(s, live)
    requires nextCapacity == 2 * Size(s.cur) <= MAX_CAPACITY && s.top + 1 - Size(s.cur) in live
    ensures Inv(s') && !s'.pending && s'.top == s.top && s'.past == s.past + [s.cur] && Size(s'.cur) == 2 * Size(s.cur)
    ensures StandsFor(s', live) && s'.top + 1 - Size(s'.cur) !in live
    ensures fresh(h) && h.prev == prev && Shows(h, s'.cur, s'.top)
    ensures Mirrors(s'.num, s'.val) && forall e :: e in s'.num ==> e in s.num || fresh(e)
  {
    StandsForIs(s, live);
    var index := CopyEntries(prev, s.cur, s.top);
    var entries := MakeEntries(prev.capacity, s.num);
    ghost var garbage := map e | e in entries :: e.value;
    GrowKeepsMap(s, index, entries, garbage);
    GrownMirrors(s.num, s.val, entries, garbage);
    GrownTail(s.cur, s.top, index, entries);
    s' := Grown(s, index, entries, garbage);
    StandsForIs(s', live);
    h := new Header(nextCapacity, index + entries, prev, prev.capacity - 1);
  }

  lemma GrownMirrors(num: map<Entry, int>, val: map<Entry, Ref>, entries: seq<Entry>, garbage: map<Entry, Ref>)
    requires Mirrors(num, val) && num.Keys == val.Keys
    requires garbage.Keys == (set e | e in entries) && AreNew(entries, num)
    requires forall e :: e in entries ==> e.key == INVALID && e.value == garbage[e]
    ensures Mirrors(num + (map e | e in entries :: -1), val + garbage)
  {
    var num', val' := num + (map e | e in entries :: -1), val + garbage;
    forall e | e in num' ensures EntryShows(e, num', val') {
      if e in num { assert EntryShows(e, num, val); }
    }
  }

  lemma FirstRingHolds(entries: seq<Entry>, num: map<Entry, int>)
    requires |entries| == INITIAL_SIZE && forall i, j :: 0 <= i < j < |entries| ==> Differ(entries, i, j)
    requires num == map e | e in entries :: -1
    ensures var r := FirstRing(entries);
            RingOk(r) && CurrentOk(r, num, -1) && Slot(r.anchor, Size(r), -1) == INITIAL_SIZE - 1
  {
    var r := FirstRing(entries);
    assert Pow2(5) == 32;
    SlotUnique(0, 32, -1, -1, 31);
    forall q | r.high - Size(r) < q <= r.high ensures KeyedAt(r, num, q) { assert At(r, q) in entries; }
  }

  /** The do-while loop that copies the ring, starting after the tail. */
  method CopyEntries(prev: Header, ghost r: Ring, ghost top: int) returns (index: seq<Entry>)
    requires Shows(prev, r, top)
    ensures Unrolled(r, top, index)
  {
    var prevTail := prev.tail;
    var prevPos, i := prevTail, 0;
    index := [];
    while i == 0 || prevPos != prevTail
      invariant 0 <= i == |index| <= prev.capacity
      invariant prevPos == Slot(r.anchor, Size(r), top + i)
      invariant forall j :: 0 <= j < i ==> index[j] == At(r, top + 1 + j)
      decreases prev.capacity - i
    {
      SlotNext(r.anchor, Size(r), top + i);
      SlotTurn(r.anchor, Size(r), top + Size(r));
      prevPos := (prevPos + 1) % prev.capacity;
      index := index + [prev.index[prevPos]];
      i := i + 1;
    }
    if i < prev.capacity { SlotInjective(r.anchor, Size(r), top + i, top); }
  }

  method MakeEntries(n: nat, ghost num: map<Entry, int>) returns (entries: seq<Entry>)
    ensures |entries| == n && fresh(entries) && AreNew(entries, num) && forall e :: e in entries ==> e.key == INVALID
  {
    entries := [];
    for i := 0 to n
      invariant |entries| == i && fresh(entries) && forall e :: e in entries ==> e.key == INVALID
      invariant AreNew(entries, num)
    {
      var garbage: Ref := *;
      var e := new Entry(garbage);
      ghost var was := entries;
      entries := entries + [e];
      forall j, l | 0 <= j < l < |entries| ensures Differ(entries, j, l) { assert l < i ==> Differ(was, j, l); }
    }
  }
}
