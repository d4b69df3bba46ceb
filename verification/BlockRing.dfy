/** The growing circular block index of one producer, as a value: rings that share entries, the block number
    each entry is keyed with, and the block each entry points to. */
module BlockRing {
  import opened RingArithmetic

  type Block = nat
  datatype Ref = Null | To(block: Block)

  /** INVALID_BLOCK_BASE: no multiple of 32. */
  const INVALID: nat := 1

  ghost function KeyOf(num: int): int { if num < 0 then INVALID else Base(num) }

  class Entry {
    var key: int
    var value: Ref

    /** A new entry is only given its key; its value is whatever the memory held. */
    constructor (garbage: Ref)
      ensures key == INVALID && value == garbage
    {
      key, value := INVALID, garbage;
    }
  }

  /** One header's ring. `anchor` is the slot of block number 0, which fixes the slots of all others; numbers up
      to `low` were never keyed through this ring, and `high` is the highest number keyed through it. */
  datatype Ring = Ring(k: nat, anchor: int, low: int, high: int, index: seq<Entry>)

  /** `past` are the rings outgrown so far. `num` gives the unbounded block number an entry's key stands for, -1
      while invalid; `top` is the number inserted last, whose value is still missing while `pending`. */
  datatype State = State(past: seq<Ring>, cur: Ring, num: map<Entry, int>, val: map<Entry, Ref>, top: int,
                         pending: bool)

  ghost predicate RingOk(r: Ring) {
    && r.k <= 59 && |r.index| == Pow2(r.k) && -1 <= r.low
    && forall s, t :: 0 <= s < t < |r.index| ==> Differ(r.index, s, t)
  }

  ghost predicate Differ(entries: seq<Entry>, s: int, t: int) {
    0 <= s < |entries| && 0 <= t < |entries| && entries[s] != entries[t]
  }

  ghost function Size(r: Ring): nat { |r.index| }

  ghost function At(r: Ring, q: int): Entry
    requires Size(r) > 0
  {
    r.index[Slot(r.anchor, Size(r), q)]
  }

  /** The entry at the slot of a recent number is keyed with that number, or has never been keyed. */
  ghost predicate KeyedAt(r: Ring, num: map<Entry, int>, q: int) {
    Size(r) > 0 && At(r, q) in num && num[At(r, q)] == if r.low < q then q else -1
  }

  /** The last turn of numbers is keyed. */
  ghost predicate CurrentOk(r: Ring, num: map<Entry, int>, top: int) {
    && r.low <= top <= r.high && r.high - Size(r) <= top
    && forall q :: r.high - Size(r) < q <= r.high ==> KeyedAt(r, num, q)
  }

  /** Slot `t` holds a number whose slot is `t`. */
  ghost predicate Settled(r: Ring, num: map<Entry, int>, t: nat) {
    && t < Size(r) && r.index[t] in num && num[r.index[t]] >= 0
    && Slot(r.anchor, Size(r), num[r.index[t]]) == t
  }

  /** Two rings have the entry of `q` in common. */
  ghost predicate Shared(p: Ring, r: Ring, q: int) {
    Size(p) > 0 && Size(r) > 0 && At(p, q) == At(r, q)
  }

  /** An outgrown ring still shares the entries it has in common with the current one, and its slots are only
      ever keyed with numbers that belong there. */
  ghost predicate PastOk(p: Ring, r: Ring, num: map<Entry, int>) {
    && RingOk(p) && p.k < r.k && p.low <= r.low && p.high <= r.high
    && (forall q :: p.low < q <= p.high && r.low < q ==> Shared(p, r, q))
    && (forall t :: 0 <= t < Size(p) ==> Settled(p, num, t))
  }

  ghost predicate PastsOk(past: seq<Ring>, r: Ring, num: map<Entry, int>) {
    forall i :: 0 <= i < |past| ==> PastOk(past[i], r, num)
  }

  ghost predicate NullAt(r: Ring, val: map<Entry, Ref>, q: int) {
    Size(r) > 0 && At(r, q) in val && val[At(r, q)] == Null
  }

  /** Numbers that were inserted and taken back have no block. */
  ghost predicate NullAbove(r: Ring, val: map<Entry, Ref>, top: int) {
    forall q :: top < q <= r.high ==> NullAt(r, val, q)
  }

  ghost predicate Shape(s: State) {
    && RingOk(s.cur) && s.num.Keys == s.val.Keys
    && CurrentOk(s.cur, s.num, s.top) && PastsOk(s.past, s.cur, s.num)
  }

  ghost predicate Inv(s: State) {
    && Shape(s) && NullAbove(s.cur, s.val, s.top)
    && (s.pending ==> s.cur.low < s.top && s.cur.high - Size(s.cur) < s.top)
  }

  /** The number of the newest block that has been stored. */
  ghost function Last(s: State): int { if s.pending then s.top - 1 else s.top }

  ghost predicate IsLive(r: Ring, val: map<Entry, Ref>, q: int) {
    && r.low < q && r.high - Size(r) < q
    && Size(r) > 0 && At(r, q) in val && val[At(r, q)].To?
  }

  ghost function LiveOf(r: Ring, val: map<Entry, Ref>, last: int): map<int, Block> {
    map q: int | r.low < q <= last && IsLive(r, val, q) :: val[At(r, q)].block
  }

  /** The map the index stands for: from block numbers to blocks. */
  ghost function Live(s: State): map<int, Block> { LiveOf(s.cur, s.val, Last(s)) }

  /** `m` is the map the index stands for. */
  ghost predicate StandsFor(s: State, m: map<int, Block>) { forall q :: AgreesAt(s, m, q) }

  ghost predicate AgreesAt(s: State, m: map<int, Block>, q: int) {
    (q in m <==> q in Live(s)) && (q in m ==> m[q] == Live(s)[q])
  }

  lemma StandsForIs(s: State, m: map<int, Block>)
    ensures StandsFor(s, m) <==> m == Live(s)
  {
    if StandsFor(s, m) {
      forall q ensures q in m <==> q in Live(s) { assert AgreesAt(s, m, q); }
      forall q | q in m ensures m[q] == Live(s)[q] { assert AgreesAt(s, m, q); }
    }
  }

  lemma LiveUpToTop(s: State, m: map<int, Block>)
    requires StandsFor(s, m)
    ensures forall q :: q in m ==> q <= s.top
  {
    StandsForIs(s, m);
  }

  // ---------------------------------------------------------------- slots

  lemma AtDiffers(r: Ring, q: int, p: int)
    requires RingOk(r) && q < p + Size(r) && p < q + Size(r)
    ensures At(r, q) == At(r, p) ==> q == p
  {
    SlotInjective(r.anchor, Size(r), q, p);
    var s, t := Slot(r.anchor, Size(r), q), Slot(r.anchor, Size(r), p);
    assert s < t ==> Differ(r.index, s, t);
    assert t < s ==> Differ(r.index, t, s);
  }

  lemma AtTurn(r: Ring, q: int)
    requires Size(r) > 0
    ensures At(r, q - Size(r)) == At(r, q)
  {
    SlotTurn(r.anchor, Size(r), q);
  }

  /** The number at the slot after the tail. */
  lemma NextNumber(r: Ring, num: map<Entry, int>, top: int)
    requires RingOk(r) && CurrentOk(r, num, top)
    ensures At(r, top + 1) in num
    ensures top < r.high ==> num[At(r, top + 1)] == top + 1
    ensures top == r.high ==> num[At(r, top + 1)] == if r.low < top + 1 - Size(r) then top + 1 - Size(r) else -1
  {
    AtTurn(r, top + 1);
    if top < r.high { assert KeyedAt(r, num, top + 1); } else { assert KeyedAt(r, num, top + 1 - Size(r)); }
  }

  lemma KeyIsValid(num: int)
    ensures KeyOf(num) == INVALID <==> num < 0
  {
    BaseIsMultiple(num);
  }

  /** The slot after the tail can be reused unless it holds the live block one turn back. */
  lemma NextSlotFree(s: State)
    requires Inv(s) && !s.pending
    ensures var e := At(s.cur, s.top + 1);
            e in s.num && (s.num[e] < 0 || s.val[e] == Null <==> s.top + 1 - Size(s.cur) !in Live(s))
    ensures s.top + 1 - Size(s.cur) in Live(s) ==> s.top == s.cur.high && s.cur.low <= s.top - Size(s.cur)
  {
    NextNumber(s.cur, s.num, s.top);
    AtTurn(s.cur, s.top + 1);
    if s.top < s.cur.high { assert NullAt(s.cur, s.val, s.top + 1); }
  }

  // ---------------------------------------------------------------- inserting

  /** The slot after the tail is keyed with the next number and becomes the tail. */
  ghost function Keyed(s: State): State
    requires Size(s.cur) > 0
  {
    var q := s.top + 1;
    s.(cur := s.cur.(high := if q > s.cur.high then q else s.cur.high), num := s.num[At(s.cur, q) := q], top := q,
       pending := true)
  }

  lemma KeyedCurrent(r: Ring, num: map<Entry, int>, top: int)
    requires RingOk(r) && CurrentOk(r, num, top)
    ensures CurrentOk(r.(high := if top + 1 > r.high then top + 1 else r.high), num[At(r, top + 1) := top + 1], top + 1)
  {
    var r' := r.(high := if top + 1 > r.high then top + 1 else r.high);
    var num' := num[At(r, top + 1) := top + 1];
    forall q | r'.high - Size(r') < q <= r'.high ensures KeyedAt(r', num', q) {
      AtDiffers(r, q, top + 1);
      assert q <= r.high ==> KeyedAt(r, num, q);
    }
  }

  /** Keying the slot of a number with that number keeps every outgrown ring settled. */
  lemma KeyedPast(p: Ring, r: Ring, num: map<Entry, int>, top: int)
    requires RingOk(r) && CurrentOk(r, num, top) && PastOk(p, r, num)
    ensures PastOk(p, r.(high := if top + 1 > r.high then top + 1 else r.high), num[At(r, top + 1) := top + 1])
  {
    var r' := r.(high := if top + 1 > r.high then top + 1 else r.high);
    var q, num' := top + 1, num[At(r, top + 1) := top + 1];
    NextNumber(r, num, top);
    forall t: nat | t < Size(p) ensures Settled(p, num', t) {
      assert Settled(p, num, t);
      if p.index[t] == At(r, q) && num[At(r, q)] != q { SlotWholeTurns(p.anchor, p.k, r.k, q); }
    }
    forall x | p.low < x <= p.high && r'.low < x ensures Shared(p, r', x) {
      assert Shared(p, r, x);
    }
  }

  /** Inserting keeps the invariant and leaves the map as it is. */
  lemma InsertKeepsMap(s: State)
    requires Inv(s) && !s.pending && s.top + 1 - Size(s.cur) !in Live(s)
    ensures Inv(Keyed(s)) && Live(Keyed(s)) == Live(s)
  {
    var s', q := Keyed(s), s.top + 1;
    NextSlotFree(s);
    KeyedCurrent(s.cur, s.num, s.top);
    forall i | 0 <= i < |s.past| ensures PastOk(s.past[i], s'.cur, s'.num) {
      KeyedPast(s.past[i], s.cur, s.num, s.top);
    }
    forall x | q < x <= s'.cur.high ensures NullAt(s'.cur, s.val, x) { assert NullAt(s.cur, s.val, x); }
    KeyedLive(s.cur, s'.cur, s.val, s.top);
  }

  lemma KeyedLive(r: Ring, r': Ring, val: map<Entry, Ref>, top: int)
    requires Size(r) > 0 && r' == r.(high := if top + 1 > r.high then top + 1 else r.high)
    requires top + 1 - Size(r) !in LiveOf(r, val, top) && r.high - Size(r) <= top <= r.high
    ensures LiveOf(r', val, top) == LiveOf(r, val, top)
  {
    forall q | r.low < q <= top ensures IsLive(r', val, q) <==> IsLive(r, val, q) {
      assert At(r', q) == At(r, q);
      assert IsLive(r, val, q) ==> q in LiveOf(r, val, top);
    }
  }

  // ---------------------------------------------------------------- growing

  /** `index` is the ring read once round from the slot after the tail. */
  ghost predicate Unrolled(r: Ring, top: int, index: seq<Entry>) {
    && Size(r) > 0 && |index| == Size(r)
    && forall j :: 0 <= j < |index| ==> index[j] == At(r, top + 1 + j)
  }

  ghost predicate AreNew(entries: seq<Entry>, num: map<Entry, int>) {
    && (forall i, j :: 0 <= i < j < |entries| ==> Differ(entries, i, j))
    && (forall i :: 0 <= i < |entries| ==> entries[i] !in num)
  }

  /** The ring of twice the size: the old entries, oldest number first, then the new ones. */
  ghost function GrownRing(r: Ring, top: int, index: seq<Entry>, entries: seq<Entry>): Ring {
    Ring(r.k + 1, Size(r) - 1 - top, top - Size(r), top, index + entries)
  }

  ghost function Grown(s: State, index: seq<Entry>, entries: seq<Entry>, garbage: map<Entry, Ref>): State {
    s.(past := s.past + [s.cur], cur := GrownRing(s.cur, s.top, index, entries),
       num := s.num + (map e | e in entries :: -1), val := s.val + garbage)
  }

  /** The last turn of numbers keeps its entries, the turn before that falls on the new ones. */
  lemma GrownSlots(r: Ring, top: int, index: seq<Entry>, entries: seq<Entry>, q: int)
    requires Unrolled(r, top, index) && |entries| == Size(r) && top - 2 * Size(r) < q <= top
    ensures var g := GrownRing(r, top, index, entries);
            At(g, q) == if top - Size(r) < q then At(r, q) else entries[q - top + 2 * Size(r) - 1]
  {
    var g, c := GrownRing(r, top, index, entries), Size(r);
    if top - c < q {
      SlotUnique(g.anchor, 2 * c, q, 0, q - top + c - 1);
      AtTurn(r, q + c);
    } else {
      SlotUnique(g.anchor, 2 * c, q, -1, q - top + 3 * c - 1);
    }
  }

  /** The new tail is the last slot of the first half. */
  lemma GrownTail(r: Ring, top: int, index: seq<Entry>, entries: seq<Entry>)
    requires Size(r) > 0 && |index| == |entries| == Size(r)
    ensures var g := GrownRing(r, top, index, entries); Slot(g.anchor, Size(g), top) == Size(r) - 1
  {
    SlotUnique(Size(r) - 1 - top, 2 * Size(r), top, 0, Size(r) - 1);
  }

  lemma GrownRingOk(r: Ring, num: map<Entry, int>, top: int, index: seq<Entry>, entries: seq<Entry>)
    requires RingOk(r) && CurrentOk(r, num, top) && top == r.high && Unrolled(r, top, index)
    requires AreNew(entries, num) && |entries| == Size(r) && 2 * Size(r) <= MAX_CAPACITY && -1 <= top - Size(r)
    ensures RingOk(GrownRing(r, top, index, entries))
  {
    ExponentWithinLimit(r.k + 1);
    var g := GrownRing(r, top, index, entries);
    forall i, j | 0 <= i < j < |g.index| ensures Differ(g.index, i, j) {
      if j < Size(r) {
        AtDiffers(r, top + 1 + i, top + 1 + j);
      } else if i < Size(r) {
        AtTurn(r, top + 1 + i);
        assert KeyedAt(r, num, top + 1 + i - Size(r));
        assert g.index[j] == entries[j - Size(r)];
      } else {
        assert Differ(entries, i - Size(r), j - Size(r));
      }
    }
  }

  lemma GrownCurrent(r: Ring, num: map<Entry, int>, num': map<Entry, int>, top: int, index: seq<Entry>,
                     entries: seq<Entry>)
    requires RingOk(r) && CurrentOk(r, num, top) && top == r.high && Unrolled(r, top, index) && |entries| == Size(r)
    requires r.low <= top - Size(r)
    requires forall e :: e in num ==> e in num' && num'[e] == num[e]
    requires forall e :: e in entries ==> e in num' && num'[e] == -1
    ensures CurrentOk(GrownRing(r, top, index, entries), num', top)
  {
    var g := GrownRing(r, top, index, entries);
    forall q | g.high - Size(g) < q <= g.high ensures KeyedAt(g, num', q) {
      GrownSlots(r, top, index, entries, q);
      if top - Size(r) < q { assert KeyedAt(r, num, q); }
    }
  }

  /** A ring keyed all round has its own number in every slot. */
  lemma FullRingIsSettled(r: Ring, num: map<Entry, int>, t: nat)
    requires RingOk(r) && CurrentOk(r, num, r.high) && r.low <= r.high - Size(r) && t < Size(r)
    ensures Settled(r, num, t)
  {
    var q := SlotHit(r.anchor, Size(r), r.high, t);
    assert KeyedAt(r, num, q);
  }

  lemma GrownPast(p: Ring, r: Ring, g: Ring, num: map<Entry, int>, num': map<Entry, int>)
    requires PastOk(p, r, num) && r.k < g.k && r.low <= g.low && r.high <= g.high
    requires forall e :: e in num ==> e in num' && num'[e] == num[e]
    requires forall q :: g.low < q <= r.high ==> Shared(r, g, q)
    ensures PastOk(p, g, num')
  {
    forall t: nat | t < Size(p) ensures Settled(p, num', t) { assert Settled(p, num, t); }
    forall q | p.low < q <= p.high && g.low < q ensures Shared(p, g, q) { assert Shared(p, r, q) && Shared(r, g, q); }
  }

  lemma GrownLive(r: Ring, g: Ring, val: map<Entry, Ref>, val': map<Entry, Ref>)
    requires r.low <= g.low == r.high - Size(r) && g.high == r.high && Size(r) <= Size(g)
    requires forall q :: g.low < q <= r.high ==> Shared(r, g, q)
    requires forall q :: g.low < q <= r.high ==> At(r, q) in val
    requires forall e :: e in val ==> e in val' && val'[e] == val[e]
    ensures LiveOf(g, val', r.high) == LiveOf(r, val, r.high)
  {
    forall q | q <= r.high ensures (r.low < q && IsLive(r, val, q)) <==> (g.low < q && IsLive(g, val', q)) {
      if g.low < q { assert Shared(r, g, q); }
    }
    forall q | g.low < q <= r.high ensures At(r, q) == At(g, q) { assert Shared(r, g, q); }
  }

  /** Doubling keeps the invariant and the map, and leaves a slot that was never used after the tail. */
  lemma GrowKeepsMap(s: State, index: seq<Entry>, entries: seq<Entry>, garbage: map<Entry, Ref>)
    requires Inv(s) && !s.pending && s.top + 1 - Size(s.cur) in Live(s) && 2 * Size(s.cur) <= MAX_CAPACITY
    requires Unrolled(s.cur, s.top, index) && AreNew(entries, s.num) && |entries| == Size(s.cur)
    requires garbage.Keys == set e | e in entries
    ensures var s' := Grown(s, index, entries, garbage);
            Inv(s') && Live(s') == Live(s) && s'.top + 1 - Size(s'.cur) !in Live(s')
  {
    var s' := Grown(s, index, entries, garbage);
    var r, g := s.cur, s'.cur;
    NextSlotFree(s);
    GrownRingOk(r, s.num, s.top, index, entries);
    GrownCurrent(r, s.num, s'.num, s.top, index, entries);
    forall q | g.low < q <= r.high ensures Shared(r, g, q) { GrownSlots(r, s.top, index, entries, q); }
    GrownPasts(s, s');
    forall q | g.low < q <= r.high ensures At(r, q) in s.val { assert KeyedAt(r, s.num, q); }
    GrownLive(r, g, s.val, s'.val);
  }

  lemma GrownPasts(s: State, s': State)
    requires Shape(s) && s.top == s.cur.high && s'.past == s.past + [s.cur]
    requires s.cur.k < s'.cur.k && s.cur.low <= s'.cur.low == s.cur.high - Size(s.cur) && s.cur.high <= s'.cur.high
    requires forall e :: e in s.num ==> e in s'.num && s'.num[e] == s.num[e]
    requires forall q :: s'.cur.low < q <= s.cur.high ==> Shared(s.cur, s'.cur, q)
    ensures PastsOk(s'.past, s'.cur, s'.num)
  {
    forall i | 0 <= i < |s'.past| ensures PastOk(s'.past[i], s'.cur, s'.num) {
      if i < |s.past| {
        GrownPast(s.past[i], s.cur, s'.cur, s.num, s'.num);
      } else {
        forall t: nat | t < Size(s.cur) ensures Settled(s.cur, s'.num, t) {
          FullRingIsSettled(s.cur, s.num, t);
          assert Settled(s.cur, s.num, t);
        }
      }
    }
  }

  // ---------------------------------------------------------------- storing, clearing and taking back

  ghost function Stored(s: State, q: int, v: Ref): State
    requires Size(s.cur) > 0
  {
    s.(val := s.val[At(s.cur, q) := v])
  }

  /** Storing the block of the number just inserted adds it to the map. */
  lemma StoreAddsBlock(s: State, b: Block)
    requires Inv(s) && s.pending
    ensures var s' := Stored(s, s.top, To(b)).(pending := false); Inv(s') && Live(s') == Live(s)[s.top := b]
  {
    var s' := Stored(s, s.top, To(b)).(pending := false);
    var r := s.cur;
    assert KeyedAt(r, s.num, s.top);
    forall q | s.top < q <= r.high ensures NullAt(r, s'.val, q) {
      AtDiffers(r, s.top, q);
      assert NullAt(r, s.val, q);
    }
    forall q | r.high - Size(r) < q < s.top ensures At(r, q) != At(r, s.top) { AtDiffers(r, q, s.top); }
    assert s'.val.Keys == s.num.Keys;
  }

  /** Clearing the entry of a live block removes exactly that block from the map. */
  lemma ClearRemovesBlock(s: State, q: int)
    requires Inv(s) && q in Live(s)
    ensures var s' := Stored(s, q, Null); Inv(s') && Live(s') == Live(s) - {q}
  {
    var s', r := Stored(s, q, Null), s.cur;
    forall x | r.high - Size(r) < x <= r.high ensures At(r, x) == At(r, q) ==> x == q { AtDiffers(r, x, q); }
    forall x | s.top < x <= r.high ensures NullAt(r, s'.val, x) { assert NullAt(r, s.val, x); }
    assert s'.val.Keys == s.num.Keys;
  }

  /** A failed allocation moves the tail back and clears the entry: the map is as before the insertion. */
  lemma RewindRestoresMap(s: State)
    requires Inv(s) && s.pending
    ensures var s' := Stored(s, s.top, Null).(top := s.top - 1, pending := false); Inv(s') && Live(s') == Live(s)
  {
    var s', r := Stored(s, s.top, Null).(top := s.top - 1, pending := false), s.cur;
    assert KeyedAt(r, s.num, s.top);
    forall x | s.top - 1 < x <= r.high ensures NullAt(r, s'.val, x) { assert x > s.top ==> NullAt(r, s.val, x); }
    forall q | r.high - Size(r) < q < s.top ensures At(r, q) != At(r, s.top) { AtDiffers(r, q, s.top); }
    assert s'.val.Keys == s.num.Keys;
  }

  // ---------------------------------------------------------------- undoing a failed bulk insertion

  /** `m'` is `m` with the blocks of numbers first, first + 1, ... added. */
  ghost predicate Extends(m': map<int, Block>, m: map<int, Block>, first: int, blocks: seq<Block>) {
    forall q :: ExtendsAt(m', m, first, blocks, q)
  }

  ghost predicate ExtendsAt(m': map<int, Block>, m: map<int, Block>, first: int, blocks: seq<Block>, q: int) {
    && (q in m' <==> q in m || first <= q < first + |blocks|)
    && (q in m' ==> m'[q] == if first <= q < first + |blocks| then blocks[q - first] else m[q])
  }

  lemma ExtendsByNone(m': map<int, Block>, m: map<int, Block>, first: int)
    ensures Extends(m', m, first, []) <==> m' == m
  {
    if Extends(m', m, first, []) {
      forall q ensures q in m' <==> q in m { assert ExtendsAt(m', m, first, [], q); }
      forall q | q in m ensures m'[q] == m[q] { assert ExtendsAt(m', m, first, [], q); }
    }
    forall q | m' == m ensures ExtendsAt(m', m, first, [], q) { }
  }

  lemma ExtendsByOne(m': map<int, Block>, m: map<int, Block>, first: int, blocks: seq<Block>, q: int, b: Block)
    requires Extends(m', m, first, blocks) && q == first + |blocks|
    ensures Extends(m'[q := b], m, first, blocks + [b])
  {
    var m'', blocks' := m'[q := b], blocks + [b];
    forall x ensures ExtendsAt(m'', m, first, blocks', x) { assert ExtendsAt(m', m, first, blocks, x); }
  }

  ghost function UndoStep(u: State, q: int): State
    requires Size(u.cur) > 0
  {
    Stored(u, q, Null).(top := u.top - 1)
  }

  ghost predicate UndoneAt(s: State, u: State, base: int, j: nat, q: int) {
    && Size(s.cur) > 0 && At(s.cur, q) in s.val && At(s.cur, q) in u.val
    && u.val[At(s.cur, q)] == if base < q <= base + j then Null else s.val[At(s.cur, q)]
  }

  /** `u` is `s` after `j` turns of the undo loop: values are cleared from the oldest number up while the tail
      moves down from the newest, so in between neither the tail nor the map is that of a finished operation. */
  ghost predicate Undone(s: State, u: State, base: int, j: nat) {
    && u == s.(val := u.val, top := s.top - j) && u.val.Keys == s.val.Keys
    && forall q :: s.cur.high - Size(s.cur) < q <= s.cur.high ==> UndoneAt(s, u, base, j, q)
  }

  /** All of the numbers after `base` are within the last turn. */
  ghost predicate Undoable(s: State, base: int) {
    Shape(s) && s.cur.low <= base && s.cur.high - Size(s.cur) <= base
  }

  lemma UndoneStart(s: State, base: int)
    requires Undoable(s, base)
    ensures Undone(s, s, base, 0)
  {
    forall q | s.cur.high - Size(s.cur) < q <= s.cur.high ensures UndoneAt(s, s, base, 0, q) {
      assert KeyedAt(s.cur, s.num, q);
    }
  }

  lemma UndoneStep(s: State, u: State, base: int, j: nat)
    requires Undoable(s, base) && base + j < s.top && Undone(s, u, base, j)
    ensures Undone(s, UndoStep(u, base + j + 1), base, j + 1) && Shape(UndoStep(u, base + j + 1))
  {
    var r, u', j' := s.cur, UndoStep(u, base + j + 1), j + 1;
    assert KeyedAt(r, s.num, base + j + 1);
    assert u'.val.Keys == s.val.Keys;
    forall q | r.high - Size(r) < q <= r.high ensures UndoneAt(s, u', base, j', q) {
      assert UndoneAt(s, u, base, j, q);
      AtDiffers(r, base + j + 1, q);
    }
  }

  ghost function UpTo(m: map<int, Block>, base: int): map<int, Block> { map q | q in m && q <= base :: m[q] }

  lemma ExtendsUpTo(m': map<int, Block>, m: map<int, Block>, base: int, blocks: seq<Block>)
    requires Extends(m', m, base + 1, blocks) && forall q :: q in m ==> q <= base
    ensures UpTo(m', base) == m
  {
    forall q ensures q in UpTo(m', base) <==> q in m { assert ExtendsAt(m', m, base + 1, blocks, q); }
    forall q | q in m ensures UpTo(m', base)[q] == m[q] { assert ExtendsAt(m', m, base + 1, blocks, q); }
  }

  lemma LiveUpTo(r: Ring, val: map<Entry, Ref>, val': map<Entry, Ref>, base: int, last: int)
    requires Size(r) > 0 && base <= last && val'.Keys == val.Keys
    requires forall q :: r.high - Size(r) < q <= base && At(r, q) in val ==> val'[At(r, q)] == val[At(r, q)]
    ensures LiveOf(r, val', base) == UpTo(LiveOf(r, val, last), base)
  {
  }

  lemma UndoneNull(s: State, u: State, base: int, j: nat)
    requires Undoable(s, base) && base + j == s.top && NullAbove(s.cur, s.val, s.top) && Undone(s, u, base, j)
    ensures NullAbove(s.cur, u.val, base)
  {
    forall q | base < q <= s.cur.high ensures NullAt(s.cur, u.val, q) {
      assert UndoneAt(s, u, base, j, q);
      assert q > s.top ==> NullAt(s.cur, s.val, q);
    }
  }

  lemma UndoneLive(s: State, u: State, base: int, j: nat)
    requires Undoable(s, base) && base + j == s.top && Undone(s, u, base, j)
    ensures LiveOf(s.cur, u.val, base) == UpTo(LiveOf(s.cur, s.val, s.top), base)
  {
    forall q | s.cur.high - Size(s.cur) < q <= base ensures At(s.cur, q) in s.val
      && u.val[At(s.cur, q)] == s.val[At(s.cur, q)] {
      assert UndoneAt(s, u, base, j, q);
    }
    LiveUpTo(s.cur, s.val, u.val, base, s.top);
  }

  /** The finished undo loop leaves the map as it was before the first of the insertions. */
  lemma UndoRestoresMap(s: State, u: State, live: map<int, Block>, m: map<int, Block>, base: int, blocks: seq<Block>)
    requires Inv(s) && !s.pending && base + |blocks| == s.top && StandsFor(s, live)
             && Extends(live, m, base + 1, blocks)
    requires (forall q :: q in m ==> q <= base) && Undoable(s, base) && Undone(s, u, base, |blocks|)
    ensures Inv(u) && StandsFor(u, m) && u.top == base
  {
    UndoneNull(s, u, base, |blocks|);
    UndoneLive(s, u, base, |blocks|);
    StandsForIs(s, live);
    ExtendsUpTo(live, m, base, blocks);
    StandsForIs(u, m);
  }

  lemma LiveIsRecent(s: State, q: int)
    requires q in Live(s)
    ensures s.cur.low < q <= s.top && s.cur.high - Size(s.cur) < q
  {
  }

  /** Insertions that have all succeeded can all be undone. */
  lemma ExtendedIsUndoable(s: State, live: map<int, Block>, m: map<int, Block>, base: int, blocks: seq<Block>)
    requires Shape(s) && blocks != [] && StandsFor(s, live) && Extends(live, m, base + 1, blocks)
    ensures Undoable(s, base)
  {
    assert ExtendsAt(live, m, base + 1, blocks, base + 1);
    StandsForIs(s, live);
    LiveIsRecent(s, base + 1);
  }

  // ---------------------------------------------------------------- looking up

  /** The lookup from the tail finds the entry of any number. */
  lemma LookupFromTail(s: State, q: nat)
    requires Shape(s) && s.cur.low < s.top && s.cur.high - Size(s.cur) < s.top
    ensures var r := s.cur;
            && At(r, s.top) in s.num && s.num[At(r, s.top)] == s.top
            && LookupSlot(Base(q), Slot(r.anchor, Size(r), s.top), Base(s.top), Size(r)) == Slot(r.anchor, Size(r), q)
  {
    assert KeyedAt(s.cur, s.num, s.top);
    LookupFindsSlot(s.cur.anchor, s.cur.k, q, s.top);
  }

  /** A reader that loaded a ring and a tail long ago, and finds any key there, finds a number of that slot. */
  lemma AnyKeyNamesItsSlot(s: State, r: Ring, t: nat)
    requires Shape(s) && (r == s.cur || r in s.past) && t < Size(r)
    ensures r.index[t] in s.num && (s.num[r.index[t]] >= 0 ==> Slot(r.anchor, Size(r), s.num[r.index[t]]) == t)
    ensures r in s.past ==> s.num[r.index[t]] >= 0
  {
    if r in s.past {
      assert Settled(r, s.num, t);
    } else {
      var q := SlotHit(r.anchor, Size(r), r.high, t);
      assert KeyedAt(r, s.num, q);
    }
  }

  /** From any slot `t` and any number `n` once seen there, through the current ring or any outgrown one, the lookup
      of a live block the ring knew of leads to the entry keyed with that block and pointing to it. */
  lemma StaleLookupFinds(s: State, r: Ring, t: nat, n: nat, q: int)
    requires Inv(s) && (r == s.cur || r in s.past) && Size(r) > 0 && Slot(r.anchor, Size(r), n) == t
    requires q in Live(s) && q <= r.high
    ensures q >= 0
    ensures var x := LookupSlot(Base(q), t, Base(n), Size(r)); x < Size(r) && var e := r.index[x];
            e in s.num && s.num[e] == q && s.val[e] == To(Live(s)[q])
  {
    assert KeyedAt(s.cur, s.num, q);
    if r in s.past {
      assert PastOk(r, s.cur, s.num);
      assert Shared(r, s.cur, q);
    }
    LookupFindsSlot(r.anchor, r.k, q, n);
  }

  /** A bulk dequeue goes from one block to the next by adding one to the slot: from the slot of `q`, in a ring loaded
      any time ago, that is the entry of `q + 1`. */
  lemma NextSlotFinds(s: State, r: Ring, q: int)
    requires Inv(s) && (r == s.cur || r in s.past) && Size(r) > 0 && q + 1 in Live(s) && q + 1 <= r.high
    ensures var x := (Slot(r.anchor, Size(r), q) + 1) % Size(r); 0 <= x < Size(r) && var e := r.index[x];
            e in s.num && s.num[e] == q + 1 && s.val[e] == To(Live(s)[q + 1])
  {
    SlotNext(r.anchor, Size(r), q);
    assert KeyedAt(s.cur, s.num, q + 1);
    if r in s.past {
      assert PastOk(r, s.cur, s.num);
      assert Shared(r, s.cur, q + 1);
    }
  }
}
