/** Consumers that look blocks up while the producer changes the index. A consumer loads the header, the tail and
    the key at the tail in separate steps, and any stores of the producer and of other consumers may fall in between:
    a key, a tail or a value stored, the ring doubled, an insertion taken back. What it finds is what the map holds.

    A claimed block stays in the map until it is used up (SubQueueSafety.ClaimedBlockIsLive), and a block that is taken
    back was never published, so it is in no claim; the guards of Clear, Claim and StartUndo say so. */
module BlockReaders {
  import opened RingArithmetic
  import opened BlockRing

  /** The producer: between insertions; after the key was stored; after the tail was; after the tail was moved back; or
      in the undo loop for the numbers base + 1 .. end, `j` turns done, the entry of this turn cleared or not. */
  datatype Prod = PIdle | PKeyed | PPending | PRewound | PUndo(base: int, end: int, j: nat, cleared: bool)

  /** A consumer with a claim on the blocks q .. last, working with ring number `i` and a slot of it. */
  datatype Reader =
    | RIdle
    | RStart(q: int, last: int)
    | RHeader(q: int, last: int, i: nat)
    | RTail(q: int, last: int, i: nat, t: nat)
    | RFound(q: int, last: int, i: nat, x: nat)
    | RNext(q: int, last: int, i: nat, x: nat)

  /** `live` is the map from block numbers to blocks. */
  datatype System = System(s: State, live: map<int, Block>, prod: Prod, readers: seq<Reader>)

  datatype Action =
    | KeyStore | TailStore | Store(b: Block) | Rewind | Clean
    | Grow(index: seq<Entry>, entries: seq<Entry>, garbage: map<Entry, Ref>)
    | StartUndo(base: int) | UndoClear | UndoTail
    | Claim(c: nat, q: int, last: int) | LoadHeader(c: nat) | LoadTail(c: nat) | LoadKey(c: nat)
    | Release(c: nat) | Advance(c: nat) | Clear(q: int)

  // ---------------------------------------------------------------- the steps

  ghost function RingAt(s: State, i: nat): Ring { if i < |s.past| then s.past[i] else s.cur }

  /** The slot that a header's tail names; an outgrown header's tail is never stored again. */
  ghost function TailAt(s: State, i: nat): nat
    requires Size(RingAt(s, i)) > 0
  {
    var r := RingAt(s, i);
    Slot(r.anchor, Size(r), if i < |s.past| then r.high else s.top)
  }

  /** The slot after the tail can be reused. */
  ghost predicate SlotIsFree(s: State)
    requires Size(s.cur) > 0
  {
    var e := At(s.cur, s.top + 1);
    e in s.num && e in s.val && (s.num[e] < 0 || s.val[e] == Null)
  }

  ghost predicate Needs(r: Reader, q: int) { !r.RIdle? && r.q <= q <= r.last }

  ghost predicate Published(prod: Prod, q: int) { prod.PUndo? ==> q <= prod.base }

  ghost predicate AllLive(live: map<int, Block>, q: int, last: int) { forall x :: q <= x <= last ==> x in live }

  ghost predicate Enabled(g: System, a: Action) {
    Size(g.s.cur) > 0 &&
    match a
    case KeyStore => g.prod.PIdle? && SlotIsFree(g.s)
    case TailStore => g.prod.PKeyed?
    case Store(_) => g.prod.PPending?
    case Rewind => g.prod.PPending?
    case Clean => g.prod.PRewound?
    case Grow(index, entries, garbage) =>
      && g.prod.PIdle? && !SlotIsFree(g.s) && 2 * Size(g.s.cur) <= MAX_CAPACITY
      && Unrolled(g.s.cur, g.s.top, index) && AreNew(entries, g.s.num) && |entries| == Size(g.s.cur)
      && garbage.Keys == set e | e in entries
    case StartUndo(base) =>
      && g.prod.PIdle? && base < g.s.top && AllLive(g.live, base + 1, g.s.top)
      && forall c :: 0 <= c < |g.readers| && !g.readers[c].RIdle? ==> g.readers[c].last <= base
    case UndoClear => g.prod.PUndo? && !g.prod.cleared
    case UndoTail => g.prod.PUndo? && g.prod.cleared
    case Claim(c, q, last) =>
      && c < |g.readers| && g.readers[c].RIdle? && q <= last && AllLive(g.live, q, last) && Published(g.prod, last)
    case LoadHeader(c) => c < |g.readers| && g.readers[c].RStart?
    case LoadTail(c) => c < |g.readers| && g.readers[c].RHeader? && Size(RingAt(g.s, g.readers[c].i)) > 0
    case LoadKey(c) =>
      && c < |g.readers| && g.readers[c].RTail? && var r := RingAt(g.s, g.readers[c].i);
      && g.readers[c].t < Size(r) && r.index[g.readers[c].t] in g.s.num
    case Release(c) => c < |g.readers| && g.readers[c].RFound?
    case Advance(c) => c < |g.readers| && g.readers[c].RNext? && Size(RingAt(g.s, g.readers[c].i)) > 0
    case Clear(q) =>
      q in g.live && Published(g.prod, q) && forall c :: 0 <= c < |g.readers| ==> !Needs(g.readers[c], q)
  }

  ghost function StoreKey(s: State): State
    requires Size(s.cur) > 0
  {
    var q := s.top + 1;
    s.(cur := s.cur.(high := if q > s.cur.high then q else s.cur.high), num := s.num[At(s.cur, q) := q])
  }

  ghost function AfterTurn(p: Prod): Prod
    requires p.PUndo?
  {
    if p.base + p.j + 1 == p.end then PIdle else PUndo(p.base, p.end, p.j + 1, false)
  }

  ghost function ReaderStep(g: System, c: nat, r: Reader): System
    requires c < |g.readers|
  {
    g.(readers := g.readers[c := r])
  }

  ghost function Step(g: System, a: Action): System
    requires Enabled(g, a)
  {
    match a
    case KeyStore => g.(s := StoreKey(g.s), prod := PKeyed)
    case TailStore => g.(s := g.s.(top := g.s.top + 1), prod := PPending)
    case Store(b) => g.(s := Stored(g.s, g.s.top, To(b)), live := g.live[g.s.top := b], prod := PIdle)
    case Rewind => g.(s := g.s.(top := g.s.top - 1), prod := PRewound)
    case Clean => g.(s := Stored(g.s, g.s.top + 1, Null), prod := PIdle)
    case Grow(index, entries, garbage) => g.(s := Grown(g.s, index, entries, garbage))
    case StartUndo(base) => g.(prod := PUndo(base, g.s.top, 0, false))
    case UndoClear =>
      var q := g.prod.base + g.prod.j + 1;
      g.(s := Stored(g.s, q, Null), live := g.live - {q}, prod := g.prod.(cleared := true))
    case UndoTail => g.(s := g.s.(top := g.s.top - 1), prod := AfterTurn(g.prod))
    case Claim(c, q, last) => ReaderStep(g, c, RStart(q, last))
    case LoadHeader(c) => ReaderStep(g, c, RHeader(g.readers[c].q, g.readers[c].last, |g.s.past|))
    case LoadTail(c) =>
      ReaderStep(g, c, RTail(g.readers[c].q, g.readers[c].last, g.readers[c].i, TailAt(g.s, g.readers[c].i)))
    case LoadKey(c) =>
      var r, ring := g.readers[c], RingAt(g.s, g.readers[c].i);
      var x := LookupSlot(Base(r.q), r.t, KeyOf(g.s.num[ring.index[r.t]]), Size(ring));
      ReaderStep(g, c, RFound(r.q, r.last, r.i, x))
    case Release(c) =>
      var r := g.readers[c];
      ReaderStep(g, c, if r.q == r.last then RIdle else RNext(r.q + 1, r.last, r.i, r.x))
    case Advance(c) =>
      var r := g.readers[c];
      ReaderStep(g, c, RFound(r.q, r.last, r.i, (r.x + 1) % Size(RingAt(g.s, r.i))))
    case Clear(q) => g.(s := Stored(g.s, q, Null), live := g.live - {q})
  }

  // ---------------------------------------------------------------- the invariant

  /** The entry of a live number points to its block. */
  ghost predicate HeldAt(r: Ring, val: map<Entry, Ref>, q: int, b: Block) {
    && r.low < q <= r.high && r.high - Size(r) < q && Size(r) > 0
    && At(r, q) in val && val[At(r, q)] == To(b)
  }

  ghost predicate HeldOk(r: Ring, val: map<Entry, Ref>, live: map<int, Block>) {
    forall q :: q in live ==> HeldAt(r, val, q, live[q])
  }

  /** The number that is keyed and has no block, while one is being inserted. */
  ghost function Flight(prod: Prod, top: int): int {
    if prod.PPending? then top else if prod.PKeyed? || prod.PRewound? then top + 1 else -1
  }

  /** Of the last turn, an entry that points somewhere is that of a live number. */
  ghost predicate KnownAt(r: Ring, val: map<Entry, Ref>, live: map<int, Block>, flight: int, q: int) {
    Size(r) > 0 && At(r, q) in val && (val[At(r, q)] == Null || q in live || q == flight)
  }

  ghost predicate KnownOk(r: Ring, val: map<Entry, Ref>, live: map<int, Block>, flight: int) {
    forall q :: r.low < q <= r.high && r.high - Size(r) < q ==> KnownAt(r, val, live, flight, q)
  }

  ghost predicate UpTo(live: map<int, Block>, top: int) { forall q :: q in live ==> q <= top }

  /** Numbers still to be cleared by the undo loop are after `done`. */
  ghost predicate Undoing(live: map<int, Block>, base: int, done: int, end: int) {
    (forall q :: q in live ==> q <= base || done < q <= end) && AllLive(live, done + 1, end)
  }

  ghost predicate ProdOk(prod: Prod, r: Ring, top: int, live: map<int, Block>) {
    match prod
    case PIdle => UpTo(live, top)
    case PKeyed => UpTo(live, top) && top < r.high
    case PRewound => UpTo(live, top) && top < r.high
    case PPending => UpTo(live, top - 1) && r.low < top && r.high - Size(r) < top
    case PUndo(base, end, j, cleared) =>
      && r.low <= base && r.high - Size(r) <= base && end <= r.high && top == end - j && base + j < end
      && Undoing(live, base, base + j + (if cleared then 1 else 0), end)
  }

  ghost predicate ReaderOk(s: State, live: map<int, Block>, prod: Prod, r: Reader) {
    !r.RIdle? ==>
      && r.q <= r.last && AllLive(live, r.q, r.last) && Published(prod, r.last)
      && (!r.RStart? ==> ReachesOk(s, r))
  }

  /** Its ring knows all the numbers of the claim, and its slot is one that was ever keyed, or the right one. */
  ghost predicate ReachesOk(s: State, r: Reader)
    requires !r.RIdle? && !r.RStart?
  {
    var ring := RingAt(s, r.i);
    && r.i <= |s.past| && r.last <= ring.high && Size(ring) > 0
    && (r.RTail? ==> r.t < Size(ring) && ring.index[r.t] in s.num && s.num[ring.index[r.t]] >= 0)
    && (r.RFound? ==> r.x == Slot(ring.anchor, Size(ring), r.q))
    && (r.RNext? ==> r.x == Slot(ring.anchor, Size(ring), r.q - 1))
  }

  ghost predicate ReadersOk(s: State, live: map<int, Block>, prod: Prod, readers: seq<Reader>) {
    forall c :: 0 <= c < |readers| ==> ReaderOk(s, live, prod, readers[c])
  }

  ghost predicate Inv(g: System) {
    && Shape(g.s) && HeldOk(g.s.cur, g.s.val, g.live) && KnownOk(g.s.cur, g.s.val, g.live, Flight(g.prod, g.s.top))
    && ProdOk(g.prod, g.s.cur, g.s.top, g.live) && ReadersOk(g.s, g.live, g.prod, g.readers)
  }

  // ---------------------------------------------------------------- what a reader finds

  /** In a ring that was current when the block was there, the entry at the slot of a live number is keyed with it and
      points to its block. */
  lemma EntryOfLive(s: State, live: map<int, Block>, i: nat, q: int)
    requires Shape(s) && HeldOk(s.cur, s.val, live) && q in live && i <= |s.past| && q <= RingAt(s, i).high
    ensures var r := RingAt(s, i);
            && Size(r) > 0 && At(r, q) == At(s.cur, q) && At(r, q) in s.num && s.num[At(r, q)] == q >= 0
            && At(r, q) in s.val && s.val[At(r, q)] == To(live[q])
  {
    assert HeldAt(s.cur, s.val, q, live[q]);
    assert KeyedAt(s.cur, s.num, q);
    if i < |s.past| {
      assert PastOk(s.past[i], s.cur, s.num);
      assert Shared(s.past[i], s.cur, q);
    }
  }

  /** The tail of a ring names a slot that has been keyed, as long as the claim of the reader is live. */
  lemma TailIsKeyed(s: State, live: map<int, Block>, i: nat, q: int)
    requires Shape(s) && HeldOk(s.cur, s.val, live) && q in live && q <= s.top && i <= |s.past|
             && Size(RingAt(s, i)) > 0
    ensures var r, t := RingAt(s, i), TailAt(s, i); t < Size(r) && r.index[t] in s.num && s.num[r.index[t]] >= 0
  {
    if i < |s.past| {
      assert PastOk(s.past[i], s.cur, s.num);
      assert Settled(s.past[i], s.num, TailAt(s, i));
    } else {
      assert HeldAt(s.cur, s.val, q, live[q]);
      assert KeyedAt(s.cur, s.num, s.top);
    }
  }

  /** From any keyed slot of any ring the lookup leads to the slot of `q`. */
  lemma KeyLeadsTo(s: State, i: nat, t: nat, q: nat)
    requires Shape(s) && i <= |s.past| && t < Size(RingAt(s, i))
    requires RingAt(s, i).index[t] in s.num && s.num[RingAt(s, i).index[t]] >= 0
    ensures var r := RingAt(s, i);
            LookupSlot(Base(q), t, KeyOf(s.num[r.index[t]]), Size(r)) == Slot(r.anchor, Size(r), q)
  {
    var r := RingAt(s, i);
    assert i < |s.past| ==> PastOk(s.past[i], s.cur, s.num);
    AnyKeyNamesItsSlot(s, r, t);
    LookupFindsSlot(r.anchor, r.k, q, s.num[r.index[t]]);
  }

  // ---------------------------------------------------------------- readers under the other steps

  ghost predicate RingKept(s: State, s': State, i: nat) {
    var r, r' := RingAt(s, i), RingAt(s', i);
    r'.index == r.index && r'.anchor == r.anchor && r.high <= r'.high
  }

  /** Headers stay as they are, and an entry that was keyed stays keyed. */
  ghost predicate IndexKept(s: State, s': State) {
    && |s.past| <= |s'.past| && (forall i :: 0 <= i <= |s.past| ==> RingKept(s, s', i))
    && (forall e :: e in s.num && s.num[e] >= 0 ==> e in s'.num && s'.num[e] >= 0)
  }

  ghost predicate ClaimKept(live': map<int, Block>, prod': Prod, r: Reader) {
    !r.RIdle? ==> AllLive(live', r.q, r.last) && Published(prod', r.last)
  }

  lemma ReadersKept(g: System, g': System)
    requires ReadersOk(g.s, g.live, g.prod, g.readers) && g'.readers == g.readers && IndexKept(g.s, g'.s)
    requires forall c :: 0 <= c < |g.readers| ==> ClaimKept(g'.live, g'.prod, g.readers[c])
    ensures ReadersOk(g'.s, g'.live, g'.prod, g'.readers)
  {
    forall c | 0 <= c < |g.readers| ensures ReaderOk(g'.s, g'.live, g'.prod, g.readers[c]) {
      var r := g.readers[c];
      assert ReaderOk(g.s, g.live, g.prod, r) && ClaimKept(g'.live, g'.prod, r);
      assert !r.RIdle? && !r.RStart? ==> RingKept(g.s, g'.s, r.i);
    }
  }

  /** The steps of the producer that touch neither the map nor what is published. */
  lemma ReadersUntouched(g: System, g': System)
    requires ReadersOk(g.s, g.live, g.prod, g.readers) && g'.readers == g.readers && IndexKept(g.s, g'.s)
    requires !g'.prod.PUndo? || (g.prod.PUndo? && g'.prod.base == g.prod.base)
    requires forall q :: q in g.live ==> q in g'.live
    ensures ReadersOk(g'.s, g'.live, g'.prod, g'.readers)
  {
    forall c | 0 <= c < |g.readers| ensures ClaimKept(g'.live, g'.prod, g.readers[c]) {
      assert ReaderOk(g.s, g.live, g.prod, g.readers[c]);
    }
    ReadersKept(g, g');
  }

  // ---------------------------------------------------------------- steps of the producer

  lemma PutHeld(r: Ring, val: map<Entry, Ref>, live: map<int, Block>, q: int, v: Ref)
    requires RingOk(r) && HeldOk(r, val, live) && r.high - Size(r) < q <= r.high && r.low < q
    ensures HeldOk(r, val[At(r, q) := v], live - {q})
    ensures v.To? ==> HeldOk(r, val[At(r, q) := v], live[q := v.block])
  {
    forall x | x in live && x != q ensures HeldAt(r, val[At(r, q) := v], x, live[x]) {
      assert HeldAt(r, val, x, live[x]);
      AtDiffers(r, x, q);
    }
  }

  lemma PutKnown(r: Ring, val: map<Entry, Ref>, live: map<int, Block>, live': map<int, Block>, flight: int,
                 flight': int, q: int, v: Ref)
    requires RingOk(r) && KnownOk(r, val, live, flight) && r.high - Size(r) < q <= r.high
    requires (forall x :: x in live && x != q ==> x in live') && (flight == q || flight == flight')
    requires v == Null || q in live'
    ensures KnownOk(r, val[At(r, q) := v], live', flight')
  {
    var val' := val[At(r, q) := v];
    forall x | r.low < x <= r.high && r.high - Size(r) < x ensures KnownAt(r, val', live', flight', x) {
      assert KnownAt(r, val, live, flight, x);
      AtDiffers(r, x, q);
    }
  }

  /** Storing a value in the entry of a recent number keeps the shape. */
  lemma PutShape(s: State, q: int, v: Ref)
    requires Shape(s) && s.cur.high - Size(s.cur) < q <= s.cur.high
    ensures Shape(Stored(s, q, v)) && IndexKept(s, Stored(s, q, v))
  {
    assert KeyedAt(s.cur, s.num, q);
    var s' := Stored(s, q, v);
    assert s'.val.Keys == s.num.Keys;
    forall i | 0 <= i <= |s.past| ensures RingKept(s, s', i) { }
  }

  /** Only the tail moves. */
  lemma TailShape(s: State, top: int)
    requires Shape(s) && s.cur.low <= top <= s.cur.high && s.cur.high - Size(s.cur) <= top
    ensures Shape(s.(top := top)) && IndexKept(s, s.(top := top))
  {
    var s' := s.(top := top);
    forall i | 0 <= i <= |s.past| ensures RingKept(s, s', i) { }
  }

  lemma KeyShape(s: State)
    requires Shape(s)
    ensures Shape(StoreKey(s)) && IndexKept(s, StoreKey(s))
  {
    var s' := StoreKey(s);
    KeyedCurrent(s.cur, s.num, s.top);
    assert CurrentOk(s'.cur, s'.num, s.top + 1);
    NextNumber(s.cur, s.num, s.top);
    assert s'.num.Keys == s.val.Keys;
    forall i | 0 <= i < |s.past| ensures PastOk(s.past[i], s'.cur, s'.num) {
      KeyedPast(s.past[i], s.cur, s.num, s.top);
    }
    forall i | 0 <= i <= |s.past| ensures RingKept(s, s', i) { }
  }

  lemma KeyStoreKeeps(g: System)
    requires Inv(g) && Enabled(g, KeyStore)
    ensures Inv(Step(g, KeyStore))
  {
    var g' := Step(g, KeyStore);
    KeyShape(g.s);
    KeyHeld(g.s, g.live);
    KeyKnown(g.s, g.live);
    ReadersUntouched(g, g');
  }

  lemma KeyHeld(s: State, live: map<int, Block>)
    requires Shape(s) && HeldOk(s.cur, s.val, live) && UpTo(live, s.top) && SlotIsFree(s)
    ensures HeldOk(StoreKey(s).cur, s.val, live)
  {
    var r' := StoreKey(s).cur;
    AtTurn(s.cur, s.top + 1);
    forall q | q in live ensures HeldAt(r', s.val, q, live[q]) {
      assert HeldAt(s.cur, s.val, q, live[q]) && KeyedAt(s.cur, s.num, q);
      assert At(r', q) == At(s.cur, q);
    }
  }

  lemma KeyKnown(s: State, live: map<int, Block>)
    requires Shape(s) && KnownOk(s.cur, s.val, live, -1)
    ensures KnownOk(StoreKey(s).cur, s.val, live, s.top + 1)
  {
    var r' := StoreKey(s).cur;
    NextNumber(s.cur, s.num, s.top);
    var flight := s.top + 1;
    forall q | r'.low < q <= r'.high && r'.high - Size(r') < q ensures KnownAt(r', s.val, live, flight, q) {
      assert q <= s.cur.high ==> KnownAt(s.cur, s.val, live, -1, q);
      assert At(r', q) == At(s.cur, q);
    }
  }

  lemma TailStoreKeeps(g: System)
    requires Inv(g) && Enabled(g, TailStore)
    ensures Inv(Step(g, TailStore))
  {
    TailShape(g.s, g.s.top + 1);
    ReadersUntouched(g, Step(g, TailStore));
  }

  lemma StoreKeeps(g: System, b: Block)
    requires Inv(g) && Enabled(g, Store(b))
    ensures Inv(Step(g, Store(b)))
  {
    var s, g' := g.s, Step(g, Store(b));
    PutShape(s, s.top, To(b));
    PutHeld(s.cur, s.val, g.live, s.top, To(b));
    PutKnown(s.cur, s.val, g.live, g'.live, s.top, -1, s.top, To(b));
    ReadersUntouched(g, g');
  }

  lemma RewindKeeps(g: System)
    requires Inv(g) && Enabled(g, Rewind)
    ensures Inv(Step(g, Rewind))
  {
    TailShape(g.s, g.s.top - 1);
    ReadersUntouched(g, Step(g, Rewind));
  }

  lemma CleanKeeps(g: System)
    requires Inv(g) && Enabled(g, Clean)
    ensures Inv(Step(g, Clean))
  {
    var s, g' := g.s, Step(g, Clean);
    PutShape(s, s.top + 1, Null);
    PutHeld(s.cur, s.val, g.live, s.top + 1, Null);
    assert g.live - {s.top + 1} == g.live;
    PutKnown(s.cur, s.val, g.live, g.live, s.top + 1, -1, s.top + 1, Null);
    ReadersUntouched(g, g');
  }

  // ---------------------------------------------------------------- doubling

  /** The ring is only doubled when the slot after the tail holds a live block, which is one turn back. */
  lemma FullRing(s: State, live: map<int, Block>)
    requires Shape(s) && KnownOk(s.cur, s.val, live, -1) && UpTo(live, s.top) && !SlotIsFree(s)
    ensures s.top == s.cur.high && s.cur.low <= s.top - Size(s.cur)
  {
    var r := s.cur;
    NextNumber(r, s.num, s.top);
    AtTurn(r, s.top + 1);
    assert s.top < r.high ==> KnownAt(r, s.val, live, -1, s.top + 1);
  }

  lemma GrowKeeps(g: System, index: seq<Entry>, entries: seq<Entry>, garbage: map<Entry, Ref>)
    requires Inv(g) && Enabled(g, Grow(index, entries, garbage))
    ensures Inv(Step(g, Grow(index, entries, garbage)))
  {
    var s, s' := g.s, Grown(g.s, index, entries, garbage);
    FullRing(s, g.live);
    forall q | s'.cur.low < q <= s.top ensures Shared(s.cur, s'.cur, q) { GrownSlots(s.cur, s.top, index, entries, q); }
    GrownRingOk(s.cur, s.num, s.top, index, entries);
    GrownCurrent(s.cur, s.num, s'.num, s.top, index, entries);
    GrownPasts(s, s');
    GrownMap(s, s', g.live);
    GrownIndex(s, s');
    ReadersUntouched(g, Step(g, Grow(index, entries, garbage)));
  }

  lemma GrownIndex(s: State, s': State)
    requires s'.past == s.past + [s.cur] && forall e :: e in s.num ==> e in s'.num && s'.num[e] == s.num[e]
    ensures IndexKept(s, s')
  {
    forall i | 0 <= i <= |s.past| ensures RingKept(s, s', i) { }
  }

  lemma GrownMap(s: State, s': State, live: map<int, Block>)
    requires HeldOk(s.cur, s.val, live) && KnownOk(s.cur, s.val, live, -1) && s.top == s.cur.high
    requires s.cur.low <= s'.cur.low == s.top - Size(s.cur) && s'.cur.high == s.top && Size(s.cur) <= Size(s'.cur)
    requires forall q :: s'.cur.low < q <= s.top ==> Shared(s.cur, s'.cur, q)
    requires forall e :: e in s.val ==> e in s'.val && s'.val[e] == s.val[e]
    ensures HeldOk(s'.cur, s'.val, live) && KnownOk(s'.cur, s'.val, live, -1)
  {
    var r, r' := s.cur, s'.cur;
    forall q | q in live ensures HeldAt(r', s'.val, q, live[q]) {
      assert HeldAt(r, s.val, q, live[q]);
      assert Shared(r, r', q);
    }
    forall q | r'.low < q <= r'.high && r'.high - Size(r') < q ensures KnownAt(r', s'.val, live, -1, q) {
      assert KnownAt(r, s.val, live, -1, q) && Shared(r, r', q);
    }
  }

  // ---------------------------------------------------------------- the undo loop and the consumers' clearing

  lemma StartUndoKeeps(g: System, base: int)
    requires Inv(g) && Enabled(g, StartUndo(base))
    ensures Inv(Step(g, StartUndo(base)))
  {
    var g' := Step(g, StartUndo(base));
    assert base + 1 in g.live && HeldAt(g.s.cur, g.s.val, base + 1, g.live[base + 1]);
    TailShape(g.s, g.s.top);
    forall c | 0 <= c < |g.readers| ensures ClaimKept(g'.live, g'.prod, g.readers[c]) {
      assert ReaderOk(g.s, g.live, g.prod, g.readers[c]);
    }
    ReadersKept(g, g');
  }

  /** An entry is cleared that no reader needs. */
  lemma ClearedKeeps(g: System, g': System, q: int)
    requires Inv(g) && q in g.live && g' == g.(s := Stored(g.s, q, Null), live := g.live - {q}, prod := g'.prod)
    requires Flight(g'.prod, g.s.top) == Flight(g.prod, g.s.top)
    requires g'.prod == g.prod || (g.prod.PUndo? && g'.prod == g.prod.(cleared := true))
    requires forall c :: 0 <= c < |g.readers| ==> !Needs(g.readers[c], q)
    ensures Shape(g'.s) && HeldOk(g'.s.cur, g'.s.val, g'.live)
            && KnownOk(g'.s.cur, g'.s.val, g'.live, Flight(g'.prod, g'.s.top))
    ensures ReadersOk(g'.s, g'.live, g'.prod, g'.readers)
  {
    var s, f := g.s, Flight(g.prod, g.s.top);
    assert HeldAt(s.cur, s.val, q, g.live[q]);
    PutShape(s, q, Null);
    PutHeld(s.cur, s.val, g.live, q, Null);
    PutKnown(s.cur, s.val, g.live, g'.live, f, f, q, Null);
    forall c | 0 <= c < |g.readers| ensures ClaimKept(g'.live, g'.prod, g.readers[c]) {
      assert ReaderOk(g.s, g.live, g.prod, g.readers[c]) && !Needs(g.readers[c], q);
    }
    ReadersKept(g, g');
  }

  lemma UndoClearKeeps(g: System)
    requires Inv(g) && Enabled(g, UndoClear)
    ensures Inv(Step(g, UndoClear))
  {
    var q := g.prod.base + g.prod.j + 1;
    forall c | 0 <= c < |g.readers| ensures !Needs(g.readers[c], q) {
      assert ReaderOk(g.s, g.live, g.prod, g.readers[c]);
    }
    ClearedKeeps(g, Step(g, UndoClear), q);
  }

  lemma UndoTailKeeps(g: System)
    requires Inv(g) && Enabled(g, UndoTail)
    ensures Inv(Step(g, UndoTail))
  {
    TailShape(g.s, g.s.top - 1);
    ReadersUntouched(g, Step(g, UndoTail));
  }

  lemma ClearKeeps(g: System, q: int)
    requires Inv(g) && Enabled(g, Clear(q))
    ensures Inv(Step(g, Clear(q)))
  {
    ClearedKeeps(g, Step(g, Clear(q)), q);
  }

  // ---------------------------------------------------------------- steps of the readers

  lemma ReaderKeeps(g: System, c: nat, r: Reader)
    requires Inv(g) && c < |g.readers| && ReaderOk(g.s, g.live, g.prod, r)
    ensures Inv(ReaderStep(g, c, r))
  {
  }

  /** What a reader claims has been inserted and not taken back. */
  lemma ClaimIsBelowTop(g: System, r: Reader)
    requires Inv(g) && ReaderOk(g.s, g.live, g.prod, r) && !r.RIdle?
    ensures r.last in g.live && r.q in g.live && r.last <= g.s.top && r.last <= g.s.cur.high
  {
    assert HeldAt(g.s.cur, g.s.val, r.last, g.live[r.last]);
  }

  lemma LoadKeeps(g: System, a: Action)
    requires Inv(g) && Enabled(g, a) && (a.LoadHeader? || a.LoadTail? || a.LoadKey?)
    ensures Inv(Step(g, a))
  {
    var r := g.readers[a.c];
    assert ReaderOk(g.s, g.live, g.prod, r);
    ClaimIsBelowTop(g, r);
    match a
    case LoadHeader(c) =>
    case LoadTail(c) => TailIsKeyed(g.s, g.live, r.i, r.q);
    case LoadKey(c) =>
      EntryOfLive(g.s, g.live, r.i, r.q);
      KeyLeadsTo(g.s, r.i, r.t, r.q);
    ReaderKeeps(g, a.c, Step(g, a).readers[a.c]);
  }

  lemma MoveOnKeeps(g: System, a: Action)
    requires Inv(g) && Enabled(g, a) && (a.Claim? || a.Release? || a.Advance?)
    ensures Inv(Step(g, a))
  {
    var r := g.readers[a.c];
    assert ReaderOk(g.s, g.live, g.prod, r);
    if a.Advance? {
      var ring := RingAt(g.s, r.i);
      SlotNext(ring.anchor, Size(ring), r.q - 1);
    }
    ReaderKeeps(g, a.c, Step(g, a).readers[a.c]);
  }

  // ---------------------------------------------------------------- every run

  /** Every store and every load keeps the invariant. */
  lemma StepKeepsInv(g: System, a: Action)
    requires Inv(g) && Enabled(g, a)
    ensures Inv(Step(g, a))
  {
    match a
    case KeyStore => KeyStoreKeeps(g);
    case TailStore => TailStoreKeeps(g);
    case Store(b) => StoreKeeps(g, b);
    case Rewind => RewindKeeps(g);
    case Clean => CleanKeeps(g);
    case Grow(index, entries, garbage) => GrowKeeps(g, index, entries, garbage);
    case StartUndo(base) => StartUndoKeeps(g, base);
    case UndoClear => UndoClearKeeps(g);
    case UndoTail => UndoTailKeeps(g);
    case Clear(q) => ClearKeeps(g, q);
    case LoadHeader(c) => LoadKeeps(g, a);
    case LoadTail(c) => LoadKeeps(g, a);
    case LoadKey(c) => LoadKeeps(g, a);
    case Claim(c, q, last) => MoveOnKeeps(g, a);
    case Release(c) => MoveOnKeeps(g, a);
    case Advance(c) => MoveOnKeeps(g, a);
  }

  /** A new ring of distinct entries, none of which was ever keyed, with the tail before slot 0. */
  ghost predicate Init(g: System) {
    && g.s.past == [] && g.s.top == -1 && g.live == map[] && g.prod.PIdle?
    && RingOk(g.s.cur) && g.s.cur.anchor == 0 && g.s.cur.low == -1 && g.s.cur.high == -1
    && g.s.num.Keys == g.s.val.Keys && (forall i :: 0 <= i < Size(g.s.cur) ==> Unkeyed(g.s, i))
    && forall c :: 0 <= c < |g.readers| ==> g.readers[c].RIdle?
  }

  ghost predicate Unkeyed(s: State, i: nat) {
    i < Size(s.cur) && s.cur.index[i] in s.num && s.num[s.cur.index[i]] == -1
  }

  lemma InitHolds(g: System)
    requires Init(g)
    ensures Inv(g)
  {
    var r := g.s.cur;
    forall q | r.high - Size(r) < q <= r.high ensures KeyedAt(r, g.s.num, q) {
      assert Unkeyed(g.s, Slot(r.anchor, Size(r), q));
    }
  }

  ghost predicate StepAt(run: seq<System>, acts: seq<Action>, i: nat) {
    i < |acts| && i + 1 < |run| && Enabled(run[i], acts[i]) && run[i + 1] == Step(run[i], acts[i])
  }

  ghost predicate Execution(run: seq<System>, acts: seq<Action>) {
    |run| == |acts| + 1 && Init(run[0]) && forall i :: 0 <= i < |acts| ==> StepAt(run, acts, i)
  }

  lemma {:induction false} ExecutionKeepsInv(run: seq<System>, acts: seq<Action>, i: nat)
    requires Execution(run, acts) && i < |run|
    ensures Inv(run[i])
  {
    if i == 0 {
      InitHolds(run[0]);
    } else {
      ExecutionKeepsInv(run, acts, i - 1);
      assert StepAt(run, acts, i - 1);
      StepKeepsInv(run[i - 1], acts[i - 1]);
    }
  }

  /** In every state of every run, a consumer that has looked up a block of its claim holds the entry of just that
      block: keyed with its number and pointing to the block that the map has for it. */
  lemma LookupIsExact(run: seq<System>, acts: seq<Action>, i: nat, c: nat)
    requires Execution(run, acts) && i < |run| && c < |run[i].readers| && run[i].readers[c].RFound?
    ensures var g, r := run[i], run[i].readers[c]; var ring := RingAt(g.s, r.i);
            && r.q in g.live && r.x < Size(ring) && var e := ring.index[r.x];
            && e in g.s.num && g.s.num[e] == r.q && e in g.s.val && g.s.val[e] == To(g.live[r.q])
  {
    ExecutionKeepsInv(run, acts, i);
    var g, r := run[i], run[i].readers[c];
    assert ReaderOk(g.s, g.live, g.prod, r);
    EntryOfLive(g.s, g.live, r.i, r.q);
  }

  // ---------------------------------------------------------------- every lookup gets there

  /** The next step of a consumer that is not idle. */
  ghost function NextOf(r: Reader, c: nat): Action
    requires !r.RIdle?
  {
    match r
    case RStart(_, _) => LoadHeader(c)
    case RHeader(_, _, _) => LoadTail(c)
    case RTail(_, _, _, _) => LoadKey(c)
    case RFound(_, _, _, _) => Release(c)
    case RNext(_, _, _, _) => Advance(c)
  }

  /** How many steps it has at most before it. */
  ghost function ReaderLeft(r: Reader): int {
    match r
    case RIdle => 0
    case RStart(q, last) => 2 * (last - q) + 4
    case RHeader(q, last, _) => 2 * (last - q) + 3
    case RTail(q, last, _, _) => 2 * (last - q) + 2
    case RFound(q, last, _, _) => 2 * (last - q) + 1
    case RNext(q, last, _, _) => 2 * (last - q) + 2
  }

  ghost predicate ByReader(a: Action, c: nat) {
    (a.Claim? || a.LoadHeader? || a.LoadTail? || a.LoadKey? || a.Release? || a.Advance?) && a.c == c
  }

  /** A consumer can always make its next step, and each step brings it nearer to the end of its claim; it finds the
      blocks of the claim one after the other. */
  lemma ReaderAdvances(g: System, c: nat)
    requires Inv(g) && c < |g.readers| && !g.readers[c].RIdle?
    ensures Enabled(g, NextOf(g.readers[c], c))
    ensures var r, r' := g.readers[c], Step(g, NextOf(g.readers[c], c)).readers[c];
            && ReaderLeft(r') < ReaderLeft(r)
            && (r'.RIdle? ==> r.RFound? && r.q == r.last)
            && (!r'.RIdle? ==> r'.last == r.last && r'.q == if r.RFound? then r.q + 1 else r.q)
  {
    var r := g.readers[c];
    assert ReaderOk(g.s, g.live, g.prod, r);
    ClaimIsBelowTop(g, r);
    assert HeldAt(g.s.cur, g.s.val, r.q, g.live[r.q]);
  }

  /** Only its own steps move a consumer. */
  lemma OthersLeaveReader(g: System, a: Action, c: nat)
    requires Enabled(g, a) && c < |g.readers| && !g.readers[c].RIdle?
    ensures c < |Step(g, a).readers|
    ensures if ByReader(a, c) then a == NextOf(g.readers[c], c) else Step(g, a).readers[c] == g.readers[c]
  {
  }

  ghost predicate Found(run: seq<System>, i: nat, j: nat, c: nat, x: int) {
    exists m :: i < m <= j && m < |run| && FoundAt(run, m, c, x)
  }

  ghost predicate FoundAt(run: seq<System>, m: nat, c: nat, x: int) {
    m < |run| && c < |run[m].readers| && run[m].readers[c].RFound? && run[m].readers[c].q == x
  }

  /** How many blocks of its claim from `q` on a consumer has found. */
  ghost function FoundUpTo(r: Reader, last: int): int {
    match r
    case RIdle => last + 1
    case RFound(q, _, _, _) => q + 1
    case _ => r.q
  }

  lemma FoundLater(run: seq<System>, i: nat, j: nat, c: nat, x: int)
    requires Found(run, i, j, c, x)
    ensures Found(run, i, j + 1, c, x)
  {
    var m :| i < m <= j && m < |run| && FoundAt(run, m, c, x);
  }

  ghost predicate Reading(run: seq<System>, m: nat, c: nat) {
    m < |run| && c < |run[m].readers| && !run[m].readers[c].RIdle?
  }

  lemma ReaderNext(g: System, a: Action, c: nat, last: int)
    requires Inv(g) && Enabled(g, a) && c < |g.readers| && !g.readers[c].RIdle? && g.readers[c].last == last
    ensures c < |Step(g, a).readers| && var r, r' := g.readers[c], Step(g, a).readers[c];
            && (!r'.RIdle? ==> r'.last == last)
            && (|| FoundUpTo(r', last) == FoundUpTo(r, last)
                || (r'.RFound? && FoundUpTo(r', last) == r'.q + 1 && r'.q == FoundUpTo(r, last)))
  {
    OthersLeaveReader(g, a, c);
    if ByReader(a, c) { ReaderAdvances(g, c); }
  }

  /** By the time a consumer is done with a claim it has found every block of it. */
  lemma {:induction false} FindsEveryBlock(run: seq<System>, acts: seq<Action>, i: nat, j: nat, c: nat, q: int,
                                           last: int)
    requires Execution(run, acts) && i < j < |run| && acts[i] == Claim(c, q, last)
    requires forall m :: i < m < j ==> Reading(run, m, c)
    ensures c < |run[j].readers| && var r := run[j].readers[c];
            && (!r.RIdle? ==> r.last == last)
            && forall x :: q <= x < FoundUpTo(r, last) ==> Found(run, i, j, c, x)
    decreases j
  {
    assert StepAt(run, acts, j - 1);
    if j > i + 1 {
      assert Reading(run, j - 1, c);
      FindsEveryBlock(run, acts, i, j - 1, c, q, last);
      ExecutionKeepsInv(run, acts, j - 1);
      ReaderNext(run[j - 1], acts[j - 1], c, last);
      var r, r' := run[j - 1].readers[c], run[j].readers[c];
      forall x | q <= x < FoundUpTo(r', last) ensures Found(run, i, j, c, x) {
        if x < FoundUpTo(r, last) { FoundLater(run, i, j - 1, c, x); } else { assert FoundAt(run, j, c, x); }
      }
    }
  }

  // ---------------------------------------------------------------- what the producer gets done

  /** The three stores of an insertion add the next number, with its block, to the map. */
  lemma InsertionAdds(g: System, b: Block)
    requires Inv(g) && g.prod.PIdle? && SlotIsFree(g.s)
    ensures Enabled(g, KeyStore) && Enabled(Step(g, KeyStore), TailStore)
    ensures var g2 := Step(Step(g, KeyStore), TailStore);
            && Enabled(g2, Store(b)) && g.s.top + 1 !in g.live && var g3 := Step(g2, Store(b));
            && g3.live == g.live[g.s.top + 1 := b] && g3.s.top == g.s.top + 1 && g3.prod.PIdle?
               && g3.readers == g.readers
  {
  }

  /** Taken back after the tail was stored, it leaves map and tail as they were. */
  lemma InsertionTakenBack(g: System)
    requires Inv(g) && g.prod.PIdle? && SlotIsFree(g.s)
    ensures Enabled(g, KeyStore) && Enabled(Step(g, KeyStore), TailStore)
    ensures var g2 := Step(Step(g, KeyStore), TailStore);
            && Enabled(g2, Rewind) && Enabled(Step(g2, Rewind), Clean) && var g4 := Step(Step(g2, Rewind), Clean);
            g4.live == g.live && g4.s.top == g.s.top && g4.prod.PIdle? && g4.readers == g.readers
  {
  }

  /** Doubling makes the slot after the tail usable and leaves the map alone. */
  lemma DoublingFrees(g: System, index: seq<Entry>, entries: seq<Entry>, garbage: map<Entry, Ref>)
    requires Inv(g) && Enabled(g, Grow(index, entries, garbage))
    ensures var g' := Step(g, Grow(index, entries, garbage));
            SlotIsFree(g'.s) && g'.live == g.live && g'.s.top == g.s.top && g'.prod.PIdle?
              && Size(g'.s.cur) == 2 * Size(g.s.cur)
  {
    var a := Grow(index, entries, garbage);
    GrowKeeps(g, index, entries, garbage);
    var s, s' := g.s, Step(g, a).s;
    FullRing(s, g.live);
    NextNumber(s'.cur, s'.num, s'.top);
  }

  /** The undo loop from turn `j` on, running alone. */
  ghost function UndoRest(g: System): System
    requires Inv(g)
    decreases if g.prod.PUndo? then g.prod.end - g.prod.base - g.prod.j else 0
  {
    if !g.prod.PUndo? || g.prod.cleared || g.prod.base + g.prod.j >= g.prod.end then g
    else
      UndoClearKeeps(g);
      UndoTailKeeps(Step(g, UndoClear));
      UndoRest(Step(Step(g, UndoClear), UndoTail))
  }

  ghost function Below(live: map<int, Block>, base: int): map<int, Block> { map q | q in live && q <= base :: live[q] }

  /** It ends with exactly the blocks up to `base` in the map and the tail at `base`. */
  lemma {:induction false} UndoEnds(g: System)
    requires Inv(g) && g.prod.PUndo? && !g.prod.cleared
    ensures var g' := UndoRest(g);
            g'.prod.PIdle? && g'.live == Below(g.live, g.prod.base) && g'.s.top == g.prod.base
              && g'.readers == g.readers
    decreases g.prod.end - g.prod.base - g.prod.j
  {
    UndoClearKeeps(g);
    var g1 := Step(g, UndoClear);
    UndoTailKeeps(g1);
    var g2 := Step(g1, UndoTail);
    assert Below(g2.live, g.prod.base) == Below(g.live, g.prod.base);
    if g2.prod.PUndo? {
      UndoEnds(g2);
    } else {
      assert Below(g2.live, g.prod.base) == g2.live;
    }
  }

  /** What each step does to the map: a store adds the newest number, clearing removes the number cleared, and nothing
      else changes it. */
  lemma MapSteps(g: System, a: Action)
    requires Inv(g) && Enabled(g, a)
    ensures var live' := Step(g, a).live;
            match a
            case Store(b) => g.s.top !in g.live && live' == g.live[g.s.top := b]
            case UndoClear =>
              g.prod.base + g.prod.j + 1 in g.live && live' == g.live - {g.prod.base + g.prod.j + 1}
            case Clear(q) => q in g.live && live' == g.live - {q}
            case _ => live' == g.live
  {
  }

  /** Any published blocks can be claimed by a consumer that is idle, and any block that nobody needs can be cleared,
      whatever the producer is doing. */
  lemma ConsumersAreNotHeldUp(g: System, c: nat, q: int, last: int)
    requires Inv(g) && AllLive(g.live, q, last) && q <= last && Published(g.prod, last)
    ensures c < |g.readers| && g.readers[c].RIdle? ==>
              Enabled(g, Claim(c, q, last)) && Step(g, Claim(c, q, last)).readers[c] == RStart(q, last)
    ensures (forall e :: 0 <= e < |g.readers| ==> !Needs(g.readers[e], q)) ==>
              Enabled(g, Clear(q)) && q !in Step(g, Clear(q)).live
  {
  }
}
