/** Arithmetic of positions in a ring whose size is a power of two. */
module RingArithmetic {

  const WRAP: nat := 0x1_0000_0000_0000_0000
  const BLOCK: nat := 32
  /** WRAP / BLOCK, that is 2^59. */
  const MAX_CAPACITY: nat := 0x800_0000_0000_0000

  function Pow2(k: nat): (r: nat)
    ensures r > 0
  {
    if k == 0 then 1 else 2 * Pow2(k - 1)
  }

  lemma {:induction false} Pow2Splits(j: nat, k: nat)
    requires j <= k
    ensures Pow2(k) == Pow2(j) * Pow2(k - j)
  {
    if j < k {
      Pow2Splits(j, k - 1);
      assert Pow2(k) == 2 * (Pow2(j) * Pow2(k - 1 - j)) == Pow2(j) * (2 * Pow2(k - 1 - j));
    } else {
      assert Pow2(0) == 1;
    }
  }

  lemma Pow2OfLimit(m: nat)
    requires m == 59
    ensures Pow2(m) == MAX_CAPACITY
  {
    assert Pow2(10) == 0x400 && Pow2(9) == 0x200;
    Pow2Splits(10, 19);
    Pow2Splits(10, 20);
    Pow2Splits(20, 40);
    Pow2Splits(40, 59);
  }

  lemma {:induction false} Pow2Monotone(j: nat, k: nat)
    requires j <= k
    ensures Pow2(j) <= Pow2(k)
  {
    if j < k { Pow2Monotone(j, k - 1); }
  }

  /** A capacity within the limit has an exponent within the limit. */
  lemma ExponentWithinLimit(k: nat)
    requires Pow2(k) <= MAX_CAPACITY
    ensures k <= 59
  {
    var m: nat := 59;
    Pow2OfLimit(m);
    if k > m {
      Pow2Monotone(m + 1, k);
    }
  }

  /** A multiple of `c` smaller than `c` in size is zero. */
  lemma SmallMultiple(c: int, d: int)
    requires -c < c * d < c
    ensures d == 0
  {
    assert d >= 1 ==> c * d >= c;
    assert d <= -1 ==> c * d <= -c;
  }

  lemma ModUnique(x: int, c: nat, m: int, r: nat)
    requires c > 0 && x == m * c + r && r < c
    ensures x % c == r
  {
    var d := x / c - m;
    assert c * d == r - x % c by { assert c * d == c * (x / c) - c * m; }
    SmallMultiple(c, d);
  }

  /** Adding whole turns of the ring does not move the position. */
  lemma ModTurns(x: int, c: nat, m: int)
    requires c > 0
    ensures (x + m * c) % c == x % c
  {
    assert x + m * c == (x / c + m) * c + x % c by { assert (x / c + m) * c == c * (x / c) + m * c; }
    ModUnique(x + m * c, c, x / c + m, x % c);
  }

  /** Reducing an argument first changes nothing. */
  lemma ModAdd(x: int, y: int, c: nat)
    requires c > 0
    ensures (x % c + y) % c == (x + y) % c
  {
    assert x % c + y == (x + y) + (-(x / c)) * c by { assert (-(x / c)) * c == -(c * (x / c)); }
    ModTurns(x + y, c, -(x / c));
  }

  /** Numbers less than a turn apart with the same position are equal. */
  lemma ModSame(x: int, y: int, c: nat)
    requires c > 0 && x < y + c && y < x + c && x % c == y % c
    ensures x == y
  {
    var d := y / c - x / c;
    assert c * d == y - x by { assert c * d == c * (y / c) - c * (x / c); }
    SmallMultiple(c, d);
  }

  /** Reducing modulo a multiple of the ring's size first changes nothing. */
  lemma ModOfMultiple(x: int, n: nat, c: nat)
    requires c > 0 && n > 0
    ensures n * c > 0 && x % (n * c) % c == x % c
  {
    var w := n * c;
    assert w >= c by { assert (n - 1) * c >= 0; }
    assert x % w == x + (-(x / w) * n) * c by {
      assert x == w * (x / w) + x % w;
      assert (-(x / w) * n) * c == -(x / w) * (n * c);
    }
    ModTurns(x, c, -(x / w) * n);
  }

  /** `x` reduced into the ring one turn at a time. */
  function Turned(x: int, c: nat): (r: nat)
    requires c > 0
    ensures r < c
    decreases if x < 0 then 1 else 0, if x < 0 then -x else x
  {
    if x < 0 then Turned(x + c, c) else if x < c then x else Turned(x - c, c)
  }

  lemma {:induction false} TurnedIsMod(x: int, c: nat)
    requires c > 0
    ensures Turned(x, c) == x % c
    decreases if x < 0 then 1 else 0, if x < 0 then -x else x
  {
    if x < 0 {
      TurnedIsMod(x + c, c);
      ModTurns(x, c, 1);
    } else if x < c {
      ModUnique(x, c, 0, x);
    } else {
      TurnedIsMod(x - c, c);
      ModTurns(x, c, -1);
    }
  }

  /** The position of number `q` in a ring of size `c` where number 0 sits at `anchor`. */
  ghost function Slot(anchor: int, c: nat, q: int): (r: nat)
    requires c > 0
    ensures r < c
  {
    Turned(anchor + q, c)
  }

  lemma SlotIs(anchor: int, c: nat, q: int)
    requires c > 0
    ensures Slot(anchor, c, q) == (anchor + q) % c
  {
    TurnedIsMod(anchor + q, c);
  }

  lemma SlotUnique(anchor: int, c: nat, q: int, m: int, r: nat)
    requires c > 0 && anchor + q == m * c + r && r < c
    ensures Slot(anchor, c, q) == r
  {
    SlotIs(anchor, c, q);
    ModUnique(anchor + q, c, m, r);
  }

  lemma SlotNext(anchor: int, c: nat, q: int)
    requires c > 0
    ensures (Slot(anchor, c, q) + 1) % c == Slot(anchor, c, q + 1)
    ensures (Slot(anchor, c, q) - 1) % c == Slot(anchor, c, q - 1)
  {
    SlotIs(anchor, c, q);
    SlotIs(anchor, c, q + 1);
    SlotIs(anchor, c, q - 1);
    ModAdd(anchor + q, 1, c);
    ModAdd(anchor + q, -1, c);
  }

  lemma SlotInjective(anchor: int, c: nat, q: int, r: int)
    requires c > 0 && q < r + c && r < q + c
    ensures Slot(anchor, c, q) == Slot(anchor, c, r) ==> q == r
  {
    SlotIs(anchor, c, q);
    SlotIs(anchor, c, r);
    if Slot(anchor, c, q) == Slot(anchor, c, r) { ModSame(anchor + q, anchor + r, c); }
  }

  lemma SlotTurn(anchor: int, c: nat, q: int)
    requires c > 0
    ensures Slot(anchor, c, q - c) == Slot(anchor, c, q)
  {
    SlotIs(anchor, c, q);
    SlotIs(anchor, c, q - c);
    ModTurns(anchor + q, c, -1);
    assert anchor + q + -1 * c == anchor + (q - c);
  }

  /** A turn of a larger ring is several turns of a smaller one. */
  lemma SlotWholeTurns(anchor: int, j: nat, k: nat, q: int)
    requires j <= k
    ensures Slot(anchor, Pow2(j), q - Pow2(k)) == Slot(anchor, Pow2(j), q)
  {
    SlotIs(anchor, Pow2(j), q);
    SlotIs(anchor, Pow2(j), q - Pow2(k));
    Pow2Splits(j, k);
    var m := Pow2(k - j);
    assert (-m) * Pow2(j) == -(Pow2(j) * m);
    ModTurns(anchor + q, Pow2(j), -m);
  }

  /** Every position is that of some number of a window of one turn. */
  lemma SlotHit(anchor: int, c: nat, high: int, s: nat) returns (q: int)
    requires c > 0 && s < c
    ensures high - c < q <= high && Slot(anchor, c, q) == s
  {
    var h := Slot(anchor, c, high);
    SlotIs(anchor, c, high);
    if h >= s {
      q := high - (h - s);
      ModAdd(anchor + high, s - h, c);
      ModUnique(h + (s - h), c, 0, s);
    } else {
      q := high - (h - s + c);
      ModAdd(anchor + high, s - h - c, c);
      ModUnique(h + (s - h - c), c, -1, s);
    }
    SlotIs(anchor, c, q);
  }

  /** The 64-bit base index of block number `q`, which may be -1. */
  ghost function Base(q: int): int
    decreases if q < 0 then -q else q
  {
    if q == 0 then 0
    else if q > 0 then (var p := Base(q - 1) + BLOCK; if p >= WRAP then p - WRAP else p)
    else (var p := Base(q + 1); if p < BLOCK then p + WRAP - BLOCK else p - BLOCK)
  }

  lemma {:induction false} BaseIs(q: int)
    ensures Base(q) == q * BLOCK % WRAP
    decreases if q < 0 then -q else q
  {
    BaseNeighbours(q * BLOCK);
    if q > 0 { BaseIs(q - 1); } else if q < 0 { BaseIs(q + 1); }
  }

  lemma BaseNeighbours(x: int)
    ensures x % WRAP == if (x - BLOCK) % WRAP + BLOCK >= WRAP then (x - BLOCK) % WRAP + BLOCK - WRAP
            else (x - BLOCK) % WRAP + BLOCK
    ensures x % WRAP == if (x + BLOCK) % WRAP < BLOCK then (x + BLOCK) % WRAP + WRAP - BLOCK
            else (x + BLOCK) % WRAP - BLOCK
  {
  }

  lemma {:induction false} BaseIsMultiple(q: int)
    ensures 0 <= Base(q) < WRAP && Base(q) % BLOCK == 0
    decreases if q < 0 then -q else q
  {
    if q > 0 { BaseIsMultiple(q - 1); } else if q < 0 { BaseIsMultiple(q + 1); }
  }

  lemma BaseNext(q: int)
    ensures (Base(q) + BLOCK) % WRAP == Base(q + 1)
  {
    BaseIs(q);
    BaseIs(q + 1);
    ModAdd(q * BLOCK, BLOCK, WRAP);
  }

  /** Rounding down to a multiple of 32 commutes with wrapping. */
  lemma RoundWrapped(x: int)
    ensures x % WRAP - x % WRAP % BLOCK == Base(x / BLOCK)
  {
    BaseIs(x / BLOCK);
    RoundModulo(x);
  }

  lemma RoundModulo(x: int)
    ensures x % WRAP - x % WRAP % BLOCK == x / BLOCK * BLOCK % WRAP
  {
    var r := x % WRAP;
    assert x == x / WRAP * WRAP + r;
    assert x / BLOCK * BLOCK == x / WRAP * WRAP + (r - r % BLOCK);
    ModUnique(x / BLOCK * BLOCK, WRAP, x / WRAP, r - r % BLOCK);
  }

  /** `get_block_index_index_for_index`: the difference of the bases is divided as an unsigned number, then
      added to the tail modulo 2^64 and masked with capacity - 1. */
  function LookupSlot(base: int, tail: nat, tailBase: int, c: nat): nat
    requires c > 0
  {
    (tail + (base - tailBase) % WRAP / BLOCK) % WRAP % c
  }

  lemma BaseDifference(q: int, t: int)
    ensures (Base(q) - Base(t)) % WRAP == (q - t) % MAX_CAPACITY * BLOCK
  {
    BaseIs(q);
    BaseIs(t);
    ModDifference(q * BLOCK, t * BLOCK, WRAP);
    BlocksModulo(q - t);
    assert q * BLOCK - t * BLOCK == (q - t) * BLOCK;
  }

  lemma ModDifference(x: int, y: int, c: nat)
    requires c > 0
    ensures (x % c - y % c) % c == (x - y) % c
  {
    ModAdd(x, -(y % c), c);
    assert x - y % c == (x - y) + (y / c) * c by { assert y == c * (y / c) + y % c; }
    ModTurns(x - y, c, y / c);
  }

  lemma BlocksModulo(d: int)
    ensures d * BLOCK % WRAP == d % MAX_CAPACITY * BLOCK
  {
    ModUnique(d * BLOCK, WRAP, d / MAX_CAPACITY, d % MAX_CAPACITY * BLOCK);
  }

  /** A power of two up to 2^59 divides both the limit and the word size. */
  lemma CapacityDivides(k: nat, m: nat) returns (n: nat)
    requires k <= m == 59
    ensures n > 0 && n * Pow2(k) == MAX_CAPACITY
  {
    n := Pow2(m - k);
    Pow2OfLimit(m);
    Pow2Splits(k, m);
  }

  /** Distances may be reduced modulo 2^59, and sums modulo 2^64, without moving in the ring. */
  lemma WordArithmeticKeepsSlot(s: nat, d: int, k: nat)
    requires k <= 59
    ensures (s + d % MAX_CAPACITY) % WRAP % Pow2(k) == (s + d) % Pow2(k)
  {
    var c, x := Pow2(k), d % MAX_CAPACITY;
    var n := CapacityDivides(k, 59);
    WordSumKeepsSlot(s + x, n, c);
    ModAdd(x, s, c);
    ModOfMultiple(d, n, c);
    ModAdd(d, s, c);
  }

  lemma WordSumKeepsSlot(x: nat, n: nat, c: nat)
    requires c > 0 && n > 0 && n * c == MAX_CAPACITY
    ensures x % WRAP % c == x % c
  {
    assert 32 * n * c == WRAP;
    ModOfMultiple(x, 32 * n, c);
  }

  /** Despite the unsigned division, and across the wrap of 2^64, the lookup lands on the slot of `q`,
      whichever keyed slot it starts from; for capacities that are powers of two up to 2^59. */
  lemma LookupFindsSlot(anchor: int, k: nat, q: int, t: int)
    requires k <= 59
    ensures LookupSlot(Base(q), Slot(anchor, Pow2(k), t), Base(t), Pow2(k)) == Slot(anchor, Pow2(k), q)
  {
    SlotIs(anchor, Pow2(k), q);
    SlotIs(anchor, Pow2(k), t);
    BaseDifference(q, t);
    WordArithmeticKeepsSlot(Slot(anchor, Pow2(k), t), q - t, k);
    ModAdd(anchor + t, q - t, Pow2(k));
  }
}
