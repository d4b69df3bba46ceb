/** The ticket protocol on the 64-bit counters of the source.

    All counters wrap around, subtraction is modulo 2^64 and comparison is `circular_less_than`.  As long
    as the distances that are compared stay below 2^63 in both directions the wrapped protocol is exactly
    the image of the unbounded one, for any length of run. */
module WrappedTickets {
  import opened Tickets
  import RingArithmetic

  const M: int := 0x1_0000_0000_0000_0000
  const HALF: int := 0x8000_0000_0000_0000

  function W(x: int): (r: nat)
    ensures r < M
  {
    x % M
  }

  /** `details::circular_less_than` on 64-bit words. */
  predicate CircularLessThan(a: nat, b: nat) { W(a - b) > HALF }

  function WrapPc(pc: Pc): Pc {
    match pc
    case Idle => Idle
    case Tail(max, t) => Tail(max, W(t))
    case Over(max, t, v) => Over(max, W(t), W(v))
    case Take(d, v) => Take(d, W(v))
    case Taken(d, v, my) => Taken(d, W(v), W(my))
    case Fix(fail, a) => Fix(fail, a)
    case Claim(a) => Claim(a)
    case Claimed(first, a) => Claimed(W(first), a)
  }

  function Wrap(s: State): State {
    State(W(s.tail), W(s.head), W(s.opt), W(s.over), seq(|s.pcs|, c requires 0 <= c < |s.pcs| => WrapPc(s.pcs[c])))
  }

  /** The first test of `dequeue_bulk`; for `max == 1` it is the test of `dequeue`. */
  function WrappedWanted(max: nat, t: nat, v: nat, opt: nat): Pc {
    var desired := W(t - W(opt - v));
    if CircularLessThan(0, desired) then Take(if desired < max then desired else max, v) else Idle
  }

  function WrappedDecide(d: nat, v: nat, my: nat, t: nat): Pc {
    var actual := W(t - W(my - v));
    if CircularLessThan(0, actual) then
      var a := if d < actual then d else actual;
      if a < d then Fix(d - a, a) else Claim(a)
    else Fix(d, 0)
  }

  predicate Callable(s: State, a: Action) {
    && (a.Call? || a.Run? || a.Release? ==> a.c < |s.pcs|)
    && (a.Run? ==> !s.pcs[a.c].Idle? && !s.pcs[a.c].Claimed?)
  }

  function WrappedStep(s: State, a: Action): State
    requires Callable(s, a)
  {
    match a
    case Publish(n) => s.(tail := W(s.tail + n))
    case Call(c, max, seen) => Goto(s, c, Tail(max, W(seen)))
    case Release(c) => Goto(s, c, Idle)
    case Run(c, seen) =>
      match s.pcs[c]
      case Tail(max, t) => Goto(s, c, Over(max, t, W(seen)))
      case Over(max, t, v) => Goto(s, c, WrappedWanted(max, t, v, W(seen)))
      case Take(d, v) => Goto(s.(opt := W(s.opt + d)), c, Taken(d, v, s.opt))
      case Taken(d, v, my) => Goto(s, c, WrappedDecide(d, v, my, W(seen)))
      case Fix(fail, a) => Goto(s.(over := W(s.over + fail)), c, if a == 0 then Idle else Claim(a))
      case Claim(a) => Goto(s.(head := W(s.head + a)), c, Claimed(s.head, a))
  }

  predicate Near(x: int) { -HALF <= x < HALF }

  /** The two comparisons of the step are between counters less than 2^63 apart. */
  predicate StepNear(s: State, a: Action)
    requires Enabled(s, a)
  {
    && (a.Run? && s.pcs[a.c].Over? ==> Near(s.pcs[a.c].t - (a.seen - s.pcs[a.c].v)))
    && (a.Run? && s.pcs[a.c].Taken? ==> Near(a.seen - (s.pcs[a.c].my - s.pcs[a.c].v)))
  }

  lemma WrapSub(x: int, y: int)
    ensures W(W(x) - W(y)) == W(x - y) && W(W(x) - y) == W(x - y) && W(x - W(y)) == W(x - y)
    ensures W(W(x) + y) == W(x + y)
  {
    RingArithmetic.ModDifference(x, y, M);
    RingArithmetic.ModAdd(x, -y, M);
    RingArithmetic.ModAdd(x, 0 - W(y) as int, M);
    RingArithmetic.ModAdd(x, y, M);
  }

  lemma WrapNeg(x: int)
    ensures W(-x) == if W(x) == 0 then 0 else M - W(x)
  {
  }

  lemma WrapNear(x: int)
    requires Near(x)
    ensures W(x) == if x < 0 then x + M else x
  {
  }

  /** Exactly when the circular comparison is the true one. */
  lemma CircularLessThanIs(a: int, b: int)
    ensures CircularLessThan(W(a), W(b)) <==> 0 < W(b - a) < HALF
    ensures Near(b - a) ==> (CircularLessThan(W(a), W(b)) <==> a < b)
  {
    WrapSub(a, b);
    assert a - b == -(b - a);
    WrapNeg(b - a);
    if Near(b - a) { WrapNear(b - a); }
  }

  lemma WantedWraps(max: nat, t: nat, v: nat, opt: nat)
    requires Near(t - (opt - v))
    ensures WrappedWanted(max, W(t), W(v), W(opt)) == WrapPc(Wanted(max, t, v, opt))
  {
    WrapSub(opt, v);
    WrapSub(t, opt - v);
    CircularLessThanIs(0, t - (opt - v));
    WrapNear(t - (opt - v));
  }

  lemma DecideWraps(d: nat, v: nat, my: nat, t: nat)
    requires Near(t - (my - v))
    ensures WrappedDecide(d, W(v), W(my), W(t)) == WrapPc(Decide(d, v, my, t))
  {
    WrapSub(my, v);
    WrapSub(t, my - v);
    CircularLessThanIs(0, t - (my - v));
    WrapNear(t - (my - v));
  }

  /** The test of `enqueue` and `enqueue_bulk` for a sub-queue that has no room for another block. */
  predicate WrappedFull(head: nat, tail: nat) { !CircularLessThan(head, W(tail + 32)) }

  /** The enqueue decision: with the head at or behind the tail, and less than 2^63 - 32 elements between them, there is
      always room; beyond that the wrapped test refuses although the unbounded one would not. */
  lemma FullWraps(head: nat, tail: nat)
    requires head <= tail
    ensures WrappedFull(W(head), W(tail)) <==> !(0 < (tail + 32 - head) % M < HALF)
    ensures tail - head < HALF - 32 ==> !WrappedFull(W(head), W(tail))
  {
    CircularLessThanIs(head, tail + 32);
    WrapSub(tail, -32);
    if tail - head < HALF - 32 { WrapNear(tail + 32 - head); }
  }

  lemma WrapGoto(s: State, c: nat, pc: Pc)
    requires c < |s.pcs|
    ensures Wrap(Goto(s, c, pc)) == Goto(Wrap(s), c, WrapPc(pc))
  {
    assert Wrap(Goto(s, c, pc)).pcs == Wrap(s).pcs[c := WrapPc(pc)];
  }

  /** One step: the wrapped protocol makes the same decision, on the image of the state. */
  lemma StepWraps(s: State, a: Action)
    requires Enabled(s, a) && StepNear(s, a)
    ensures WrappedStep(Wrap(s), a) == Wrap(Step(s, a))
  {
    match a
    case Publish(n) =>
      WrapSub(s.tail, n);
    case Call(c, max, seen) => WrapGoto(s, c, Tail(max, seen));
    case Release(c) => WrapGoto(s, c, Idle);
    case Run(c, seen) =>
      match s.pcs[c]
      case Tail(max, t) => WrapGoto(s, c, Over(max, t, seen));
      case Over(max, t, v) =>
        WantedWraps(max, t, v, seen);
        WrapGoto(s, c, Wanted(max, t, v, seen));
      case Take(d, v) =>
        WrapSub(s.opt, d);
        WrapGoto(s.(opt := s.opt + d), c, Taken(d, v, s.opt));
      case Taken(d, v, my) =>
        DecideWraps(d, v, my, seen);
        WrapGoto(s, c, Decide(d, v, my, seen));
      case Fix(fail, a') =>
        WrapSub(s.over, fail);
        WrapGoto(s.(over := s.over + fail), c, if a' == 0 then Idle else Claim(a'));
      case Claim(a') =>
        WrapSub(s.head, a');
        WrapGoto(s.(head := s.head + a'), c, Claimed(s.head, a'));
  }

  /** Whole runs: the states of the 64-bit protocol are the images of the states of the unbounded one. */
  lemma {:induction false} ExecutionWraps(run: seq<State>, acts: seq<Action>, wrapped: seq<State>, i: nat)
    requires Execution(run, acts) && |wrapped| == |run| && i < |run| && wrapped[0] == run[0]
    requires forall k :: 0 <= k < |acts| ==> StepNear(run[k], acts[k])
    requires forall k :: 0 <= k < |acts| ==> Callable(wrapped[k],
                                                      acts[k]) && wrapped[k + 1] == WrappedStep(wrapped[k], acts[k])
    ensures wrapped[i] == Wrap(run[i])
  {
    if i == 0 {
      assert wrapped[0].pcs == Wrap(run[0]).pcs;
    } else {
      ExecutionWraps(run, acts, wrapped, i - 1);
      StepWraps(run[i - 1], acts[i - 1]);
    }
  }
}
