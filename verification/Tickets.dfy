/** The optimistic dequeue tickets of one sub-queue, one atomic operation per step.

    A consumer first takes tickets from `dequeueOptimisticCount`, then learns from the tail how many of
    them are good, gives the others back through `dequeueOvercommit`, and claims elements with
    `headIndex`.  A single `dequeue` is the bulk operation with `max == 1`.  Every load may return an
    older value of its variable.  Counters are unbounded here; the module WrappedTickets runs the same
    steps modulo 2^64. */
module Tickets {

  datatype Pc =
    | Idle
    | Tail(max: nat, t: nat)                  // the tail has been loaded
    | Over(max: nat, t: nat, v: nat)          // and the overcommit
    | Take(d: nat, v: nat)                    // about to take d tickets
    | Taken(d: nat, v: nat, my: nat)          // holds tickets my .. my + d
    | Fix(fail: nat, a: nat)                  // about to return `fail` tickets, then claim `a` elements
    | Claim(a: nat)                           // about to advance the head
    | Claimed(first: nat, a: nat)             // owns the elements first .. first + a

  datatype State = State(tail: nat, head: nat, opt: nat, over: nat, pcs: seq<Pc>)

  /** `seen` is the value returned by the load of the step, if it has one. */
  datatype Action = Publish(n: nat) | Call(c: nat, max: nat, seen: nat) | Run(c: nat, seen: nat) | Release(c: nat)

  predicate Enabled(s: State, a: Action) {
    match a
    case Publish(n) => true
    case Call(c, max, seen) => c < |s.pcs| && s.pcs[c].Idle? && seen <= s.tail
    case Release(c) => c < |s.pcs| && s.pcs[c].Claimed?
    case Run(c, seen) =>
      c < |s.pcs| &&
      match s.pcs[c]
      case Idle => false
      case Claimed(_, _) => false
      case Tail(_, _) => seen <= s.over
      case Over(_, _, _) => seen <= s.opt
      case Taken(_, _, _) => seen <= s.tail
      case _ => true
  }

  function Goto(s: State, c: nat, pc: Pc): State
    requires c < |s.pcs|
  {
    s.(pcs := s.pcs[c := pc])
  }

  function Min(a: int, b: int): int { if a < b then a else b }

  /** The first, optimistic test: how many tickets to ask for. */
  function Wanted(max: nat, t: nat, v: nat, opt: nat): Pc {
    if t - (opt - v) > 0 then Take(Min(t - (opt - v), max), v) else Idle
  }

  /** The second test, made with the tickets in hand. */
  function Decide(d: nat, v: nat, my: nat, t: nat): Pc {
    if t - (my - v) > 0 then
      var a := Min(d, t - (my - v));
      if a < d then Fix(d - a, a) else Claim(a)
    else Fix(d, 0)
  }

  function Step(s: State, a: Action): State
    requires Enabled(s, a)
  {
    match a
    case Publish(n) => s.(tail := s.tail + n)
    case Call(c, max, seen) => Goto(s, c, Tail(max, seen))
    case Release(c) => Goto(s, c, Idle)
    case Run(c, seen) =>
      match s.pcs[c]
      case Tail(max, t) => Goto(s, c, Over(max, t, seen))
      case Over(max, t, v) => Goto(s, c, Wanted(max, t, v, seen))
      case Take(d, v) => Goto(s.(opt := s.opt + d), c, Taken(d, v, s.opt))
      case Taken(d, v, my) => Goto(s, c, Decide(d, v, my, seen))
      case Fix(fail, a) => Goto(s.(over := s.over + fail), c, if a == 0 then Idle else Claim(a))
      case Claim(a) => Goto(s.(head := s.head + a), c, Claimed(s.head, a))
  }

  predicate Init(s: State) {
    s == State(0, 0, 0, 0, s.pcs) && forall c :: 0 <= c < |s.pcs| ==> s.pcs[c].Idle?
  }

  // ---------------------------------------------------------------------------------------------
  // The invariant

  /** What became of a ticket; an open one belongs to one consumer. */
  datatype Verdict = Open(c: nat) | Good | Bad

  function Goods(w: seq<Verdict>): nat {
    if w == [] then 0 else Goods(w[..|w| - 1]) + (if w[|w| - 1].Good? then 1 else 0)
  }

  function Bads(w: seq<Verdict>): nat {
    if w == [] then 0 else Bads(w[..|w| - 1]) + (if w[|w| - 1].Bad? then 1 else 0)
  }

  function Returning(pc: Pc): nat { if pc.Fix? then pc.fail else 0 }

  function Claiming(pc: Pc): nat { if pc.Fix? || pc.Claim? then pc.a else 0 }

  function AllReturning(pcs: seq<Pc>): nat {
    if pcs == [] then 0 else AllReturning(pcs[..|pcs| - 1]) + Returning(pcs[|pcs| - 1])
  }

  function AllClaiming(pcs: seq<Pc>): nat {
    if pcs == [] then 0 else AllClaiming(pcs[..|pcs| - 1]) + Claiming(pcs[|pcs| - 1])
  }

  predicate HoldsTicket(pc: Pc, k: nat) { pc.Taken? && pc.my <= k < pc.my + pc.d }

  predicate TicketOk(s: State, w: seq<Verdict>, k: nat)
    requires k < |w|
  {
    && (w[k].Open? ==> w[k].c < |s.pcs| && HoldsTicket(s.pcs[w[k].c], k))
    && (w[k].Good? ==> k + 1 - Bads(w[..k + 1]) <= s.tail)
  }

  predicate ConsumerOk(s: State, w: seq<Verdict>, c: nat)
    requires c < |s.pcs|
  {
    match s.pcs[c]
    case Over(_, _, v) => v <= Bads(w)
    case Take(_, v) => v <= Bads(w)
    case Taken(d, v, my) =>
      my + d <= |w| && v <= Bads(w[..my]) && forall k :: my <= k < my + d ==> w[k] == Open(c)
    case Fix(_, _) => true
    case Claimed(first, a) => first + a <= s.head
    case _ => true
  }

  ghost predicate Inv(s: State, w: seq<Verdict>) {
    && |w| == s.opt
    && Bads(w) == s.over + AllReturning(s.pcs)
    && Goods(w) == s.head + AllClaiming(s.pcs)
    && (forall k :: 0 <= k < |w| ==> TicketOk(s, w, k))
    && (forall c :: 0 <= c < |s.pcs| ==> ConsumerOk(s, w, c))
  }

  // ---------------------------------------------------------------------------------------------
  // Counting

  lemma {:induction false} CountsAppend(a: seq<Verdict>, b: seq<Verdict>)
    ensures Goods(a + b) == Goods(a) + Goods(b) && Bads(a + b) == Bads(a) + Bads(b)
    decreases |b|
  {
    if b == [] {
      assert a + b == a;
    } else {
      var init := b[..|b| - 1];
      assert (a + b)[..|a + b| - 1] == a + init;
      CountsAppend(a, init);
    }
  }

  lemma {:induction false} CountsBound(w: seq<Verdict>)
    ensures Goods(w) + Bads(w) <= |w|
  {
    if w != [] { CountsBound(w[..|w| - 1]); }
  }

  lemma {:induction false} CountsUniform(w: seq<Verdict>, v: Verdict)
    requires forall k :: 0 <= k < |w| ==> w[k] == v
    ensures Goods(w) == (if v.Good? then |w| else 0) && Bads(w) == (if v.Bad? then |w| else 0)
  {
    if w != [] { CountsUniform(w[..|w| - 1], v); }
  }

  lemma {:induction false} SumsUpdate(pcs: seq<Pc>, c: nat, pc: Pc)
    requires c < |pcs|
    ensures AllReturning(pcs[c := pc]) + Returning(pcs[c]) == AllReturning(pcs) + Returning(pc)
    ensures AllClaiming(pcs[c := pc]) + Claiming(pcs[c]) == AllClaiming(pcs) + Claiming(pc)
  {
    var last := |pcs| - 1;
    if c == last {
      assert pcs[c := pc][..last] == pcs[..last];
    } else {
      assert pcs[c := pc][..last] == pcs[..last][c := pc];
      SumsUpdate(pcs[..last], c, pc);
    }
  }

  lemma {:induction false} SumsIdle(pcs: seq<Pc>)
    requires forall c :: 0 <= c < |pcs| ==> Returning(pcs[c]) == 0 && Claiming(pcs[c]) == 0
    ensures AllReturning(pcs) == 0 && AllClaiming(pcs) == 0
  {
    if pcs != [] { SumsIdle(pcs[..|pcs| - 1]); }
  }

  lemma BadsPrefix(w: seq<Verdict>, i: nat, j: nat)
    requires i <= j <= |w|
    ensures Bads(w[..i]) <= Bads(w[..j])
  {
    assert w[..j] == w[..i] + w[i..j];
    CountsAppend(w[..i], w[i..j]);
  }

  /** The heart of the ticket argument: however the verdicts are spread, the good tickets never outnumber
      the published elements, because the last good one was checked against all failures before it. */
  lemma {:induction false} GoodsWithinTail(w: seq<Verdict>, tail: nat)
    requires forall k :: 0 <= k < |w| && w[k].Good? ==> k + 1 - Bads(w[..k + 1]) <= tail
    ensures Goods(w) <= tail
  {
    if w != [] {
      var last := |w| - 1;
      if w[last].Good? {
        assert w[..last + 1] == w;
        CountsBound(w);
      } else {
        forall k | 0 <= k < last && w[..last][k].Good? ensures k + 1 - Bads(w[..last][..k + 1]) <= tail {
          assert w[..last][..k + 1] == w[..k + 1];
        }
        GoodsWithinTail(w[..last], tail);
      }
    }
  }

  // ---------------------------------------------------------------------------------------------
  // Every step keeps the invariant

  function Repeat(v: Verdict, n: nat): (r: seq<Verdict>)
    ensures |r| == n && forall k :: 0 <= k < n ==> r[k] == v
  {
    seq(n, _ => v)
  }

  /** Tickets my .. my + good are good, the others up to my + d are bad. */
  function Settled(w: seq<Verdict>, my: nat, good: nat, d: nat): (r: seq<Verdict>) {
    seq(|w|, k requires 0 <= k < |w| => if my <= k < my + good then Good else if my <= k < my + d then Bad else w[k])
  }

  /** The verdicts after the step: new tickets are open; a decision settles all tickets of its consumer. */
  function NextVerdicts(s: State, a: Action, w: seq<Verdict>): seq<Verdict>
    requires Enabled(s, a)
    requires a.Run? && s.pcs[a.c].Taken? ==> s.pcs[a.c].my + s.pcs[a.c].d <= |w|
  {
    if a.Run? && s.pcs[a.c].Take? then w + Repeat(Open(a.c), s.pcs[a.c].d)
    else if a.Run? && s.pcs[a.c].Taken? then
      var pc := s.pcs[a.c];
      var good := Claiming(Decide(pc.d, pc.v, pc.my, a.seen));
      Settled(w, pc.my, good, pc.d)
    else w
  }

  /** A step that changes no verdict. */
  lemma PlainKeeps(s: State, s': State, c: nat, w: seq<Verdict>)
    requires Inv(s, w) && c < |s.pcs| == |s'.pcs| && s'.pcs == s.pcs[c := s'.pcs[c]]
    requires s'.tail == s.tail && s'.opt == s.opt && s'.head >= s.head
    requires s'.over + Returning(s'.pcs[c]) == s.over + Returning(s.pcs[c])
    requires s'.head + Claiming(s'.pcs[c]) == s.head + Claiming(s.pcs[c])
    requires !s.pcs[c].Taken? && ConsumerOk(s', w, c)
    ensures Inv(s', w)
  {
    SumsUpdate(s.pcs, c, s'.pcs[c]);
    forall k | 0 <= k < |w| ensures TicketOk(s', w, k) { assert TicketOk(s, w, k); }
    forall e | 0 <= e < |s.pcs| ensures ConsumerOk(s', w, e) { assert ConsumerOk(s, w, e); }
  }

  lemma PublishKeeps(s: State, n: nat, w: seq<Verdict>)
    requires Inv(s, w)
    ensures Inv(s.(tail := s.tail + n), w)
  {
    var s' := s.(tail := s.tail + n);
    forall k | 0 <= k < |w| ensures TicketOk(s', w, k) { assert TicketOk(s, w, k); }
    forall e | 0 <= e < |s.pcs| ensures ConsumerOk(s', w, e) { assert ConsumerOk(s, w, e); }
  }

  lemma TakeKeeps(s: State, c: nat, seen: nat, w: seq<Verdict>)
    requires Inv(s, w) && Enabled(s, Run(c, seen)) && s.pcs[c].Take?
    ensures Inv(Step(s, Run(c, seen)), NextVerdicts(s, Run(c, seen), w))
  {
    var s', more := Step(s, Run(c, seen)), Repeat(Open(c), s.pcs[c].d);
    var w' := w + more;
    SumsUpdate(s.pcs, c, s'.pcs[c]);
    CountsAppend(w, more);
    CountsUniform(more, Open(c));
    assert w'[..|w|] == w;
    assert ConsumerOk(s, w, c);
    forall k | 0 <= k < |w'| ensures TicketOk(s', w', k) {
      if k < |w| {
        assert TicketOk(s, w, k);
        assert w'[..k + 1] == w[..k + 1];
      }
    }
    forall e | 0 <= e < |s.pcs| ensures ConsumerOk(s', w', e) {
      assert ConsumerOk(s, w, e);
      if e != c && s.pcs[e].Taken? {
        assert w'[..s.pcs[e].my] == w[..s.pcs[e].my];
      }
    }
  }

  /** Settling one consumer's open tickets changes the counts by its own tickets. */
  lemma SettledCounts(w: seq<Verdict>, my: nat, good: nat, d: nat, c: nat)
    requires good <= d && my + d <= |w| && forall k :: my <= k < my + d ==> w[k] == Open(c)
    ensures Goods(Settled(w, my, good, d)) == Goods(w) + good
    ensures Bads(Settled(w, my, good, d)) == Bads(w) + d - good
  {
    var left, right := w[..my], w[my + d..];
    var own, goods, bads := w[my..my + d], Repeat(Good, good), Repeat(Bad, d - good);
    assert w == left + (own + right);
    CountsUniform(own, Open(c));
    CountsOfThree(left, own, right);
    SettledIs(w, my, good, d);
    CountsOfThree(left, goods + bads, right);
    CountsAppend(goods, bads);
    CountsUniform(goods, Good);
    CountsUniform(bads, Bad);
  }

  lemma SettledIs(w: seq<Verdict>, my: nat, good: nat, d: nat)
    requires good <= d && my + d <= |w|
    ensures Settled(w, my, good, d) == w[..my] + ((Repeat(Good, good) + Repeat(Bad, d - good)) + w[my + d..])
  {
  }

  lemma CountsOfThree(a: seq<Verdict>, b: seq<Verdict>, c: seq<Verdict>)
    ensures Goods(a + (b + c)) == Goods(a) + Goods(b) + Goods(c)
    ensures Bads(a + (b + c)) == Bads(a) + Bads(b) + Bads(c)
  {
    CountsAppend(a, b + c);
    CountsAppend(b, c);
  }

  lemma SettledPrefix(w: seq<Verdict>, my: nat, good: nat, d: nat, c: nat, j: nat)
    requires good <= d && my + d <= |w| && (forall k :: my <= k < my + d ==> w[k] == Open(c)) && j <= |w|
    ensures Bads(w[..j]) <= Bads(Settled(w, my, good, d)[..j])
  {
    BadsMonotone(w[..j], Settled(w, my, good, d)[..j]);
  }

  lemma {:induction false} BadsMonotone(a: seq<Verdict>, b: seq<Verdict>)
    requires |a| == |b| && forall k :: 0 <= k < |a| && a[k].Bad? ==> b[k].Bad?
    ensures Bads(a) <= Bads(b)
  {
    if a != [] { BadsMonotone(a[..|a| - 1], b[..|b| - 1]); }
  }

  /** Consumer `c` settles its tickets, `good` of them within the tail it saw. */
  predicate Settling(s: State, s': State, c: nat, w: seq<Verdict>, good: nat) {
    && c < |s.pcs| == |s'.pcs| && s.pcs[c].Taken? && ConsumerOk(s, w, c) && good <= s.pcs[c].d
    && s' == s.(pcs := s.pcs[c := s'.pcs[c]]) && (s'.pcs[c].Fix? || s'.pcs[c].Claim?)
    && (good > 0 ==> good <= s.tail - (s.pcs[c].my - s.pcs[c].v))
  }

  lemma SettlingTicket(s: State, s': State, c: nat, w: seq<Verdict>, good: nat, k: nat)
    requires Settling(s, s', c, w, good) && k < |w| && TicketOk(s, w, k)
    ensures TicketOk(s', Settled(w, s.pcs[c].my, good, s.pcs[c].d), k)
  {
    var pc := s.pcs[c];
    SettledPrefix(w, pc.my, good, pc.d, c, k + 1);
    if pc.my <= k {
      BadsPrefix(w, pc.my, k + 1);
    }
  }

  lemma SettlingConsumer(s: State, s': State, c: nat, w: seq<Verdict>, good: nat, e: nat)
    requires Settling(s, s', c, w, good) && e < |s.pcs| && ConsumerOk(s, w, e)
    requires Bads(w) <= Bads(Settled(w, s.pcs[c].my, good, s.pcs[c].d))
    ensures ConsumerOk(s', Settled(w, s.pcs[c].my, good, s.pcs[c].d), e)
  {
    if e != c && s.pcs[e].Taken? {
      var w' := Settled(w, s.pcs[c].my, good, s.pcs[c].d);
      SettledPrefix(w, s.pcs[c].my, good, s.pcs[c].d, c, s.pcs[e].my);
      forall k | s.pcs[e].my <= k < s.pcs[e].my + s.pcs[e].d ensures w'[k] == Open(e) {
        assert w[k] == Open(e);
      }
    }
  }

  lemma DecideKeeps(s: State, c: nat, seen: nat, w: seq<Verdict>)
    requires Inv(s, w) && Enabled(s, Run(c, seen)) && s.pcs[c].Taken?
    requires s.pcs[c].my + s.pcs[c].d <= |w|
    ensures Inv(Step(s, Run(c, seen)), NextVerdicts(s, Run(c, seen), w))
  {
    var s', pc := Step(s, Run(c, seen)), s.pcs[c];
    assert ConsumerOk(s, w, c);
    var good := Claiming(s'.pcs[c]);
    assert Settling(s, s', c, w, good);
    SettledCounts(w, pc.my, good, pc.d, c);
    SumsUpdate(s.pcs, c, s'.pcs[c]);
    var w' := Settled(w, pc.my, good, pc.d);
    forall k | 0 <= k < |w'| ensures TicketOk(s', w', k) {
      assert TicketOk(s, w, k);
      SettlingTicket(s, s', c, w, good, k);
    }
    forall e | 0 <= e < |s.pcs| ensures ConsumerOk(s', w', e) {
      assert ConsumerOk(s, w, e);
      SettlingConsumer(s, s', c, w, good, e);
    }
  }

  lemma StepKeepsInv(s: State, a: Action, w: seq<Verdict>)
    requires Inv(s, w) && Enabled(s, a)
    ensures a.Run? && s.pcs[a.c].Taken? ==> s.pcs[a.c].my + s.pcs[a.c].d <= |w|
    ensures Inv(Step(s, a), NextVerdicts(s, a, w))
  {
    match a
    case Publish(n) => PublishKeeps(s, n, w);
    case Call(c, max, seen) => PlainKeeps(s, Step(s, a), c, w);
    case Release(c) => PlainKeeps(s, Step(s, a), c, w);
    case Run(c, seen) =>
      assert ConsumerOk(s, w, c);
      if s.pcs[c].Take? {
        TakeKeeps(s, c, seen, w);
      } else if s.pcs[c].Taken? {
        DecideKeeps(s, c, seen, w);
      } else {
        PlainKeeps(s, Step(s, a), c, w);
      }
  }

  /** In every state of every run: the head never passes the tail, and neither would it if every consumer
      that has decided to take elements took them now. */
  lemma HeadWithinTail(s: State, w: seq<Verdict>)
    requires Inv(s, w)
    ensures s.head + AllClaiming(s.pcs) <= s.tail
  {
    forall k | 0 <= k < |w| && w[k].Good? ensures k + 1 - Bads(w[..k + 1]) <= s.tail { assert TicketOk(s, w, k); }
    GoodsWithinTail(w, s.tail);
  }

  // ---------------------------------------------------------------------------------------------
  // What every execution guarantees

  ghost predicate Execution(run: seq<State>, acts: seq<Action>) {
    && |run| == |acts| + 1
    && Init(run[0])
    && forall i :: 0 <= i < |acts| ==> Enabled(run[i], acts[i]) && run[i + 1] == Step(run[i], acts[i])
  }

  lemma {:induction false} ExecutionKeepsInv(run: seq<State>, acts: seq<Action>, i: nat) returns (w: seq<Verdict>)
    requires Execution(run, acts) && i < |run|
    ensures Inv(run[i], w)
  {
    if i == 0 {
      w := [];
      SumsIdle(run[0].pcs);
    } else {
      var v := ExecutionKeepsInv(run, acts, i - 1);
      StepKeepsInv(run[i - 1], acts[i - 1], v);
      w := NextVerdicts(run[i - 1], acts[i - 1], v);
    }
  }

  lemma {:induction false} Monotone(run: seq<State>, acts: seq<Action>, i: nat, j: nat)
    requires Execution(run, acts) && i <= j < |run|
    ensures run[i].head <= run[j].head && run[i].tail <= run[j].tail && |run[i].pcs| == |run[j].pcs|
  {
    if i < j {
      Monotone(run, acts, i, j - 1);
      assert run[j] == Step(run[j - 1], acts[j - 1]);
    }
  }

  /** A step that claims elements. */
  predicate ClaimStep(s: State, a: Action) { Enabled(s, a) && a.Run? && s.pcs[a.c].Claim? }

  /** Every claim is of published elements that nobody claims again, whatever the interleaving and however
      stale the loads: `first` is the head, the range ends within the tail, and later claims start after it. */
  lemma ClaimsPublishedAndDisjoint(run: seq<State>, acts: seq<Action>, i: nat, j: nat)
    requires Execution(run, acts) && i < j < |acts| && ClaimStep(run[i], acts[i]) && ClaimStep(run[j], acts[j])
    ensures var mine := run[i + 1].pcs[acts[i].c]; var other := run[j + 1].pcs[acts[j].c];
      && mine.Claimed? && other.Claimed?
      && mine.first == run[i].head
      && mine.first + mine.a <= run[i].tail
      && mine.first + mine.a <= other.first
      && other.first + other.a <= run[j].tail
  {
    var w := ExecutionKeepsInv(run, acts, i + 1);
    HeadWithinTail(run[i + 1], w);
    var w' := ExecutionKeepsInv(run, acts, j + 1);
    HeadWithinTail(run[j + 1], w');
    Monotone(run, acts, i + 1, j);
  }

  lemma HeadNeverPassesTail(run: seq<State>, acts: seq<Action>, i: nat)
    requires Execution(run, acts) && i < |run|
    ensures run[i].head <= run[i].tail
  {
    var w := ExecutionKeepsInv(run, acts, i);
    HeadWithinTail(run[i], w);
  }

  predicate AtRest(pc: Pc) { pc.Idle? || pc.Claimed? }

  lemma {:induction false} AllSettled(w: seq<Verdict>)
    requires forall k :: 0 <= k < |w| ==> !w[k].Open?
    ensures Goods(w) + Bads(w) == |w|
  {
    if w != [] { AllSettled(w[..|w| - 1]); }
  }

  /** With no consumer between its first load and its claim, the counters agree again. */
  lemma QuiescentCounters(s: State, w: seq<Verdict>)
    requires Inv(s, w) && forall c :: 0 <= c < |s.pcs| ==> AtRest(s.pcs[c])
    ensures s.opt == s.over + s.head
  {
    SumsIdle(s.pcs);
    forall k | 0 <= k < |w| ensures !w[k].Open? { assert TicketOk(s, w, k); }
    AllSettled(w);
  }

  /** How many steps a consumer has at most before its operation is decided. */
  function Rank(pc: Pc): nat {
    match pc
    case Idle => 0
    case Claimed(_, _) => 0
    case Claim(_) => 1
    case Fix(_, _) => 2
    case Taken(_, _, _) => 3
    case Take(_, _) => 4
    case Over(_, _, _) => 5
    case Tail(_, _) => 6
  }

  /** Consumer `c` running alone with up-to-date loads until its operation is decided. */
  function Solo(s: State, c: nat): (r: State)
    requires c < |s.pcs|
    decreases Rank(s.pcs[c])
  {
    if AtRest(s.pcs[c]) then s
    else
      var seen := if s.pcs[c].Tail? then s.over else if s.pcs[c].Over? then s.opt else s.tail;
      Solo(Step(s, Run(c, seen)), c)
  }

  lemma SoloTakes(s: State, c: nat, d: nat)
    requires c < |s.pcs| && 0 < d <= s.tail - s.head && s.opt == s.over + s.head && s.pcs[c] == Take(d, s.over)
    ensures Solo(s, c) == s.(opt := s.opt + d, head := s.head + d, pcs := s.pcs[c := Claimed(s.head, d)])
  {
    var s4 := Step(s, Run(c, s.tail));
    var s5 := Step(s4, Run(c, s4.tail));
    assert s5.pcs[c] == Claim(d);
    var s6 := Step(s5, Run(c, s5.tail));
    assert Solo(s, c) == Solo(s4, c) == Solo(s5, c) == Solo(s6, c) == s6;
    assert s6.pcs == s.pcs[c := Claimed(s.head, d)];
  }

  /** A dequeue that runs alone takes exactly as many elements as it asked for or as there are; in
      particular it fails exactly when the sub-queue is empty. */
  lemma SoloDequeueIsExact(s: State, w: seq<Verdict>, c: nat, max: nat)
    requires Inv(s, w) && c < |s.pcs| && s.pcs[c].Idle? && max > 0
    requires forall e :: 0 <= e < |s.pcs| ==> AtRest(s.pcs[e])
    ensures s.head <= s.tail
    ensures var r := Solo(Step(s, Call(c, max, s.tail)), c);
      && r.tail == s.tail && r.opt == r.over + r.head
      && r.head == s.head + Min(max, s.tail - s.head)
      && r.pcs == s.pcs[c := if s.head == s.tail then Idle else Claimed(s.head, Min(max, s.tail - s.head))]
  {
    HeadWithinTail(s, w);
    QuiescentCounters(s, w);
    var s1 := Step(s, Call(c, max, s.tail));
    var s2 := Step(s1, Run(c, s1.over));
    var s3 := Step(s2, Run(c, s2.opt));
    assert Solo(s1, c) == Solo(s2, c) == Solo(s3, c);
    if s.head == s.tail {
      assert s3.pcs == s.pcs[c := Idle];
    } else {
      var d := Min(max, s.tail - s.head);
      assert s3 == s.(pcs := s.pcs[c := Take(d, s.over)]);
      SoloTakes(s3, c, d);
    }
  }

  // ---------------------------------------------------------------------------------------------
  // Each call, whatever the others do

  /** How many of `d` tickets to keep when the tail seen covers `x` of them. */
  function Kept(d: nat, x: int): nat { if x <= 0 then 0 else if x < d then x else d }

  /** A consumer that keeps `k` of its `d` tickets: before it returns the others, before or after it claims. */
  predicate Keeps(pc: Pc, d: nat, k: nat) {
    || (k < d && pc == Fix(d - k, k))
    || (pc == Claim(k) && k > 0)
    || (pc.Claimed? && pc.a == k && k > 0)
    || (pc.Idle? && k == 0)
  }

  /** In every run a consumer keeps every ticket that the tail it saw covers and claims just as many elements; the
      others it returns. */
  lemma {:induction false} TicketsKept(run: seq<State>, acts: seq<Action>, i: nat, j: nat, c: nat)
    requires Execution(run, acts) && i < j < |run| && acts[i].Run? && acts[i].c == c && c < |run[i].pcs|
    requires run[i].pcs[c].Taken? && run[i].pcs[c].d > 0
    requires forall m :: i < m < j ==> c < |run[m].pcs| && !AtRest(run[m].pcs[c])
    ensures c < |run[j].pcs|
    ensures var pc := run[i].pcs[c]; Keeps(run[j].pcs[c], pc.d, Kept(pc.d, acts[i].seen - (pc.my - pc.v)))
  {
    assert run[j] == Step(run[j - 1], acts[j - 1]);
    if i + 1 < j { TicketsKept(run, acts, i, j - 1, c); }
  }

  /** A call is decided after at most six of the consumer's own steps, and no step of another moves it. */
  lemma CallAdvances(s: State, a: Action, c: nat)
    requires Enabled(s, a) && c < |s.pcs| && !AtRest(s.pcs[c])
    ensures var s' := Step(s, a);
      && c < |s'.pcs|
      && if a.Run? && a.c == c then Rank(s'.pcs[c]) < Rank(s.pcs[c]) else s'.pcs[c] == s.pcs[c]
  {
  }
}
