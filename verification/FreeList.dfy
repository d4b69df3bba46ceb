/** The reference-counted lock-free free list of the queue, one atomic operation per step.

    Every thread runs `add`, `try_get` or the shared `add_knowing_refcount_is_zero`; its program
    counter carries the locals that are live at that point.  `freeListRefs` is the 32-bit word of
    the source: its top bit is SHOULD_BE_ON_FREELIST and its low 31 bits count references. */
module FreeList {

  const WORD: nat := 0x1_0000_0000
  const SHOULD: nat := 0x8000_0000

  /** A pointer to a node; nodes are numbered in allocation order. */
  datatype Ptr = Null | To(node: nat)

  /** What `add_knowing_refcount_is_zero` returns to: `add`, or the loop of `try_get`. */
  datatype Caller = FromAdd | FromGet(head: Ptr)

  datatype Pc =
    | Idle
    | AddFetch(n: nat)
    | InsLoad(n: nat, k: Caller)
    | InsNext(n: nat, h: Ptr, k: Caller)
    | InsRefs(n: nat, h: Ptr, k: Caller)
    | InsCas(n: nat, h: Ptr, k: Caller)
    | InsBack(n: nat, h: Ptr, k: Caller)
    | GetLoad
    | GetRefs(n: nat)
    | GetInc(n: nat, r: nat)
    | GetNext(n: nat)
    | GetCas(n: nat, x: Ptr)
    | GetSub2(n: nat)
    | GetSub1(n: nat, h: Ptr)

  /** `owned` holds the nodes that are in the hands of the list's clients. */
  datatype State = State(head: Ptr, refs: seq<nat>, next: seq<Ptr>, owned: set<nat>, pcs: seq<Pc>)

  datatype Action = Fresh | CallAdd(t: nat, n: nat) | CallGet(t: nat) | Run(t: nat)

  predicate WellFormed(s: State) {
    && |s.next| == |s.refs|
    && PtrInRange(s.head, |s.refs|)
    && (forall n :: 0 <= n < |s.next| ==> PtrInRange(s.next[n], |s.refs|))
    && (forall t :: 0 <= t < |s.pcs| ==> PcInRange(s.pcs[t], |s.refs|))
  }

  predicate PtrInRange(p: Ptr, m: nat) { p.To? ==> p.node < m }

  predicate PcInRange(pc: Pc, m: nat) {
    match pc
    case Idle => true
    case GetLoad => true
    case InsLoad(n, k) => n < m && (k.FromGet? ==> PtrInRange(k.head, m))
    case InsNext(n, h, k) => n < m && PtrInRange(h, m) && (k.FromGet? ==> PtrInRange(k.head, m))
    case InsRefs(n, h, k) => n < m && PtrInRange(h, m) && (k.FromGet? ==> PtrInRange(k.head, m))
    case InsCas(n, h, k) => n < m && PtrInRange(h, m) && (k.FromGet? ==> PtrInRange(k.head, m))
    case InsBack(n, h, k) => n < m && PtrInRange(h, m) && (k.FromGet? ==> PtrInRange(k.head, m))
    case GetCas(n, x) => n < m && PtrInRange(x, m)
    case GetSub1(n, h) => n < m && PtrInRange(h, m)
    case _ => pc.n < m
  }

  /** Only an owner may call `add`; a thread starts a call when it has none running. */
  predicate Enabled(s: State, a: Action) {
    match a
    case Fresh => true
    case CallAdd(t, n) => t < |s.pcs| && s.pcs[t].Idle? && n in s.owned && n < |s.refs|
    case CallGet(t) => t < |s.pcs| && s.pcs[t].Idle?
    case Run(t) => t < |s.pcs| && !s.pcs[t].Idle?
  }

  function Top(h: Ptr): Pc { if h.Null? then Idle else GetRefs(h.node) }

  function Resume(k: Caller): Pc { if k.FromAdd? then Idle else Top(k.head) }

  function Goto(s: State, t: nat, pc: Pc): State
    requires t < |s.pcs|
  {
    s.(pcs := s.pcs[t := pc])
  }

  function SetRefs(s: State, n: nat, v: int): State
    requires n < |s.refs|
  {
    s.(refs := s.refs[n := v % WORD])
  }

  /** One atomic operation of the running thread, with the local computation after it. */
  function RunStep(s: State, t: nat): State
    requires t < |s.pcs| && PcInRange(s.pcs[t], |s.refs|) && |s.next| == |s.refs|
  {
    match s.pcs[t]
    case Idle => s
    case AddFetch(n) =>
      Goto(SetRefs(s, n, s.refs[n] + SHOULD), t, if s.refs[n] == 0 then InsLoad(n, FromAdd) else Idle)
    case InsLoad(n, k) => Goto(s, t, InsNext(n, s.head, k))
    case InsNext(n, h, k) => Goto(s.(next := s.next[n := h]), t, InsRefs(n, h, k))
    case InsRefs(n, h, k) => Goto(SetRefs(s, n, 1), t, InsCas(n, h, k))
    case InsCas(n, h, k) =>
      if s.head == h then Goto(s.(head := To(n)), t, Resume(k)) else Goto(s, t, InsBack(n, s.head, k))
    case InsBack(n, h, k) =>
      Goto(SetRefs(s, n, s.refs[n] + SHOULD - 1), t, if s.refs[n] == 1 then InsNext(n, h, k) else Resume(k))
    case GetLoad => Goto(s, t, Top(s.head))
    case GetRefs(n) => Goto(s, t, if s.refs[n] % SHOULD == 0 then GetLoad else GetInc(n, s.refs[n]))
    case GetInc(n, r) =>
      if s.refs[n] == r then Goto(SetRefs(s, n, r + 1), t, GetNext(n)) else Goto(s, t, GetLoad)
    case GetNext(n) => Goto(s, t, GetCas(n, s.next[n]))
    case GetCas(n, x) =>
      if s.head == To(n) then Goto(s.(head := x), t, GetSub2(n)) else Goto(s, t, GetSub1(n, s.head))
    case GetSub2(n) => Goto(SetRefs(s, n, s.refs[n] + WORD - 2).(owned := s.owned + {n}), t, Idle)
    case GetSub1(n, h) =>
      Goto(SetRefs(s, n, s.refs[n] + WORD - 1), t, if s.refs[n] == SHOULD + 1 then InsLoad(n, FromGet(h)) else Top(h))
  }

  function Step(s: State, a: Action): State
    requires WellFormed(s) && Enabled(s, a)
  {
    match a
    case Fresh => s.(refs := s.refs + [0], next := s.next + [Null], owned := s.owned + {|s.refs|})
    case CallAdd(t, n) => Goto(s, t, AddFetch(n)).(owned := s.owned - {n})
    case CallGet(t) => Goto(s, t, GetLoad)
    case Run(t) => RunStep(s, t)
  }

  predicate Init(s: State) {
    s == State(Null, [], [], {}, s.pcs) && forall t :: 0 <= t < |s.pcs| ==> s.pcs[t].Idle?
  }

  ghost predicate StepAt(run: seq<State>, acts: seq<Action>, i: nat) {
    && i < |acts| && i + 1 < |run|
    && WellFormed(run[i]) && Enabled(run[i], acts[i]) && run[i + 1] == Step(run[i], acts[i])
  }

  /** `run` is an execution: it starts in an initial state and takes one action at a time. */
  ghost predicate Execution(run: seq<State>, acts: seq<Action>) {
    && |run| == |acts| + 1
    && Init(run[0])
    && forall i :: 0 <= i < |acts| ==> StepAt(run, acts, i)
  }

  // ---------------------------------------------------------------------------------------------
  // The invariant

  /** Where a node is; `t` is the one thread responsible for it there. */
  datatype Place = Owned | Adding(t: nat) | Waiting | Ready(t: nat) | Inserting(t: nat) | Listed | Taken(t: nat)

  /** Proof witness: the nodes reachable from the head in order, and the place of every node. */
  datatype Witness = Witness(list: seq<nat>, place: seq<Place>)

  predicate HoldsRef(pc: Pc, n: nat) {
    (pc.GetNext? || pc.GetCas? || pc.GetSub1? || pc.GetSub2?) && pc.n == n
  }

  /** The number of threads that hold a reference obtained in `try_get`. */
  function Refs(pcs: seq<Pc>, n: nat): nat {
    if pcs == [] then 0
    else Refs(pcs[..|pcs| - 1], n) + (if HoldsRef(pcs[|pcs| - 1], n) then 1 else 0)
  }

  function Flag(p: Place): nat { if p.Waiting? || p.Ready? then SHOULD else 0 }

  /** The reference that stands for list membership. */
  function ListRef(p: Place): nat { if p.Inserting? || p.Listed? || p.Taken? then 1 else 0 }

  predicate PlaceOf(s: State, w: Witness, n: nat)
    requires n < |w.place|
  {
    match w.place[n]
    case Owned => n in s.owned
    case Listed => n in w.list
    case Waiting => Refs(s.pcs, n) > 0
    case Adding(t) => t < |s.pcs| && s.pcs[t] == AddFetch(n)
    case Ready(t) =>
      t < |s.pcs| && Refs(s.pcs, n) == 0
      && (s.pcs[t].InsLoad? || s.pcs[t].InsNext? || s.pcs[t].InsRefs?) && s.pcs[t].n == n
    case Inserting(t) => t < |s.pcs| && (s.pcs[t].InsCas? || s.pcs[t].InsBack?) && s.pcs[t].n == n
    case Taken(t) => t < |s.pcs| && s.pcs[t] == GetSub2(n)
  }

  predicate NodeOk(s: State, w: Witness, n: nat)
    requires n < |w.place| && n < |s.refs|
  {
    && PlaceOf(s, w, n)
    && (n in s.owned ==> w.place[n].Owned?)
    && (n in w.list ==> w.place[n].Listed?)
    && s.refs[n] == Flag(w.place[n]) + ListRef(w.place[n]) + Refs(s.pcs, n)
  }

  predicate ThreadOk(s: State, w: Witness, t: nat)
    requires t < |s.pcs| && PcInRange(s.pcs[t], |s.refs|) && |w.place| == |s.refs| == |s.next|
  {
    match s.pcs[t]
    case AddFetch(n) => w.place[n] == Adding(t)
    case InsLoad(n, k) => w.place[n] == Ready(t)
    case InsNext(n, h, k) => w.place[n] == Ready(t)
    case InsRefs(n, h, k) => w.place[n] == Ready(t) && s.next[n] == h
    case InsCas(n, h, k) => w.place[n] == Inserting(t) && s.next[n] == h
    case InsBack(n, h, k) => w.place[n] == Inserting(t)
    case GetInc(n, r) => r % SHOULD != 0
    case GetCas(n, x) => s.next[n] == x
    case GetSub2(n) => w.place[n] == Taken(t)
    case _ => true
  }

  function PtrAt(list: seq<nat>, i: nat): Ptr { if i < |list| then To(list[i]) else Null }

  predicate LinkOk(next: seq<Ptr>, list: seq<nat>, i: nat)
    requires i < |list|
  {
    list[i] < |next| && next[list[i]] == PtrAt(list, i + 1)
  }

  /** `list` is exactly what a walk along `freeListNext` from the head visits, without repetition. */
  predicate Walk(head: Ptr, next: seq<Ptr>, list: seq<nat>) {
    && head == PtrAt(list, 0)
    && (forall i :: 0 <= i < |list| ==> LinkOk(next, list, i))
    && (forall i, j :: 0 <= i < j < |list| ==> list[i] != list[j])
  }

  ghost predicate Inv(s: State, w: Witness) {
    && WellFormed(s)
    && |w.place| == |s.refs|
    && |s.pcs| < SHOULD - 1
    && (forall n :: n in s.owned ==> n < |s.refs|)
    && Walk(s.head, s.next, w.list)
    && (forall n :: 0 <= n < |s.refs| ==> NodeOk(s, w, n))
    && (forall t :: 0 <= t < |s.pcs| ==> ThreadOk(s, w, t))
  }

  // ---------------------------------------------------------------------------------------------
  // Counting references

  lemma RefsUpdate(pcs: seq<Pc>, t: nat, pc: Pc, n: nat)
    requires t < |pcs|
    ensures Refs(pcs[t := pc], n) + (if HoldsRef(pcs[t], n) then 1 else 0)
         == Refs(pcs, n) + (if HoldsRef(pc, n) then 1 else 0)
  {
    var last := |pcs| - 1;
    if t == last {
      assert pcs[t := pc][..last] == pcs[..last];
    } else {
      assert pcs[t := pc][..last] == pcs[..last][t := pc];
      RefsUpdate(pcs[..last], t, pc, n);
    }
  }

  lemma RefsPositive(pcs: seq<Pc>, t: nat, n: nat)
    requires t < |pcs| && HoldsRef(pcs[t], n)
    ensures Refs(pcs, n) > 0
  {
    if t < |pcs| - 1 {
      RefsPositive(pcs[..|pcs| - 1], t, n);
    }
  }

  lemma RefsBound(pcs: seq<Pc>, n: nat)
    ensures Refs(pcs, n) <= |pcs|
  {
  }

  lemma RefsNone(pcs: seq<Pc>, n: nat)
    requires forall t :: 0 <= t < |pcs| ==> !HoldsRef(pcs[t], n)
    ensures Refs(pcs, n) == 0
  {
  }

  // ---------------------------------------------------------------------------------------------
  // Every step keeps the invariant

  function Move(w: Witness, n: nat, p: Place): Witness
    requires n < |w.place|
  {
    w.(place := w.place[n := p])
  }

  function RunWitness(s: State, t: nat, w: Witness): Witness
    requires t < |s.pcs| && PcInRange(s.pcs[t], |s.refs|) && |w.place| == |s.refs|
    requires s.head.To? ==> w.list != []
  {
    match s.pcs[t]
    case AddFetch(n) => Move(w, n, if s.refs[n] == 0 then Ready(t) else Waiting)
    case InsRefs(n, h, k) => Move(w, n, Inserting(t))
    case InsCas(n, h, k) => if s.head == h then Move(w.(list := [n] + w.list), n, Listed) else w
    case InsBack(n, h, k) => Move(w, n, if s.refs[n] == 1 then Ready(t) else Waiting)
    case GetCas(n, x) => if s.head == To(n) then Move(w.(list := w.list[1..]), n, Taken(t)) else w
    case GetSub2(n) => Move(w, n, Owned)
    case GetSub1(n, h) => if s.refs[n] == SHOULD + 1 then Move(w, n, Ready(t)) else w
    case _ => w
  }

  function NextWitness(s: State, a: Action, w: Witness): Witness
    requires WellFormed(s) && Enabled(s, a) && |w.place| == |s.refs| && (s.head.To? ==> w.list != [])
  {
    match a
    case Fresh => w.(place := w.place + [Owned])
    case CallAdd(t, n) => Move(w, n, Adding(t))
    case CallGet(t) => w
    case Run(t) => RunWitness(s, t, w)
  }

  predicate Claimed(p: Place) { p.Adding? || p.Ready? || p.Inserting? || p.Taken? }

  predicate WorksOn(pc: Pc, n: nat) { pc.Idle? || pc.GetLoad? || pc.n == n }

  predicate RefsOnly(pc: Pc, n: nat) {
    pc.GetNext? || pc.GetCas? || pc.GetSub1? || pc.GetSub2? ==> pc.n == n
  }

  /** `s'` and `w'` differ from `s` and `w` in thread `t`, node `n` and the head only. */
  predicate Local(s: State, w: Witness, s': State, w': Witness, t: nat, n: nat) {
    && t < |s.pcs| && n < |s.refs| == |s.next| == |w.place|
    && |s'.pcs| == |s.pcs| && |s'.refs| == |s'.next| == |w'.place| == |s.refs|
    && s'.pcs == s.pcs[t := s'.pcs[t]]
    && s'.refs == s.refs[n := s'.refs[n]]
    && s'.next == s.next[n := s'.next[n]]
    && w'.place == w.place[n := w'.place[n]]
    && s'.owned - {n} == s.owned - {n}
    && (w'.list == w.list || w'.list == [n] + w.list || w.list == [n] + w'.list)
    && WorksOn(s.pcs[t], n) && RefsOnly(s'.pcs[t], n)
  }

  lemma OtherNode(s: State, w: Witness, s': State, w': Witness, t: nat, n: nat, m: nat)
    requires Inv(s, w) && Local(s, w, s', w', t, n) && m < |s.refs| && m != n
    ensures NodeOk(s', w', m)
  {
    assert NodeOk(s, w, m);
    RefsUpdate(s.pcs, t, s'.pcs[t], m);
    assert m in s'.owned <==> m in s'.owned - {n};
    assert m in s.owned <==> m in s.owned - {n};
    assert w'.list == [n] + w.list ==> (m in w'.list <==> m in w.list);
    assert w.list == [n] + w'.list ==> (m in w'.list <==> m in w.list);
  }

  lemma OtherThread(s: State, w: Witness, s': State, w': Witness, t: nat, n: nat, u: nat)
    requires Inv(s, w) && Local(s, w, s', w', t, n) && u < |s.pcs| && u != t
    requires w'.place[n] != w.place[n] && Claimed(w.place[n]) ==> w.place[n].t == t
    requires s'.next[n] != s.next[n] ==> w.place[n] == Ready(t)
    ensures PcInRange(s'.pcs[u], |s'.refs|) && ThreadOk(s', w', u)
  {
    assert ThreadOk(s, w, u) && NodeOk(s, w, n);
    if s.pcs[u].GetCas? && s.pcs[u].n == n {
      RefsPositive(s.pcs, u, n);
    }
  }

  /** A step of thread `t` on node `n` keeps the invariant if it is right about the two of them. */
  lemma LocalKeeps(s: State, w: Witness, s': State, w': Witness, t: nat, n: nat)
    requires Inv(s, w) && Local(s, w, s', w', t, n)
    requires PtrInRange(s'.head, |s.refs|) && PtrInRange(s'.next[n], |s.refs|)
    requires w'.place[n] != w.place[n] && Claimed(w.place[n]) ==> w.place[n].t == t
    requires s'.next[n] != s.next[n] ==> w.place[n] == Ready(t)
    requires Walk(s'.head, s'.next, w'.list) && NodeOk(s', w', n) && PcInRange(s'.pcs[t], |s.refs|)
             && ThreadOk(s', w', t)
    ensures Inv(s', w')
  {
    forall m | 0 <= m < |s.refs| ensures NodeOk(s', w', m) {
      if m != n { OtherNode(s, w, s', w', t, n, m); }
    }
    forall u | 0 <= u < |s.pcs| ensures PcInRange(s'.pcs[u], |s'.refs|) && ThreadOk(s', w', u) {
      if u != t { OtherThread(s, w, s', w', t, n, u); }
    }
    forall m | m in s'.owned ensures m < |s.refs| {
      assert m == n || m in s.owned - {n};
    }
  }

  lemma FreshKeeps(s: State, w: Witness)
    requires Inv(s, w)
    ensures Inv(Step(s, Fresh), NextWitness(s, Fresh, w))
  {
    var s', w' := Step(s, Fresh), NextWitness(s, Fresh, w);
    forall i | 0 <= i < |w.list| ensures LinkOk(s'.next, w.list, i) && w.list[i] < |s.refs| {
      assert LinkOk(s.next, w.list, i);
    }
    forall n | 0 <= n < |s'.refs| ensures NodeOk(s', w', n) {
      if n < |s.refs| { assert NodeOk(s, w, n); } else { RefsNone(s.pcs, n); }
    }
    forall u | 0 <= u < |s.pcs| ensures PcInRange(s'.pcs[u], |s'.refs|) && ThreadOk(s', w', u) {
      assert ThreadOk(s, w, u);
    }
  }

  lemma CallAddKeeps(s: State, t: nat, n: nat, w: Witness)
    requires Inv(s, w) && Enabled(s, CallAdd(t, n))
    ensures Inv(Step(s, CallAdd(t, n)), NextWitness(s, CallAdd(t, n), w))
  {
    var s', w' := Step(s, CallAdd(t, n)), NextWitness(s, CallAdd(t, n), w);
    assert NodeOk(s, w, n);
    RefsUpdate(s.pcs, t, AddFetch(n), n);
    LocalKeeps(s, w, s', w', t, n);
  }

  /** What thread `t` may use about itself and the node `n` it works on. */
  predicate Here(s: State, w: Witness, t: nat) {
    && t < |s.pcs| < SHOULD - 1 && !s.pcs[t].Idle? && !s.pcs[t].GetLoad?
    && |s.next| == |s.refs| == |w.place| && PcInRange(s.pcs[t], |s.refs|)
    && PtrInRange(s.head, |s.refs|) && PtrInRange(s.next[s.pcs[t].n], |s.refs|)
    && s.head == PtrAt(w.list, 0)
    && (w.list != [] && s.head == To(s.pcs[t].n) ==>
          s.next[s.pcs[t].n] == PtrAt(w.list, 1) && s.pcs[t].n !in w.list[1..])
    && NodeOk(s, w, s.pcs[t].n) && ThreadOk(s, w, t)
  }

  /** What it has to establish about the two. */
  predicate Settled(s: State, w: Witness, s': State, w': Witness, t: nat) {
    && t < |s.pcs| && !s.pcs[t].Idle? && !s.pcs[t].GetLoad?
    && Local(s, w, s', w', t, s.pcs[t].n)
    && PtrInRange(s'.head, |s.refs|) && PtrInRange(s'.next[s.pcs[t].n], |s.refs|)
    && (w'.place[s.pcs[t].n] != w.place[s.pcs[t].n] && Claimed(w.place[s.pcs[t].n]) ==> w.place[s.pcs[t].n].t == t)
    && (s'.next[s.pcs[t].n] != s.next[s.pcs[t].n] ==> w.place[s.pcs[t].n] == Ready(t))
    && NodeOk(s', w', s.pcs[t].n) && PcInRange(s'.pcs[t], |s.refs|) && ThreadOk(s', w', t)
    && s'.head == PtrAt(w'.list, 0)
    && (w'.list != w.list ==> s'.next == s.next)
    && (w'.list == [s.pcs[t].n] + w.list ==> s'.next[s.pcs[t].n] == PtrAt(w.list, 0) && s.pcs[t].n !in w.list)
  }

  lemma AddFetchSettles(s: State, w: Witness, t: nat)
    requires Here(s, w, t) && s.pcs[t].AddFetch?
    ensures Settled(s, w, RunStep(s, t), RunWitness(s, t, w), t)
  {
    var s', n := RunStep(s, t), s.pcs[t].n;
    RefsUpdate(s.pcs, t, s'.pcs[t], n);
    RefsBound(s.pcs, n);
  }

  lemma InsertSettles(s: State, w: Witness, t: nat)
    requires Here(s, w, t) && (s.pcs[t].InsLoad? || s.pcs[t].InsNext? || s.pcs[t].InsRefs?)
    ensures Settled(s, w, RunStep(s, t), RunWitness(s, t, w), t)
  {
    var s', n := RunStep(s, t), s.pcs[t].n;
    RefsUpdate(s.pcs, t, s'.pcs[t], n);
  }

  lemma InsCasSettles(s: State, w: Witness, t: nat)
    requires Here(s, w, t) && s.pcs[t].InsCas?
    ensures Settled(s, w, RunStep(s, t), RunWitness(s, t, w), t)
  {
    var s', n := RunStep(s, t), s.pcs[t].n;
    RefsUpdate(s.pcs, t, s'.pcs[t], n);
  }

  lemma InsBackSettles(s: State, w: Witness, t: nat)
    requires Here(s, w, t) && s.pcs[t].InsBack?
    ensures Settled(s, w, RunStep(s, t), RunWitness(s, t, w), t)
  {
    var s', n := RunStep(s, t), s.pcs[t].n;
    RefsUpdate(s.pcs, t, s'.pcs[t], n);
    RefsBound(s.pcs, n);
  }

  lemma GetReadSettles(s: State, w: Witness, t: nat)
    requires Here(s, w, t) && (s.pcs[t].GetRefs? || s.pcs[t].GetNext?)
    ensures Settled(s, w, RunStep(s, t), RunWitness(s, t, w), t)
  {
    var s', n := RunStep(s, t), s.pcs[t].n;
    RefsUpdate(s.pcs, t, s'.pcs[t], n);
  }

  lemma GetIncSettles(s: State, w: Witness, t: nat)
    requires Here(s, w, t) && s.pcs[t].GetInc?
    ensures Settled(s, w, RunStep(s, t), RunWitness(s, t, w), t)
  {
    var s', n := RunStep(s, t), s.pcs[t].n;
    RefsUpdate(s.pcs, t, s'.pcs[t], n);
    RefsBound(s.pcs, n);
  }

  lemma GetCasSettles(s: State, w: Witness, t: nat)
    requires Here(s, w, t) && s.pcs[t].GetCas?
    ensures Settled(s, w, RunStep(s, t), RunWitness(s, t, w), t)
  {
    var s', n := RunStep(s, t), s.pcs[t].n;
    RefsUpdate(s.pcs, t, s'.pcs[t], n);
  }

  lemma GetSub2Settles(s: State, w: Witness, t: nat)
    requires Here(s, w, t) && s.pcs[t].GetSub2?
    ensures Settled(s, w, RunStep(s, t), RunWitness(s, t, w), t)
  {
    var s', n := RunStep(s, t), s.pcs[t].n;
    RefsUpdate(s.pcs, t, s'.pcs[t], n);
    RefsBound(s.pcs, n);
    RefsPositive(s.pcs, t, n);
  }

  lemma GetSub1Settles(s: State, w: Witness, t: nat)
    requires Here(s, w, t) && s.pcs[t].GetSub1?
    ensures Settled(s, w, RunStep(s, t), RunWitness(s, t, w), t)
  {
    var s', n := RunStep(s, t), s.pcs[t].n;
    RefsUpdate(s.pcs, t, s'.pcs[t], n);
    RefsBound(s.pcs, n);
    RefsPositive(s.pcs, t, n);
  }

  lemma ThreadSettles(s: State, w: Witness, t: nat)
    requires Here(s, w, t)
    ensures Settled(s, w, RunStep(s, t), RunWitness(s, t, w), t)
  {
    match s.pcs[t]
    case AddFetch(_) => AddFetchSettles(s, w, t);
    case InsCas(_, _, _) => InsCasSettles(s, w, t);
    case InsBack(_, _, _) => InsBackSettles(s, w, t);
    case GetRefs(_) => GetReadSettles(s, w, t);
    case GetNext(_) => GetReadSettles(s, w, t);
    case GetInc(_, _) => GetIncSettles(s, w, t);
    case GetCas(_, _) => GetCasSettles(s, w, t);
    case GetSub2(_) => GetSub2Settles(s, w, t);
    case GetSub1(_, _) => GetSub1Settles(s, w, t);
    case _ => InsertSettles(s, w, t);
  }

  /** Starting `try_get`, and loading the head in it, touch no node. */
  lemma HeadLoadKeeps(s: State, t: nat, w: Witness, pc: Pc)
    requires Inv(s, w) && t < |s.pcs| && (s.pcs[t].Idle? || s.pcs[t].GetLoad?)
    requires pc.GetLoad? || pc == Top(s.head)
    ensures Inv(Goto(s, t, pc), w)
  {
    var s' := Goto(s, t, pc);
    forall n | 0 <= n < |s.refs| ensures NodeOk(s', w, n) {
      assert NodeOk(s, w, n);
      RefsUpdate(s.pcs, t, pc, n);
    }
    forall u | 0 <= u < |s.pcs| ensures PcInRange(s'.pcs[u], |s.refs|) && ThreadOk(s', w, u) {
      assert ThreadOk(s, w, u);
    }
  }

  lemma WalkKeeps(s: State, w: Witness, s': State, w': Witness, t: nat)
    requires Inv(s, w) && Settled(s, w, s', w', t)
    ensures Walk(s'.head, s'.next, w'.list)
  {
    var n := s.pcs[t].n;
    assert NodeOk(s, w, n);
    forall i | 0 <= i < |w'.list| ensures LinkOk(s'.next, w'.list, i) {
      if w'.list == w.list {
        assert LinkOk(s.next, w.list, i);
      } else if w'.list == [n] + w.list {
        if i > 0 { assert LinkOk(s.next, w.list, i - 1); }
      } else {
        assert LinkOk(s.next, w.list, i + 1);
      }
    }
    forall i, j | 0 <= i < j < |w'.list| ensures w'.list[i] != w'.list[j] {
      if w'.list == [n] + w.list {
        assert w'.list[j] == w.list[j - 1] && (i > 0 ==> w'.list[i] == w.list[i - 1]);
      } else if w.list == [n] + w'.list {
        assert w'.list[j] == w.list[j + 1] && w'.list[i] == w.list[i + 1];
      }
    }
  }

  lemma RunKeeps(s: State, t: nat, w: Witness)
    requires Inv(s, w) && Enabled(s, Run(t))
    ensures Inv(RunStep(s, t), RunWitness(s, t, w))
  {
    if s.pcs[t].GetLoad? {
      HeadLoadKeeps(s, t, w, Top(s.head));
    } else {
      var s', w', n := RunStep(s, t), RunWitness(s, t, w), s.pcs[t].n;
      assert NodeOk(s, w, n) && ThreadOk(s, w, t);
      if w.list != [] { assert LinkOk(s.next, w.list, 0); }
      ThreadSettles(s, w, t);
      WalkKeeps(s, w, s', w', t);
      LocalKeeps(s, w, s', w', t, n);
    }
  }

  /** Every atomic step of every thread keeps the invariant. */
  lemma StepKeepsInv(s: State, a: Action, w: Witness)
    requires Inv(s, w) && Enabled(s, a)
    ensures Inv(Step(s, a), NextWitness(s, a, w))
  {
    match a
    case Fresh => FreshKeeps(s, w);
    case CallAdd(t, n) => CallAddKeeps(s, t, n, w);
    case CallGet(t) => HeadLoadKeeps(s, t, w, GetLoad);
    case Run(t) => RunKeeps(s, t, w);
  }

  /** Any interleaving of fewer than 2^31 - 1 threads stays inside the invariant. */
  lemma {:induction false} ExecutionKeepsInv(run: seq<State>, acts: seq<Action>, i: nat) returns (w: Witness)
    requires Execution(run, acts) && |run[0].pcs| < SHOULD - 1 && i < |run|
    ensures Inv(run[i], w)
  {
    if i == 0 {
      w := Witness([], []);
    } else {
      var v := ExecutionKeepsInv(run, acts, i - 1);
      assert StepAt(run, acts, i - 1);
      StepKeepsInv(run[i - 1], acts[i - 1], v);
      w := NextWitness(run[i - 1], acts[i - 1], v);
    }
  }

  // ---------------------------------------------------------------------------------------------
  // What every execution guarantees

  /** The low 31 bits of a node's word count the list's reference and the references of `try_get`,
      and a thread about to return a node from `try_get` is alone with it: no client owns it, it is
      not on the list, no other thread is returning or inserting it, and the assertion of the source
      that SHOULD_BE_ON_FREELIST is clear holds. */
  lemma TakenNodeIsExclusive(run: seq<State>, acts: seq<Action>, i: nat, t: nat) returns (list: seq<nat>)
    requires Execution(run, acts) && |run[0].pcs| < SHOULD - 1 && i < |run|
    requires t < |run[i].pcs| && run[i].pcs[t].GetSub2?
    ensures Walk(run[i].head, run[i].next, list)
    ensures var s, n := run[i], run[i].pcs[t].n;
      && n < |s.refs| && n !in s.owned && n !in list
      && s.refs[n] == 1 + Refs(s.pcs, n) && s.refs[n] < SHOULD
      && forall u :: 0 <= u < |s.pcs| && u != t ==>
           (s.pcs[u].GetSub2? || s.pcs[u].AddFetch? || s.pcs[u].InsLoad? || s.pcs[u].InsNext?
            || s.pcs[u].InsRefs? || s.pcs[u].InsCas? || s.pcs[u].InsBack?) ==> s.pcs[u].n != n
  {
    var w := ExecutionKeepsInv(run, acts, i);
    var s, n := run[i], run[i].pcs[t].n;
    list := w.list;
    assert ThreadOk(s, w, t) && NodeOk(s, w, n);
    RefsBound(s.pcs, n);
    forall u | 0 <= u < |s.pcs| && u != t
      ensures (s.pcs[u].GetSub2? || s.pcs[u].AddFetch? || s.pcs[u].InsLoad? || s.pcs[u].InsNext?
               || s.pcs[u].InsRefs? || s.pcs[u].InsCas? || s.pcs[u].InsBack?) ==> s.pcs[u].n != n
    {
      assert ThreadOk(s, w, u);
    }
  }

  /** ABA safety: a head CAS that succeeds in `try_get` unlinks the first node and nothing else, however
      old the `next` it installs is; one that succeeds in an insertion puts its node in front. */
  lemma HeadCasIsExact(run: seq<State>, acts: seq<Action>, i: nat, t: nat) returns (list: seq<nat>)
    requires Execution(run, acts) && |run[0].pcs| < SHOULD - 1 && i < |acts| && acts[i] == Run(t)
    requires t < |run[i].pcs| && (run[i].pcs[t].GetCas? || run[i].pcs[t].InsCas?)
    ensures Walk(run[i].head, run[i].next, list)
    ensures run[i].pcs[t].GetCas? && run[i].head == To(run[i].pcs[t].n) ==>
              list != [] && run[i].pcs[t].n == list[0] < |run[i].next| && run[i].pcs[t].x == run[i].next[list[0]]
              && Walk(run[i + 1].head, run[i + 1].next, list[1..])
    ensures run[i].pcs[t].InsCas? && run[i].head == run[i].pcs[t].h ==>
              run[i].pcs[t].n !in list && Walk(run[i + 1].head, run[i + 1].next, [run[i].pcs[t].n] + list)
  {
    var w := ExecutionKeepsInv(run, acts, i);
    list := w.list;
    assert StepAt(run, acts, i) && PcInRange(run[i].pcs[t], |run[i].refs|);
    assert ThreadOk(run[i], w, t) && NodeOk(run[i], w, run[i].pcs[t].n);
    StepKeepsInv(run[i], acts[i], w);
  }

  /** Nothing is lost or duplicated: when no call is running, every node is either owned by a client
      with count 0 or on the list exactly once with count 1. */
  lemma QuiescentPartition(run: seq<State>, acts: seq<Action>, i: nat) returns (list: seq<nat>)
    requires Execution(run, acts) && |run[0].pcs| < SHOULD - 1 && i < |run|
    requires forall t :: 0 <= t < |run[i].pcs| ==> run[i].pcs[t].Idle?
    ensures Walk(run[i].head, run[i].next, list)
    ensures forall n :: 0 <= n < |run[i].refs| ==>
              (n in run[i].owned <==> n !in list) && run[i].refs[n] == if n in list then 1 else 0
  {
    var w := ExecutionKeepsInv(run, acts, i);
    list := w.list;
    forall n | 0 <= n < |run[i].refs|
      ensures (n in run[i].owned <==> n !in list) && run[i].refs[n] == if n in list then 1 else 0
    {
      assert NodeOk(run[i], w, n);
      RefsNone(run[i].pcs, n);
    }
  }

  /** The nodes a set of places accounts for. */
  ghost predicate InOnePlace(s: State, list: seq<nat>, n: nat) {
    || (n in s.owned && n !in list && forall t :: 0 <= t < |s.pcs| ==> !ResponsibleFor(s.pcs[t], n))
    || (n !in s.owned && n in list && forall t :: 0 <= t < |s.pcs| ==> !ResponsibleFor(s.pcs[t], n))
    || (n !in s.owned && n !in list && exists t :: 0 <= t < |s.pcs| && OnlyResponsible(s, t, n))
    || (n !in s.owned && n !in list && (forall t :: 0 <= t < |s.pcs| ==> !ResponsibleFor(s.pcs[t], n))
        && n < |s.refs| && s.refs[n] == SHOULD + Refs(s.pcs, n) && Refs(s.pcs, n) > 0)
  }

  /** The thread is adding, inserting or returning the node. */
  predicate ResponsibleFor(pc: Pc, n: nat) {
    (pc.AddFetch? || pc.InsLoad? || pc.InsNext? || pc.InsRefs? || pc.InsCas? || pc.InsBack? || pc.GetSub2?)
    && pc.n == n
  }

  predicate OnlyResponsible(s: State, t: nat, n: nat)
    requires t < |s.pcs|
  {
    ResponsibleFor(s.pcs[t], n) && forall u :: 0 <= u < |s.pcs| && ResponsibleFor(s.pcs[u], n) ==> u == t
  }

  /** At every moment each node is in exactly one place: with a client, on the list, in the hands of
      exactly one thread, or marked SHOULD_BE_ON_FREELIST and left to the last reference holder. */
  lemma EveryNodeInOnePlace(run: seq<State>, acts: seq<Action>, i: nat) returns (list: seq<nat>)
    requires Execution(run, acts) && |run[0].pcs| < SHOULD - 1 && i < |run|
    ensures Walk(run[i].head, run[i].next, list)
    ensures forall n :: 0 <= n < |run[i].refs| ==> InOnePlace(run[i], list, n)
  {
    var w := ExecutionKeepsInv(run, acts, i);
    var s := run[i];
    list := w.list;
    forall n | 0 <= n < |s.refs| ensures InOnePlace(s, list, n) {
      assert NodeOk(s, w, n);
      forall t | 0 <= t < |s.pcs| && ResponsibleFor(s.pcs[t], n) ensures Claimed(w.place[n]) && w.place[n].t == t {
        assert ThreadOk(s, w, t);
      }
      if Claimed(w.place[n]) {
        assert OnlyResponsible(s, w.place[n].t, n);
      }
    }
  }

  // ---------------------------------------------------------------------------------------------
  // The list as a set

  /** The nodes that clients have handed in and not got back. */
  ghost function Free(s: State): set<nat> { set n | 0 <= n < |s.refs| && n !in s.owned }

  /** What a step does to the set of free nodes: a call of `add` puts one in that was not there, the last step of
      a successful `try_get` takes one out that was there, and no other step changes it. */
  ghost predicate ActsOnSet(s: State, a: Action, s': State) {
    match a
    case Fresh => Free(s') == Free(s) && s'.owned == s.owned + {|s.refs|}
    case CallAdd(_, n) => n !in Free(s) && Free(s') == Free(s) + {n} && s'.owned == s.owned - {n}
    case CallGet(_) => Free(s') == Free(s) && s'.owned == s.owned
    case Run(t) =>
      t < |s.pcs| &&
      if s.pcs[t].GetSub2? then
        var n := s.pcs[t].n;
        n in Free(s) && Free(s') == Free(s) - {n} && s'.owned == s.owned + {n}
      else Free(s') == Free(s) && s'.owned == s.owned
  }

  lemma GetTakesFree(s: State, w: Witness, t: nat)
    requires Inv(s, w) && t < |s.pcs| && s.pcs[t].GetSub2?
    ensures ActsOnSet(s, Run(t), RunStep(s, t))
  {
    var n := s.pcs[t].n;
    assert PcInRange(s.pcs[t], |s.refs|) && ThreadOk(s, w, t) && NodeOk(s, w, n);
    assert Free(RunStep(s, t)) == Free(s) - {n};
  }

  lemma OtherRunsLeaveSet(s: State, t: nat)
    requires WellFormed(s) && t < |s.pcs| && !s.pcs[t].GetSub2?
    ensures ActsOnSet(s, Run(t), RunStep(s, t))
  {
    assert PcInRange(s.pcs[t], |s.refs|);
  }

  lemma StepActsOnSet(s: State, a: Action, w: Witness)
    requires Inv(s, w) && Enabled(s, a)
    ensures ActsOnSet(s, a, Step(s, a))
  {
    match a
    case Fresh => assert Free(Step(s, a)) == Free(s);
    case CallAdd(t, n) => assert Free(Step(s, a)) == Free(s) + {n};
    case CallGet(t) =>
    case Run(t) => if s.pcs[t].GetSub2? { GetTakesFree(s, w, t); } else { OtherRunsLeaveSet(s, t); }
  }

  /** Seen from its clients, the list is a set with an atomic add and an atomic take. */
  lemma IsASet(run: seq<State>, acts: seq<Action>, i: nat)
    requires Execution(run, acts) && |run[0].pcs| < SHOULD - 1 && i < |acts|
    ensures ActsOnSet(run[i], acts[i], run[i + 1])
  {
    var w := ExecutionKeepsInv(run, acts, i);
    assert StepAt(run, acts, i);
    StepActsOnSet(run[i], acts[i], w);
  }

  // ---------------------------------------------------------------------------------------------
  // Calls that run alone

  /** Thread `t` running alone until its call returns, for at most `k` steps. */
  ghost function Solo(s: State, t: nat, k: nat): State
    decreases k
  {
    if k == 0 || t >= |s.pcs| || s.pcs[t].Idle? || |s.next| != |s.refs| || !PcInRange(s.pcs[t], |s.refs|) then s
    else Solo(RunStep(s, t), t, k - 1)
  }

  ghost predicate OthersIdle(s: State, t: nat) { forall u :: 0 <= u < |s.pcs| && u != t ==> s.pcs[u].Idle? }

  lemma AloneCounts(s: State, w: Witness, t: nat, n: nat)
    requires Inv(s, w) && t < |s.pcs| && s.pcs[t].Idle? && OthersIdle(s, t) && n < |s.refs|
    ensures w.place[n].Owned? || w.place[n].Listed?
    ensures s.refs[n] == if w.place[n].Listed? then 1 else 0
  {
    RefsNone(s.pcs, n);
    assert NodeOk(s, w, n);
  }

  /** The steps of `try_get` on a node that nobody else refers to. */
  lemma SoloTakes(s: State, t: nat, n: nat, k: nat)
    requires t < |s.pcs| && s.pcs[t] == GetRefs(n) && n < |s.refs| == |s.next| && s.head == To(n) && s.refs[n] == 1
    requires PtrInRange(s.next[n], |s.refs|) && k >= 5
    ensures Solo(s, t, k) == s.(head := s.next[n], refs := s.refs[n := 0], owned := s.owned + {n},
                                pcs := s.pcs[t := Idle])
  {
    var s1 := s.(pcs := s.pcs[t := GetInc(n, 1)]);
    var s2 := s.(refs := s.refs[n := 2], pcs := s.pcs[t := GetNext(n)]);
    var s3 := s2.(pcs := s.pcs[t := GetCas(n, s.next[n])]);
    var s4 := s3.(head := s.next[n], pcs := s.pcs[t := GetSub2(n)]);
    var s5 := s4.(refs := s.refs[n := 0], owned := s.owned + {n}, pcs := s.pcs[t := Idle]);
    assert RunStep(s, t) == s1;
    assert RunStep(s1, t) == s2;
    assert RunStep(s2, t) == s3;
    assert RunStep(s3, t) == s4;
    assert RunStep(s4, t) == s5;
    assert Solo(s, t, k) == Solo(s1, t, k - 1) == Solo(s2, t, k - 2) == Solo(s3, t, k - 3);
    assert Solo(s3, t, k - 3) == Solo(s4, t, k - 4) == Solo(s5, t, k - 5) == s5;
  }

  /** A `try_get` that runs alone takes the first node of the list, if there is one, and nothing otherwise. */
  lemma SoloGetIsExact(s: State, w: Witness, t: nat, k: nat)
    requires Inv(s, w) && t < |s.pcs| && s.pcs[t].Idle? && OthersIdle(s, t) && k >= 6
    ensures var r := Solo(Step(s, CallGet(t)), t, k);
      if w.list == [] then r == s
      else
        var n := w.list[0];
        && r.pcs == s.pcs && r.owned == s.owned + {n} && n !in s.owned && n < |s.refs| && r.refs == s.refs[n := 0]
        && Walk(r.head, r.next, w.list[1..])
  {
    var s1 := Step(s, CallGet(t));
    var s2 := s.(pcs := s.pcs[t := Top(s.head)]);
    assert s1.pcs[t := Top(s.head)] == s2.pcs;
    assert RunStep(s1, t) == s2 && Solo(s1, t, k) == Solo(s2, t, k - 1);
    if w.list == [] {
      assert s2.pcs == s.pcs && Solo(s2, t, k - 1) == s2;
    } else {
      var n := w.list[0];
      assert LinkOk(s.next, w.list, 0) && NodeOk(s, w, n);
      AloneCounts(s, w, t, n);
      SoloTakes(s2, t, n, k - 1);
      assert s2.pcs[t := Idle] == s.pcs;
      WalkRest(s.next, w.list);
    }
  }

  lemma WalkRest(next: seq<Ptr>, list: seq<nat>)
    requires list != [] && Walk(PtrAt(list, 0), next, list)
    ensures list[0] < |next| && Walk(next[list[0]], next, list[1..])
  {
    var rest := list[1..];
    assert LinkOk(next, list, 0);
    forall i | 0 <= i < |rest| ensures LinkOk(next, rest, i) { assert LinkOk(next, list, i + 1); }
  }

  /** The steps of `add` on a node that nobody else refers to. */
  lemma SoloInserts(s: State, t: nat, n: nat, k: nat)
    requires t < |s.pcs| && s.pcs[t] == AddFetch(n) && n < |s.refs| == |s.next| && s.refs[n] == 0
    requires PtrInRange(s.head, |s.refs|) && k >= 5
    ensures Solo(s, t, k)
         == s.(head := To(n), refs := s.refs[n := 1], next := s.next[n := s.head], pcs := s.pcs[t := Idle])
  {
    var s1 := s.(refs := s.refs[n := SHOULD], pcs := s.pcs[t := InsLoad(n, FromAdd)]);
    var s2 := s1.(pcs := s.pcs[t := InsNext(n, s.head, FromAdd)]);
    var s3 := s2.(next := s.next[n := s.head], pcs := s.pcs[t := InsRefs(n, s.head, FromAdd)]);
    var s4 := s3.(refs := s.refs[n := 1], pcs := s.pcs[t := InsCas(n, s.head, FromAdd)]);
    var s5 := s4.(head := To(n), pcs := s.pcs[t := Idle]);
    assert RunStep(s, t) == s1;
    assert RunStep(s1, t) == s2;
    assert RunStep(s2, t) == s3;
    assert RunStep(s3, t) == s4;
    assert RunStep(s4, t) == s5;
    assert Solo(s, t, k) == Solo(s1, t, k - 1) == Solo(s2, t, k - 2) == Solo(s3, t, k - 3);
    assert Solo(s3, t, k - 3) == Solo(s4, t, k - 4) == Solo(s5, t, k - 5) == s5;
  }

  /** An `add` that runs alone puts its node at the front of the list. */
  lemma SoloAddIsExact(s: State, w: Witness, t: nat, n: nat, k: nat)
    requires Inv(s, w) && t < |s.pcs| && s.pcs[t].Idle? && OthersIdle(s, t) && n in s.owned && n < |s.refs| && k >= 5
    ensures var r := Solo(Step(s, CallAdd(t, n)), t, k);
      && r.pcs == s.pcs && r.owned == s.owned - {n} && r.refs == s.refs[n := 1]
      && Walk(r.head, r.next, [n] + w.list)
  {
    var s1 := Step(s, CallAdd(t, n));
    assert NodeOk(s, w, n);
    AloneCounts(s, w, t, n);
    SoloInserts(s1, t, n, k);
    assert s1.pcs[t := Idle] == s.pcs;
    WalkLonger(s.head, s.next, w.list, n);
  }

  lemma WalkLonger(head: Ptr, next: seq<Ptr>, list: seq<nat>, n: nat)
    requires Walk(head, next, list) && n !in list && n < |next|
    ensures Walk(To(n), next[n := head], [n] + list)
  {
    var next', list' := next[n := head], [n] + list;
    forall i | 0 <= i < |list'| ensures LinkOk(next', list', i) {
      if i > 0 {
        assert LinkOk(next, list, i - 1);
        assert list[i - 1] in list;
      }
    }
    forall i, j | 0 <= i < j < |list'| ensures list'[i] != list'[j] {
      assert list'[j] == list[j - 1] && list[j - 1] in list;
      if i > 0 { assert list'[i] == list[i - 1]; }
    }
  }

  // ---------------------------------------------------------------------------------------------
  // A failed try_get

  /** A thread inside `try_get`, with or without the insertion of a node that it found flagged. */
  predicate Getting(pc: Pc) {
    match pc
    case Idle => false
    case AddFetch(_) => false
    case InsLoad(_, k) => k.FromGet?
    case InsNext(_, _, k) => k.FromGet?
    case InsRefs(_, _, k) => k.FromGet?
    case InsCas(_, _, k) => k.FromGet?
    case InsBack(_, _, k) => k.FromGet?
    case _ => true
  }

  /** It has loaded a null head and will end with it. */
  predicate SawNull(pc: Pc) {
    match pc
    case GetSub1(_, h) => h.Null?
    case InsLoad(_, k) => k == FromGet(Null)
    case InsNext(_, _, k) => k == FromGet(Null)
    case InsRefs(_, _, k) => k == FromGet(Null)
    case InsCas(_, _, k) => k == FromGet(Null)
    case InsBack(_, _, k) => k == FromGet(Null)
    case _ => false
  }

  /** In some state from i on and before j the list was empty. */
  ghost predicate WasEmpty(run: seq<State>, i: nat, j: nat) { exists m :: i <= m < j && m < |run| && run[m].head.Null? }

  lemma GetStep(s: State, t: nat)
    requires WellFormed(s) && t < |s.pcs| && Getting(s.pcs[t])
    ensures var pc := RunStep(s, t).pcs[t];
      && (pc.Idle? ==> s.pcs[t].GetSub2? || SawNull(s.pcs[t]) || s.head.Null?)
      && (!pc.Idle? ==> Getting(pc) && (SawNull(pc) ==> SawNull(s.pcs[t]) || s.head.Null?))
  {
    assert PcInRange(s.pcs[t], |s.refs|);
  }

  lemma OthersLeavePc(s: State, a: Action, t: nat)
    requires WellFormed(s) && Enabled(s, a) && t < |s.pcs| && !s.pcs[t].Idle? && a != Run(t)
    ensures var s' := Step(s, a); |s'.pcs| == |s.pcs| && s'.pcs[t] == s.pcs[t]
  {
    if a.Run? { assert PcInRange(s.pcs[a.t], |s.refs|); }
  }

  lemma CallStep(s: State, a: Action, t: nat)
    requires WellFormed(s) && Enabled(s, a) && t < |s.pcs| && Getting(s.pcs[t])
    ensures t < |Step(s, a).pcs| && var pc := Step(s, a).pcs[t];
      && (pc.Idle? ==> a == Run(t) && (s.pcs[t].GetSub2? || SawNull(s.pcs[t]) || s.head.Null?))
      && (!pc.Idle? ==> Getting(pc) && (SawNull(pc) ==> SawNull(s.pcs[t]) || s.head.Null?))
  {
    if a == Run(t) { GetStep(s, t); } else { OthersLeavePc(s, a, t); }
  }

  lemma EmptyUntil(run: seq<State>, i: nat, j: nat)
    requires i < j <= |run|
    ensures run[j - 1].head.Null? || WasEmpty(run, i, j - 1) ==> WasEmpty(run, i, j)
  {
    if WasEmpty(run, i, j - 1) {
      var m :| i <= m < j - 1 && m < |run| && run[m].head.Null?;
    }
  }

  /** Thread `t` from its call of `try_get` in step i until state j. */
  ghost predicate InCall(run: seq<State>, acts: seq<Action>, i: nat, j: nat, t: nat) {
    && Execution(run, acts) && i < j < |run| && acts[i] == CallGet(t) && t < |run[i].pcs|
    && forall m :: i < m < j ==> t < |run[m].pcs| && !run[m].pcs[t].Idle?
  }

  lemma {:induction false} NullWasSeen(run: seq<State>, acts: seq<Action>, i: nat, j: nat, t: nat)
    requires InCall(run, acts, i, j, t) && t < |run[j].pcs| && !run[j].pcs[t].Idle?
    ensures Getting(run[j].pcs[t]) && (SawNull(run[j].pcs[t]) ==> WasEmpty(run, i, j))
    decreases j
  {
    assert StepAt(run, acts, j - 1);
    if i + 1 < j {
      NullWasSeen(run, acts, i, j - 1, t);
      CallStep(run[j - 1], acts[j - 1], t);
      EmptyUntil(run, i, j);
    }
  }

  /** A `try_get` comes back without a node only if the list was empty at some moment of the call. */
  lemma FailedGetSawEmpty(run: seq<State>, acts: seq<Action>, i: nat, j: nat, t: nat)
    requires InCall(run, acts, i, j, t) && t < |run[j].pcs| && run[j].pcs[t].Idle?
    ensures i + 1 < j && acts[j - 1] == Run(t) && t < |run[j - 1].pcs|
    ensures if run[j - 1].pcs[t].GetSub2? then run[j].owned == run[j - 1].owned + {run[j - 1].pcs[t].n}
            else WasEmpty(run, i, j)
  {
    assert StepAt(run, acts, j - 1);
    if i + 1 < j {
      NullWasSeen(run, acts, i, j - 1, t);
      CallStep(run[j - 1], acts[j - 1], t);
      EmptyUntil(run, i, j);
    }
  }
}
