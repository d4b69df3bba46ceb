/** Whole calls of the thread-to-producer table: a call that runs alone and is granted memory returns a producer within
    a bound on its steps, and a call only waits while another thread holds the resize lock. */
module ProducerHashCalls {
  import opened Options
  import opened ProducerHash

  // ---------------------------------------------------------------- a call that runs alone

  ghost predicate HasProducer(s: State, t: Thread) {
    t in s.pcs && t in s.mine && s.pcs[t] == Idle(Got(Some(s.mine[t])))
  }

  /** A step of thread `t` inside its call, granted memory. */
  ghost predicate Goes(s: State, t: Thread, s': State) {
    t in s.pcs && !s.pcs[t].Idle? && |s.tables| > 0 && InRange(s, s.pcs[t]) && s' == Step(s, t, true)
  }

  ghost predicate GoesAt(steps: seq<State>, t: Thread, i: nat) { i + 1 < |steps| && Goes(steps[i], t, steps[i + 1]) }

  ghost predicate Leads(steps: seq<State>, s: State, t: Thread, k: nat, r: State) {
    |steps| == k + 1 && steps[0] == s && steps[k] == r && forall i :: 0 <= i < k ==> GoesAt(steps, t, i)
  }

  /** After `k` steps of thread `t` alone its call has returned a producer. */
  ghost predicate Returns(s: State, t: Thread, k: nat, r: State) {
    HasProducer(r, t) && exists steps :: Leads(steps, s, t, k, r)
  }

  /** What `s'` leads to in k steps, `s` leads to in one more. */
  ghost predicate Precedes(s: State, t: Thread, s': State) {
    forall k: nat, r :: Returns(s', t, k, r) ==> Returns(s, t, k + 1, r)
  }

  lemma StepPrecedes(s: State, t: Thread, s': State)
    requires Goes(s, t, s')
    ensures Precedes(s, t, s')
  {
    forall k: nat, r | Returns(s', t, k, r) ensures Returns(s, t, k + 1, r) {
      var steps :| Leads(steps, s', t, k, r);
      var all := [s] + steps;
      forall i | 0 <= i < k + 1 ensures GoesAt(all, t, i) {
        if i > 0 { assert GoesAt(steps, t, i - 1); }
      }
      assert Leads(all, s, t, k + 1, r);
    }
  }

  /** The next step inside a call, with what it keeps. */
  lemma NextStep(s: State, t: Thread) returns (s': State)
    requires Inv(s) && t in s.pcs && !s.pcs[t].Idle?
    ensures InRange(s, s.pcs[t]) && s' == Step(s, t, true) && Inv(s') && t in s'.pcs && Precedes(s, t, s')
  {
    StepKeepsInv(s, t, true);
    s' := Step(s, t, true);
    StepPrecedes(s, t, s');
  }

  ghost function LastCap(s: State): nat { if s.tables == [] then 0 else s.tables[|s.tables| - 1].capacity }

  lemma MainIsNoLarger(s: State, m: nat)
    requires CapsOk(s.tables) && m < |s.tables|
    ensures s.tables[m].capacity <= LastCap(s)
  {
    assert m < |s.tables| - 1 ==> NoLarger(s.tables, m, |s.tables| - 1);
  }

  /** A probe always has slots before it. */
  lemma ProbeHasRoom(s: State, t: Thread)
    requires Inv(s) && t in s.pcs && (s.pcs[t].Look? || s.pcs[t].Put? || s.pcs[t].PutCas?)
    ensures var pc := s.pcs[t]; ProbedTable(pc) < |s.tables| && pc.i < s.tables[ProbedTable(pc)].capacity
  {
    var pc := s.pcs[t];
    assert PcOk(s, t, pc);
    var j := ProbedTable(pc);
    assert CellsOk(s.tables[j], s.counted, s.mine) && TableOk(s.tables[j]);
    PathIsShort(s.tables[j], t, pc.i);
    TableHasRoom(s.tables[j], s.count, s.counted, s.mine);
  }

  // ---------------------------------------------------------------- inserting

  ghost predicate InPut(s: State, t: Thread) { t in s.pcs && (s.pcs[t].Put? || s.pcs[t].PutCas?) }

  /** How many steps the insertion loop has at most before it stores the producer. */
  ghost function PutLeft(s: State, t: Thread): int {
    if !InPut(s, t) || s.pcs[t].main >= |s.tables| then 0
    else 2 * (s.tables[s.pcs[t].main].capacity - s.pcs[t].i) + if s.pcs[t].Put? then 1 else 0
  }

  lemma PutNext(s: State, t: Thread) returns (s': State)
    requires Inv(s) && InPut(s, t)
    ensures Precedes(s, t, s') && Inv(s') && LastCap(s') == LastCap(s) && 0 < PutLeft(s, t)
    ensures (InPut(s', t) || (t in s'.pcs && s'.pcs[t].PutValue?)) && PutLeft(s', t) < PutLeft(s, t)
  {
    ProbeHasRoom(s, t);
    s' := NextStep(s, t);
  }

  lemma PutValueNext(s: State, t: Thread) returns (r: State)
    requires Inv(s) && t in s.pcs && s.pcs[t].PutValue?
    ensures Precedes(s, t, r) && HasProducer(r, t) && LastCap(r) == LastCap(s)
  {
    assert PcOk(s, t, s.pcs[t]);
    r := NextStep(s, t);
  }

  lemma AtOnce(r: State, t: Thread)
    requires HasProducer(r, t)
    ensures Returns(r, t, 0, r)
  {
    assert Leads([r], r, t, 0, r);
  }

  /** The insertion loop, alone. */
  lemma {:induction false} PutReturns(s: State, t: Thread, n: int) returns (k: nat, r: State)
    requires Inv(s) && InPut(s, t) && n == PutLeft(s, t)
    ensures Returns(s, t, k, r) && LastCap(r) == LastCap(s) && k <= n + 1
    decreases n
  {
    var s' := PutNext(s, t);
    if InPut(s', t) {
      k, r := PutReturns(s', t, PutLeft(s', t));
    } else {
      r := PutValueNext(s', t);
      AtOnce(r, t);
      k := 1;
    }
    k := k + 1;
  }

  /** A thread that may create a producer. */
  ghost predicate Roomy(s: State, pc: Pc) {
    (pc.Check? || pc.Unlock?) && pc.main < |s.tables| && pc.n < Limit(s.tables[pc.main].capacity)
  }

  lemma CreateNext(s: State, t: Thread) returns (s': State)
    requires Inv(s) && t in s.pcs && s.pcs[t].Create?
    ensures Precedes(s, t, s') && Inv(s') && LastCap(s') == LastCap(s)
    ensures InPut(s', t) && PutLeft(s', t) <= 2 * LastCap(s') + 1
  {
    assert PcOk(s, t, s.pcs[t]);
    MainIsNoLarger(s, s.pcs[t].main);
    s' := NextStep(s, t);
  }

  lemma CheckNext(s: State, t: Thread) returns (s': State)
    requires Inv(s) && t in s.pcs && s.pcs[t].Check? && Roomy(s, s.pcs[t])
    ensures Precedes(s, t, s') && Inv(s') && LastCap(s') == LastCap(s) && t in s'.pcs && s'.pcs[t].Create?
  {
    s' := NextStep(s, t);
  }

  lemma UnlockNext(s: State, t: Thread) returns (s': State)
    requires Inv(s) && t in s.pcs && s.pcs[t].Unlock? && Roomy(s, s.pcs[t])
    ensures Precedes(s, t, s') && Inv(s') && LastCap(s') == LastCap(s)
    ensures t in s'.pcs && s'.pcs[t].Check? && Roomy(s', s'.pcs[t])
  {
    s' := NextStep(s, t);
  }

  /** A thread that passes the three-quarters test gets its producer. */
  lemma CheckReturns(s: State, t: Thread) returns (k: nat, r: State)
    requires Inv(s) && t in s.pcs && s.pcs[t].Check? && Roomy(s, s.pcs[t])
    ensures Returns(s, t, k, r) && LastCap(r) == LastCap(s) && k <= 2 * LastCap(r) + 4
  {
    var s1 := CheckNext(s, t);
    var s2 := CreateNext(s1, t);
    k, r := PutReturns(s2, t, PutLeft(s2, t));
    k := k + 2;
  }

  lemma UnlockReturns(s: State, t: Thread) returns (k: nat, r: State)
    requires Inv(s) && t in s.pcs && s.pcs[t].Unlock? && Roomy(s, s.pcs[t])
    ensures Returns(s, t, k, r) && LastCap(r) == LastCap(s) && k <= 2 * LastCap(r) + 5
  {
    var s1 := UnlockNext(s, t);
    k, r := CheckReturns(s1, t);
    k := k + 1;
  }

  // ---------------------------------------------------------------- growing

  lemma HalfIsBelowLimit(n: nat, capacity: nat)
    requires n < capacity / 2
    ensures n < Limit(capacity)
  {
  }

  lemma GrowNext(s: State, t: Thread) returns (s': State)
    requires Inv(s) && t in s.pcs && s.pcs[t].Grow?
    ensures Precedes(s, t, s') && Inv(s') && LastCap(s) <= LastCap(s')
    ensures t in s'.pcs && s'.pcs[t].Unlock? && Roomy(s', s'.pcs[t])
  {
    GrownTableIsRoomy(s, t);
    assert PcOk(s, t, s.pcs[t]);
    s' := NextStep(s, t);
  }

  /** With the lock in hand the table is grown if it has to be. */
  lemma ReloadNext(s: State, t: Thread) returns (s': State)
    requires Inv(s) && t in s.pcs && s.pcs[t].Reload?
    ensures Precedes(s, t, s') && Inv(s') && LastCap(s') == LastCap(s) && t in s'.pcs
    ensures s'.pcs[t].Grow? || (s'.pcs[t].Unlock? && Roomy(s', s'.pcs[t]))
  {
    s' := NextStep(s, t);
    if s.pcs[t].n < LastCap(s) / 2 { HalfIsBelowLimit(s.pcs[t].n, LastCap(s)); }
  }

  lemma ReloadReturns(s: State, t: Thread) returns (k: nat, r: State)
    requires Inv(s) && t in s.pcs && s.pcs[t].Reload?
    ensures Returns(s, t, k, r) && LastCap(s) <= LastCap(r) && k <= 2 * LastCap(r) + 7
  {
    var s1 := ReloadNext(s, t);
    if s1.pcs[t].Grow? {
      var s2 := GrowNext(s1, t);
      k, r := UnlockReturns(s2, t);
      k := k + 1;
    } else {
      k, r := UnlockReturns(s1, t);
    }
    k := k + 1;
  }

  /** With the lock free a thread takes it when the table is half full, and else passes the test. */
  lemma DecideNext(s: State, t: Thread) returns (s': State)
    requires Inv(s) && t in s.pcs && s.pcs[t].Decide? && s.holder.None?
    ensures Precedes(s, t, s') && Inv(s') && LastCap(s') == LastCap(s) && t in s'.pcs
    ensures s'.pcs[t].Reload? || (s'.pcs[t].Check? && Roomy(s', s'.pcs[t]))
  {
    assert PcOk(s, t, s.pcs[t]);
    s' := NextStep(s, t);
    if s.pcs[t].n < s.tables[s.pcs[t].main].capacity / 2 {
      HalfIsBelowLimit(s.pcs[t].n, s.tables[s.pcs[t].main].capacity);
    }
  }

  lemma CountNext(s: State, t: Thread) returns (s': State)
    requires Inv(s) && t in s.pcs && s.pcs[t].Count?
    ensures Precedes(s, t, s') && Inv(s') && LastCap(s') == LastCap(s) && s'.holder == s.holder
    ensures t in s'.pcs && s'.pcs[t].Decide?
  {
    s' := NextStep(s, t);
  }

  lemma CountReturns(s: State, t: Thread) returns (k: nat, r: State)
    requires Inv(s) && t in s.pcs && s.pcs[t].Count? && s.holder.None?
    ensures Returns(s, t, k, r) && LastCap(s) <= LastCap(r) && k <= 2 * LastCap(r) + 9
  {
    var s1 := CountNext(s, t);
    k, r := DecideReturns(s1, t);
    k := k + 1;
  }

  lemma DecideReturns(s: State, t: Thread) returns (k: nat, r: State)
    requires Inv(s) && t in s.pcs && s.pcs[t].Decide? && s.holder.None?
    ensures Returns(s, t, k, r) && LastCap(s) <= LastCap(r) && k <= 2 * LastCap(r) + 8
  {
    var s1 := DecideNext(s, t);
    if s1.pcs[t].Reload? { k, r := ReloadReturns(s1, t); } else { k, r := CheckReturns(s1, t); }
    k := k + 1;
  }

  // ---------------------------------------------------------------- looking up

  ghost function Caps(tables: seq<Table>): nat {
    if tables == [] then 0 else Caps(tables[..|tables| - 1]) + tables[|tables| - 1].capacity
  }

  ghost predicate InLook(s: State, t: Thread) { t in s.pcs && s.pcs[t].Look? && s.pcs[t].table < |s.tables| }

  /** How many slots the lookup has at most before it, in this table and the earlier ones. */
  ghost function LookLeft(s: State, t: Thread): int {
    if !InLook(s, t) then 0 else Caps(s.tables[..s.pcs[t].table + 1]) - s.pcs[t].i
  }

  lemma LookSpends(tables: seq<Table>, j: nat, i: nat)
    requires j < |tables| && i < tables[j].capacity
    ensures Caps(tables[..j + 1]) - i > 0 && Caps(tables[..j]) < Caps(tables[..j + 1]) - i
  {
    assert tables[..j + 1][..j] == tables[..j];
  }

  /** A step of the lookup goes on in this table or the one before, finds the thread's slot, or finds that there is
      none. */
  lemma LookStepIs(s: State, t: Thread, m: nat, j: nat, i: nat)
    requires j <= m < |s.tables|
    ensures var s' := LookStep(s, t, m, j, i);
            && s'.tables == s.tables && s'.holder == s.holder && s'.mine == s.mine && t in s'.pcs
            && (|| s'.pcs[t] == Look(m, j, i + 1)
                || (j > 0 && s'.pcs[t] == Look(m, j - 1, 0))
                || s'.pcs[t] == Count(m)
                || (s'.pcs[t].Idle? && s'.pcs[t].result.Got?)
                || (s'.pcs[t].Put? && s'.pcs[t].main == m && s'.pcs[t].i == 0))
  {
  }

  /** Where a lookup can be after its next step. */
  ghost predicate LookWent(s: State, s': State, t: Thread) {
    || (InLook(s', t) && LookLeft(s', t) < LookLeft(s, t))
    || HasProducer(s', t)
    || (InPut(s', t) && PutLeft(s', t) <= 2 * LastCap(s') + 1)
    || (t in s'.pcs && s'.pcs[t].Count?)
  }

  lemma LookGoesOn(s: State, s': State, t: Thread, pc: Pc)
    requires t in s.pcs && s.pcs[t] == pc && pc.Look? && pc.table <= pc.main < |s.tables| && s'.tables == s.tables
    requires pc.i < s.tables[pc.table].capacity && s.tables[pc.main].capacity <= LastCap(s) && t in s'.pcs
    requires || s'.pcs[t] == Look(pc.main, pc.table, pc.i + 1)
             || (pc.table > 0 && s'.pcs[t] == Look(pc.main, pc.table - 1, 0))
             || (s'.pcs[t].Put? && s'.pcs[t].main == pc.main && s'.pcs[t].i == 0)
             || HasProducer(s', t)
             || s'.pcs[t].Count?
    ensures InLook(s, t) && LookLeft(s, t) > 0 && LookWent(s, s', t)
  {
    LookSpends(s.tables, pc.table, pc.i);
  }

  lemma GotIsMine(s: State, t: Thread)
    requires Inv(s) && t in s.pcs && s.pcs[t].Idle? && s.pcs[t].result.Got?
    ensures HasProducer(s, t)
  {
    assert PcOk(s, t, s.pcs[t]);
  }

  lemma LookIsInRange(s: State, t: Thread)
    requires Inv(s) && t in s.pcs && s.pcs[t].Look?
    ensures var pc := s.pcs[t];
            && pc.table <= pc.main < |s.tables| && pc.i < s.tables[pc.table].capacity
            && s.tables[pc.main].capacity <= LastCap(s)
  {
    ProbeHasRoom(s, t);
    assert PcOk(s, t, s.pcs[t]);
    MainIsNoLarger(s, s.pcs[t].main);
  }

  lemma LookNext(s: State, t: Thread) returns (s': State)
    requires Inv(s) && t in s.pcs && s.pcs[t].Look?
    ensures Precedes(s, t, s') && Inv(s') && LastCap(s') == LastCap(s) && s'.holder == s.holder
    ensures LookLeft(s, t) > 0 && LookWent(s, s', t)
  {
    LookIsInRange(s, t);
    s' := NextStep(s, t);
    var pc := s.pcs[t];
    LookStepIs(s, t, pc.main, pc.table, pc.i);
    if s'.pcs[t].Idle? { GotIsMine(s', t); }
    LookGoesOn(s, s', t, pc);
  }

  lemma {:induction false} LookReturns(s: State, t: Thread, n: int) returns (k: nat, r: State)
    requires Inv(s) && t in s.pcs && s.pcs[t].Look? && s.holder.None? && n == LookLeft(s, t)
    ensures Returns(s, t, k, r) && LastCap(s) <= LastCap(r) && k <= n + 2 * LastCap(r) + 9
    decreases n
  {
    var s' := LookNext(s, t);
    if InLook(s', t) {
      k, r := LookReturns(s', t, LookLeft(s', t));
    } else {
      k, r := FoundReturns(s', t);
    }
    k := k + 1;
  }

  /** The lookup is over. */
  lemma FoundReturns(s: State, t: Thread) returns (k: nat, r: State)
    requires Inv(s) && s.holder.None?
    requires HasProducer(s, t) || (InPut(s, t) && PutLeft(s, t) <= 2 * LastCap(s) + 1)
             || (t in s.pcs && s.pcs[t].Count?)
    ensures Returns(s, t, k, r) && LastCap(s) <= LastCap(r) && k <= 2 * LastCap(r) + 9
  {
    if HasProducer(s, t) {
      AtOnce(s, t);
      k, r := 0, s;
    } else if InPut(s, t) {
      k, r := PutReturns(s, t, PutLeft(s, t));
    } else {
      k, r := CountReturns(s, t);
    }
  }

  /** A call that runs alone, with the lock free and memory granted, returns a producer: after at most one step for each
      slot of the tables there were, two for each of the largest table, and ten more. */
  lemma SoloCallReturns(s: State, t: Thread) returns (k: nat, r: State)
    requires Inv(s) && t in s.pcs && s.pcs[t].Idle? && s.holder.None?
    ensures InRange(s, s.pcs[t]) && Returns(Step(s, t, true), t, k, r)
    ensures LastCap(s) <= LastCap(r) && k <= Caps(s.tables) + 2 * LastCap(r) + 9
  {
    StepKeepsInv(s, t, true);
    var s' := Step(s, t, true);
    assert s'.tables[..|s'.tables|] == s.tables;
    k, r := LookReturns(s', t, LookLeft(s', t));
  }

  // ---------------------------------------------------------------- waiting

  /** The program counters of a thread that holds the resize lock. */
  predicate Locked(pc: Pc) { pc.Reload? || pc.Grow? || pc.Unlock? || pc.Release? || (pc.Uncount? && pc.locked) }

  ghost predicate LockOk(s: State) { forall t :: t in s.pcs ==> (Locked(s.pcs[t]) <==> s.holder == Some(t)) }

  lemma LookLeavesLock(s: State, t: Thread, ok: bool)
    requires t in s.pcs && |s.tables| > 0 && InRange(s, s.pcs[t]) && s.pcs[t].Look?
    ensures var s' := Step(s, t, ok); !Locked(s'.pcs[t]) && s'.holder == s.holder
  {
    LookStepIs(s, t, s.pcs[t].main, s.pcs[t].table, s.pcs[t].i);
  }

  lemma PutLeavesLock(s: State, t: Thread, ok: bool)
    requires InPut(s, t) && |s.tables| > 0 && InRange(s, s.pcs[t])
    ensures var s' := Step(s, t, ok); !Locked(s'.pcs[t]) && s'.holder == s.holder
  {
  }

  /** The lock changes hands only as the program counter of the thread says. */
  ghost predicate LockMoved(s: State, t: Thread, s': State) {
    && t in s'.pcs && (Locked(s'.pcs[t]) <==> s'.holder == Some(t))
    && (|| s'.holder == s.holder
        || (s.holder.None? && s'.holder == Some(t))
        || (s.holder == Some(t) && s'.holder.None?))
  }

  lemma OwnLock(s: State, t: Thread, ok: bool)
    requires t in s.pcs && |s.tables| > 0 && InRange(s, s.pcs[t]) && (Locked(s.pcs[t]) <==> s.holder == Some(t))
    ensures LockMoved(s, t, Step(s, t, ok))
  {
    if s.pcs[t].Look? { LookLeavesLock(s, t, ok); } else if InPut(s, t) { PutLeavesLock(s, t, ok); }
  }

  lemma MoveKeepsLock(s: State, m: Move, s': State)
    requires LockOk(s) && Moves(s, m, s')
    ensures LockOk(s') && LockMoved(s, m.t, s')
  {
    assert Locked(s.pcs[m.t]) <==> s.holder == Some(m.t);
    OwnLock(s, m.t, m.ok);
    forall u | u in s'.pcs ensures Locked(s'.pcs[u]) <==> s'.holder == Some(u) {
      if u != m.t { assert Locked(s.pcs[u]) <==> s.holder == Some(u); }
    }
  }

  lemma {:induction false} LockInRuns(run: seq<State>, moves: seq<Move>, threads: set<Thread>, i: nat)
    requires Execution(run, moves, threads) && i < |run|
    ensures LockOk(run[i]) && (run[i].holder.Some? ==> run[i].holder.value in run[i].pcs)
  {
    if i > 0 {
      LockInRuns(run, moves, threads, i - 1);
      assert MovesAt(run, moves, i - 1);
      MoveKeepsLock(run[i - 1], moves[i - 1], run[i]);
    }
  }

  /** In every run a thread that finds its table half full takes the lock to grow it, and goes on without only while
      another thread holds the lock and is busy with it. */
  lemma WaitsOnlyForTheLock(run: seq<State>, moves: seq<Move>, threads: set<Thread>, i: nat, t: Thread)
    requires Execution(run, moves, threads) && i < |moves| && moves[i].t == t && t in run[i].pcs && t in run[i + 1].pcs
    requires run[i].pcs[t].Decide? && run[i].pcs[t].main < |run[i].tables|
    requires run[i].pcs[t].n >= run[i].tables[run[i].pcs[t].main].capacity / 2
    ensures run[i].holder.None? ==> run[i + 1].pcs[t].Reload? && run[i + 1].holder == Some(t)
    ensures run[i].holder.Some? ==>
              var u := run[i].holder.value; u != t && u in run[i].pcs && Locked(run[i].pcs[u])
  {
    assert MovesAt(run, moves, i);
    LockInRuns(run, moves, threads, i);
    assert Locked(run[i].pcs[t]) <==> run[i].holder == Some(t);
  }

  // ---------------------------------------------------------------- when tables grow

  /** A thread about to grow the newest table has found it half full. */
  ghost predicate GrowsForNeed(s: State) { forall t :: t in s.pcs ==> NeedsMore(s, s.pcs[t]) }

  ghost predicate NeedsMore(s: State, pc: Pc) {
    pc.Grow? ==> pc.main < |s.tables| && pc.n >= s.tables[pc.main].capacity / 2
  }

  /** Tables keep their capacities. */
  ghost predicate CapacitiesKept(s: State, s': State) {
    && |s.tables| <= |s'.tables|
    && forall j :: 0 <= j < |s.tables| ==> s'.tables[j].capacity == s.tables[j].capacity
  }

  lemma LookKeepsCapacities(s: State, t: Thread, ok: bool)
    requires t in s.pcs && |s.tables| > 0 && InRange(s, s.pcs[t]) && s.pcs[t].Look?
    ensures CapacitiesKept(s, Step(s, t, ok)) && !Step(s, t, ok).pcs[t].Grow?
  {
    LookStepIs(s, t, s.pcs[t].main, s.pcs[t].table, s.pcs[t].i);
  }

  lemma OwnGrowth(s: State, t: Thread, ok: bool)
    requires t in s.pcs && |s.tables| > 0 && InRange(s, s.pcs[t])
    ensures CapacitiesKept(s, Step(s, t, ok)) && NeedsMore(Step(s, t, ok), Step(s, t, ok).pcs[t])
  {
    if s.pcs[t].Look? { LookKeepsCapacities(s, t, ok); } else if InPut(s, t) { PutKeepsCapacities(s, t, ok); }
  }

  lemma PutKeepsCapacities(s: State, t: Thread, ok: bool)
    requires InPut(s, t) && |s.tables| > 0 && InRange(s, s.pcs[t])
    ensures CapacitiesKept(s, Step(s, t, ok)) && !Step(s, t, ok).pcs[t].Grow?
  {
  }

  lemma {:induction false} NeedInRuns(run: seq<State>, moves: seq<Move>, threads: set<Thread>, i: nat)
    requires Execution(run, moves, threads) && i < |run|
    ensures GrowsForNeed(run[i])
  {
    if i > 0 {
      NeedInRuns(run, moves, threads, i - 1);
      assert MovesAt(run, moves, i - 1);
      NeedKept(run[i - 1], moves[i - 1], run[i]);
    }
  }

  lemma NeedKept(s: State, m: Move, s': State)
    requires GrowsForNeed(s) && Moves(s, m, s')
    ensures GrowsForNeed(s')
  {
    OwnGrowth(s, m.t, m.ok);
    forall u | u in s'.pcs ensures NeedsMore(s', s'.pcs[u]) {
      if u != m.t { assert NeedsMore(s, s.pcs[u]); }
    }
  }

  lemma NewCapacityIsTight(n: nat, capacity: nat)
    requires capacity > 0
    ensures var c := NewCapacity(n, capacity); c == capacity || c / 4 <= n
    decreases 2 * n + 2 - capacity
  {
    if n >= capacity / 2 { NewCapacityIsTight(n, 2 * capacity); }
  }

  /** A new table is only added by a thread whose count has reached half of the newest one; it is at least twice as
      large, and no larger than doubling takes to get above twice the count. */
  lemma GrowthIsNeeded(run: seq<State>, moves: seq<Move>, threads: set<Thread>, i: nat)
    requires Execution(run, moves, threads) && i < |moves| && |run[i + 1].tables| != |run[i].tables|
    ensures moves[i].t in run[i].pcs && run[i].pcs[moves[i].t].Grow?
    ensures var n := run[i].pcs[moves[i].t].n;
            && |run[i + 1].tables| == |run[i].tables| + 1 && LastCap(run[i]) / 2 <= n < LastCap(run[i + 1]) / 2
            && 2 * LastCap(run[i]) <= LastCap(run[i + 1])
            && (LastCap(run[i + 1]) == 2 * LastCap(run[i]) || LastCap(run[i + 1]) / 4 <= n)
  {
    var s, t := run[i], moves[i].t;
    assert MovesAt(run, moves, i);
    OnlyGrowAdds(s, t, moves[i].ok);
    ExecutionKeepsInv(run, moves, threads, i);
    NeedInRuns(run, moves, threads, i);
    assert NeedsMore(s, s.pcs[t]) && PcOk(s, t, s.pcs[t]);
    NewCapacityIsTight(s.pcs[t].n, 2 * LastCap(s));
  }

  lemma OnlyGrowAdds(s: State, t: Thread, ok: bool)
    requires t in s.pcs && |s.tables| > 0 && InRange(s, s.pcs[t]) && |Step(s, t, ok).tables| != |s.tables|
    ensures s.pcs[t].Grow? && ok
  {
    if s.pcs[t].Look? { LookStepIs(s, t, s.pcs[t].main, s.pcs[t].table, s.pcs[t].i); }
  }

  // ---------------------------------------------------------------- room in the newest table

  /** A thread that did not pass the test tries the newest table next. */
  lemma FullNext(s: State, t: Thread) returns (s': State)
    requires Inv(s) && t in s.pcs && s.pcs[t].Check? && s.pcs[t].main < |s.tables| && !Roomy(s, s.pcs[t])
    ensures Precedes(s, t, s') && Inv(s') && s'.tables == s.tables && s'.holder == s.holder
    ensures t in s'.pcs && s'.pcs[t] == Decide(|s.tables| - 1, s.pcs[t].n)
  {
    s' := NextStep(s, t);
  }

  /** Whoever holds the lock. */
  lemma DecideAnyway(s: State, t: Thread) returns (s': State)
    requires Inv(s) && t in s.pcs && s.pcs[t].Decide? && s.pcs[t].main == |s.tables| - 1
             && s.pcs[t].n < Limit(LastCap(s))
    ensures Precedes(s, t, s') && Inv(s') && LastCap(s') == LastCap(s) && t in s'.pcs
    ensures s'.pcs[t].Reload? || (s'.pcs[t].Check? && Roomy(s', s'.pcs[t]))
  {
    s' := NextStep(s, t);
  }

  /** A thread waits only while the newest table is full too: as soon as its count is below three quarters of that one,
      it returns within a bound on its own steps, whoever holds the lock. */
  lemma RoomIsFound(s: State, t: Thread) returns (k: nat, r: State)
    requires Inv(s) && t in s.pcs && s.pcs[t].Check? && s.pcs[t].main < |s.tables| && s.pcs[t].n < Limit(LastCap(s))
    ensures Returns(s, t, k, r) && k <= 2 * LastCap(r) + 9
  {
    if Roomy(s, s.pcs[t]) {
      k, r := CheckReturns(s, t);
    } else {
      var s1 := FullNext(s, t);
      k, r := DecideAnywayReturns(s1, t);
      k := k + 1;
    }
  }

  lemma DecideAnywayReturns(s: State, t: Thread) returns (k: nat, r: State)
    requires Inv(s) && t in s.pcs && s.pcs[t].Decide? && s.pcs[t].main == |s.tables| - 1
             && s.pcs[t].n < Limit(LastCap(s))
    ensures Returns(s, t, k, r) && k <= 2 * LastCap(r) + 8
  {
    var s1 := DecideAnyway(s, t);
    if s1.pcs[t].Reload? { k, r := ReloadReturns(s1, t); } else { k, r := CheckReturns(s1, t); }
    k := k + 1;
  }

  // ---------------------------------------------------------------- migration

  /** The table that a call works with is number `m` or a newer one. */
  ghost predicate MainFrom(s: State, pc: Pc, m: nat) {
    match pc
    case Idle(_) => true
    case Reload(_) => m < |s.tables|
    case Uncount(_) => true
    case Release => true
    case _ => m <= pc.main < |s.tables|
  }

  /** A thread that has just returned has a slot in table `m` or a newer one. */
  ghost predicate SlotFrom(s: State, t: Thread, m: nat) { exists j, x :: m <= j < |s.tables| && Has(s.tables[j], t, x) }

  lemma LookStaysFrom(s: State, t: Thread, ok: bool, m: nat)
    requires t in s.pcs && |s.tables| > 0 && InRange(s, s.pcs[t]) && s.pcs[t].Look? && MainFrom(s, s.pcs[t], m)
    ensures var s' := Step(s, t, ok);
            MainFrom(s', s'.pcs[t], m) && (s'.pcs[t].Idle? && s'.pcs[t].result.Got? ==> SlotFrom(s', t, m))
  {
    var pc, s' := s.pcs[t], Step(s, t, ok);
    var x := Probe(t, s.tables[pc.table].capacity, pc.i);
    if s'.pcs[t].Idle? { assert Has(s'.tables[pc.main], t, x); }
  }

  lemma StoreStaysFrom(s: State, t: Thread, ok: bool, m: nat)
    requires t in s.pcs && |s.tables| > 0 && InRange(s, s.pcs[t]) && s.pcs[t].PutValue? && MainFrom(s, s.pcs[t], m)
    requires PcOk(s, t, s.pcs[t])
    ensures SlotFrom(Step(s, t, ok), t, m)
  {
    assert Has(Step(s, t, ok).tables[s.pcs[t].main], t, s.pcs[t].slot);
  }

  lemma OthersStayFrom(s: State, t: Thread, ok: bool, m: nat)
    requires t in s.pcs && |s.tables| > 0 && InRange(s, s.pcs[t]) && !s.pcs[t].Idle? && MainFrom(s, s.pcs[t], m)
    requires !s.pcs[t].Look? && !s.pcs[t].PutValue? && PcOk(s, t, s.pcs[t])
    ensures var s' := Step(s, t, ok); MainFrom(s', s'.pcs[t], m) && !(s'.pcs[t].Idle? && s'.pcs[t].result.Got?)
  {
  }

  /** What a thread has done when its call, which began when table `m` was the newest, is at this point. */
  ghost predicate CallFrom(s: State, t: Thread, m: nat) {
    && t in s.pcs && MainFrom(s, s.pcs[t], m)
    && (s.pcs[t].Idle? && s.pcs[t].result.Got? ==> SlotFrom(s, t, m))
  }

  lemma OwnCallFrom(s: State, t: Thread, ok: bool, m: nat)
    requires Inv(s) && CallFrom(s, t, m) && !s.pcs[t].Idle? && InRange(s, s.pcs[t])
    ensures CallFrom(Step(s, t, ok), t, m)
  {
    assert PcOk(s, t, s.pcs[t]);
    if s.pcs[t].Look? {
      LookStaysFrom(s, t, ok, m);
    } else if s.pcs[t].PutValue? {
      StoreStaysFrom(s, t, ok, m);
    } else {
      OthersStayFrom(s, t, ok, m);
    }
  }

  lemma OtherCallFrom(s: State, u: Thread, ok: bool, t: Thread, m: nat)
    requires u in s.pcs && |s.tables| > 0 && InRange(s, s.pcs[u]) && u != t && CallFrom(s, t, m) && !s.pcs[t].Idle?
    ensures CallFrom(Step(s, u, ok), t, m)
  {
    OwnGrowth(s, u, ok);
  }

  ghost predicate Inside(run: seq<State>, k: nat, t: Thread) { k < |run| && t in run[k].pcs && !run[k].pcs[t].Idle? }

  /** When a call returns a producer, the thread's slot is in the table that was the newest when the call began, or in a
      newer one: entries migrate, and no later call has to search the older tables for it. */
  lemma {:induction false} CallMigrates(run: seq<State>, moves: seq<Move>, threads: set<Thread>, i: nat, j: nat,
                                        t: Thread)
    requires Execution(run, moves, threads) && i < j < |run| && moves[i].t == t && t in run[i].pcs
             && run[i].pcs[t].Idle?
    requires forall k :: i < k < j ==> Inside(run, k, t)
    ensures |run[i].tables| > 0 && CallFrom(run[j], t, |run[i].tables| - 1)
    decreases j
  {
    ExecutionKeepsInv(run, moves, threads, i);
    assert MovesAt(run, moves, j - 1);
    if j > i + 1 {
      assert Inside(run, j - 1, t);
      CallMigrates(run, moves, threads, i, j - 1, t);
      ExecutionKeepsInv(run, moves, threads, j - 1);
      var u, ok, m := moves[j - 1].t, moves[j - 1].ok, |run[i].tables| - 1;
      if u == t { OwnCallFrom(run[j - 1], t, ok, m); } else { OtherCallFrom(run[j - 1], u, ok, t, m); }
    }
  }
}
