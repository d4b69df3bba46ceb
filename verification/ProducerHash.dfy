/** The growing table that gives each thread its producer: lookups in the current table and all earlier ones,
    lazy migration, growth under a lock, insertion by linear probing. One atomic access per step. */
module ProducerHash {
  import opened Options
  import RingArithmetic

  /** A thread is known by its id, and probes from its hash. */
  datatype Thread = Thread(id: nat, hash: nat)
  type Producer = nat

  /** An occupied slot. `dist` is how many slots its owner probed before it; the value is stored after the key. */
  datatype Cell = Cell(owner: Thread, dist: nat, value: Option<Producer>)

  /** Slots that are not in the map have the invalid key. */
  datatype Table = Table(capacity: nat, slots: map<nat, Cell>)

  datatype Result = NoCall | Failed | Got(value: Option<Producer>)

  /** `main` is the table the call works with, `n` the count it was given. The loops that migrate an entry and that
      insert a new one are the same: Put loads a key, PutCas claims the slot, PutValue stores the producer. */
  datatype Pc =
    | Idle(result: Result)
    | Look(main: nat, table: nat, i: nat)
    | Put(main: nat, p: Option<Producer>, i: nat)
    | PutCas(main: nat, p: Option<Producer>, i: nat)
    | PutValue(main: nat, p: Option<Producer>, slot: nat)
    | Count(main: nat)
    | Decide(main: nat, n: nat)
    | Reload(n: nat)
    | Grow(main: nat, n: nat)
    | Unlock(main: nat, n: nat)
    | Check(main: nat, n: nat)
    | Create(main: nat, n: nat)
    | Uncount(locked: bool)
    | Release

  /** The last table is the current one, and each one's `prev` is the one before it. The last two fields only record
      history: the count that a thread was given and has not taken back, and the producer created for a thread. */
  datatype State = State(tables: seq<Table>, count: int, holder: Option<Thread>, made: nat, pcs: map<Thread, Pc>,
                         counted: map<Thread, nat>, mine: map<Thread, Producer>)

  const INITIAL_SIZE: nat := 32

  /** The slot a thread probes after `i` others. */
  function Probe(t: Thread, capacity: nat, i: nat): nat {
    if capacity == 0 then 0 else RingArithmetic.Turned(t.hash + i, capacity)
  }

  function Limit(capacity: nat): nat { capacity / 2 + capacity / 4 }

  /** The doubling loop that makes room for `n`. */
  function NewCapacity(n: nat, capacity: nat): (r: nat)
    requires capacity > 0
    ensures n < r / 2 && capacity <= r && (capacity % 4 == 0 ==> r % 4 == 0)
    decreases 2 * n + 2 - capacity
  {
    if n >= capacity / 2 then NewCapacity(n, 2 * capacity) else capacity
  }

  function Init(threads: set<Thread>): State {
    State([Table(INITIAL_SIZE, map[])], 0, None, 0, map t | t in threads :: Idle(NoCall), map[], map[])
  }

  predicate InRange(s: State, pc: Pc) {
    match pc
    case Idle(_) => true
    case Reload(_) => true
    case Uncount(_) => true
    case Release => true
    case Look(m, j, _) => j <= m < |s.tables|
    case PutValue(m, _, x) => m < |s.tables| && x in s.tables[m].slots
    case _ => pc.main < |s.tables| && s.tables[pc.main].capacity > 0
  }

  function To(s: State, t: Thread, pc: Pc): State { s.(pcs := s.pcs[t := pc]) }

  /** Of the program counters only that of `t` changed. */
  predicate Moved(s: State, t: Thread, s': State) { t in s'.pcs && s'.pcs == s.pcs[t := s'.pcs[t]] }

  function LookStep(s: State, t: Thread, m: nat, j: nat, i: nat): (s': State)
    requires j <= m < |s.tables|
    ensures Moved(s, t, s')
  {
    var x := Probe(t, s.tables[j].capacity, i);
    if x !in s.tables[j].slots then (if j == 0 then To(s, t, Count(m)) else To(s, t, Look(m, j - 1, 0)))
    else if s.tables[j].slots[x].owner != t then To(s, t, Look(m, j, i + 1))
    else if j == m then To(s, t, Idle(Got(s.tables[j].slots[x].value)))
    else To(s, t, Put(m, s.tables[j].slots[x].value, 0))
  }

  function PutStep(s: State, t: Thread, m: nat, p: Option<Producer>, i: nat, cas: bool): (s': State)
    requires m < |s.tables|
    ensures Moved(s, t, s')
  {
    var x := Probe(t, s.tables[m].capacity, i);
    if x in s.tables[m].slots then To(s, t, Put(m, p, i + 1))
    else if !cas then To(s, t, PutCas(m, p, i))
    else To(s, t, PutValue(m, p, x)).(tables := SetCell(s.tables, m, x, Cell(t, i, None)))
  }

  function GrowStep(s: State, t: Thread, m: nat, n: nat, ok: bool): (s': State)
    requires m < |s.tables| && s.tables[m].capacity > 0
    ensures Moved(s, t, s')
  {
    if !ok then To(s, t, Uncount(true))
    else To(s, t, Unlock(m + 1, n)).(tables := s.tables + [Table(NewCapacity(n, 2 * s.tables[m].capacity), map[])])
  }

  /** One step of thread `t`; `ok` says whether an allocation made in the step succeeds. */
  function Step(s: State, t: Thread, ok: bool): (s': State)
    requires t in s.pcs && |s.tables| > 0 && InRange(s, s.pcs[t])
    ensures Moved(s, t, s')
  {
    match s.pcs[t]
    case Idle(_) => To(s, t, Look(|s.tables| - 1, |s.tables| - 1, 0))
    case Look(m, j, i) => LookStep(s, t, m, j, i)
    case Put(m, p, i) => PutStep(s, t, m, p, i, false)
    case PutCas(m, p, i) => PutStep(s, t, m, p, i, true)
    case PutValue(m, p, x) =>
      To(s, t, Idle(Got(p))).(tables := SetCell(s.tables, m, x, s.tables[m].slots[x].(value := p)))
    case Count(m) =>
      var n := if s.count >= 0 then s.count + 1 else 0;
      To(s, t, Decide(m, n)).(count := s.count + 1, counted := s.counted[t := n])
    case Decide(m, n) =>
      if n >= s.tables[m].capacity / 2 && s.holder.None? then To(s, t, Reload(n)).(holder := Some(t))
      else To(s, t, Check(m, n))
    case Reload(n) =>
      var m := |s.tables| - 1;
      To(s, t, if n >= s.tables[m].capacity / 2 then Grow(m, n) else Unlock(m, n))
    case Grow(m, n) => GrowStep(s, t, m, n, ok)
    case Unlock(m, n) => To(s, t, Check(m, n)).(holder := None)
    case Check(m, n) =>
      To(s, t, if n < Limit(s.tables[m].capacity) then Create(m, n) else Decide(|s.tables| - 1, n))
    case Create(m, n) =>
      if !ok then To(s, t, Uncount(false))
      else To(s, t, Put(m, Some(s.made), 0)).(made := s.made + 1, mine := s.mine[t := s.made])
    case Uncount(locked) =>
      To(s, t, if locked then Release else Idle(Failed)).(count := s.count - 1, counted := s.counted - {t})
    case Release => To(s, t, Idle(Failed)).(holder := None)
  }

  function SetCell(tables: seq<Table>, m: nat, x: nat, c: Cell): seq<Table>
    requires m < |tables|
  {
    tables[m := tables[m].(slots := tables[m].slots[x := c])]
  }

  // ---------------------------------------------------------------- the invariant

  /** The slot at distance `e` from the thread's hash is taken by somebody else. */
  ghost predicate Passed(tab: Table, t: Thread, e: nat) {
    Probe(t, tab.capacity, e) in tab.slots && tab.slots[Probe(t, tab.capacity, e)].owner != t
  }

  ghost predicate Path(tab: Table, t: Thread, i: nat) {
    i <= tab.capacity && forall e :: 0 <= e < i ==> Passed(tab, t, e)
  }

  ghost predicate Has(tab: Table, t: Thread, x: nat) { x in tab.slots && tab.slots[x].owner == t }

  ghost predicate Absent(tab: Table, t: Thread) { forall x :: x in tab.slots ==> !Has(tab, t, x) }

  ghost predicate AbsentFrom(tables: seq<Table>, t: Thread, j: nat) {
    forall i :: j <= i < |tables| ==> Absent(tables[i], t)
  }

  /** A counted thread is in some table. */
  ghost predicate Placed(tables: seq<Table>, t: Thread) { exists j :: 0 <= j < |tables| && !Absent(tables[j], t) }

  ghost predicate TableOk(tab: Table) { tab.capacity >= INITIAL_SIZE && tab.capacity % 4 == 0 }

  ghost predicate CapsOk(tables: seq<Table>) {
    |tables| > 0 && (forall j :: 0 <= j < |tables| ==> TableOk(tables[j]))
      && forall i, j :: 0 <= i < j < |tables| ==> NoLarger(tables, i, j)
  }

  ghost predicate NoLarger(tables: seq<Table>, i: nat, j: nat) {
    i < |tables| && j < |tables| && tables[i].capacity <= tables[j].capacity
  }

  ghost predicate CellOk(tab: Table, x: nat, counted: map<Thread, nat>, mine: map<Thread, Producer>) {
    && x in tab.slots
    && var c := tab.slots[x];
    && c.dist < tab.capacity && x == Probe(c.owner, tab.capacity, c.dist) && Path(tab, c.owner, c.dist)
    && c.owner in counted && counted[c.owner] < Limit(tab.capacity)
    && c.owner in mine && (c.value.Some? ==> c.value.value == mine[c.owner])
  }

  ghost predicate CellsOk(tab: Table, counted: map<Thread, nat>, mine: map<Thread, Producer>) {
    forall x :: x in tab.slots ==> CellOk(tab, x, counted, mine)
  }

  ghost predicate TablesOk(tables: seq<Table>, counted: map<Thread, nat>, mine: map<Thread, Producer>) {
    forall j :: 0 <= j < |tables| ==> CellsOk(tables[j], counted, mine)
  }

  /** Only a thread that is about to store its producer has a slot without one. */
  ghost predicate FilledAt(tables: seq<Table>, pcs: map<Thread, Pc>, j: nat, x: nat) {
    && j < |tables| && x in tables[j].slots
    && var c := tables[j].slots[x];
    c.value.None? ==> c.owner in pcs && pcs[c.owner].PutValue? && pcs[c.owner].main == j && pcs[c.owner].slot == x
  }

  ghost predicate Filled(tables: seq<Table>, pcs: map<Thread, Pc>) {
    forall j, x :: 0 <= j < |tables| && x in tables[j].slots ==> FilledAt(tables, pcs, j, x)
  }

  ghost function Low(counted: map<Thread, nat>, b: nat): set<Thread> { set t | t in counted && counted[t] <= b }

  ghost predicate Few(counted: map<Thread, nat>, b: nat) { |Low(counted, b)| <= b }

  /** At most `b` threads hold a count up to `b`, whatever counts were taken back. */
  ghost predicate CountsOk(count: int, counted: map<Thread, nat>) {
    count == |counted| && forall b: nat :: Few(counted, b)
  }

  ghost predicate MineOk(mine: map<Thread, Producer>, made: nat, counted: map<Thread, nat>) {
    && (forall t :: t in mine ==> mine[t] < made && t in counted)
    && (forall t, u :: Apart(mine, t, u))
  }

  ghost predicate Apart(mine: map<Thread, Producer>, t: Thread, u: Thread) {
    t in mine && u in mine && mine[t] == mine[u] ==> t == u
  }

  /** A thread between its count and its insertion. */
  ghost predicate Waiting(s: State, t: Thread, n: nat) {
    t in s.counted && s.counted[t] == n && t !in s.mine && AbsentFrom(s.tables, t, 0)
  }

  ghost predicate Settled(s: State, t: Thread) { t in s.counted ==> Placed(s.tables, t) }

  ghost predicate Putting(s: State, t: Thread, m: nat, p: Option<Producer>, i: nat) {
    && m < |s.tables| && AbsentFrom(s.tables, t, m) && Path(s.tables[m], t, i)
    && t in s.counted && s.counted[t] < Limit(s.tables[m].capacity)
    && t in s.mine && p == Some(s.mine[t])
  }

  ghost predicate PcOk(s: State, t: Thread, pc: Pc) {
    match pc
    case Idle(r) => Settled(s, t) && (r.Got? ==> t in s.mine && r.value == Some(s.mine[t]))
    case Look(m, j, i) => j <= m < |s.tables| && Settled(s, t) && AbsentFrom(s.tables, t, j + 1)
      && Path(s.tables[j], t, i)
    case Put(m, p, i) => Putting(s, t, m, p, i)
    case PutCas(m, p, i) => Putting(s, t, m, p, i)
    case PutValue(m, p, x) => m < |s.tables| && Has(s.tables[m], t, x) && t in s.counted && t in s.mine
      && p == Some(s.mine[t])
    case Count(m) => m < |s.tables| && t !in s.counted && AbsentFrom(s.tables, t, 0)
    case Decide(m, n) => m < |s.tables| && Waiting(s, t, n)
    case Reload(n) => s.holder == Some(t) && Waiting(s, t, n)
    case Grow(m, n) => m == |s.tables| - 1 && s.holder == Some(t) && Waiting(s, t, n)
    case Unlock(m, n) => m < |s.tables| && s.holder == Some(t) && Waiting(s, t, n)
    case Check(m, n) => m < |s.tables| && Waiting(s, t, n)
    case Create(m, n) => m < |s.tables| && n < Limit(s.tables[m].capacity) && Waiting(s, t, n)
    case Uncount(locked) => (locked ==> s.holder == Some(t)) && t in s.counted && t !in s.mine
      && AbsentFrom(s.tables, t, 0)
    case Release => s.holder == Some(t) && t !in s.counted && AbsentFrom(s.tables, t, 0)
  }

  ghost predicate PcsOk(s: State) { forall t :: t in s.pcs ==> PcOk(s, t, s.pcs[t]) }

  ghost predicate Inv(s: State) {
    && CapsOk(s.tables) && TablesOk(s.tables, s.counted, s.mine) && Filled(s.tables, s.pcs)
    && CountsOk(s.count, s.counted) && MineOk(s.mine, s.made, s.counted) && PcsOk(s)
  }

  // ---------------------------------------------------------------- what other threads see

  /** The table only gained slots, none of them owned by `u`. */
  ghost predicate Gained(tab: Table, tab': Table, u: Thread) {
    && tab'.capacity == tab.capacity
    && (forall x :: x in tab.slots ==> KeptAt(tab, tab', x))
    && (forall x :: x in tab'.slots && x !in tab.slots ==> !Has(tab', u, x))
  }

  ghost predicate KeptAt(tab: Table, tab': Table, x: nat) {
    x in tab.slots && x in tab'.slots && tab'.slots[x].owner == tab.slots[x].owner
  }

  ghost predicate TablesGained(tables: seq<Table>, tables': seq<Table>, u: Thread) {
    && |tables| <= |tables'|
    && (forall j :: 0 <= j < |tables| ==> Gained(tables[j], tables'[j], u))
    && (forall j :: |tables| <= j < |tables'| ==> Absent(tables'[j], u))
  }

  lemma GainedFacts(tab: Table, tab': Table, u: Thread, i: nat)
    requires Gained(tab, tab', u)
    ensures Absent(tab, u) <==> Absent(tab', u)
    ensures Path(tab, u, i) ==> Path(tab', u, i)
  {
    forall x | x in tab.slots ensures Has(tab, u, x) <==> Has(tab', u, x) { assert KeptAt(tab, tab', x); }
    if Path(tab, u, i) {
      forall e: nat | e < i ensures Passed(tab', u, e) {
        assert Passed(tab, u, e);
        assert KeptAt(tab, tab', Probe(u, tab.capacity, e));
      }
    }
    if Absent(tab', u) {
      forall x | x in tab.slots ensures !Has(tab, u, x) { assert KeptAt(tab, tab', x); }
    }
  }

  lemma AbsentGained(tables: seq<Table>, tables': seq<Table>, u: Thread, j: nat)
    requires TablesGained(tables, tables', u)
    ensures AbsentFrom(tables, u, j) ==> AbsentFrom(tables', u, j)
    ensures Placed(tables, u) ==> Placed(tables', u)
  {
    if AbsentFrom(tables, u, j) {
      forall i | j <= i < |tables'| ensures Absent(tables'[i], u) {
        if i < |tables| { GainedFacts(tables[i], tables'[i], u, 0); }
      }
    }
    if Placed(tables, u) {
      var i :| 0 <= i < |tables| && !Absent(tables[i], u);
      GainedFacts(tables[i], tables'[i], u, 0);
      assert !Absent(tables'[i], u);
    }
  }

  /** Nothing that thread `u` relies on was taken from it. */
  ghost predicate Undisturbed(s: State, s': State, u: Thread) {
    && TablesGained(s.tables, s'.tables, u)
    && (u in s.counted <==> u in s'.counted) && (u in s.counted ==> s'.counted[u] == s.counted[u])
    && (u in s.mine <==> u in s'.mine) && (u in s.mine ==> s'.mine[u] == s.mine[u])
    && (s.holder == Some(u) ==> s'.holder == Some(u) && |s'.tables| == |s.tables|)
  }

  lemma PcUndisturbed(s: State, s': State, u: Thread, pc: Pc)
    requires PcOk(s, u, pc) && Undisturbed(s, s', u)
    ensures PcOk(s', u, pc)
  {
    AbsentGained(s.tables, s'.tables, u, 0);
    match pc
    case Look(m, j, i) =>
      AbsentGained(s.tables, s'.tables, u, j + 1);
      GainedFacts(s.tables[j], s'.tables[j], u, i);
    case Put(m, p, i) =>
      AbsentGained(s.tables, s'.tables, u, m);
      GainedFacts(s.tables[m], s'.tables[m], u, i);
    case PutCas(m, p, i) =>
      AbsentGained(s.tables, s'.tables, u, m);
      GainedFacts(s.tables[m], s'.tables[m], u, i);
    case PutValue(m, p, x) =>
      assert KeptAt(s.tables[m], s'.tables[m], x);
    case _ =>
  }

  lemma PcsStep(s: State, s': State, t: Thread)
    requires PcsOk(s) && t in s.pcs && t in s'.pcs && s'.pcs == s.pcs[t := s'.pcs[t]] && PcOk(s', t, s'.pcs[t])
    requires forall u :: u in s.pcs && u != t ==> Undisturbed(s, s', u)
    ensures PcsOk(s')
  {
    forall u | u in s'.pcs ensures PcOk(s', u, s'.pcs[u]) {
      if u != t { PcUndisturbed(s, s', u, s.pcs[u]); }
    }
  }

  lemma SameTables(tables: seq<Table>, u: Thread)
    ensures TablesGained(tables, tables, u)
  {
    forall j | 0 <= j < |tables| ensures Gained(tables[j], tables[j], u) {
      forall x | x in tables[j].slots ensures KeptAt(tables[j], tables[j], x) { }
    }
  }

  /** A step that leaves the tables alone and moves a thread that is not about to store a value. */
  lemma FilledMoves(tables: seq<Table>, pcs: map<Thread, Pc>, t: Thread, pc: Pc)
    requires Filled(tables, pcs) && t in pcs && !pcs[t].PutValue?
    ensures Filled(tables, pcs[t := pc])
  {
    var pcs' := pcs[t := pc];
    forall j: nat, x | j < |tables| && x in tables[j].slots ensures FilledAt(tables, pcs', j, x) {
      assert FilledAt(tables, pcs, j, x);
    }
  }

  /** Steps that only change the thread's own place. */
  lemma MoveKeeps(s: State, t: Thread, pc: Pc)
    requires Inv(s) && t in s.pcs && !s.pcs[t].PutValue? && PcOk(To(s, t, pc), t, pc)
    ensures Inv(To(s, t, pc))
  {
    var s' := To(s, t, pc);
    FilledMoves(s.tables, s.pcs, t, pc);
    forall u | u in s.pcs && u != t ensures Undisturbed(s, s', u) { SameTables(s.tables, u); }
    PcsStep(s, s', t);
  }

  /** Steps that take or give back the lock. */
  lemma LockKeeps(s: State, t: Thread, pc: Pc, holder: Option<Thread>)
    requires Inv(s) && t in s.pcs && !s.pcs[t].PutValue? && PcOk(To(s, t, pc).(holder := holder), t, pc)
    requires s.holder.None? || s.holder == Some(t)
    ensures Inv(To(s, t, pc).(holder := holder))
  {
    var s' := To(s, t, pc).(holder := holder);
    FilledMoves(s.tables, s.pcs, t, pc);
    forall u | u in s.pcs && u != t ensures Undisturbed(s, s', u) { SameTables(s.tables, u); }
    PcsStep(s, s', t);
  }

  // ---------------------------------------------------------------- counting

  lemma ProbeInjective(t: Thread, capacity: nat, d: nat, e: nat)
    requires d < e < d + capacity
    ensures Probe(t, capacity, d) != Probe(t, capacity, e)
  {
    RingArithmetic.TurnedIsMod(t.hash + d, capacity);
    RingArithmetic.TurnedIsMod(t.hash + e, capacity);
    if Probe(t, capacity, d) == Probe(t, capacity, e) { RingArithmetic.ModSame(t.hash + d, t.hash + e, capacity); }
  }

  /** The first `i` slots that a thread probes. */
  ghost function Probed(t: Thread, capacity: nat, i: nat): set<nat> {
    if i == 0 then {} else Probed(t, capacity, i - 1) + {Probe(t, capacity, i - 1)}
  }

  lemma {:induction false} ProbedIs(t: Thread, capacity: nat, i: nat, x: nat)
    requires x in Probed(t, capacity, i)
    ensures exists e: nat :: e < i && x == Probe(t, capacity, e)
  {
    if x != Probe(t, capacity, i - 1) { ProbedIs(t, capacity, i - 1, x); }
  }

  lemma {:induction false} ProbedSize(t: Thread, capacity: nat, i: nat)
    requires i <= capacity
    ensures |Probed(t, capacity, i)| == i
  {
    if i > 0 {
      ProbedSize(t, capacity, i - 1);
      var x := Probe(t, capacity, i - 1);
      if x in Probed(t, capacity, i - 1) {
        ProbedIs(t, capacity, i - 1, x);
        var e: nat :| e < i - 1 && x == Probe(t, capacity, e);
        ProbeInjective(t, capacity, e, i - 1);
      }
    }
  }

  lemma {:induction false} SubsetSize<T>(a: set<T>, b: set<T>)
    requires a <= b
    ensures |a| <= |b|
  {
    if a != {} {
      var x :| x in a;
      SubsetSize(a - {x}, b - {x});
    }
  }

  /** A probe loop has passed no more slots than are taken. */
  lemma PathIsShort(tab: Table, t: Thread, i: nat)
    requires Path(tab, t, i)
    ensures i <= |tab.slots|
  {
    forall x | x in Probed(t, tab.capacity, i) ensures x in tab.slots {
      ProbedIs(t, tab.capacity, i, x);
      var e: nat :| e < i && x == Probe(t, tab.capacity, e);
      assert Passed(tab, t, e);
    }
    ProbedSize(t, tab.capacity, i);
    SubsetSize(Probed(t, tab.capacity, i), tab.slots.Keys);
  }

  /** No thread has two slots in one table. */
  lemma OneSlotEach(tab: Table, counted: map<Thread, nat>, mine: map<Thread, Producer>, x: nat, y: nat)
    requires CellsOk(tab, counted, mine) && x in tab.slots && y in tab.slots && tab.slots[x].owner == tab.slots[y].owner
    ensures x == y
  {
    assert CellOk(tab, x, counted, mine) && CellOk(tab, y, counted, mine);
    var c, d := tab.slots[x], tab.slots[y];
    assert c.dist < d.dist ==> Passed(tab, d.owner, c.dist);
    assert d.dist < c.dist ==> Passed(tab, c.owner, d.dist);
  }

  /** The owners of distinct slots are as many as the slots. */
  lemma {:induction false} OwnersSize(slots: map<nat, Cell>, xs: set<nat>, owners: set<Thread>)
    requires xs <= slots.Keys
    requires forall x, y :: x in xs && y in xs && slots[x].owner == slots[y].owner ==> x == y
    requires forall x :: x in xs ==> slots[x].owner in owners
    ensures |xs| <= |owners|
  {
    if xs != {} {
      var x :| x in xs;
      OwnersSize(slots, xs - {x}, owners - {slots[x].owner});
    }
  }

  /** Fewer than three quarters of a table's slots are taken. */
  lemma TableHasRoom(tab: Table, count: int, counted: map<Thread, nat>, mine: map<Thread, Producer>)
    requires CellsOk(tab, counted, mine) && CountsOk(count, counted) && TableOk(tab)
    ensures 4 * |tab.slots| < 3 * tab.capacity && |tab.slots| < Limit(tab.capacity) < tab.capacity
  {
    var b := Limit(tab.capacity) - 1;
    forall x | x in tab.slots ensures tab.slots[x].owner in Low(counted, b) { assert CellOk(tab, x, counted, mine); }
    forall x, y | x in tab.slots && y in tab.slots && tab.slots[x].owner == tab.slots[y].owner ensures x == y {
      OneSlotEach(tab, counted, mine, x, y);
    }
    OwnersSize(tab.slots, tab.slots.Keys, Low(counted, b));
    assert Few(counted, b);
  }

  /** A thread that reaches a free slot is not in the table. */
  lemma FreeSlotMeansAbsent(tab: Table, counted: map<Thread, nat>, mine: map<Thread, Producer>, t: Thread, i: nat)
    requires CellsOk(tab, counted, mine) && Path(tab, t, i) && Probe(t, tab.capacity, i) !in tab.slots
    ensures Absent(tab, t)
  {
    forall x | x in tab.slots ensures !Has(tab, t, x) {
      assert CellOk(tab, x, counted, mine);
      var d := tab.slots[x].dist;
      assert d < i ==> Passed(tab, t, d);
      var c := tab.slots[x];
      assert i < d ==> Passed(tab, c.owner, i);
    }
  }

  /** The probe goes on past a slot that somebody else has taken. */
  lemma PathGrows(tab: Table, count: int, counted: map<Thread, nat>, mine: map<Thread, Producer>, t: Thread, i: nat)
    requires CellsOk(tab, counted, mine) && CountsOk(count, counted) && TableOk(tab) && Path(tab, t, i)
    requires Passed(tab, t, i)
    ensures Path(tab, t, i + 1)
  {
    PathIsShort(tab, t, i);
    TableHasRoom(tab, count, counted, mine);
  }

  // ---------------------------------------------------------------- the steps

  lemma IdleKeeps(s: State, t: Thread, ok: bool)
    requires Inv(s) && t in s.pcs && s.pcs[t].Idle?
    ensures Inv(Step(s, t, ok))
  {
    var j := |s.tables| - 1;
    assert PcOk(s, t, s.pcs[t]);
    MoveKeeps(s, t, Look(j, j, 0));
  }

  lemma AbsentBelow(tables: seq<Table>, t: Thread, j: nat)
    requires j < |tables| && AbsentFrom(tables, t, j + 1) && Absent(tables[j], t)
    ensures AbsentFrom(tables, t, j) && (j == 0 ==> !Placed(tables, t))
  {
  }

  ghost predicate Looking(s: State, t: Thread, m: nat, j: nat, i: nat) {
    Inv(s) && t in s.pcs && s.pcs[t] == Look(m, j, i) && PcOk(s, t, Look(m, j, i))
  }

  lemma LookKeeps(s: State, t: Thread, m: nat, j: nat, i: nat)
    requires Looking(s, t, m, j, i)
    ensures Inv(LookStep(s, t, m, j, i))
  {
    var tab := s.tables[j];
    var x := Probe(t, tab.capacity, i);
    assert CellsOk(tab, s.counted, s.mine) && TableOk(tab);
    if x !in tab.slots {
      LookEnds(s, t, m, j, i);
    } else if tab.slots[x].owner != t {
      assert Passed(tab, t, i);
      PathGrows(tab, s.count, s.counted, s.mine, t, i);
      MoveKeeps(s, t, Look(m, j, i + 1));
    } else {
      LookReturns(s, t, m, j, i);
    }
  }

  lemma LookReturns(s: State, t: Thread, m: nat, j: nat, i: nat)
    requires Looking(s, t, m, j, i) && Has(s.tables[j], t, Probe(t, s.tables[j].capacity, i))
    ensures Inv(LookStep(s, t, m, j, i))
  {
    var x := Probe(t, s.tables[j].capacity, i);
    LookFound(s, t, m, j, x);
    var v := s.tables[j].slots[x].value;
    if j == m { MoveKeeps(s, t, Idle(Got(v))); } else { MoveKeeps(s, t, Put(m, v, 0)); }
  }

  lemma LookEnds(s: State, t: Thread, m: nat, j: nat, i: nat)
    requires Looking(s, t, m, j, i) && Probe(t, s.tables[j].capacity, i) !in s.tables[j].slots
    ensures Inv(LookStep(s, t, m, j, i))
  {
    assert CellsOk(s.tables[j], s.counted, s.mine);
    FreeSlotMeansAbsent(s.tables[j], s.counted, s.mine, t, i);
    AbsentBelow(s.tables, t, j);
    if j == 0 { MoveKeeps(s, t, Count(m)); } else { MoveKeeps(s, t, Look(m, j - 1, 0)); }
  }

  /** What a thread finds is its own producer, already stored, and there is room for it in its main table. */
  lemma LookFound(s: State, t: Thread, m: nat, j: nat, x: nat)
    requires Inv(s) && t in s.pcs && s.pcs[t].Look? && j <= m < |s.tables| && Has(s.tables[j], t, x)
    ensures t in s.mine && s.tables[j].slots[x].value == Some(s.mine[t]) && t in s.counted
    ensures s.counted[t] < Limit(s.tables[m].capacity)
  {
    assert CellsOk(s.tables[j], s.counted, s.mine);
    assert CellOk(s.tables[j], x, s.counted, s.mine);
    assert FilledAt(s.tables, s.pcs, j, x);
    assert j < m ==> NoLarger(s.tables, j, m);
  }

  lemma PutKeeps(s: State, t: Thread, m: nat, p: Option<Producer>, i: nat, cas: bool)
    requires Inv(s) && t in s.pcs && s.pcs[t] == (if cas then PutCas(m, p, i) else Put(m, p, i))
             && Putting(s, t, m, p, i)
    ensures Inv(PutStep(s, t, m, p, i, cas))
  {
    if Probe(t, s.tables[m].capacity, i) in s.tables[m].slots {
      PassesTaken(s, t, m, p, i);
      MoveKeeps(s, t, Put(m, p, i + 1));
    } else if !cas {
      MoveKeeps(s, t, PutCas(m, p, i));
    } else {
      ClaimKeeps(s, t, m, p, i);
    }
  }

  lemma PassesTaken(s: State, t: Thread, m: nat, p: Option<Producer>, i: nat)
    requires Inv(s) && Putting(s, t, m, p, i) && Probe(t, s.tables[m].capacity, i) in s.tables[m].slots
    ensures Putting(s, t, m, p, i + 1)
  {
    var tab := s.tables[m];
    assert CellsOk(tab, s.counted, s.mine) && TableOk(tab);
    assert !Has(tab, t, Probe(t, tab.capacity, i));
    assert Passed(tab, t, i);
    PathGrows(tab, s.count, s.counted, s.mine, t, i);
  }

  lemma ClaimKeeps(s: State, t: Thread, m: nat, p: Option<Producer>, i: nat)
    requires Inv(s) && t in s.pcs && s.pcs[t] == PutCas(m, p, i) && Putting(s, t, m, p, i)
    requires Probe(t, s.tables[m].capacity, i) !in s.tables[m].slots
    ensures var x := Probe(t, s.tables[m].capacity, i);
            Inv(To(s, t, PutValue(m, p, x)).(tables := SetCell(s.tables, m, x, Cell(t, i, None))))
  {
    var x := Probe(t, s.tables[m].capacity, i);
    var s' := To(s, t, PutValue(m, p, x)).(tables := SetCell(s.tables, m, x, Cell(t, i, None)));
    ClaimedCells(s, t, m, p, i);
    SetCellCaps(s.tables, m, x, Cell(t, i, None));
    SetCellFilled(s.tables, s.pcs, t, m, x, Cell(t, i, None), PutValue(m, p, x));
    forall u | u in s.pcs && u != t ensures Undisturbed(s, s', u) {
      SetCellGained(s.tables, m, x, Cell(t, i, None), u);
    }
    assert Has(s'.tables[m], t, x);
    PcsStep(s, s', t);
  }

  lemma SetCellGained(tables: seq<Table>, m: nat, x: nat, c: Cell, u: Thread)
    requires m < |tables| && (if x in tables[m].slots then c.owner == tables[m].slots[x].owner else c.owner != u)
    ensures TablesGained(tables, SetCell(tables, m, x, c), u)
  {
    var tables' := SetCell(tables, m, x, c);
    forall j | 0 <= j < |tables| ensures Gained(tables[j], tables'[j], u) {
      forall y | y in tables[j].slots ensures KeptAt(tables[j], tables'[j], y) { }
    }
  }

  lemma SetCellCaps(tables: seq<Table>, m: nat, x: nat, c: Cell)
    requires CapsOk(tables) && m < |tables|
    ensures CapsOk(SetCell(tables, m, x, c))
  {
    var tables' := SetCell(tables, m, x, c);
    forall j | 0 <= j < |tables'| ensures TableOk(tables'[j]) { assert TableOk(tables[j]); }
    forall i, j | 0 <= i < j < |tables'| ensures NoLarger(tables', i, j) { assert NoLarger(tables, i, j); }
  }

  /** A new cell has no value but its owner is about to store one; an existing cell is given its value. */
  lemma SetCellFilled(tables: seq<Table>, pcs: map<Thread, Pc>, t: Thread, m: nat, x: nat, c: Cell, pc: Pc)
    requires Filled(tables, pcs) && t in pcs && m < |tables| && c.owner == t
    requires if c.value.None? then !pcs[t].PutValue? && pc.PutValue? && pc.main == m && pc.slot == x
             else pcs[t].PutValue? && pcs[t].main == m && pcs[t].slot == x
    ensures Filled(SetCell(tables, m, x, c), pcs[t := pc])
  {
    var tables', pcs' := SetCell(tables, m, x, c), pcs[t := pc];
    forall j: nat, y | j < |tables'| && y in tables'[j].slots ensures FilledAt(tables', pcs', j, y) {
      if !(j == m && y == x) { assert FilledAt(tables, pcs, j, y); }
    }
  }

  lemma ClaimedCells(s: State, t: Thread, m: nat, p: Option<Producer>, i: nat)
    requires Inv(s) && Putting(s, t, m, p, i) && Probe(t, s.tables[m].capacity, i) !in s.tables[m].slots
    ensures TablesOk(SetCell(s.tables, m, Probe(t, s.tables[m].capacity, i), Cell(t, i, None)), s.counted, s.mine)
  {
    var x := Probe(t, s.tables[m].capacity, i);
    var tables' := SetCell(s.tables, m, x, Cell(t, i, None));
    assert CellsOk(s.tables[m], s.counted, s.mine) && TableOk(s.tables[m]);
    PathIsShort(s.tables[m], t, i);
    TableHasRoom(s.tables[m], s.count, s.counted, s.mine);
    ClaimedCell(s.tables[m], tables'[m], s.counted, s.mine, t, x, i);
    forall j | 0 <= j < |tables'| ensures CellsOk(tables'[j], s.counted, s.mine) {
      assert CellsOk(s.tables[j], s.counted, s.mine);
    }
  }

  lemma ClaimedCell(tab: Table, tab': Table, counted: map<Thread, nat>, mine: map<Thread, Producer>, t: Thread,
                    x: nat, i: nat)
    requires CellsOk(tab, counted, mine) && Absent(tab, t) && Path(tab, t, i) && i < tab.capacity
    requires x == Probe(t, tab.capacity, i) && x !in tab.slots
             && tab' == tab.(slots := tab.slots[x := Cell(t, i, None)])
    requires t in counted && counted[t] < Limit(tab.capacity) && t in mine
    ensures CellsOk(tab', counted, mine)
  {
    forall y | y in tab.slots ensures KeptAt(tab, tab', y) { }
    forall y | y in tab'.slots ensures CellOk(tab', y, counted, mine) {
      if y == x {
        forall e: nat | e < i ensures Passed(tab', t, e) { assert Passed(tab, t, e); }
      } else {
        assert CellOk(tab, y, counted, mine);
        var c := tab.slots[y];
        assert !Has(tab, t, y);
        assert Gained(tab, tab', c.owner);
        GainedFacts(tab, tab', c.owner, c.dist);
      }
    }
  }

  lemma PutValueKeeps(s: State, t: Thread, ok: bool)
    requires Inv(s) && t in s.pcs && s.pcs[t].PutValue? && InRange(s, s.pcs[t])
    ensures Inv(Step(s, t, ok))
  {
    var m, p, x := s.pcs[t].main, s.pcs[t].p, s.pcs[t].slot;
    assert PcOk(s, t, s.pcs[t]);
    var c := s.tables[m].slots[x].(value := p);
    var s' := To(s, t, Idle(Got(p))).(tables := SetCell(s.tables, m, x, c));
    SetCellCaps(s.tables, m, x, c);
    SetCellFilled(s.tables, s.pcs, t, m, x, c, Idle(Got(p)));
    StoredCells(s.tables, m, x, s.counted, s.mine);
    forall u | u in s.pcs && u != t ensures Undisturbed(s, s', u) { SetCellGained(s.tables, m, x, c, u); }
    assert Has(s'.tables[m], t, x);
    PcsStep(s, s', t);
  }

  lemma StoredCells(tables: seq<Table>, m: nat, x: nat, counted: map<Thread, nat>, mine: map<Thread, Producer>)
    requires TablesOk(tables, counted, mine) && m < |tables| && x in tables[m].slots && tables[m].slots[x].owner in mine
    ensures TablesOk(SetCell(tables, m, x, tables[m].slots[x].(value := Some(mine[tables[m].slots[x].owner]))),
                     counted, mine)
  {
    var c := tables[m].slots[x];
    var tables' := SetCell(tables, m, x, c.(value := Some(mine[c.owner])));
    forall j | 0 <= j < |tables'| ensures CellsOk(tables'[j], counted, mine) {
      var tab, tab' := tables[j], tables'[j];
      assert CellsOk(tab, counted, mine);
      forall y | y in tab.slots ensures KeptAt(tab, tab', y) { }
      forall y | y in tab'.slots ensures CellOk(tab', y, counted, mine) {
        assert CellOk(tab, y, counted, mine);
        assert Gained(tab, tab', tab.slots[y].owner);
        GainedFacts(tab, tab', tab.slots[y].owner, tab.slots[y].dist);
      }
    }
  }

  lemma CountedOneMore(count: int, counted: map<Thread, nat>, t: Thread)
    requires CountsOk(count, counted) && t !in counted
    ensures CountsOk(count + 1, counted[t := count + 1])
  {
    var n := count + 1;
    var counted' := counted[t := n];
    assert counted'.Keys == counted.Keys + {t};
    forall b: nat ensures Few(counted', b) {
      if b < n {
        assert Few(counted, b);
        assert Low(counted', b) == Low(counted, b);
      } else {
        SubsetSize(Low(counted', b), counted'.Keys);
      }
    }
  }

  lemma CountedOneLess(count: int, counted: map<Thread, nat>, t: Thread)
    requires CountsOk(count, counted) && t in counted
    ensures CountsOk(count - 1, counted - {t})
  {
    var counted' := counted - {t};
    assert counted'.Keys == counted.Keys - {t};
    forall b: nat ensures Few(counted', b) {
      assert Few(counted, b);
      SubsetSize(Low(counted', b), Low(counted, b));
    }
  }

  /** Cells only depend on what is recorded of their owners. */
  lemma CellsSameRecords(tables: seq<Table>, counted: map<Thread, nat>, mine: map<Thread, Producer>,
                         counted': map<Thread, nat>, mine': map<Thread, Producer>, t: Thread)
    requires TablesOk(tables, counted, mine) && AbsentFrom(tables, t, 0)
    requires forall u :: u in counted && u != t ==> u in counted' && counted'[u] == counted[u]
    requires forall u :: u in mine && u != t ==> u in mine' && mine'[u] == mine[u]
    ensures TablesOk(tables, counted', mine')
  {
    forall j | 0 <= j < |tables| ensures CellsOk(tables[j], counted', mine') {
      assert CellsOk(tables[j], counted, mine);
      assert Absent(tables[j], t);
      forall x | x in tables[j].slots ensures CellOk(tables[j], x, counted', mine') {
        assert CellOk(tables[j], x, counted, mine);
        assert !Has(tables[j], t, x);
      }
    }
  }

  /** Steps of a thread that is in no table and changes only its own records. */
  lemma RecordKeeps(s: State, s': State, t: Thread)
    requires Inv(s) && t in s.pcs && !s.pcs[t].PutValue? && AbsentFrom(s.tables, t, 0)
    requires s'.tables == s.tables && s'.holder == s.holder && t in s'.pcs && s'.pcs == s.pcs[t := s'.pcs[t]]
             && PcOk(s', t, s'.pcs[t])
    requires s'.counted == s.counted || s'.counted == s.counted - {t}
             || (t in s'.counted && s'.counted == s.counted[t := s'.counted[t]])
    requires s'.mine == s.mine || (t in s'.mine && s'.mine == s.mine[t := s'.mine[t]])
    requires CountsOk(s'.count, s'.counted) && MineOk(s'.mine, s'.made, s'.counted)
    ensures Inv(s')
  {
    CellsSameRecords(s.tables, s.counted, s.mine, s'.counted, s'.mine, t);
    FilledMoves(s.tables, s.pcs, t, s'.pcs[t]);
    forall u | u in s.pcs && u != t ensures Undisturbed(s, s', u) { SameTables(s.tables, u); }
    PcsStep(s, s', t);
  }

  lemma CountKeeps(s: State, t: Thread, ok: bool)
    requires Inv(s) && t in s.pcs && s.pcs[t].Count? && InRange(s, s.pcs[t])
    ensures Inv(Step(s, t, ok))
  {
    assert PcOk(s, t, s.pcs[t]);
    CountedOneMore(s.count, s.counted, t);
    RecordKeeps(s, Step(s, t, ok), t);
  }

  lemma UncountKeeps(s: State, t: Thread, ok: bool)
    requires Inv(s) && t in s.pcs && s.pcs[t].Uncount?
    ensures Inv(Step(s, t, ok))
  {
    assert PcOk(s, t, s.pcs[t]);
    CountedOneLess(s.count, s.counted, t);
    RecordKeeps(s, Step(s, t, ok), t);
  }

  lemma MineGrows(mine: map<Thread, Producer>, made: nat, counted: map<Thread, nat>, t: Thread)
    requires MineOk(mine, made, counted) && t !in mine && t in counted
    ensures MineOk(mine[t := made], made + 1, counted)
  {
    var mine' := mine[t := made];
    forall x, y ensures Apart(mine', x, y) { assert Apart(mine, x, y); }
  }

  lemma CreateKeeps(s: State, t: Thread, ok: bool)
    requires Inv(s) && t in s.pcs && s.pcs[t].Create? && InRange(s, s.pcs[t])
    ensures Inv(Step(s, t, ok))
  {
    assert PcOk(s, t, s.pcs[t]);
    if ok {
      MineGrows(s.mine, s.made, s.counted, t);
      RecordKeeps(s, Step(s, t, ok), t);
    } else {
      MoveKeeps(s, t, Uncount(false));
    }
  }

  lemma LockStepKeeps(s: State, t: Thread, ok: bool)
    requires Inv(s) && t in s.pcs && InRange(s, s.pcs[t]) && (s.pcs[t].Decide? || s.pcs[t].Unlock? || s.pcs[t].Release?)
    ensures Inv(Step(s, t, ok))
  {
    assert PcOk(s, t, s.pcs[t]);
    match s.pcs[t]
    case Decide(m, n) =>
      if n >= s.tables[m].capacity / 2 && s.holder.None? {
        LockKeeps(s, t, Reload(n), Some(t));
      } else {
        MoveKeeps(s, t, Check(m, n));
      }
    case Unlock(m, n) => LockKeeps(s, t, Check(m, n), None);
    case Release => LockKeeps(s, t, Idle(Failed), None);
  }

  lemma ChoiceKeeps(s: State, t: Thread, ok: bool)
    requires Inv(s) && t in s.pcs && InRange(s, s.pcs[t]) && (s.pcs[t].Reload? || s.pcs[t].Check?)
    ensures Inv(Step(s, t, ok))
  {
    assert PcOk(s, t, s.pcs[t]);
    MoveKeeps(s, t, Step(s, t, ok).pcs[t]);
  }

  lemma NewCapacityFits(n: nat, capacity: nat)
    requires capacity > 0 && capacity % 4 == 0
    ensures NewCapacity(n, 2 * capacity) % 4 == 0 && capacity <= NewCapacity(n, 2 * capacity)
  {
    assert 2 * capacity % 4 == 0;
  }

  lemma AllocatedKeeps(s: State, t: Thread, m: nat, n: nat)
    requires Inv(s) && t in s.pcs && s.pcs[t] == Grow(m, n) && PcOk(s, t, Grow(m, n)) && s.tables[m].capacity > 0
    ensures Inv(GrowStep(s, t, m, n, true))
  {
    assert TableOk(s.tables[m]);
    NewCapacityFits(n, s.tables[m].capacity);
    GrownKeeps(s, t, n, Table(NewCapacity(n, 2 * s.tables[m].capacity), map[]));
  }

  lemma GrowKeeps(s: State, t: Thread, m: nat, n: nat, ok: bool)
    requires Inv(s) && t in s.pcs && s.pcs[t] == Grow(m, n) && PcOk(s, t, Grow(m, n)) && s.tables[m].capacity > 0
    ensures Inv(GrowStep(s, t, m, n, ok))
  {
    if ok {
      AllocatedKeeps(s, t, m, n);
    } else {
      MoveKeeps(s, t, Uncount(true));
    }
  }

  lemma GrownKeeps(s: State, t: Thread, n: nat, tab: Table)
    requires Inv(s) && t in s.pcs && s.pcs[t] == Grow(|s.tables| - 1, n) && s.holder == Some(t) && Waiting(s, t, n)
    requires tab.slots == map[] && tab.capacity % 4 == 0 && s.tables[|s.tables| - 1].capacity <= tab.capacity
    ensures Inv(To(s, t, Unlock(|s.tables|, n)).(tables := s.tables + [tab]))
  {
    var s' := To(s, t, Unlock(|s.tables|, n)).(tables := s.tables + [tab]);
    assert TableOk(s.tables[|s.tables| - 1]);
    GrownCaps(s.tables, tab);
    GrownCells(s.tables, tab, s.counted, s.mine);
    GrownFilled(s.tables, tab, s.pcs, t, Unlock(|s.tables|, n));
    forall u | u in s.pcs ensures TablesGained(s.tables, s'.tables, u) { GrownGained(s.tables, tab, u); }
    AbsentGained(s.tables, s'.tables, t, 0);
    PcsStep(s, s', t);
  }

  lemma GrownCaps(tables: seq<Table>, tab: Table)
    requires CapsOk(tables) && TableOk(tab) && tables[|tables| - 1].capacity <= tab.capacity
    ensures CapsOk(tables + [tab])
  {
    var tables' := tables + [tab];
    forall j | 0 <= j < |tables'| ensures TableOk(tables'[j]) { assert j < |tables| ==> TableOk(tables[j]); }
    forall i, j | 0 <= i < j < |tables'| ensures NoLarger(tables', i, j) {
      assert i < |tables| - 1 ==> NoLarger(tables, i, |tables| - 1);
      assert j < |tables| ==> NoLarger(tables, i, j);
    }
  }

  lemma GrownCells(tables: seq<Table>, tab: Table, counted: map<Thread, nat>, mine: map<Thread, Producer>)
    requires TablesOk(tables, counted, mine) && tab.slots == map[]
    ensures TablesOk(tables + [tab], counted, mine)
  {
    var tables' := tables + [tab];
    forall j | 0 <= j < |tables'| ensures CellsOk(tables'[j], counted, mine) {
      assert j < |tables| ==> CellsOk(tables[j], counted, mine);
    }
  }

  lemma GrownFilled(tables: seq<Table>, tab: Table, pcs: map<Thread, Pc>, t: Thread, pc: Pc)
    requires Filled(tables, pcs) && tab.slots == map[] && t in pcs && !pcs[t].PutValue?
    ensures Filled(tables + [tab], pcs[t := pc])
  {
    var tables', pcs' := tables + [tab], pcs[t := pc];
    forall j: nat, x | j < |tables'| && x in tables'[j].slots ensures FilledAt(tables', pcs', j, x) {
      assert FilledAt(tables, pcs, j, x);
    }
  }

  lemma GrownGained(tables: seq<Table>, tab: Table, u: Thread)
    requires tab.slots == map[]
    ensures TablesGained(tables, tables + [tab], u)
  {
    var tables' := tables + [tab];
    SameTables(tables, u);
    forall j | 0 <= j < |tables| ensures Gained(tables[j], tables'[j], u) { assert Gained(tables[j], tables[j], u); }
    forall j | |tables| <= j < |tables'| ensures Absent(tables'[j], u) { }
  }

  // ---------------------------------------------------------------- every run

  lemma PcInRange(s: State, t: Thread)
    requires Inv(s) && t in s.pcs
    ensures InRange(s, s.pcs[t])
  {
    assert PcOk(s, t, s.pcs[t]);
    assert forall j :: 0 <= j < |s.tables| ==> TableOk(s.tables[j]);
  }

  lemma StepKeepsInv(s: State, t: Thread, ok: bool)
    requires Inv(s) && t in s.pcs
    ensures InRange(s, s.pcs[t]) && Inv(Step(s, t, ok))
  {
    PcInRange(s, t);
    assert PcOk(s, t, s.pcs[t]);
    match s.pcs[t]
    case Idle(_) => IdleKeeps(s, t, ok);
    case Look(m, j, i) => LookKeeps(s, t, m, j, i);
    case Put(m, p, i) => PutKeeps(s, t, m, p, i, false);
    case PutCas(m, p, i) => PutKeeps(s, t, m, p, i, true);
    case PutValue(_, _, _) => PutValueKeeps(s, t, ok);
    case Count(_) => CountKeeps(s, t, ok);
    case Decide(_, _) => LockStepKeeps(s, t, ok);
    case Reload(_) => ChoiceKeeps(s, t, ok);
    case Grow(m, n) => GrowKeeps(s, t, m, n, ok);
    case Unlock(_, _) => LockStepKeeps(s, t, ok);
    case Check(_, _) => ChoiceKeeps(s, t, ok);
    case Create(_, _) => CreateKeeps(s, t, ok);
    case Uncount(_) => UncountKeeps(s, t, ok);
    case Release => LockStepKeeps(s, t, ok);
  }

  lemma InitHolds(threads: set<Thread>)
    ensures Inv(Init(threads))
  {
    var s := Init(threads);
    forall b: nat ensures Few(s.counted, b) { assert Low(s.counted, b) == {}; }
  }

  datatype Move = Move(t: Thread, ok: bool)

  ghost predicate Moves(s: State, m: Move, s': State) {
    m.t in s.pcs && |s.tables| > 0 && InRange(s, s.pcs[m.t]) && s' == Step(s, m.t, m.ok)
  }

  ghost predicate MovesAt(run: seq<State>, moves: seq<Move>, i: nat) {
    i < |moves| && i + 1 < |run| && Moves(run[i], moves[i], run[i + 1])
  }

  /** The slots hold ids, and a hash is computed from an id, so there is one thread to an id. */
  ghost predicate KnownById(threads: set<Thread>) {
    forall t, u :: t in threads && u in threads && t.id == u.id ==> t == u
  }

  ghost predicate Execution(run: seq<State>, moves: seq<Move>, threads: set<Thread>) {
    && |run| == |moves| + 1 && run[0] == Init(threads) && KnownById(threads)
    && forall i :: 0 <= i < |moves| ==> MovesAt(run, moves, i)
  }

  lemma MoveKeepsInv(s: State, m: Move, s': State)
    requires Inv(s) && Moves(s, m, s')
    ensures Inv(s') && s'.pcs.Keys == s.pcs.Keys
  {
    StepKeepsInv(s, m.t, m.ok);
  }

  lemma MoveKeepsMine(s: State, m: Move, s': State, t: Thread)
    requires Moves(s, m, s') && PcOk(s, m.t, s.pcs[m.t]) && t in s.mine
    ensures t in s'.mine && s'.mine[t] == s.mine[t]
  {
  }

  lemma {:induction false} ExecutionKeepsInv(run: seq<State>, moves: seq<Move>, threads: set<Thread>, i: nat)
    requires Execution(run, moves, threads) && i < |run|
    ensures Inv(run[i]) && run[i].pcs.Keys == threads
  {
    if i == 0 {
      InitHolds(threads);
    } else {
      ExecutionKeepsInv(run, moves, threads, i - 1);
      assert MovesAt(run, moves, i - 1);
      MoveKeepsInv(run[i - 1], moves[i - 1], run[i]);
    }
  }

  /** In every reachable state every table has fewer than three quarters of its slots taken, by distinct threads. */
  lemma NoTableFillsUp(run: seq<State>, moves: seq<Move>, threads: set<Thread>, i: nat, j: nat)
    requires Execution(run, moves, threads) && i < |run| && j < |run[i].tables|
    ensures 4 * |run[i].tables[j].slots| < 3 * run[i].tables[j].capacity
    ensures var slots := run[i].tables[j].slots;
            forall x, y :: x in slots && y in slots && x != y ==> slots[x].owner != slots[y].owner
  {
    ExecutionKeepsInv(run, moves, threads, i);
    var s := run[i];
    assert CellsOk(s.tables[j], s.counted, s.mine) && TableOk(s.tables[j]);
    TableHasRoom(s.tables[j], s.count, s.counted, s.mine);
    forall x, y | x in s.tables[j].slots && y in s.tables[j].slots
      && s.tables[j].slots[x].owner == s.tables[j].slots[y].owner
      ensures x == y
    {
      OneSlotEach(s.tables[j], s.counted, s.mine, x, y);
    }
  }

  /** The table whose slots a thread is probing. */
  function ProbedTable(pc: Pc): nat
    requires pc.Look? || pc.Put? || pc.PutCas?
  {
    if pc.Look? then pc.table else pc.main
  }

  /** A probe loop never gets past three quarters of the table, whatever the other threads do. */
  lemma ProbesAreShort(run: seq<State>, moves: seq<Move>, threads: set<Thread>, k: nat, t: Thread)
    requires Execution(run, moves, threads) && k < |run| && t in run[k].pcs
    requires var pc := run[k].pcs[t]; pc.Look? || pc.Put? || pc.PutCas?
    ensures var pc := run[k].pcs[t];
            ProbedTable(pc) < |run[k].tables| && 4 * pc.i < 3 * run[k].tables[ProbedTable(pc)].capacity
  {
    ExecutionKeepsInv(run, moves, threads, k);
    var s, pc := run[k], run[k].pcs[t];
    assert PcOk(s, t, pc);
    var j := ProbedTable(pc);
    assert CellsOk(s.tables[j], s.counted, s.mine) && TableOk(s.tables[j]);
    PathIsShort(s.tables[j], t, pc.i);
    TableHasRoom(s.tables[j], s.count, s.counted, s.mine);
  }

  ghost function StepsOf(moves: seq<Move>, t: Thread): nat {
    if moves == [] then 0 else StepsOf(moves[..|moves| - 1], t) + if moves[|moves| - 1].t == t then 1 else 0
  }

  lemma {:induction false} StepsOfNext(moves: seq<Move>, a: nat, b: nat, t: Thread)
    requires a <= b < |moves|
    ensures StepsOf(moves[a..b + 1], t) == StepsOf(moves[a..b], t) + if moves[b].t == t then 1 else 0
  {
    assert moves[a..b + 1][..b - a] == moves[a..b];
  }

  ghost predicate LookingAt(s: State, t: Thread, m: nat, j: nat) {
    t in s.pcs && s.pcs[t].Look? && s.pcs[t].main == m && s.pcs[t].table == j
  }

  lemma LookMove(s: State, v: Move, s': State, t: Thread, m: nat, j: nat)
    requires Moves(s, v, s') && LookingAt(s, t, m, j) && LookingAt(s', t, m, j)
    ensures s'.pcs[t].i == s.pcs[t].i + if v.t == t then 1 else 0
  {
  }

  /** While it stays in one lookup loop, a thread advances with each of its own steps. */
  lemma {:induction false} LookAdvances(run: seq<State>, moves: seq<Move>, a: nat, b: nat, t: Thread, m: nat, j: nat)
    requires a <= b < |run| && |run| == |moves| + 1 && forall k :: a <= k < b ==> MovesAt(run, moves, k)
    requires forall k :: a <= k <= b ==> LookingAt(run[k], t, m, j)
    ensures LookingAt(run[a], t, m, j) && LookingAt(run[b], t, m, j)
    ensures run[b].pcs[t].i == run[a].pcs[t].i + StepsOf(moves[a..b], t)
  {
    if a < b {
      LookAdvances(run, moves, a, b - 1, t, m, j);
      StepsOfNext(moves, a, b - 1, t);
      assert MovesAt(run, moves, b - 1) && LookingAt(run[b], t, m, j);
      LookMove(run[b - 1], moves[b - 1], run[b], t, m, j);
    }
  }

  /** Every lookup loop ends: it takes fewer steps than three quarters of the table's capacity. */
  lemma LookLoopEnds(run: seq<State>, moves: seq<Move>, threads: set<Thread>, a: nat, b: nat, t: Thread, m: nat, j: nat)
    requires Execution(run, moves, threads) && a <= b < |run|
    requires forall k :: a <= k <= b ==> LookingAt(run[k], t, m, j)
    ensures j < |run[b].tables| && 4 * StepsOf(moves[a..b], t) < 3 * run[b].tables[j].capacity
  {
    LookAdvances(run, moves, a, b, t, m, j);
    ProbesAreShort(run, moves, threads, b, t);
  }

  ghost predicate PuttingInto(s: State, t: Thread, m: nat) {
    t in s.pcs && (s.pcs[t].Put? || s.pcs[t].PutCas?) && s.pcs[t].main == m
  }

  /** Two for each slot passed, one more for a key that was loaded and found free. */
  ghost function PutWork(s: State, t: Thread): nat {
    if t in s.pcs && s.pcs[t].Put? then 2 * s.pcs[t].i
    else if t in s.pcs && s.pcs[t].PutCas? then 2 * s.pcs[t].i + 1
    else 0
  }

  lemma PutMove(s: State, v: Move, s': State, t: Thread, m: nat)
    requires Moves(s, v, s') && PuttingInto(s, t, m) && PuttingInto(s', t, m)
    ensures PutWork(s', t) >= PutWork(s, t) + if v.t == t then 1 else 0
  {
  }

  lemma {:induction false} PutAdvances(run: seq<State>, moves: seq<Move>, a: nat, b: nat, t: Thread, m: nat)
    requires a <= b < |run| && |run| == |moves| + 1 && forall k :: a <= k < b ==> MovesAt(run, moves, k)
    requires forall k :: a <= k <= b ==> PuttingInto(run[k], t, m)
    ensures PuttingInto(run[b], t, m) && PutWork(run[b], t) >= PutWork(run[a], t) + StepsOf(moves[a..b], t)
  {
    if a < b {
      PutAdvances(run, moves, a, b - 1, t, m);
      StepsOfNext(moves, a, b - 1, t);
      assert MovesAt(run, moves, b - 1) && PuttingInto(run[b], t, m);
      PutMove(run[b - 1], moves[b - 1], run[b], t, m);
    }
  }

  /** Every insertion or migration loop ends: each slot it passes costs at most two steps. */
  lemma PutLoopEnds(run: seq<State>, moves: seq<Move>, threads: set<Thread>, a: nat, b: nat, t: Thread, m: nat)
    requires Execution(run, moves, threads) && a <= b < |run| && forall k :: a <= k <= b ==> PuttingInto(run[k], t, m)
    ensures m < |run[b].tables| && 4 * StepsOf(moves[a..b], t) < 6 * run[b].tables[m].capacity + 4
  {
    PutAdvances(run, moves, a, b, t, m);
    ProbesAreShort(run, moves, threads, b, t);
  }

  /** Once a thread has a producer it keeps it. */
  lemma {:induction false} MineIsStable(run: seq<State>, moves: seq<Move>, threads: set<Thread>, i: nat, j: nat,
                                        t: Thread)
    requires Execution(run, moves, threads) && i <= j < |run| && t in run[i].mine
    ensures t in run[j].mine && run[j].mine[t] == run[i].mine[t]
  {
    if i < j {
      MineIsStable(run, moves, threads, i, j - 1, t);
      ExecutionKeepsInv(run, moves, threads, j - 1);
      assert MovesAt(run, moves, j - 1);
      assert PcOk(run[j - 1], moves[j - 1].t, run[j - 1].pcs[moves[j - 1].t]);
      MoveKeepsMine(run[j - 1], moves[j - 1], run[j], t);
    }
  }

  ghost predicate Returned(run: seq<State>, i: nat, t: Thread, v: Option<Producer>) {
    i < |run| && t in run[i].pcs && run[i].pcs[t] == Idle(Got(v))
  }

  /** All calls of one thread return the same producer, and calls of different threads different ones. */
  lemma OneProducerPerThread(run: seq<State>, moves: seq<Move>, threads: set<Thread>, i: nat, j: nat, t: Thread,
                             u: Thread, v: Option<Producer>, w: Option<Producer>)
    requires Execution(run, moves, threads) && Returned(run, i, t, v) && Returned(run, j, u, w) && i <= j
    ensures v.Some? && w.Some? && (v == w <==> t.id == u.id)
  {
    ExecutionKeepsInv(run, moves, threads, i);
    ExecutionKeepsInv(run, moves, threads, j);
    assert PcOk(run[i], t, run[i].pcs[t]) && PcOk(run[j], u, run[j].pcs[u]);
    MineIsStable(run, moves, threads, i, j, t);
    assert Apart(run[j].mine, t, u);
  }

  ghost predicate NoFailure(pc: Pc) { !pc.Uncount? && !pc.Release? && pc != Idle(Failed) }

  lemma LookDoesNotFail(s: State, t: Thread)
    requires t in s.pcs && |s.tables| > 0 && InRange(s, s.pcs[t]) && s.pcs[t].Look?
    ensures NoFailure(Step(s, t, true).pcs[t])
  {
  }

  lemma OwnStepDoesNotFail(s: State, t: Thread)
    requires t in s.pcs && |s.tables| > 0 && InRange(s, s.pcs[t]) && NoFailure(s.pcs[t])
    ensures NoFailure(Step(s, t, true).pcs[t])
  {
    if s.pcs[t].Look? { LookDoesNotFail(s, t); }
  }

  lemma StepDoesNotFail(s: State, m: Move, s': State, t: Thread)
    requires Moves(s, m, s') && m.ok && t in s.pcs && NoFailure(s.pcs[t])
    ensures NoFailure(s'.pcs[t])
  {
    if t == m.t { OwnStepDoesNotFail(s, t); }
  }

  /** A call only fails when an allocation does. */
  lemma {:induction false} FailsOnlyWithoutMemory(run: seq<State>, moves: seq<Move>, threads: set<Thread>, i: nat,
                                                  t: Thread)
    requires Execution(run, moves, threads) && i < |run| && t in threads
    requires forall k :: 0 <= k < i ==> moves[k].ok
    ensures t in run[i].pcs && NoFailure(run[i].pcs[t])
  {
    ExecutionKeepsInv(run, moves, threads, i);
    if i > 0 {
      assert MovesAt(run, moves, i - 1);
      assert moves[i - 1].ok;
      FailsOnlyWithoutMemory(run, moves, threads, i - 1, t);
      StepDoesNotFail(run[i - 1], moves[i - 1], run[i], t);
    }
  }

  /** After it has allocated a table, a thread always passes the three-quarters test. */
  lemma GrownTableIsRoomy(s: State, t: Thread)
    requires Inv(s) && t in s.pcs && s.pcs[t].Grow?
    ensures InRange(s, s.pcs[t]) && var pc := Step(s, t, true).pcs[t];
            pc.Unlock? && pc.main < |Step(s, t, true).tables| && pc.n < Limit(Step(s, t, true).tables[pc.main].capacity)
  {
    StepKeepsInv(s, t, true);
    assert PcOk(s, t, s.pcs[t]);
  }
}
