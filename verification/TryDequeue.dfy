/** The entry points of the queue that walk over the producers, when no other operation is in flight. */
module TryDequeue {
  import opened Tickets

  /** A sub-queue between operations, reachable and at rest. */
  ghost predicate Rests(t: State) {
    && (exists w :: Tickets.Inv(t, w))
    && (forall c :: 0 <= c < |t.pcs| ==> AtRest(t.pcs[c]))
  }

  /** `size_approx`. */
  function Size(t: State): nat { if t.head < t.tail then t.tail - t.head else 0 }

  function TotalSize(ts: seq<State>): nat {
    if ts == [] then 0 else TotalSize(ts[..|ts| - 1]) + Size(ts[|ts| - 1])
  }

  /** `dequeue_bulk` of one producer by consumer `c`, and `dequeue` for `max == 1`. */
  method DequeueFrom(t: State, c: nat, max: nat) returns (count: nat, t': State)
    requires Rests(t) && c < |t.pcs| && t.pcs[c].Idle? && max > 0
    ensures count == Min(max, Size(t)) && t'.head == t.head + count && t'.tail == t.tail
    ensures t'.pcs == t.pcs[c := if count == 0 then Idle else Claimed(t.head, count)]
    ensures count == 0 ==> t' == t
    ensures Rests(t')
  {
    ghost var w :| Tickets.Inv(t, w);
    SoloDequeueIsExact(t, w, c, max);
    t' := Solo(Step(t, Call(c, max, t.tail)), c);
    count := if t'.pcs[c].Claimed? then t'.pcs[c].a else 0;
    StepKeepsInv(t, Call(c, max, t.tail), w);
    ghost var w' := SoloKeepsInv(Step(t, Call(c, max, t.tail)), c, w);
    if count == 0 {
      SoloOnEmpty(t, w, c, max);
    }
  }

  lemma SoloOnEmpty(t: State, w: seq<Verdict>, c: nat, max: nat)
    requires Tickets.Inv(t, w) && c < |t.pcs| && t.pcs[c].Idle? && max > 0 && t.head == t.tail
    requires forall e :: 0 <= e < |t.pcs| ==> AtRest(t.pcs[e])
    ensures Solo(Step(t, Call(c, max, t.tail)), c) == t
  {
    QuiescentCounters(t, w);
    var s1 := Step(t, Call(c, max, t.tail));
    var s2 := Step(s1, Run(c, s1.over));
    var s3 := Step(s2, Run(c, s2.opt));
    assert Solo(s1, c) == Solo(s2, c) == Solo(s3, c) == s3;
    assert s3.pcs == t.pcs;
  }

  lemma {:induction false} SoloKeepsInv(t: State, c: nat, w: seq<Verdict>) returns (w': seq<Verdict>)
    requires Tickets.Inv(t, w) && c < |t.pcs|
    ensures Tickets.Inv(Solo(t, c), w')
    decreases Rank(t.pcs[c])
  {
    if AtRest(t.pcs[c]) {
      w' := w;
    } else {
      var seen := if t.pcs[c].Tail? then t.over else if t.pcs[c].Over? then t.opt else t.tail;
      StepKeepsInv(t, Run(c, seen), w);
      w' := SoloKeepsInv(Step(t, Run(c, seen)), c, NextVerdicts(t, Run(c, seen), w));
    }
  }

  function NonEmpty(ts: seq<State>): nat {
    if ts == [] then 0 else NonEmpty(ts[..|ts| - 1]) + if Size(ts[|ts| - 1]) > 0 then 1 else 0
  }

  lemma NonEmptyNext(ts: seq<State>, i: nat)
    requires i < |ts|
    ensures NonEmpty(ts[..i + 1]) == NonEmpty(ts[..i]) + if Size(ts[i]) > 0 then 1 else 0
  {
    assert ts[..i + 1][..i] == ts[..i];
  }

  lemma {:induction false} NonEmptyGrows(ts: seq<State>, i: nat, j: nat)
    requires i <= j <= |ts|
    ensures NonEmpty(ts[..i]) <= NonEmpty(ts[..j])
  {
    if i < j {
      NonEmptyGrows(ts, i, j - 1);
      NonEmptyNext(ts, j - 1);
    }
  }

  /** One of the first three producers that are not empty. */
  predicate Scored(ts: seq<State>, q: nat) { q < |ts| && Size(ts[q]) > 0 && NonEmpty(ts[..q]) < 3 }

  /** The largest of them, and of equals the first. */
  predicate Preferred(ts: seq<State>, p: nat, q: nat) {
    p < |ts| && (Scored(ts, q) ==> Size(ts[q]) < Size(ts[p]) || (Size(ts[q]) == Size(ts[p]) && p <= q))
  }

  /** The scoring loop of `try_dequeue`: the largest of the first three non-empty producers, of equals the first. */
  method Score(ts: seq<State>) returns (nonEmpty: nat, best: nat)
    ensures nonEmpty > 0 <==> exists i :: 0 <= i < |ts| && Size(ts[i]) > 0
    ensures nonEmpty > 0 ==> Scored(ts, best) && forall q :: 0 <= q < |ts| ==> Preferred(ts, best, q)
  {
    nonEmpty, best := 0, 0;
    var bestSize, i := 0, 0;
    while i < |ts| && nonEmpty < 3
      invariant 0 <= i <= |ts| && nonEmpty == NonEmpty(ts[..i])
      invariant nonEmpty == 0 ==> bestSize == 0 && forall j :: 0 <= j < i ==> Size(ts[j]) == 0
      invariant nonEmpty > 0 ==> best < i && bestSize == Size(ts[best]) && Scored(ts, best)
      invariant nonEmpty > 0 ==> forall j :: 0 <= j < i ==> Preferred(ts, best, j)
    {
      NonEmptyNext(ts, i);
      var size := Size(ts[i]);
      ghost var was := best;
      assert forall j :: 0 <= j < i && nonEmpty > 0 ==> Preferred(ts, was, j);
      if size > 0 {
        if size > bestSize {
          bestSize, best := size, i;
        }
        nonEmpty := nonEmpty + 1;
      }
      forall j | 0 <= j <= i && nonEmpty > 0 ensures Preferred(ts, best, j) {
        assert j < i && nonEmpty > 1 ==> Preferred(ts, was, j);
      }
      i := i + 1;
    }
    forall q | i <= q < |ts| ensures !Scored(ts, q) { NonEmptyGrows(ts, i, q); }
  }

  /** `try_dequeue`: dequeues from the preferred producer, and falls back to the others.  It fails exactly when every
      producer is empty. */
  method TryDequeueOne(ts: seq<State>, c: nat) returns (found: bool, p: nat, ts': seq<State>)
    requires forall i :: 0 <= i < |ts| ==> Rests(ts[i]) && c < |ts[i].pcs| && ts[i].pcs[c].Idle?
    ensures found <==> exists i :: 0 <= i < |ts| && Size(ts[i]) > 0
    ensures !found ==> ts' == ts
    ensures found ==> p < |ts| && Size(ts[p]) > 0 && |ts'| == |ts| && ts' == ts[p := ts'[p]]
                      && ts'[p].head == ts[p].head + 1 && ts'[p].tail == ts[p].tail
                      && ts'[p].pcs == ts[p].pcs[c := Claimed(ts[p].head, 1)]
    ensures found ==> Scored(ts, p) && forall q :: 0 <= q < |ts| ==> Preferred(ts, p, q)
  {
    ts', found, p := ts, false, 0;
    var nonEmpty, best := Score(ts);
    if nonEmpty > 0 {
      var count, t' := DequeueFrom(ts[best], c, 1);
      // Without interference this succeeds, and the source's second walk over the producers is not reached.
      return true, best, ts[best := t'];
    }
  }

  lemma {:induction false} TotalSizeUpdate(ts: seq<State>, i: nat, t: State)
    requires i < |ts|
    ensures TotalSize(ts[i := t]) + Size(ts[i]) == TotalSize(ts) + Size(t)
  {
    var last := |ts| - 1;
    if i == last {
      assert ts[i := t][..last] == ts[..last];
    } else {
      assert ts[i := t][..last] == ts[..last][i := t];
      TotalSizeUpdate(ts[..last], i, t);
    }
  }

  lemma {:induction false} TotalSizeZero(ts: seq<State>)
    requires forall i :: 0 <= i < |ts| ==> Size(ts[i]) == 0
    ensures TotalSize(ts) == 0
  {
    if ts != [] { TotalSizeZero(ts[..|ts| - 1]); }
  }

  /** Nothing was taken, or consumer `c` owns what lies between the old and the new head. */
  predicate TakenFrom(t: State, t': State, c: nat) {
    || t' == t
    || (t.head < t'.head && t'.tail == t.tail && c < |t.pcs|
        && t'.pcs == t.pcs[c := Claimed(t.head, t'.head - t.head)])
  }

  /** The first `i` producers have been visited and `count` elements taken: all but the last visited are empty, that one
      too unless there are enough, and the rest are as they were. */
  ghost predicate Walked(ts: seq<State>, ts': seq<State>, i: nat, c: nat, count: nat, max: nat) {
    && i <= |ts| == |ts'| && count <= max
    && (forall j :: i <= j < |ts| ==> ts'[j] == ts[j])
    && (forall j :: 0 <= j < i && (count < max || j + 1 < i) ==> Size(ts'[j]) == 0)
    && (forall j :: 0 <= j < |ts| ==> TakenFrom(ts[j], ts'[j], c))
  }

  lemma WalkedNext(ts: seq<State>, ts': seq<State>, i: nat, c: nat, count: nat, max: nat, got: nat, t': State)
    requires Walked(ts, ts', i, c, count, max) && i < |ts| && count < max
    requires got == Min(max - count, Size(ts[i])) && Size(t') == Size(ts[i]) - got && TakenFrom(ts[i], t', c)
    ensures Walked(ts, ts'[i := t'], i + 1, c, count + got, max)
  {
  }

  /** `try_dequeue_bulk`: takes from one producer after the other until it has `max` elements or has seen all
      of them; it takes exactly the smaller of `max` and the number of elements in the queue, and nothing from a
      producer before it has emptied the earlier ones. */
  method TryDequeueMany(ts: seq<State>, c: nat, max: nat) returns (count: nat, ts': seq<State>)
    requires forall i :: 0 <= i < |ts| ==> Rests(ts[i]) && c < |ts[i].pcs| && ts[i].pcs[c].Idle?
    requires max > 0
    ensures count == Min(max, TotalSize(ts)) && |ts'| == |ts|
    ensures TotalSize(ts') == TotalSize(ts) - count
    ensures forall i :: 0 <= i < |ts| ==> TakenFrom(ts[i], ts'[i], c)
    ensures forall i, j :: 0 <= i < j < |ts| && ts'[j] != ts[j] ==> Size(ts'[i]) == 0
  {
    count, ts' := 0, ts;
    var i := 0;
    while i < |ts| && count < max
      invariant Walked(ts, ts', i, c, count, max) && TotalSize(ts') == TotalSize(ts) - count
    {
      var got, t' := DequeueFrom(ts[i], c, max - count);
      WalkedNext(ts, ts', i, c, count, max, got, t');
      TotalSizeUpdate(ts', i, t');
      ts', count := ts'[i := t'], count + got;
      i := i + 1;
    }
    if count < max {
      TotalSizeZero(ts');
    }
  }
}
