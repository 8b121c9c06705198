/** Selection by priority, and the bound on aging. */
module AgingProofs {
  import opened Model
  import opened Seqs
  import opened StableSort
  import opened SchedulerCore
  import opened DeadlockGraph
  import opened CycleSpec
  import opened Invariant
  import opened CycleProofs

  /** Grows by exactly one with every aging call that a queued task lives through. */
  function Phi(t: Task): int {
    5 * t.effectivePriority + t.waitTicks
  }

  predicate TicksOk(ts: seq<Task>, q: seq<int>) {
    forall p :: 0 <= p < |q| ==> 0 <= q[p] < |ts| && 0 <= ts[q[p]].waitTicks < 5
  }

  /** Potential plus place in the queue stays within the bound. */
  predicate PhiBound(ts: seq<Task>, q: seq<int>, bound: int) {
    TicksOk(ts, q) && forall p :: 0 <= p < |q| ==> Phi(ts[q[p]]) + p <= bound
  }

  /**
   Sorting keeps the bound: a task that falls behind was overtaken by one of strictly
   larger potential from a place at least as far back.
   */
  lemma SortKeepsPhiBound(ts: seq<Task>, q: seq<int>, bound: int)
    requires NoDup(q) && PhiBound(ts, q, bound)
    ensures PhiBound(ts, Sorted(ts, q), bound)
  {
    var r := Sorted(ts, q);
    SortedIsStableSort(ts, q);
    PermutationNoDup(q, r);
    forall p | 0 <= p < |r|
      ensures 0 <= r[p] < |ts| && 0 <= ts[r[p]].waitTicks < 5 && Phi(ts[r[p]]) + p <= bound
    {
      assert r[p] in q;
      var k :| 0 <= k < |q| && q[k] == r[p];
      var o := Overtaken(ts, q, r, p);
      assert Phi(ts[q[o]]) + o <= bound;
    }
  }

  /** Base priorities are at most P, effective ones at least the base, and equal to it off the queue. */
  predicate PriosOk(s: Segment, P: int) {
    forall i :: 0 <= i < |s.tasks| ==>
      && s.tasks[i].basePriority <= P && s.tasks[i].basePriority <= s.tasks[i].effectivePriority
      && (i !in s.ready ==> s.tasks[i].effectivePriority == s.tasks[i].basePriority && s.tasks[i].waitTicks == 0)
  }

  predicate QueueOk(s: Segment, bound: int) {
    Descending(s.tasks, s.ready) && PhiBound(s.tasks, s.ready, bound)
  }

  predicate Ranked(s: Segment, P: int) {
    PriosOk(s, P) && QueueOk(s, 5 * P + 255)
  }

  /** No effective priority ever exceeds P + 51. */
  lemma EffectiveBound(s: Segment, P: int, i: int)
    requires Ranked(s, P) && 0 <= i < |s.tasks|
    ensures s.tasks[i].effectivePriority <= P + 51
  {
    if i in s.ready {
      var p :| 0 <= p < |s.ready| && s.ready[p] == i;
      assert Phi(s.tasks[s.ready[p]]) + p <= 5 * P + 255;
    }
  }

  lemma AppendPhiBound(ts: seq<Task>, q: seq<int>, i: int, t: Task, P: int)
    requires PhiBound(ts, q, 5 * P + 255) && NoDup(q + [i]) && |q| < MAX_TASKS
    requires 0 <= i < |ts| && t.effectivePriority <= P && t.waitTicks == 0
    ensures PhiBound(ts[i := t], q + [i], 5 * P + 255)
  {
    var r := q + [i];
    forall p | 0 <= p < |r|
      ensures 0 <= r[p] < |ts| && 0 <= ts[i := t][r[p]].waitTicks < 5 && Phi(ts[i := t][r[p]]) + p <= 5 * P + 255
    {
      if p < |q| {
        assert r[p] == q[p] && r[p] != r[|q|];
      }
    }
  }

  lemma AdmitPrios(s: Segment, i: int, t: Task, P: int)
    requires PriosOk(s, P) && NoDup(s.ready + [i]) && Enqueue(s.ready, i) == s.ready + [i]
    requires 0 <= i < |s.tasks|
    requires t.basePriority == t.effectivePriority <= P && t.waitTicks == 0
    ensures PriosOk(Admit(s, i, t), P)
  {
    var s' := Admit(s, i, t);
    SortedSame(s'.tasks, s.ready + [i]);
    forall j | 0 <= j < |s.tasks| && j != i ensures j in s'.ready <==> j in s.ready {
      assert j in s.ready + [i] <==> j in s.ready;
    }
  }

  /** Joining the queue with a priority of at most P. */
  lemma AdmitRanked(s: Segment, outs: set<int>, i: int, t: Task, P: int)
    requires Ranked(s, P) && Located(s, outs) && |s.tasks| <= MAX_TASKS
    requires 0 <= i < |s.tasks| && i in outs
    requires t.basePriority == t.effectivePriority <= P && t.waitTicks == 0
    ensures Ranked(Admit(s, i, t), P)
  {
    EnqueueRoom(s.ready, i, |s.tasks|);
    Pigeonhole(s.ready + [i], |s.tasks|);
    var ts := s.tasks[i := t.(state := Ready)];
    AdmitPrios(s, i, t, P);
    AppendPhiBound(s.tasks, s.ready, i, t.(state := Ready), P);
    SortKeepsPhiBound(ts, s.ready + [i], 5 * P + 255);
    SortedIsStableSort(ts, s.ready + [i]);
  }

  /** Rewriting a task that is not queued, without raising it above P. */
  lemma OffQueueRanked(s: Segment, i: int, t: Task, P: int)
    requires Ranked(s, P) && 0 <= i < |s.tasks| && i !in s.ready
    requires t.basePriority == t.effectivePriority <= P && t.waitTicks == 0
    ensures Ranked(SetTask(s, i, t), P)
  {
    var s' := SetTask(s, i, t);
    assert forall p :: 0 <= p < |s.ready| ==> s.ready[p] in s.ready && s.ready[p] != i;
    assert forall p :: 0 <= p < |s.ready| ==> Prio(s'.tasks, s.ready[p]) == Prio(s.tasks, s.ready[p]);
  }

  lemma ResetPhiBound(ts: seq<Task>, q: seq<int>, i: int, t: Task, P: int)
    requires PhiBound(ts, q, 5 * P + 255) && |q| <= MAX_TASKS
    requires 0 <= i < |ts| && t.effectivePriority <= P && t.waitTicks == 0
    ensures PhiBound(ts[i := t], q, 5 * P + 255)
  {
    forall p | 0 <= p < |q|
      ensures 0 <= q[p] < |ts| && 0 <= ts[i := t][q[p]].waitTicks < 5 && Phi(ts[i := t][q[p]]) + p <= 5 * P + 255
    {
      assert Phi(ts[q[p]]) + p <= 5 * P + 255;
    }
  }

  /** Setting the priority of a queued task to at most P. */
  lemma ResetRanked(s: Segment, i: int, t: Task, P: int)
    requires Ranked(s, P) && NoDup(s.ready) && |s.ready| <= MAX_TASKS
    requires 0 <= i < |s.tasks|
    requires t.basePriority == t.effectivePriority <= P && t.waitTicks == 0
    ensures var s' := SetTask(s, i, t); Ranked(s'.(ready := Sorted(s'.tasks, s.ready)), P)
  {
    var ts := s.tasks[i := t];
    ResetPhiBound(s.tasks, s.ready, i, t, P);
    SortKeepsPhiBound(ts, s.ready, 5 * P + 255);
    SortedIsStableSort(ts, s.ready);
    SortedSame(ts, s.ready);
  }

  lemma AgeTaskPhi(t: Task)
    requires 0 <= t.waitTicks < 5
    ensures Phi(AgeTask(t)) == Phi(t) + 1 && 0 <= AgeTask(t).waitTicks < 5
    ensures AgeTask(t).basePriority == t.basePriority
    ensures t.effectivePriority <= AgeTask(t).effectivePriority
  {
  }

  /** Aging raises every potential by one. */
  lemma AgePhiBound(s: Segment, bound: int)
    requires QueueOk(s, bound) && NoDup(s.ready) && |s.ready| > 1 && s.algorithm == PRIORITY_ALGORITHM
    ensures QueueOk(Age(s), bound + 1)
  {
    hide Phi;
    var ts := AgeTasks(s.tasks, s.ready);
    forall p | 0 <= p < |s.ready|
      ensures 0 <= s.ready[p] < |ts| && 0 <= ts[s.ready[p]].waitTicks < 5 && Phi(ts[s.ready[p]]) + p <= bound + 1
    {
      assert s.ready[p] in s.ready;
      AgeTaskPhi(s.tasks[s.ready[p]]);
    }
    if SomeAged(s.tasks, s.ready) {
      SortKeepsPhiBound(ts, s.ready, bound + 1);
      SortedIsStableSort(ts, s.ready);
    } else {
      assert forall p :: 0 <= p < |s.ready| ==>
                           s.ready[p] in s.ready && Prio(ts, s.ready[p]) == Prio(s.tasks, s.ready[p]);
    }
  }

  lemma AgePrios(s: Segment, P: int)
    requires PriosOk(s, P) && NoDup(s.ready)
    ensures PriosOk(Age(s), P)
  {
    var ts := AgeTasks(s.tasks, s.ready);
    SortedSame(ts, s.ready);
    assert forall j :: j in Age(s).ready <==> j in s.ready;
    forall j | 0 <= j < |ts|
      ensures ts[j].basePriority == s.tasks[j].basePriority
      ensures s.tasks[j].effectivePriority <= ts[j].effectivePriority
      ensures j !in s.ready ==> ts[j] == s.tasks[j]
    {
    }
  }

  lemma SelectPrios(s: Segment, P: int)
    requires PriosOk(s, P) && NoDup(s.ready) && s.ready != []
    ensures PriosOk(Select(s), P)
  {
    var i := s.ready[0];
    forall j | 0 <= j < |s.tasks| && j != i ensures j in s.ready[1..] <==> j in s.ready {
      assert s.ready == [i] + s.ready[1..];
    }
  }

  /** Taking the first task off the queue makes up for the tick of aging. */
  lemma SelectRanked(s: Segment, P: int)
    requires PriosOk(s, P) && QueueOk(s, 5 * P + 256) && NoDup(s.ready) && s.ready != []
    requires InRange(s.ready, |s.tasks|)
    ensures Ranked(Select(s), P)
  {
    hide PriosOk, Phi;
    SelectPrios(s, P);
    var i, q, s' := s.ready[0], s.ready[1..], Select(s);
    forall p | 0 <= p < |q|
      ensures 0 <= q[p] < |s.tasks| && q[p] != i && Phi(s.tasks[q[p]]) + p <= 5 * P + 255
      ensures 0 <= s.tasks[q[p]].waitTicks < 5
    {
      assert q[p] == s.ready[p + 1];
      assert Phi(s.tasks[s.ready[p + 1]]) + (p + 1) <= 5 * P + 256;
    }
    assert forall p :: 0 <= p < |q| ==> s'.tasks[q[p]] == s.tasks[q[p]];
    forall a, b | 0 <= a < b < |q| ensures Prio(s'.tasks, q[a]) >= Prio(s'.tasks, q[b]) {
      assert Prio(s.tasks, s.ready[a + 1]) >= Prio(s.tasks, s.ready[b + 1]);
    }
  }

  lemma AgeSelectRanked(s: Segment, P: int)
    requires Ranked(s, P) && Sound(s) && Located(s, {})
    ensures Ranked(Select(Age(s)), P)
  {
    AgePrios(s, P);
    AgeOk(s);
    if |s.ready| > 1 {
      AgePhiBound(s, 5 * P + 255);
      SortedSame(AgeTasks(s.tasks, s.ready), s.ready);
      SelectRanked(Age(s), P);
    } else if s.ready != [] {
      SelectRanked(s, P);
    }
  }

  lemma VisitRanked(p: Pass, P: int)
    requires PassOk(p) && Ranked(p.seg, P)
    ensures Ranked(AllocateHead(p).seg, P)
  {
    if p.seg.blocked != [] {
      VisitHead(p);
      PoppedSound(p);
      var i, m := p.seg.blocked[0], Popped(p);
      HeadGives(p, i);
      VisitTasks(m, i);
      var t := Visited(m.seg.tasks[i], m.taken);
      assert Ranked(m.seg, P);
      if t.state == Ready {
        AdmitRanked(m.seg, {i}, i, t, P);
      } else {
        OffQueueRanked(m.seg, i, t, P);
      }
    }
  }

  lemma {:induction false} PassRanked(p: Pass, n: nat, P: int)
    requires PassOk(p) && Ranked(p.seg, P)
    ensures Ranked(AllocateN(p, n).seg, P)
  {
    hide PassOk, Ranked, AllocateHead;
    if n > 0 {
      var m := AllocateN(p, n - 1);
      PassRanked(p, n - 1, P);
      PassKeepsOk(p, n - 1);
      VisitRanked(m, P);
    }
  }

  lemma AbortRanked(s: Segment, v: int, P: int)
    requires Ranked(s, P) && Located(s, {}) && 0 <= v < |s.tasks| && s.tasks[v].state == Blocked
    ensures Ranked(Abort(s, v), P)
  {
    assert PlacedByState(s, v);
    WithoutNoDup(s.ready, v);
    OffQueueRanked(s, v, Aborted(s.tasks[v]), P);
  }

  lemma {:induction false} AbortAllRanked(s: Segment, victims: seq<int>, P: int)
    requires Ranked(s, P) && Sound(s) && Located(s, {}) && Justified(s, victims)
    ensures Ranked(AbortAll(s, victims), P)
  {
    if victims != [] {
      JustifiedPrefix(s, victims);
      var front, v := victims[..|victims| - 1], victims[|victims| - 1];
      AbortAllOk(s, front);
      AbortAllRanked(s, front, P);
      var _ := VictimBlocked(AbortAll(s, front).tasks, v);
      AbortRanked(AbortAll(s, front), v, P);
    }
  }

  /** The ready queue is in priority order, and within the aging bound, after every section. */
  lemma CycleRanked(s: Segment, victims: seq<int>, P: int)
    requires Ranked(s, P) && Sound(s) && Located(s, {}) && CycleVictims(s, victims)
    ensures Ranked(Cycle(s, victims), P)
  {
    Stages(s, victims);
    PassStartOk(s);
    PassRanked(PassStart(s), |s.blocked|, P);
    AbortAllRanked(Allocation(s).seg, victims, P);
    AgeSelectRanked(AbortAll(Allocation(s).seg, victims), P);
  }

  lemma HeadHighest(s: Segment, j: int)
    requires Descending(s.tasks, s.ready) && Located(s, {}) && s.ready != []
    ensures var i := s.ready[0];
            && 0 <= i < |s.tasks| && s.tasks[i].state == Ready
            && (0 <= j < |s.tasks| && s.tasks[j].state == Ready ==>
                  s.tasks[i].effectivePriority >= s.tasks[j].effectivePriority)
  {
    assert s.ready[0] in s.ready && PlacedByState(s, s.ready[0]);
    if 0 <= j < |s.tasks| && s.tasks[j].state == Ready {
      assert PlacedByState(s, j);
      var k :| 0 <= k < |s.ready| && s.ready[k] == j;
    }
  }

  lemma BeforeSelectDescending(s: Segment, victims: seq<int>, P: int)
    requires Ranked(s, P) && Sound(s) && Located(s, {}) && CycleVictims(s, victims)
    ensures var r := BeforeSelect(s, victims); Descending(r.tasks, r.ready) && Located(r, {})
  {
    Stages(s, victims);
    PassStartOk(s);
    PassRanked(PassStart(s), |s.blocked|, P);
    AbortAllRanked(Allocation(s).seg, victims, P);
    var d := AbortAll(Allocation(s).seg, victims);
    if |d.ready| > 1 {
      AgePhiBound(d, 5 * P + 255);
    }
  }

  /** The selected task has the highest effective priority of all READY tasks. */
  lemma SelectsHighest(s: Segment, victims: seq<int>, P: int, j: int)
    requires Ranked(s, P) && Sound(s) && Located(s, {}) && CycleVictims(s, victims)
    requires CycleOutcome(s, victims).Selected?
    ensures var r, i := BeforeSelect(s, victims), CycleOutcome(s, victims).idx;
            && 0 <= i < |r.tasks| && r.tasks[i].state == Ready
            && (0 <= j < |r.tasks| && r.tasks[j].state == Ready ==>
                  r.tasks[i].effectivePriority >= r.tasks[j].effectivePriority)
  {
    BeforeSelectDescending(s, victims, P);
    HeadHighest(BeforeSelect(s, victims), j);
  }

  /** Allocation and resolution leave READY tasks alone. */
  lemma ReadyUntouched(s: Segment, victims: seq<int>, i: int)
    requires Sound(s) && Located(s, {}) && CycleVictims(s, victims)
    requires i in s.ready
    ensures var d := AbortAll(Allocation(s).seg, victims);
            && 0 <= i < |s.tasks| == |d.tasks| && d.tasks[i] == s.tasks[i] && i in d.ready
            && Sound(d) && Located(d, {})
  {
    Stages(s, victims);
    InRangeMembers(s.ready, |s.tasks|);
    assert PlacedByState(s, i);
    var p, d := Allocation(s), AbortAll(Allocation(s).seg, victims);
    assert Advances(s.tasks[i], p.seg.tasks[i]);
    assert Resolved(p.seg.tasks[i], d.tasks[i]);
    assert PlacedByState(d, i);
  }

  lemma AgeGains(d: Segment, i: int)
    requires d.algorithm == PRIORITY_ALGORITHM && NoDup(d.ready) && |d.ready| > 1
    requires 0 <= i < |d.tasks| && i in d.ready && 0 <= d.tasks[i].waitTicks < 5
    ensures |Age(d).tasks| == |d.tasks| && i in Age(d).ready && Phi(Age(d).tasks[i]) == Phi(d.tasks[i]) + 1
  {
    SortedSame(AgeTasks(d.tasks, d.ready), d.ready);
    AgeTaskPhi(d.tasks[i]);
  }

  lemma SelectLeaves(r: Segment, i: int)
    requires Sound(r) && Located(r, {}) && i in r.ready && r.ready[0] != i && 0 <= i < |r.tasks|
    ensures i in Select(r).ready && |Select(r).tasks| == |r.tasks| && Select(r).tasks[i] == r.tasks[i]
  {
    SelectOk(r);
    assert r.ready == [r.ready[0]] + r.ready[1..];
  }

  lemma AgeSelectGains(d: Segment, i: int)
    requires Sound(d) && Located(d, {}) && i in d.ready
    requires Age(d).ready == [] || Age(d).ready[0] != i
    ensures var s' := Select(Age(d));
            0 <= i < |d.tasks| == |s'.tasks| && i in s'.ready && Phi(s'.tasks[i]) == Phi(d.tasks[i]) + 1
  {
    InRangeMembers(d.ready, |d.tasks|);
    assert TaskOk(d.tasks[i]);
    var k :| 0 <= k < |d.ready| && d.ready[k] == i;
    assert k == 0 ==> |d.ready| > 1;
    AgeGains(d, i);
    AgeOk(d);
    SelectLeaves(Age(d), i);
  }

  /** A READY task that a section does not select stays queued and gains exactly one. */
  lemma WaitingGains(s: Segment, victims: seq<int>, i: int)
    requires Sound(s) && Located(s, {}) && CycleVictims(s, victims)
    requires i in s.ready && CycleOutcome(s, victims) != Selected(i)
    ensures var s' := Cycle(s, victims);
            0 <= i < |s.tasks| == |s'.tasks| && i in s'.ready && Phi(s'.tasks[i]) == Phi(s.tasks[i]) + 1
  {
    ReadyUntouched(s, victims, i);
    Stages(s, victims);
    AgeSelectGains(AbortAll(Allocation(s).seg, victims), i);
  }
}
