/** How much work is left: the measure that every scheduling cycle brings down. */
module WorkProofs {
  import opened Model
  import Seqs
  import SchedulerCore
  import DeadlockGraph
  import opened CycleSpec
  import Worker
  import opened Invariant
  import opened CycleProofs

  /** Number of quanta of at most q that a remaining time x takes. */
  function QuantaLeft(x: int, q: int): nat
    requires q > 0
    decreases x
  {
    if x <= 0 then 0 else 1 + QuantaLeft(x - q, q)
  }

  /** It is x / q rounded up. */
  lemma {:induction false} QuantaLeftIsCeiling(x: int, q: int)
    requires q > 0 && x > 0
    ensures (QuantaLeft(x, q) - 1) * q < x <= QuantaLeft(x, q) * q
    decreases x
  {
    if x > q {
      QuantaLeftIsCeiling(x - q, q);
      var k := QuantaLeft(x - q, q);
      assert k * q == (k - 1) * q + q;
      assert (k + 1) * q == k * q + q;
    } else {
      assert QuantaLeft(x, q) == 1;
    }
  }

  /** A quantum of min(x, q) is one quantum less. */
  lemma QuantumTaken(x: int, q: int)
    requires q > 0 && x > 0
    ensures QuantaLeft(x - (if x < q then x else q), q) == QuantaLeft(x, q) - 1
  {
  }

  /** What is left of one task: finishing it, the resources it misses, and its quanta. */
  function Cost(t: Task, q: int): nat
    requires q > 0
  {
    if Terminal(t) then 0 else 1 + |t.required - t.held| + QuantaLeft(t.remainingTime, q)
  }

  lemma {:induction false} QuantaLeftMonotone(x: int, y: int, q: int)
    requires q > 0 && x <= y
    ensures QuantaLeft(x, q) <= QuantaLeft(y, q)
    decreases y
  {
    if x > 0 {
      QuantaLeftMonotone(x - q, y - q, q);
    }
  }

  lemma {:induction false} MaskBelow(m: Mask, n: nat)
    requires n <= 32 && forall b :: b in m ==> b as int < n
    ensures |m| <= n
    decreases n
  {
    if n > 0 {
      var c := (n - 1) as Bit;
      MaskBelow(m - {c}, n - 1);
      Seqs.SubsetCardinality(m, (m - {c}) + {c});
    } else {
      assert m == {};
    }
  }

  /** What a task of at most T can cost: finishing it, 32 resources, and its quanta. */
  function MostCost(T: int, q: int): nat
    requires q > 0
  {
    33 + QuantaLeft(T, q)
  }

  lemma NewTaskCost(t: Task, T: int, q: int)
    requires q > 0 && t.totalTime == t.remainingTime <= T && t.held == {}
    ensures Cost(t, q) <= MostCost(T, q)
  {
    MaskBelow(t.required - t.held, 32);
    QuantaLeftMonotone(t.remainingTime, T, q);
  }

  function TotalCost(ts: seq<Task>, q: int): nat
    requires q > 0
  {
    if ts == [] then 0 else TotalCost(ts[..|ts| - 1], q) + Cost(ts[|ts| - 1], q)
  }

  predicate NoCostlier(ts: seq<Task>, ts': seq<Task>, q: int)
    requires q > 0
  {
    |ts'| == |ts| && forall i :: 0 <= i < |ts| ==> Cost(ts'[i], q) <= Cost(ts[i], q)
  }

  lemma {:induction false} TotalCostMonotone(ts: seq<Task>, ts': seq<Task>, q: int)
    requires q > 0 && NoCostlier(ts, ts', q)
    ensures TotalCost(ts', q) <= TotalCost(ts, q)
  {
    if ts != [] {
      TotalCostMonotone(ts[..|ts| - 1], ts'[..|ts| - 1], q);
    }
  }

  lemma {:induction false} TotalCostStrict(ts: seq<Task>, ts': seq<Task>, q: int, i: int)
    requires q > 0 && NoCostlier(ts, ts', q)
    requires 0 <= i < |ts| && Cost(ts'[i], q) < Cost(ts[i], q)
    ensures TotalCost(ts', q) < TotalCost(ts, q)
  {
    var n := |ts| - 1;
    if i == n {
      TotalCostMonotone(ts[..n], ts'[..n], q);
    } else {
      TotalCostStrict(ts[..n], ts'[..n], q, i);
    }
  }

  lemma {:induction false} TotalCostZero(ts: seq<Task>, q: int)
    requires q > 0
    ensures TotalCost(ts, q) == 0 <==> forall i :: 0 <= i < |ts| ==> Terminal(ts[i])
  {
    if ts != [] {
      TotalCostZero(ts[..|ts| - 1], q);
    }
  }

  lemma FewerMissing(t: Task, t': Task, b: Bit)
    requires t'.required == t.required && t.held <= t'.held
    ensures |t'.required - t'.held| <= |t.required - t.held|
    ensures b in t.required && b !in t.held && b in t'.held ==>
              |t'.required - t'.held| < |t.required - t.held|
  {
    var a, a' := t.required - t.held, t'.required - t'.held;
    Seqs.SubsetCardinality(a', a);
    if b in a && b in t'.held {
      Seqs.SubsetCardinality(a', a - {b});
    }
  }

  lemma ProgressCost(t: Task, t': Task, q: int)
    requires q > 0 && Progresses(t, t')
    ensures Cost(t', q) <= Cost(t, q)
    ensures Waiting(t) && t'.state == DeadlockAborted ==> Cost(t', q) < Cost(t, q)
  {
    if Waiting(t) && t'.state != DeadlockAborted {
      FewerMissing(t, t', 0);
    }
  }

  lemma GrantCost(t: Task, t': Task, q: int, b: Bit)
    requires q > 0 && Progresses(t, t') && Waiting(t)
    requires t'.state == DeadlockAborted || (b in t.required && b !in t.held && b in t'.held)
    ensures Cost(t', q) < Cost(t, q)
  {
    if t'.state == DeadlockAborted {
      ProgressCost(t, t', q);
    } else {
      FewerMissing(t, t', b);
    }
  }

  /** No section of the Scheduler adds work. */
  lemma CycleCost(s: Segment, victims: seq<int>, q: int)
    requires q > 0 && Sound(s) && Located(s, {}) && CycleVictims(s, victims)
    ensures NoCostlier(s.tasks, Cycle(s, victims).tasks, q)
    ensures TotalCost(Cycle(s, victims).tasks, q) <= TotalCost(s.tasks, q)
  {
    CycleOk(s, victims);
    var s' := Cycle(s, victims);
    forall i | 0 <= i < |s.tasks| ensures Cost(s'.tasks[i], q) <= Cost(s.tasks[i], q) {
      ProgressCost(s.tasks[i], s'.tasks[i], q);
    }
    TotalCostMonotone(s.tasks, s'.tasks, q);
  }

  /** Task i has been granted bit b between ts and ts'. */
  predicate Granted(ts: seq<Task>, ts': seq<Task>, i: int, b: Bit) {
    && 0 <= i < |ts| == |ts'| && Waiting(ts[i])
    && b in ts[i].required && b !in ts[i].held && b in ts'[i].held
  }

  ghost predicate SomeGrant(ts: seq<Task>, ts': seq<Task>) {
    exists i, b :: Granted(ts, ts', i, b)
  }

  /** m has been reached from p; if it made progress, some task was granted a bit it missed. */
  ghost predicate Reached(p: Pass, m: Pass) {
    PassOk(m) && AllAdvance(p.seg.tasks, m.seg.tasks) && (m.progress ==> SomeGrant(p.seg.tasks, m.seg.tasks))
  }

  lemma AdvanceTransitive(ts: seq<Task>, a: seq<Task>, b: seq<Task>)
    requires AllAdvance(ts, a) && AllAdvance(a, b)
    ensures AllAdvance(ts, b)
  {
    forall i | 0 <= i < |ts| ensures Advances(ts[i], b[i]) {
      assert Advances(ts[i], a[i]) && Advances(a[i], b[i]);
    }
  }

  /** What is granted between two moments is granted over any longer time. */
  lemma GrantedBetween(ts: seq<Task>, a: seq<Task>, b: seq<Task>, ts': seq<Task>, i: int, bit: Bit)
    requires Granted(a, b, i, bit)
    requires AllAdvance(ts, a) && AllAdvance(b, ts')
    ensures Granted(ts, ts', i, bit)
  {
    assert Advances(ts[i], a[i]) && Advances(b[i], ts'[i]);
  }

  lemma AdvanceReflexive(ts: seq<Task>)
    ensures AllAdvance(ts, ts)
  {
  }

  lemma LaterGrant(ts: seq<Task>, m: Pass, i: int, b: Bit)
    requires PassOk(m) && Granted(ts, m.seg.tasks, i, b)
    ensures Granted(ts, AllocateHead(m).seg.tasks, i, b)
  {
    VisitOk(m);
    AdvanceReflexive(ts);
    GrantedBetween(ts, ts, m.seg.tasks, AllocateHead(m).seg.tasks, i, b);
  }

  lemma VisitProgress(p: Pass) returns (i: int, b: Bit)
    requires PassOk(p) && !p.progress && AllocateHead(p).progress
    ensures Granted(p.seg.tasks, AllocateHead(p).seg.tasks, i, b)
  {
    VisitHead(p);
    i := p.seg.blocked[0];
    HeadGives(p, i);
    VisitTasks(Popped(p), i);
    var t := p.seg.tasks[i];
    b :| b in Grant(t.required - t.held, p.taken);
  }

  lemma FirstGrant(ts: seq<Task>, m: Pass) returns (i: int, b: Bit)
    requires PassOk(m) && AllAdvance(ts, m.seg.tasks) && !m.progress && AllocateHead(m).progress
    ensures Granted(ts, AllocateHead(m).seg.tasks, i, b)
  {
    i, b := VisitProgress(m);
    var ts' := AllocateHead(m).seg.tasks;
    AdvanceReflexive(ts');
    GrantedBetween(ts, m.seg.tasks, ts', ts', i, b);
  }

  lemma ReachedStep(p: Pass, m: Pass)
    requires Reached(p, m)
    ensures Reached(p, AllocateHead(m))
  {
    VisitOk(m);
    AdvanceTransitive(p.seg.tasks, m.seg.tasks, AllocateHead(m).seg.tasks);
    if m.progress {
      var i, b :| Granted(p.seg.tasks, m.seg.tasks, i, b);
      LaterGrant(p.seg.tasks, m, i, b);
    } else if AllocateHead(m).progress {
      var i, b := FirstGrant(p.seg.tasks, m);
    }
  }

  lemma {:induction false} PassReaches(p: Pass, n: nat)
    requires PassOk(p) && !p.progress
    ensures Reached(p, AllocateN(p, n))
  {
    if n == 0 {
      AdvanceReflexive(p.seg.tasks);
    } else {
      var m := AllocateN(p, n - 1);
      PassReaches(p, n - 1);
      ReachedStep(p, m);
      assert AllocateN(p, n) == AllocateHead(m);
    }
  }

  /** The last victim was BLOCKED when the detector began, and is aborted now. */
  lemma LastVictim(s: Segment, victims: seq<int>) returns (v: int)
    requires Sound(s) && Located(s, {}) && DeadlockGraph.Justified(s, victims) && victims != []
    ensures 0 <= v < |s.tasks| == |DeadlockGraph.AbortAll(s, victims).tasks|
    ensures s.tasks[v].state == Blocked && DeadlockGraph.AbortAll(s, victims).tasks[v].state == DeadlockAborted
  {
    JustifiedPrefix(s, victims);
    var front := victims[..|victims| - 1];
    v := victims[|victims| - 1];
    AbortAllOk(s, front);
    AbortAllOk(s, victims);
    var _ := VictimBlocked(DeadlockGraph.AbortAll(s, front).tasks, v);
    assert Resolved(s.tasks[v], DeadlockGraph.AbortAll(s, front).tasks[v]);
  }

  lemma AgainShrinks(s: Segment, victims: seq<int>, q: int) returns (i: int)
    requires q > 0 && Sound(s) && Located(s, {}) && CycleVictims(s, victims)
    requires CycleOutcome(s, victims) == Again
    ensures 0 <= i < |s.tasks| == |Cycle(s, victims).tasks|
    ensures Cost(Cycle(s, victims).tasks[i], q) < Cost(s.tasks[i], q)
  {
    Stages(s, victims);
    BeforeSelectProgress(s, victims);
    var p, d, s' := Allocation(s), DeadlockGraph.AbortAll(Allocation(s).seg, victims), Cycle(s, victims);
    AgeReprioritizes(d);
    assert s' == SchedulerCore.Age(d);
    if victims != [] {
      i := LastVictim(p.seg, victims);
      assert Advances(s.tasks[i], p.seg.tasks[i]);
      assert Reprioritized(d.tasks[i], s'.tasks[i]);
      ProgressCost(s.tasks[i], s'.tasks[i], q);
    } else {
      PassStartOk(s);
      PassReaches(PassStart(s), |s.blocked|);
      var k, b :| Granted(s.tasks, p.seg.tasks, k, b);
      i := k;
      assert Resolved(p.seg.tasks[i], d.tasks[i]);
      assert Reprioritized(d.tasks[i], s'.tasks[i]);
      GrantCost(s.tasks[i], s'.tasks[i], q, b);
    }
  }

  /** A section that neither selects a task nor goes to sleep has brought the measure down. */
  lemma AgainCost(s: Segment, victims: seq<int>, q: int)
    requires q > 0 && Sound(s) && Located(s, {}) && CycleVictims(s, victims)
    requires CycleOutcome(s, victims) == Again
    ensures TotalCost(Cycle(s, victims).tasks, q) < TotalCost(s.tasks, q)
  {
    CycleCost(s, victims, q);
    var i := AgainShrinks(s, victims, q);
    TotalCostStrict(s.tasks, Cycle(s, victims).tasks, q, i);
  }

  /** Ending a quantum takes one quantum off the measure, or the whole task. */
  lemma EndCost(s: Segment, i: int, q: int)
    requires q > 0 && 0 <= i < |s.tasks| && s.tasks[i].state == Running && s.tasks[i].remainingTime > 0
    ensures var e := if s.tasks[i].remainingTime < q then s.tasks[i].remainingTime else q;
            TotalCost(Worker.End(s, i, e).tasks, q) < TotalCost(s.tasks, q)
  {
    hide Worker.End;
    var t := s.tasks[i];
    var e := if t.remainingTime < q then t.remainingTime else q;
    QuantumTaken(t.remainingTime, q);
    Worker.EndTasks(s, i, e);
    assert Cost(Worker.Ran(t, e), q) < Cost(t, q);
    TotalCostStrict(s.tasks, Worker.End(s, i, e).tasks, q, i);
  }
}
