/** What clients of the scheduler may rely on, for every reachable state and every run. */
module Guarantees {
  import opened Model
  import Seqs
  import StableSort
  import DeadlockGraph
  import CycleSpec
  import CycleProofs
  import PassProofs
  import DeadlockFreedom
  import Worker
  import Invariant
  import WorkProofs
  import AgingProofs
  import StepProofs
  import opened Protocol
  import opened ProtocolProofs
  import Ledger
  import Liveness
  import Starvation
  import Completion
  import Shutdown

  /** s is reached by some interleaving in which no priority above P is submitted or set. */
  ghost predicate Reachable(s: System, P: int) {
    exists timeQuantum, acts ::
      IsRun(Initial(timeQuantum), acts) && AllAtMost(acts, P) && After(Initial(timeQuantum), acts) == s
  }

  lemma ReachableOk(s: System, P: int)
    requires Reachable(s, P)
    ensures SystemOk(s, P)
  {
    hide SystemOk;
    var timeQuantum, acts :|
      IsRun(Initial(timeQuantum), acts) && AllAtMost(acts, P) && After(Initial(timeQuantum), acts) == s;
    InitialOk(timeQuantum, P);
    RunOk(Initial(timeQuantum), acts, P);
  }

  /** No two tasks hold the same resource, and what a task holds is what its state says. */
  lemma ResourceSafety(s: System, P: int, i: int, j: int)
    requires Reachable(s, P) && 0 <= i < |s.seg.tasks| && 0 <= j < |s.seg.tasks|
    ensures i != j ==> s.seg.tasks[i].held * s.seg.tasks[j].held == {}
    ensures var t := s.seg.tasks[i];
            && t.held <= t.required
            && (t.state == Ready || t.state == Running ==> t.held == t.required)
            && (t.state == Blocked ==> t.held != t.required)
            && (t.state == New || Terminal(t) ==> t.held == {})
  {
    ReachableOk(s, P);
    assert Invariant.TaskOk(s.seg.tasks[i]);
    if i < j {
      assert s.seg.tasks[i].held * s.seg.tasks[j].held == {};
    } else if j < i {
      assert s.seg.tasks[j].held * s.seg.tasks[i].held == {};
    }
  }

  function Count(b: bool): nat {
    if b then 1 else 0
  }

  /** Every task is in exactly one place: a queue, the Worker's hands, or its final state. */
  lemma Conservation(s: System, P: int, i: int)
    requires Reachable(s, P) && 0 <= i < |s.seg.tasks|
    ensures Count(i in s.seg.ready) + Count(i in s.seg.blocked) + Count(i == s.slot)
            + Count(Terminal(s.seg.tasks[i])) == 1
    ensures Seqs.NoDup(s.seg.ready) && Seqs.NoDup(s.seg.blocked)
  {
    ReachableOk(s, P);
    if i != s.slot {
      assert Invariant.PlacedByState(s.seg, i);
    }
  }

  /** While the Scheduler is in its section no task is RUNNING; at no time are two. */
  lemma OneRunner(s: System, P: int, i: int)
    requires Reachable(s, P) && 0 <= i < |s.seg.tasks| && s.seg.tasks[i].state == Running
    ensures s.spc != SSection && i == s.slot && s.wpc.WRun? && s.wpc.idx == i
  {
    ReachableOk(s, P);
    assert i == s.slot || Invariant.PlacedByState(s.seg, i);
  }

  /** Before shutdown exactly one token is under way while the Scheduler awaits a quantum. */
  lemma OneToken(s: System, P: int)
    requires Reachable(s, P) && !s.shutdown
    ensures Tokens(s) == Count(s.spc == SPost || s.spc == SAwaitQuantum)
  {
    ReachableOk(s, P);
  }

  /** The Worker's three early exits are never taken. */
  lemma WorkerFindsItsTask(s: System, P: int)
    requires Reachable(s, P) && s.wpc == WBegin
    ensures Worker.BeginAssignment(s.seg).Quantum? && Worker.BeginAssignment(s.seg).idx == s.slot
    ensures s.seg.tasks[s.slot].state == Ready && s.seg.tasks[s.slot].remainingTime > 0
    ensures var q := if s.seg.timeQuantum > 0 then s.seg.timeQuantum else 50;
            var x := s.seg.tasks[s.slot].remainingTime;
            Worker.BeginAssignment(s.seg).execTime == if x < q then x else q
  {
    ReachableOk(s, P);
    StepProofs.BeginFindsSelected(s.seg, s.slot);
    assert Invariant.TaskOk(s.seg.tasks[s.slot]);
  }

  lemma DescendingPriorities(ts: seq<Task>, q: seq<int>)
    requires StableSort.Descending(ts, q) && InRange(q, |ts|)
    ensures forall a, b :: 0 <= a < b < |q| ==> ts[q[a]].effectivePriority >= ts[q[b]].effectivePriority
  {
    forall a, b | 0 <= a < b < |q| ensures ts[q[a]].effectivePriority >= ts[q[b]].effectivePriority {
      assert Prio(ts, q[a]) >= Prio(ts, q[b]);
    }
  }

  /** The ready queue is in priority order, and aging lifts nobody above P + 51. */
  lemma PriorityOrder(s: System, P: int, i: int)
    requires Reachable(s, P) && 0 <= i < |s.seg.tasks|
    ensures forall a, b :: 0 <= a < b < |s.seg.ready| ==>
              && 0 <= s.seg.ready[a] < |s.seg.tasks| && 0 <= s.seg.ready[b] < |s.seg.tasks|
              && s.seg.tasks[s.seg.ready[a]].effectivePriority >= s.seg.tasks[s.seg.ready[b]].effectivePriority
    ensures s.seg.tasks[i].basePriority <= s.seg.tasks[i].effectivePriority <= P + 51
    ensures i !in s.seg.ready ==> s.seg.tasks[i].effectivePriority == s.seg.tasks[i].basePriority
  {
    ReachableOk(s, P);
    AgingProofs.EffectiveBound(s.seg, P, i);
    DescendingPriorities(s.seg.tasks, s.seg.ready);
  }

  /** The task selected by a section has the highest effective priority of all READY ones. */
  lemma SelectionByPriority(s: System, victims: seq<int>, P: int, j: int)
    requires Reachable(s, P) && Enabled(s, SchedSection(victims)) && CycleSpec.CycleOutcome(s.seg, victims).Selected?
    ensures var r, i := CycleSpec.BeforeSelect(s.seg, victims), CycleSpec.CycleOutcome(s.seg, victims).idx;
            && 0 <= i < |r.tasks| && r.tasks[i].state == Ready
            && (0 <= j < |r.tasks| && r.tasks[j].state == Ready ==>
                  r.tasks[i].effectivePriority >= r.tasks[j].effectivePriority)
  {
    ReachableOk(s, P);
    SectionStart(s, P);
    AgingProofs.SelectsHighest(s.seg, victims, P, j);
  }

  /** Asleep with work left, the Scheduler has a wakeup on its way. */
  lemma NoLostWakeup(s: System, P: int, i: int)
    requires Reachable(s, P) && s.spc == SAwaitEvent && 0 <= i < |s.seg.tasks| && !Terminal(s.seg.tasks[i])
    ensures s.eventSem > 0 || s.pending > 0
  {
    ReachableOk(s, P);
  }

  /** The time account of every task, and the final account of those that are through. */
  lemma WorkAccount(s: System, P: int, i: int)
    requires Reachable(s, P) && 0 <= i < |s.seg.tasks|
    ensures |s.executed| == |s.quanta| == |s.seg.tasks|
    ensures var t := s.seg.tasks[i];
            && 0 <= t.remainingTime
            && (t.state == Finished ==>
                  s.executed[i] == t.totalTime && s.quanta[i] == WorkProofs.QuantaLeft(t.totalTime, Q(s)))
            && (t.state == DeadlockAborted ==> s.executed[i] == 0 && s.quanta[i] == 0)
            && (!Terminal(t) ==> s.executed[i] + t.remainingTime == t.totalTime)
  {
    ReachableOk(s, P);
    assert Invariant.TaskOk(s.seg.tasks[i]);
    assert Accounted(s.seg.tasks[i], s.quanta[i], s.executed[i], Q(s));
  }

  // ---- resources and deadlocks ----

  /** There is never a deadlock while the mutex is free: the BLOCKED tasks can always be served in some order. */
  lemma NeverDeadlocked(s: System, P: int) returns (order: seq<int>)
    requires Reachable(s, P)
    ensures forall c :: !DeadlockGraph.CircularWait(s.seg.tasks, c)
    ensures DeadlockFreedom.SafeOrder(s.seg.tasks, order)
  {
    hide SystemOk, DeadlockGraph.Acyclic, DeadlockFreedom.SafeOrder;
    var timeQuantum, acts :|
      IsRun(Initial(timeQuantum), acts) && AllAtMost(acts, P) && After(Initial(timeQuantum), acts) == s;
    InitialOk(timeQuantum, P);
    DeadlockFreedom.EmptyAcyclic(Initial(timeQuantum).seg.tasks);
    DeadlockFreedom.RunAcyclic(Initial(timeQuantum), acts, P);
    DeadlockFreedom.AcyclicMeansNoCircularWait(s.seg.tasks);
    DeadlockFreedom.AcyclicMeansSafeOrder(s.seg.tasks);
    order :| DeadlockFreedom.SafeOrder(s.seg.tasks, order);
  }

  /** A section aborts exactly the least members of circular waits, one after the other, and leaves none. */
  lemma SectionResolves(s: System, victims: seq<int>)
    requires Enabled(s, SchedSection(victims))
    ensures DeadlockGraph.AbortsLeast(CycleSpec.Allocation(s.seg).seg, victims)
    ensures forall c :: !DeadlockGraph.CircularWait(Apply(s, SchedSection(victims)).seg.tasks, c)
  {
    DeadlockGraph.JustifiedAbortsLeast(CycleSpec.Allocation(s.seg).seg, victims);
    CycleProofs.CycleAcyclic(s.seg, victims);
    DeadlockFreedom.AcyclicMeansNoCircularWait(CycleSpec.Cycle(s.seg, victims).tasks);
  }

  /** Every waiting task is served in every section, in the order of the blocked queue. */
  lemma SectionServes(s: System, P: int)
    requires Reachable(s, P) && s.spc == SSection
    ensures var s', q := CycleSpec.Allocation(s.seg).seg, s.seg.blocked;
            && PassProofs.Served(s.seg.tasks, s'.tasks, q, |q|)
            && s'.blocked == PassProofs.Among(s'.tasks, q, false)
            && StableSort.IsStableSort(s'.tasks, s.seg.ready + PassProofs.Among(s'.tasks, q, true), s'.ready)
  {
    hide PassProofs.Served, StableSort.IsStableSort;
    ReachableOk(s, P);
    SectionStart(s, P);
    PassProofs.PassServesAll(s.seg);
  }

  // ---- what was asked for, and what was done ----

  /** In every run the registered tasks are what the clients asked for, with the last priority given to each. */
  lemma TasksAreTheRequests(timeQuantum: int, acts: seq<Action>)
    requires IsRun(Initial(timeQuantum), acts)
    ensures Ledger.Requests(After(Initial(timeQuantum), acts).seg.tasks) == Ledger.Recorded([], acts)
  {
    var P := Ledger.InitialRunRecords(timeQuantum, acts);
  }

  lemma RequestExecuted(s: System, P: int, i: int)
    requires SystemOk(s, P) && 0 <= i < |s.seg.tasks|
    ensures var t := s.seg.tasks[i];
            var q := if s.seg.timeQuantum > 0 then s.seg.timeQuantum else 50;
            && |s.executed| == |s.quanta| == |s.seg.tasks|
            && (t.state == Finished ==>
                  s.executed[i] == t.totalTime && (s.quanta[i] - 1) * q < t.totalTime <= s.quanta[i] * q)
            && (t.state == DeadlockAborted ==> s.executed[i] == 0 && s.quanta[i] == 0)
  {
    var t := s.seg.tasks[i];
    assert Invariant.TaskOk(t) && Accounted(t, s.quanta[i], s.executed[i], Q(s));
    WorkProofs.QuantaLeftIsCeiling(t.totalTime, Q(s));
  }

  /** And a FINISHED task has executed for the time asked for, in quanta of the configured length or 50. */
  lemma RequestsAreExecuted(timeQuantum: int, acts: seq<Action>, i: int)
    requires IsRun(Initial(timeQuantum), acts)
    requires 0 <= i < |After(Initial(timeQuantum), acts).seg.tasks|
    ensures var s, l := After(Initial(timeQuantum), acts), Ledger.Recorded([], acts);
            var q := if timeQuantum > 0 then timeQuantum else 50;
            && |l| == |s.executed| == |s.quanta| == |s.seg.tasks|
            && (s.seg.tasks[i].state == Finished ==>
                  s.executed[i] == l[i].totalTime && (s.quanta[i] - 1) * q < l[i].totalTime <= s.quanta[i] * q)
            && (s.seg.tasks[i].state == DeadlockAborted ==> s.executed[i] == 0 && s.quanta[i] == 0)
  {
    hide SystemOk, IsRun, Ledger.Requests, Ledger.Recorded;
    var P := Ledger.InitialRunRecords(timeQuantum, acts);
    RequestExecuted(After(Initial(timeQuantum), acts), P, i);
  }

  // ---- a task that has become READY is never aborted ----

  lemma {:induction false} ReadyNeverAborted(s: System, acts: seq<Action>, P: int, i: int)
    requires SystemOk(s, P) && IsRun(s, acts) && AllAtMost(acts, P) && Completion.OnceReady(s, i)
    ensures Completion.OnceReady(After(s, acts), i)
    decreases |acts|
  {
    hide SystemOk, Completion.OnceReady;
    if acts != [] {
      assert AtMost(acts[0], P);
      StepOk(s, acts[0], P);
      Completion.StepKeepsReady(s, acts[0], P, i);
      ReadyNeverAborted(Apply(s, acts[0]), acts[1..], P, i);
    }
  }

  // ---- whole runs ----

  /** A READY task whose priority is not changed is passed over in fewer sections than its potential lacks. */
  lemma SelectedInTime(s: System, acts: seq<Action>, P: int, i: int)
    requires Reachable(s, P) && IsRun(s, acts) && AllAtMost(acts, P)
    requires 0 <= i < |s.seg.tasks| && i in s.seg.ready && Starvation.PassedOver(s, acts, i)
    ensures var t := s.seg.tasks[i];
            Starvation.Sections(acts) < 5 * (P - t.effectivePriority) - t.waitTicks + 256
  {
    hide SystemOk;
    ReachableOk(s, P);
    Starvation.StarvationFree(s, acts, P, i);
  }

  /**
   And it is FINISHED once more sections have run than its quanta times 5 * (P - base) + 256,
   however many tasks of priority at most P are submitted and requeued meanwhile.
   */
  lemma FinishedInTime(s: System, acts: seq<Action>, P: int, i: int)
    requires Reachable(s, P) && IsRun(s, acts) && AllAtMost(acts, P)
    requires 0 <= i < |s.seg.tasks| && (s.seg.tasks[i].state == Ready || s.seg.tasks[i].state == Running)
    requires Completion.PriorityLeft(s, acts, i)
    requires var t := s.seg.tasks[i];
             Starvation.Sections(acts) > WorkProofs.QuantaLeft(t.remainingTime, Q(s)) * (5 * (P - t.basePriority) + 256)
    ensures i < |After(s, acts).seg.tasks| && After(s, acts).seg.tasks[i].state == Finished
  {
    hide SystemOk;
    ReachableOk(s, P);
    Completion.FinishedInTime(s, acts, P, i);
  }

  /**
   In every run from a reachable state, up to a stop(), the processes take a bounded number of
   steps; when they can go no further every task is terminal and, if there are tasks, at least
   one is FINISHED.
   */
  lemma ReachableCompletes(s: System, acts: seq<Action>, P: int)
    requires Reachable(s, P) && !s.shutdown && IsRun(s, acts) && AllAtMost(acts, P) && StopFlag !in acts
    ensures Liveness.OwnSteps(acts) <= Liveness.StepsLeft(s) + Liveness.Burdens(s, acts)
    ensures var s' := After(s, acts);
            Liveness.Stuck(s') ==>
              && AllTerminal(s'.seg.tasks)
              && (s'.seg.tasks != [] ==> exists i :: 0 <= i < |s'.seg.tasks| && s'.seg.tasks[i].state == Finished)
  {
    hide SystemOk;
    ReachableOk(s, P);
    Liveness.Completes(s, acts, P);
  }

  /** Left to itself, the system takes at most StepsLeft more steps. */
  lemma ReachableStops(s: System, acts: seq<Action>, P: int)
    requires Reachable(s, P) && !s.shutdown && IsRun(s, acts)
    requires forall k :: 0 <= k < |acts| ==> Liveness.Closed(acts[k])
    ensures |acts| + Liveness.StepsLeft(After(s, acts)) <= Liveness.StepsLeft(s)
  {
    hide SystemOk;
    ReachableOk(s, P);
    Liveness.ClosedRunBounded(s, acts, P);
  }

  /**
   After stop() has set the flag, the processes take at most 15 further steps, whatever
   the clients do meanwhile, and when neither they nor stop() can take any more, both
   have left their loops.
   */
  lemma StopCompletes(s: System, acts: seq<Action>, P: int)
    requires Reachable(s, P) && s.shutdown && IsRun(s, acts) && AllAtMost(acts, P)
    ensures Shutdown.ProcessSteps(acts) <= 15
    ensures var s' := After(s, acts);
            (forall a :: Shutdown.ByProcess(a) ==> !Enabled(s', a)) ==> s'.spc == SDone && s'.wpc == WDone
  {
    hide SystemOk, Shutdown.ShutdownRank, Shutdown.ByProcess, Enabled;
    ReachableOk(s, P);
    Shutdown.RankAtMost(s, P);
    Shutdown.ShutdownBounded(s, acts, P);
    var s' := After(s, acts);
    if forall a :: Shutdown.ByProcess(a) ==> !Enabled(s', a) {
      Shutdown.HaltedMeansDone(s', P);
    }
  }
}
