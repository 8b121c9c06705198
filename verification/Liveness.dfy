/** Everything gets done: bounds on whole runs. */
module Liveness {
  import opened Model
  import opened CycleSpec
  import Worker
  import Client
  import Invariant
  import CycleProofs
  import opened WorkProofs
  import StepProofs
  import opened Protocol
  import opened ProtocolProofs
  import Resolution

  // ---- the work left, quantum by quantum ----

  /** The cost of all tasks; a quantum handed to the Worker counts as taken. */
  function Remaining(s: System): int {
    TotalCost(s.seg.tasks, Q(s)) - (if s.slot == -1 then 0 else 1)
  }

  lemma {:induction false} CostBelowTotal(ts: seq<Task>, q: int, i: int)
    requires q > 0 && 0 <= i < |ts|
    ensures Cost(ts[i], q) <= TotalCost(ts, q)
  {
    if i < |ts| - 1 {
      CostBelowTotal(ts[..|ts| - 1], q, i);
    }
  }

  lemma RemainingNonnegative(s: System, P: int)
    requires SystemOk(s, P)
    ensures Remaining(s) >= 0
  {
    if s.slot != -1 {
      CostBelowTotal(s.seg.tasks, Q(s), s.slot);
    }
  }

  lemma {:induction false} TotalCostSame(ts: seq<Task>, ts': seq<Task>, q: int)
    requires q > 0 && |ts'| == |ts| && forall i :: 0 <= i < |ts| ==> Cost(ts'[i], q) == Cost(ts[i], q)
    ensures TotalCost(ts', q) == TotalCost(ts, q)
  {
    if ts != [] {
      TotalCostSame(ts[..|ts| - 1], ts'[..|ts| - 1], q);
    }
  }

  /** A section takes one off the measure, counting a selection as one, unless it goes to sleep. */
  lemma CycleRemaining(s: Segment, victims: seq<int>, q: int)
    requires q > 0 && Invariant.Sound(s) && Invariant.Located(s, {}) && CycleVictims(s, victims)
    ensures var c := TotalCost(Cycle(s, victims).tasks, q);
            match CycleOutcome(s, victims)
            case Selected(i) => i != -1 && c <= TotalCost(s.tasks, q)
            case Again => c < TotalCost(s.tasks, q)
            case Sleep => c <= TotalCost(s.tasks, q)
    ensures Cycle(s, victims).timeQuantum == s.timeQuantum
  {
    CycleProofs.CycleOk(s, victims);
    CycleCost(s, victims, q);
    if CycleOutcome(s, victims) == Again {
      AgainCost(s, victims, q);
    }
  }

  /** The Scheduler's section takes one off what remains unless it goes to sleep. */
  lemma SectionRemaining(s: System, victims: seq<int>, P: int)
    requires SystemOk(s, P) && Enabled(s, SchedSection(victims))
    ensures var s' := AfterSection(s, victims);
            && Q(s') == Q(s)
            && if CycleOutcome(s.seg, victims) == Sleep then Remaining(s') <= Remaining(s)
               else Remaining(s') < Remaining(s)
  {
    SectionStart(s, P);
    CycleRemaining(s.seg, victims, Q(s));
  }

  lemma BeginRemaining(s: System, P: int)
    requires SystemOk(s, P) && Enabled(s, WorkBegin)
    ensures Remaining(AfterBegin(s)) == Remaining(s)
  {
    hide HandoffOk, StopOk, WakeOk, HistoryOk, SomeSurvivor, NamesLive;
    BeginShape(s, P);
    TotalCostSame(s.seg.tasks, AfterBegin(s).seg.tasks, Q(s));
  }

  lemma EndRemaining(s: System, P: int)
    requires SystemOk(s, P) && Enabled(s, WorkEnd)
    ensures Remaining(AfterEnd(s)) <= Remaining(s)
  {
    assert Invariant.TaskOk(s.seg.tasks[s.slot]);
    Worker.EndTasks(s.seg, s.slot, s.wpc.execTime);
    EndCost(s.seg, s.slot, Q(s));
  }

  lemma ChangeRemaining(s: System, id: int, priority: int)
    ensures var s' := s.(seg := Client.ChangePriority(s.seg, id, priority), pending := s.pending + 1);
            Remaining(s') == Remaining(s)
  {
    StepProofs.ChangePriorityTasks(s.seg, id, priority);
    var ts := Client.ChangePriority(s.seg, id, priority).tasks;
    forall i | 0 <= i < |ts| ensures Cost(ts[i], Q(s)) == Cost(s.seg.tasks[i], Q(s)) {
      assert CycleProofs.Reprioritized(s.seg.tasks[i], ts[i]);
    }
    TotalCostSame(s.seg.tasks, ts, Q(s));
  }

  predicate Busy(s: System, a: Action) {
    a.SchedSection? && CycleOutcome(s.seg, a.victims) != Sleep
  }

  /** A submission that is accepted. */
  predicate Registers(s: System, a: Action) {
    a.ClientSubmit? && Client.Accepts(s.seg, a.id, a.priority, a.totalTime)
  }

  /** The work that a step brings in: what an accepted submission costs. */
  function Brought(s: System, a: Action): nat {
    if Registers(s, a) then Cost(Client.NewTask(a.id, a.priority, a.totalTime, a.required), Q(s)) else 0
  }

  lemma SubmitRemaining(s: System, a: Action)
    requires a.ClientSubmit? && SlotOk(s)
    ensures Remaining(Apply(s, a)) == Remaining(s) + Brought(s, a)
  {
    StepProofs.SubmitTasks(s.seg, a.id, a.priority, a.totalTime, a.required);
    if Client.Accepts(s.seg, a.id, a.priority, a.totalTime) {
      var t := Client.NewTask(a.id, a.priority, a.totalTime, a.required);
      assert (s.seg.tasks + [t])[..|s.seg.tasks|] == s.seg.tasks;
    }
  }

  lemma QuietRemaining(s: System, a: Action)
    requires Enabled(s, a) && Quiet(a)
    ensures Remaining(Apply(s, a)) == Remaining(s) && !Busy(s, a)
  {
    QuietFrame(s, a);
  }

  /** No step adds more work than it brings in, and every section that does not sleep takes some off. */
  lemma StepRemaining(s: System, a: Action, P: int)
    requires SystemOk(s, P) && Enabled(s, a)
    ensures Remaining(Apply(s, a)) <= Remaining(s) + Brought(s, a)
    ensures Busy(s, a) ==> Remaining(Apply(s, a)) < Remaining(s)
  {
    hide SegmentOk, HandoffOk, SlotOk, StopOk, WakeOk, HistoryOk, SomeSurvivor, NamesLive, Remaining, Brought;
    match a
    case SchedSection(victims) => SectionRemaining(s, victims, P);
    case WorkBegin => BeginRemaining(s, P);
    case WorkEnd => EndRemaining(s, P);
    case ClientSubmit(_, _, _, _) => SubmitRemaining(s, a);
    case ClientChange(id, priority) => ChangeRemaining(s, id, priority);
    case _ => QuietRemaining(s, a);
  }

  /** The number of sections in a run that do not go to sleep. */
  ghost function BusySections(s: System, acts: seq<Action>): nat
    requires IsRun(s, acts)
    decreases |acts|
  {
    if acts == [] then 0
    else (if Busy(s, acts[0]) then 1 else 0) + BusySections(Apply(s, acts[0]), acts[1..])
  }

  /** The work that a run brings in. */
  ghost function Submitted(s: System, acts: seq<Action>): nat
    requires IsRun(s, acts)
    decreases |acts|
  {
    if acts == [] then 0 else Brought(s, acts[0]) + Submitted(Apply(s, acts[0]), acts[1..])
  }

  /** In every run, at most as many sections as there is work, old and new, can fail to go to sleep. */
  lemma {:induction false} BusySectionsBounded(s: System, acts: seq<Action>, P: int)
    requires SystemOk(s, P) && IsRun(s, acts) && AllAtMost(acts, P)
    ensures BusySections(s, acts) + Remaining(After(s, acts)) <= Remaining(s) + Submitted(s, acts)
    ensures Remaining(After(s, acts)) >= 0
    decreases |acts|
  {
    hide SystemOk, Remaining, Busy, Brought;
    if acts == [] {
      RemainingNonnegative(s, P);
    } else {
      assert AtMost(acts[0], P);
      StepOk(s, acts[0], P);
      StepRemaining(s, acts[0], P);
      BusySectionsBounded(Apply(s, acts[0]), acts[1..], P);
    }
  }

  // ---- every step counts ----

  function SchedulerRank(p: SchedulerPc): nat {
    match p
    case SPost => 14
    case SAwaitQuantum => 5
    case STest => 4
    case SCheck => 3
    case SSection => 2
    case SAwaitEvent => 1
    case SExit(_) => 0
    case SDone => 0
  }

  function WorkerRank(p: WorkerPc): nat {
    match p
    case WTest => 5
    case WBegin => 4
    case WRun(_, _) => 3
    case WPost => 2
    case WPostEarly => 3
    case WPostEvent => 2
    case WCheck => 1
    case WAwait => 0
    case WDone => 0
  }

  /** Bounds the number of steps that Scheduler, Worker and outstanding posts can still take. */
  function StepsLeft(s: System): int {
    16 * (Remaining(s) + s.eventSem + s.pending) + s.pending
    + SchedulerRank(s.spc) + WorkerRank(s.wpc) + 8 * s.workerSem
  }

  /** The system left to itself: no new calls, only their outstanding posts. */
  predicate Closed(a: Action) {
    BySched(a) || ByWorker(a) || a.ClientPost?
  }

  lemma QuietCounts(s: System, a: Action, P: int)
    requires SystemOk(s, P) && !s.shutdown && Enabled(s, a) && Closed(a) && Quiet(a)
    ensures !Apply(s, a).shutdown && StepsLeft(Apply(s, a)) < StepsLeft(s)
  {
    hide SegmentOk, SlotOk, StopOk, WakeOk, HistoryOk, SomeSurvivor, NamesLive, Remaining;
    QuietRemaining(s, a);
  }

  lemma SectionSteps(s: System, victims: seq<int>)
    requires s.spc == SSection
    requires var s' := AfterSection(s, victims);
             if CycleOutcome(s.seg, victims) == Sleep then Remaining(s') <= Remaining(s)
             else Remaining(s') < Remaining(s)
    ensures StepsLeft(AfterSection(s, victims)) < StepsLeft(s)
  {
  }

  lemma SectionCounts(s: System, victims: seq<int>, P: int)
    requires SystemOk(s, P) && Enabled(s, SchedSection(victims))
    ensures StepsLeft(AfterSection(s, victims)) < StepsLeft(s)
  {
    SectionRemaining(s, victims, P);
    SectionSteps(s, victims);
  }

  /** A Worker section that adds no work moves the Worker on. */
  lemma WorkerSteps(s: System, s': System)
    requires Remaining(s') <= Remaining(s) && WorkerRank(s'.wpc) < WorkerRank(s.wpc)
    requires s'.eventSem == s.eventSem && s'.pending == s.pending && s'.workerSem == s.workerSem && s'.spc == s.spc
    ensures StepsLeft(s') < StepsLeft(s)
  {
  }

  lemma BeginSteps(s: System)
    requires s.wpc == WBegin && AfterBegin(s).wpc.WRun?
    requires Remaining(AfterBegin(s)) <= Remaining(s)
    ensures StepsLeft(AfterBegin(s)) < StepsLeft(s) && AfterBegin(s).shutdown == s.shutdown
  {
    WorkerSteps(s, AfterBegin(s));
  }

  lemma BeginCounts(s: System, P: int)
    requires SystemOk(s, P) && Enabled(s, WorkBegin)
    ensures StepsLeft(AfterBegin(s)) < StepsLeft(s) && AfterBegin(s).shutdown == s.shutdown
  {
    BeginRemaining(s, P);
    BeginShape(s, P);
    BeginSteps(s);
  }

  lemma EndSteps(s: System)
    requires s.wpc.WRun? && 0 <= s.wpc.idx < |s.seg.tasks|
    requires Remaining(AfterEnd(s)) <= Remaining(s)
    ensures StepsLeft(AfterEnd(s)) < StepsLeft(s)
  {
    WorkerSteps(s, AfterEnd(s));
  }

  lemma EndCounts(s: System, P: int)
    requires SystemOk(s, P) && Enabled(s, WorkEnd)
    ensures StepsLeft(AfterEnd(s)) < StepsLeft(s)
  {
    EndRemaining(s, P);
    EndSteps(s);
  }

  /** Every step of the processes, or post outstanding, uses up some of the steps left. */
  lemma OwnStepCounts(s: System, a: Action, P: int)
    requires SystemOk(s, P) && !s.shutdown && Enabled(s, a) && Closed(a)
    ensures !Apply(s, a).shutdown && StepsLeft(Apply(s, a)) < StepsLeft(s)
  {
    hide SystemOk, StepsLeft;
    match a
    case SchedSection(victims) => SectionCounts(s, victims, P);
    case WorkBegin => BeginCounts(s, P);
    case WorkEnd => EndCounts(s, P);
    case _ => QuietCounts(s, a, P);
  }

  /** The steps that a client call gives the system to do: its work, and a wakeup. */
  function Burden(s: System, a: Action): nat {
    if Registers(s, a) then 16 * Brought(s, a) + 17 else if a.ClientChange? then 17 else 0
  }

  lemma ClientCounts(s: System, a: Action)
    requires !s.shutdown && (a.ClientSubmit? || a.ClientChange?) && SlotOk(s)
    ensures !Apply(s, a).shutdown && StepsLeft(Apply(s, a)) == StepsLeft(s) + Burden(s, a)
  {
    if a.ClientSubmit? {
      SubmitRemaining(s, a);
    } else {
      ChangeRemaining(s, a.id, a.priority);
    }
  }

  lemma StepCounts(s: System, a: Action, P: int)
    requires SystemOk(s, P) && !s.shutdown && Enabled(s, a) && a != StopFlag
    ensures !Apply(s, a).shutdown
    ensures StepsLeft(Apply(s, a)) + (if Closed(a) then 1 else 0) <= StepsLeft(s) + Burden(s, a)
  {
    if Closed(a) {
      OwnStepCounts(s, a, P);
    } else if a.ClientSubmit? || a.ClientChange? {
      ClientCounts(s, a);
    }
  }

  function OwnSteps(acts: seq<Action>): nat {
    if acts == [] then 0 else (if Closed(acts[0]) then 1 else 0) + OwnSteps(acts[1..])
  }

  /** What the client calls of a run give the system to do. */
  ghost function Burdens(s: System, acts: seq<Action>): nat
    requires IsRun(s, acts)
    decreases |acts|
  {
    if acts == [] then 0 else Burden(s, acts[0]) + Burdens(Apply(s, acts[0]), acts[1..])
  }

  lemma StepsLeftNonnegative(s: System, P: int)
    requires SystemOk(s, P)
    ensures StepsLeft(s) >= 0
  {
    RemainingNonnegative(s, P);
  }

  /** Before stop(), processes take no more steps than are left and the clients' calls bring in. */
  lemma {:induction false} RunBounded(s: System, acts: seq<Action>, P: int)
    requires SystemOk(s, P) && !s.shutdown && IsRun(s, acts) && AllAtMost(acts, P) && StopFlag !in acts
    ensures SystemOk(After(s, acts), P) && !After(s, acts).shutdown
    ensures OwnSteps(acts) + StepsLeft(After(s, acts)) <= StepsLeft(s) + Burdens(s, acts)
    ensures StepsLeft(After(s, acts)) >= 0
    decreases |acts|
  {
    hide SystemOk, StepsLeft, Burden, Closed;
    if acts == [] {
      StepsLeftNonnegative(s, P);
    } else {
      assert AtMost(acts[0], P);
      StepOk(s, acts[0], P);
      StepCounts(s, acts[0], P);
      RunBounded(Apply(s, acts[0]), acts[1..], P);
    }
  }

  lemma {:induction false} ClosedRun(s: System, acts: seq<Action>)
    requires IsRun(s, acts) && forall k :: 0 <= k < |acts| ==> Closed(acts[k])
    ensures OwnSteps(acts) == |acts| && Burdens(s, acts) == 0 && StopFlag !in acts
    decreases |acts|
  {
    if acts != [] {
      assert Closed(acts[0]);
      ClosedRun(Apply(s, acts[0]), acts[1..]);
      assert acts == [acts[0]] + acts[1..];
    }
  }

  /** A closed run before shutdown is at most StepsLeft long: the system cannot run on for ever. */
  lemma ClosedRunBounded(s: System, acts: seq<Action>, P: int)
    requires SystemOk(s, P) && !s.shutdown && IsRun(s, acts)
    requires forall k :: 0 <= k < |acts| ==> Closed(acts[k])
    ensures |acts| + StepsLeft(After(s, acts)) <= StepsLeft(s)
  {
    hide SystemOk, StepsLeft;
    assert forall k :: 0 <= k < |acts| ==> Closed(acts[k]) && AtMost(acts[k], P);
    ClosedRun(s, acts);
    RunBounded(s, acts, P);
  }

  /** The Scheduler's section can always be run. */
  lemma SectionEnabled(s: System, P: int) returns (a: Action)
    requires SystemOk(s, P) && s.spc == SSection
    ensures a.SchedSection? && Enabled(s, a)
  {
    AllocationDistinct(s.seg);
    var victims := Resolution.ResolutionExists(Allocation(s.seg).seg);
    a := SchedSection(victims);
  }

  /** What the Scheduler does next, if it can do anything. */
  lemma SchedulerCanStep(s: System, P: int) returns (a: Action)
    requires SystemOk(s, P) && s.spc != SDone
    requires s.spc == SAwaitQuantum ==> s.schedulerSem > 0
    requires s.spc == SAwaitEvent ==> s.eventSem > 0
    ensures BySched(a) && Enabled(s, a)
  {
    match s.spc
    case SCheck => a := SchedCheck;
    case SSection => a := SectionEnabled(s, P);
    case SPost => a := SchedPost;
    case SAwaitQuantum => a := SchedQuantum;
    case STest => a := SchedTest;
    case SAwaitEvent => a := SchedWake;
    case SExit(_) => a := SchedExit;
  }

  lemma WorkerCanStep(s: System, P: int) returns (a: Action)
    requires SystemOk(s, P) && s.wpc != WDone
    requires s.wpc == WAwait ==> s.workerSem > 0
    ensures ByWorker(a) && Enabled(s, a)
  {
    match s.wpc
    case WCheck => a := WorkCheck;
    case WAwait => a := WorkTake;
    case WTest => a := WorkTest;
    case WBegin => a := WorkBegin;
    case WRun(_, _) => a := WorkEnd;
    case WPost => a := WorkPost;
  }

  ghost predicate Stuck(s: System) {
    forall a :: Closed(a) ==> !Enabled(s, a)
  }

  /** Before shutdown somebody can go on, unless both processes sleep and no post is under way. */
  lemma CanGoOn(s: System, P: int) returns (a: Action)
    requires SystemOk(s, P) && !s.shutdown
    requires s.pending > 0 || s.spc != SAwaitEvent || s.eventSem > 0 || s.wpc != WAwait || s.workerSem > 0
    ensures Closed(a) && Enabled(s, a)
  {
    hide SegmentOk, SlotOk, StopOk, WakeOk, HistoryOk, SomeSurvivor, NamesLive;
    if s.pending > 0 {
      a := ClientPost;
    } else if s.wpc != WAwait || s.workerSem > 0 {
      a := WorkerCanStep(s, P);
    } else {
      a := SchedulerCanStep(s, P);
    }
  }

  /** The only way to stand still before shutdown: both processes asleep and nothing left to do. */
  lemma StuckMeansDone(s: System, P: int)
    requires SystemOk(s, P) && !s.shutdown && Stuck(s)
    ensures s.spc == SAwaitEvent && s.wpc == WAwait && AllTerminal(s.seg.tasks)
  {
    hide SegmentOk, HandoffOk, SlotOk, StopOk, HistoryOk, SomeSurvivor, NamesLive, AllTerminal;
    if s.pending > 0 || s.spc != SAwaitEvent || s.eventSem > 0 || s.wpc != WAwait || s.workerSem > 0 {
      var a := CanGoOn(s, P);
    }
  }

  /** Someone finishes: not every task can fall victim to deadlock resolution. */
  lemma SomeoneFinishes(s: System, P: int)
    requires SystemOk(s, P) && AllTerminal(s.seg.tasks) && s.seg.tasks != []
    ensures exists i :: 0 <= i < |s.seg.tasks| && s.seg.tasks[i].state == Finished
  {
    var i :| 0 <= i < |s.seg.tasks| && s.seg.tasks[i].state != DeadlockAborted;
    assert s.seg.tasks[i].state == Finished;
  }

  /**
   The system completes what it is given: in every run before stop() the processes take a
   bounded number of steps, and when they can go no further every task is terminal and, if
   there are any, some task is FINISHED.
   */
  lemma Completes(s: System, acts: seq<Action>, P: int)
    requires SystemOk(s, P) && !s.shutdown && IsRun(s, acts) && AllAtMost(acts, P) && StopFlag !in acts
    ensures OwnSteps(acts) <= StepsLeft(s) + Burdens(s, acts)
    ensures var s' := After(s, acts);
            Stuck(s') ==>
              && AllTerminal(s'.seg.tasks)
              && (s'.seg.tasks != [] ==> exists i :: 0 <= i < |s'.seg.tasks| && s'.seg.tasks[i].state == Finished)
  {
    hide SystemOk, StepsLeft, AllTerminal, Stuck;
    RunBounded(s, acts, P);
    var s' := After(s, acts);
    if Stuck(s') {
      StuckMeansDone(s', P);
      if s'.seg.tasks != [] {
        SomeoneFinishes(s', P);
      }
    }
  }
}
