/** How much work the clients can bring in: a task that is registered stays registered. */
module Workload {
  import opened Model
  import Worker
  import Client
  import CycleProofs
  import WorkProofs
  import StepProofs
  import opened Protocol
  import opened ProtocolProofs
  import opened Liveness

  lemma WorkerKeepsTable(s: System, a: Action, P: int)
    requires SystemOk(s, P) && Enabled(s, a) && (a == WorkBegin || a == WorkEnd)
    ensures |Apply(s, a).seg.tasks| == |s.seg.tasks| && Q(Apply(s, a)) == Q(s)
  {
    hide HandoffOk, StopOk, WakeOk, HistoryOk, SomeSurvivor, NamesLive;
    if a == WorkBegin {
      BeginShape(s, P);
    } else {
      Worker.EndTasks(s.seg, s.wpc.idx, s.wpc.execTime);
    }
  }

  lemma SectionKeepsTable(s: System, victims: seq<int>, P: int)
    requires SystemOk(s, P) && Enabled(s, SchedSection(victims))
    ensures var s' := AfterSection(s, victims); |s'.seg.tasks| == |s.seg.tasks| && Q(s') == Q(s)
  {
    hide SegmentOk, HandoffOk, SlotOk, StopOk, WakeOk, HistoryOk, SomeSurvivor, NamesLive;
    SectionStart(s, P);
    CycleProofs.CycleOk(s.seg, victims);
  }

  lemma StepRegisters(s: System, a: Action, P: int)
    requires SystemOk(s, P) && Enabled(s, a)
    ensures |Apply(s, a).seg.tasks| == |s.seg.tasks| + (if Registers(s, a) then 1 else 0)
    ensures Q(Apply(s, a)) == Q(s)
  {
    hide SystemOk;
    match a
    case SchedSection(victims) => SectionKeepsTable(s, victims, P);
    case WorkBegin => WorkerKeepsTable(s, a, P);
    case WorkEnd => WorkerKeepsTable(s, a, P);
    case ClientSubmit(id, priority, totalTime, required) =>
      StepProofs.SubmitTasks(s.seg, id, priority, totalTime, required);
    case ClientChange(id, priority) => StepProofs.ChangePriorityTasks(s.seg, id, priority);
    case _ => QuietFrame(s, a);
  }

  /** A submission asks for at most T of time. */
  predicate Short(a: Action, T: int) {
    a.ClientSubmit? ==> a.totalTime <= T
  }

  lemma BroughtAtMost(s: System, a: Action, T: int)
    requires Short(a, T)
    ensures Brought(s, a) <= if Registers(s, a) then WorkProofs.MostCost(T, Q(s)) else 0
  {
    if Registers(s, a) {
      WorkProofs.NewTaskCost(Client.NewTask(a.id, a.priority, a.totalTime, a.required), T, Q(s));
    }
  }

  lemma TableSize(s: System, P: int)
    requires SystemOk(s, P)
    ensures |s.seg.tasks| <= MAX_TASKS
  {
  }

  predicate AllShort(acts: seq<Action>, T: int) {
    forall k :: 0 <= k < |acts| ==> Short(acts[k], T)
  }

  /** What n tasks of at most T can cost. */
  function Allowance(n: int, T: int, q: int): int
    requires q > 0
  {
    n * WorkProofs.MostCost(T, q)
  }

  lemma AllowanceStep(n: int, T: int, q: int)
    requires q > 0
    ensures Allowance(n + 1, T, q) == Allowance(n, T, q) + WorkProofs.MostCost(T, q)
    ensures n >= 0 ==> Allowance(n, T, q) >= 0
  {
  }

  /** What the free places of the task table allow in work. */
  function Room(s: System, T: int): int {
    Allowance(MAX_TASKS - |s.seg.tasks|, T, Q(s))
  }

  lemma RoomNonnegative(s: System, P: int, T: int)
    requires SystemOk(s, P)
    ensures Room(s, T) >= 0
  {
    TableSize(s, P);
    AllowanceStep(MAX_TASKS - |s.seg.tasks|, T, Q(s));
  }

  lemma StepTakesRoom(s: System, a: Action, P: int, T: int)
    requires SystemOk(s, P) && Enabled(s, a) && Short(a, T)
    ensures Brought(s, a) + Room(Apply(s, a), T) <= Room(s, T)
  {
    hide SystemOk, Enabled, Apply, Brought, Registers, WorkProofs.MostCost, Q, Allowance;
    var s' := Apply(s, a);
    StepRegisters(s, a, P);
    BroughtAtMost(s, a, T);
    AllowanceStep(MAX_TASKS - |s'.seg.tasks|, T, Q(s));
  }

  /** A run can bring in no more than the free places of the task table. */
  lemma {:induction false} SubmittedAtMost(s: System, acts: seq<Action>, P: int, T: int)
    requires SystemOk(s, P) && IsRun(s, acts) && AllAtMost(acts, P) && AllShort(acts, T)
    ensures Submitted(s, acts) <= Room(s, T)
    decreases |acts|
  {
    hide SystemOk, Brought, Room, AtMost, Short;
    if acts == [] {
      RoomNonnegative(s, P, T);
    } else {
      assert AtMost(acts[0], P) && Short(acts[0], T);
      StepOk(s, acts[0], P);
      StepTakesRoom(s, acts[0], P, T);
      SubmittedAtMost(Apply(s, acts[0]), acts[1..], P, T);
    }
  }

  lemma InitialWork(timeQuantum: int, T: int)
    ensures var s := Initial(timeQuantum);
            Remaining(s) == 0 && Room(s, T) == Allowance(MAX_TASKS, T, EffectiveQuantum(timeQuantum))
  {
  }

  /**
   Whatever the clients do, the Scheduler works through at most 256 times the work of one
   task, as long as no task asks for more than T: every other section ends in sleep.
   */
  lemma BusySectionsOfRun(timeQuantum: int, acts: seq<Action>, P: int, T: int)
    requires IsRun(Initial(timeQuantum), acts) && AllAtMost(acts, P) && AllShort(acts, T)
    ensures BusySections(Initial(timeQuantum), acts) <= Allowance(MAX_TASKS, T, EffectiveQuantum(timeQuantum))
  {
    hide SystemOk, Room, Allowance, IsRun, BusySections, Submitted;
    var s := Initial(timeQuantum);
    InitialWork(timeQuantum, T);
    InitialOk(timeQuantum, P);
    BusySectionsBounded(s, acts, P);
    SubmittedAtMost(s, acts, P, T);
  }
}
