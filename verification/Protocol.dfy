/**
 The Scheduler, the Worker and the clients as one transition system. A critical section
 is one step; between steps any process may run.
 */
module Protocol {
  import opened Model
  import CycleSpec
  import Worker
  import Client

  /** Where the Scheduler is in its loop. */
  datatype SchedulerPc =
    | SCheck          // reads the shutdown flag at the loop head
    | SSection        // about to run its critical section
    | SPost           // has selected a task, about to post worker_sem
    | SAwaitQuantum   // waits on scheduler_sem
    | STest           // reads the shutdown flag after a quantum
    | SAwaitEvent     // waits on scheduler_event_sem
    | SExit(left: int) // leaving: `left` of its three posts remain
    | SDone

  /** Where the Worker is in its loop. */
  datatype WorkerPc =
    | WCheck          // reads the shutdown flag at the loop head
    | WAwait          // waits on worker_sem
    | WTest           // reads the shutdown flag after the wait
    | WBegin          // about to run its first critical section
    | WRun(idx: int, execTime: int) // sleeps, then runs its second critical section
    | WPost           // about to post scheduler_sem
    | WPostEarly      // early exit: about to post scheduler_sem
    | WPostEvent      // early exit: about to post scheduler_event_sem
    | WDone

  /** Progress of stop(): not called, or how many of its three posts remain. */
  datatype StopPc = NotStopping | Stopping(left: int)

  datatype System = System(
    seg: Segment,
    spc: SchedulerPc,
    wpc: WorkerPc,
    stop: StopPc,
    workerSem: nat,
    schedulerSem: nat,
    eventSem: nat,
    shutdown: bool,
    pending: nat,        // client calls that have left the mutex but not yet posted
    slot: int,           // history: the task handed to the Worker, or -1
    quanta: seq<int>,    // history: quanta executed by each task
    executed: seq<int>)  // history: time executed by each task

  datatype Action =
    | SchedCheck
    | SchedSection(victims: seq<int>)
    | SchedPost
    | SchedQuantum
    | SchedTest
    | SchedWake
    | SchedExit
    | WorkCheck
    | WorkTake
    | WorkTest
    | WorkBegin
    | WorkEnd
    | WorkPost
    | WorkPostEvent
    | ClientSubmit(id: int, priority: int, totalTime: int, required: Mask)
    | ClientChange(id: int, priority: int)
    | ClientPost
    | StopFlag
    | StopPost

  predicate BySched(a: Action) {
    a.SchedCheck? || a.SchedSection? || a.SchedPost? || a.SchedQuantum? || a.SchedTest? || a.SchedWake? || a.SchedExit?
  }

  predicate ByWorker(a: Action) {
    a.WorkCheck? || a.WorkTake? || a.WorkTest? || a.WorkBegin? || a.WorkEnd? || a.WorkPost? || a.WorkPostEvent?
  }

  ghost predicate Enabled(s: System, a: Action) {
    match a
    case SchedCheck => s.spc == SCheck
    case SchedSection(victims) => s.spc == SSection && CycleSpec.CycleVictims(s.seg, victims)
    case SchedPost => s.spc == SPost
    case SchedQuantum => s.spc == SAwaitQuantum && s.schedulerSem > 0
    case SchedTest => s.spc == STest
    case SchedWake => s.spc == SAwaitEvent && s.eventSem > 0
    case SchedExit => s.spc.SExit?
    case WorkCheck => s.wpc == WCheck
    case WorkTake => s.wpc == WAwait && s.workerSem > 0
    case WorkTest => s.wpc == WTest
    case WorkBegin => s.wpc == WBegin
    case WorkEnd => s.wpc.WRun? && 0 <= s.wpc.idx < |s.seg.tasks|
    case WorkPost => s.wpc == WPost || s.wpc == WPostEarly
    case WorkPostEvent => s.wpc == WPostEvent
    case ClientSubmit(_, _, _, _) => true
    case ClientChange(_, _) => true
    case ClientPost => s.pending > 0
    case StopFlag => s.stop == NotStopping
    case StopPost => s.stop.Stopping? && s.stop.left > 0
  }

  /** How the Scheduler's section leaves the system. */
  function AfterSection(s: System, victims: seq<int>): System {
    var seg := CycleSpec.Cycle(s.seg, victims);
    match CycleSpec.CycleOutcome(s.seg, victims)
    case Selected(i) => s.(seg := seg, spc := SPost, slot := i)
    case Again => s.(seg := seg, spc := SCheck)
    case Sleep => s.(seg := seg, spc := SAwaitEvent)
  }

  /** How the Worker's first section leaves the system. */
  function AfterBegin(s: System): System {
    var seg := Worker.Begin(s.seg);
    match Worker.BeginAssignment(s.seg)
    case Quantum(i, e) => s.(seg := seg, wpc := WRun(i, e))
    case WrongState => s.(seg := seg, wpc := WPostEarly)
    case NothingLeft => s.(seg := seg, wpc := WPostEarly)
    case UnknownId => s.(seg := seg, wpc := WPost)
  }

  function Bump(h: seq<int>, i: int, d: int): seq<int> {
    if 0 <= i < |h| then h[i := h[i] + d] else h
  }

  function AfterEnd(s: System): System
    requires s.wpc.WRun? && 0 <= s.wpc.idx < |s.seg.tasks|
  {
    var i, e := s.wpc.idx, s.wpc.execTime;
    s.(seg := Worker.End(s.seg, i, e), wpc := WPost, slot := -1,
       quanta := Bump(s.quanta, i, 1), executed := Bump(s.executed, i, e))
  }

  /** A call that registers a task extends the histories and owes a post; a rejected one does nothing. */
  function AfterSubmit(s: System, id: int, priority: int, totalTime: int, required: Mask): System {
    if Client.Accepts(s.seg, id, priority, totalTime) then
      s.(seg := Client.Submit(s.seg, id, priority, totalTime, required), pending := s.pending + 1,
         quanta := s.quanta + [0], executed := s.executed + [0])
    else s
  }

  /** The Scheduler posts worker_sem, scheduler_sem and scheduler_event_sem on its way out. */
  function AfterExit(s: System): System {
    if s.spc == SExit(3) then s.(workerSem := s.workerSem + 1, spc := SExit(2))
    else if s.spc == SExit(2) then s.(schedulerSem := s.schedulerSem + 1, spc := SExit(1))
    else s.(eventSem := s.eventSem + 1, spc := SDone)
  }

  function AfterStopPost(s: System): System {
    if s.stop == Stopping(3) then s.(workerSem := s.workerSem + 1, stop := Stopping(2))
    else if s.stop == Stopping(2) then s.(schedulerSem := s.schedulerSem + 1, stop := Stopping(1))
    else s.(eventSem := s.eventSem + 1, stop := Stopping(0))
  }

  ghost function Apply(s: System, a: Action): System
    requires Enabled(s, a)
  {
    match a
    case SchedCheck => s.(spc := if s.shutdown then SExit(3) else SSection)
    case SchedSection(victims) => AfterSection(s, victims)
    case SchedPost => s.(workerSem := s.workerSem + 1, spc := SAwaitQuantum)
    case SchedQuantum => s.(schedulerSem := s.schedulerSem - 1, spc := STest)
    case SchedTest => s.(spc := if s.shutdown then SExit(3) else SCheck)
    case SchedWake => s.(eventSem := s.eventSem - 1, spc := SCheck)
    case SchedExit => AfterExit(s)
    case WorkCheck => s.(wpc := if s.shutdown then WDone else WAwait)
    case WorkTake => s.(workerSem := s.workerSem - 1, wpc := WTest)
    case WorkTest => s.(wpc := if s.shutdown then WDone else WBegin)
    case WorkBegin => AfterBegin(s)
    case WorkEnd => AfterEnd(s)
    case WorkPost => s.(schedulerSem := s.schedulerSem + 1, wpc := if s.wpc == WPost then WCheck else WPostEvent)
    case WorkPostEvent => s.(eventSem := s.eventSem + 1, wpc := WCheck)
    case ClientSubmit(id, priority, totalTime, required) => AfterSubmit(s, id, priority, totalTime, required)
    case ClientChange(id, priority) => s.(seg := Client.ChangePriority(s.seg, id, priority), pending := s.pending + 1)
    case ClientPost => s.(pending := s.pending - 1, eventSem := s.eventSem + 1)
    case StopFlag => s.(shutdown := true, stop := Stopping(3))
    case StopPost => AfterStopPost(s)
  }

  /** The zeroed segment with both processes at the head of their loops. */
  function Initial(timeQuantum: int): System {
    System(Segment([], [], [], 0, PRIORITY_ALGORITHM, timeQuantum), SCheck, WCheck, NotStopping,
           0, 0, 0, false, 0, -1, [], [])
  }

  /** acts is a sequence of steps that can be taken one after the other from s. */
  ghost predicate IsRun(s: System, acts: seq<Action>)
    decreases |acts|
  {
    acts == [] || (Enabled(s, acts[0]) && IsRun(Apply(s, acts[0]), acts[1..]))
  }

  ghost function After(s: System, acts: seq<Action>): System
    requires IsRun(s, acts)
    decreases |acts|
  {
    if acts == [] then s else After(Apply(s, acts[0]), acts[1..])
  }

  /** Every priority submitted or set is at most P. */
  predicate AtMost(a: Action, P: int) {
    (a.ClientSubmit? || a.ClientChange?) ==> a.priority <= P
  }

  predicate AllAtMost(acts: seq<Action>, P: int) {
    forall k :: 0 <= k < |acts| ==> AtMost(acts[k], P)
  }
}
