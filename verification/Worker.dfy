/** The two critical sections of the Worker: taking the assigned task, and ending its quantum. */
module Worker {
  import opened Model
  import opened SharedMemory
  import CycleSpec
  import SchedulerLoop

  /** The first task with this id, or -1. */
  function FindId(ts: seq<Task>, id: int): (r: int)
    ensures -1 <= r < |ts|
    ensures r >= 0 ==> ts[r].id == id
    ensures forall i :: 0 <= i < |ts| && ts[i].id == id ==> 0 <= r <= i
  {
    if ts == [] then -1
    else
      var r := FindId(ts[..|ts| - 1], id);
      assert forall i :: 0 <= i < |ts| - 1 ==> ts[i] == ts[..|ts| - 1][i];
      if r >= 0 then r
      else if ts[|ts| - 1].id == id then |ts| - 1
      else -1
  }

  /** How the first critical section ends: a quantum to run, or one of three early exits. */
  datatype Assignment = Quantum(idx: int, execTime: int) | WrongState | NothingLeft | UnknownId

  function Finish(t: Task): Task {
    t.(state := Finished, held := {})
  }

  function BeginAssignment(s: Segment): Assignment {
    var i := FindId(s.tasks, s.runningId);
    if i == -1 then UnknownId
    else if s.tasks[i].state != Ready then WrongState
    else if s.tasks[i].remainingTime <= 0 then NothingLeft
    else
      var q := EffectiveQuantum(s.timeQuantum);
      Quantum(i, if s.tasks[i].remainingTime < q then s.tasks[i].remainingTime else q)
  }

  /** The segment after the first critical section. */
  function Begin(s: Segment): Segment {
    var i := FindId(s.tasks, s.runningId);
    match BeginAssignment(s)
    case UnknownId => s.(runningId := -1)
    case WrongState => s.(runningId := -1)
    case NothingLeft => CycleSpec.SetTask(s, i, Finish(s.tasks[i])).(runningId := -1)
    case Quantum(_, _) => CycleSpec.SetTask(s, i, s.tasks[i].(state := Running))
  }

  /** The segment after the second critical section: task i has run for execTime. */
  function End(s: Segment, i: int, execTime: int): Segment
    requires 0 <= i < |s.tasks|
  {
    var t := s.tasks[i].(remainingTime := s.tasks[i].remainingTime - execTime);
    if t.remainingTime <= 0 then CycleSpec.SetTask(s, i, Finish(t)).(runningId := -1)
    else CycleSpec.Admit(s, i, t).(runningId := -1)
  }

  /** The task that has run for execTime: FINISHED, or READY with less left. */
  function Ran(t: Task, execTime: int): Task {
    var t' := t.(remainingTime := t.remainingTime - execTime);
    if t'.remainingTime <= 0 then Finish(t') else t'.(state := Ready)
  }

  /** What a quantum does to the task that runs it. */
  lemma EndTasks(s: Segment, i: int, e: int)
    requires 0 <= i < |s.tasks|
    ensures End(s, i, e).tasks == s.tasks[i := Ran(s.tasks[i], e)]
    ensures End(s, i, e).timeQuantum == s.timeQuantum
  {
  }

  method FindTask(shm: SharedMemorySegment, id: int) returns (idx: int)
    requires shm.Valid()
    ensures idx == FindId(shm.View().tasks, id)
  {
    ghost var ts := shm.View().tasks;
    idx := -1;
    for i := 0 to shm.taskCount
      invariant forall k :: 0 <= k < i ==> ts[k].id != id
    {
      assert ts[i] == shm.tasks[i];
      if shm.tasks[i].id == id {
        return i;
      }
    }
  }

  /** The task has nothing left: it is FINISHED and holds nothing. */
  method FinishTask(shm: SharedMemorySegment, idx: int, t: Task)
    requires shm.Valid() && 0 <= idx < shm.taskCount
    modifies shm.tasks
    ensures shm.Valid() && shm.View() == CycleSpec.SetTask(old(shm.View()), idx, Finish(t))
  {
    shm.SetTask(idx, t.(state := Finished, held := {}));
  }

  method ClearRunning(shm: SharedMemorySegment)
    requires shm.Valid()
    modifies shm`runningTaskId
    ensures shm.Valid() && shm.View() == old(shm.View()).(runningId := -1)
  {
    shm.runningTaskId := -1;
  }

  method BeginQuantum(shm: SharedMemorySegment) returns (r: Assignment)
    requires shm.Valid()
    modifies shm.Repr()
    ensures shm.Valid() && shm.View() == Begin(old(shm.View()))
    ensures r == BeginAssignment(old(shm.View()))
  {
    var idx := FindTask(shm, shm.runningTaskId);
    if idx == -1 {
      ClearRunning(shm);
      return UnknownId;
    }
    var t := shm.tasks[idx];
    assert t == shm.View().tasks[idx];
    if t.state != Ready {
      ClearRunning(shm);
      return WrongState;
    }
    if t.remainingTime <= 0 {
      FinishTask(shm, idx, t);
      ClearRunning(shm);
      return NothingLeft;
    }
    shm.SetTask(idx, t.(state := Running));
    var quantum := if shm.timeQuantum > 0 then shm.timeQuantum else 50;
    var execTime := if t.remainingTime < quantum then t.remainingTime else quantum;
    return Quantum(idx, execTime);
  }

  method EndQuantum(shm: SharedMemorySegment, idx: int, execTime: int)
    requires shm.Valid() && 0 <= idx < shm.taskCount
    modifies shm.Repr()
    ensures shm.Valid() && shm.View() == End(old(shm.View()), idx, execTime)
  {
    var t := shm.tasks[idx];
    assert t == shm.View().tasks[idx];
    t := t.(remainingTime := t.remainingTime - execTime);
    if t.remainingTime <= 0 {
      FinishTask(shm, idx, t);
    } else {
      SchedulerLoop.AdmitTask(shm, idx, t);
    }
    ClearRunning(shm);
  }
}
