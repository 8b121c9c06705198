/** The critical sections of the client: submitting a task and changing a priority. */
module Client {
  import opened Model
  import StableSort
  import opened SharedMemory
  import SchedulerCore
  import CycleSpec
  import Worker

  function NewTask(id: int, priority: int, totalTime: int, required: Mask): Task {
    Task(id, priority, priority, if required == {} then Ready else New, totalTime, totalTime, required, {}, 0)
  }

  /** A task as registered: what was asked for, nothing held, nothing waited, nothing executed. */
  predicate AsSubmitted(t: Task, id: int, priority: int, totalTime: int, required: Mask) {
    && t.id == id && t.required == required && t.held == {} && t.waitTicks == 0
    && t.basePriority == priority && t.effectivePriority == priority
    && t.totalTime == totalTime && t.remainingTime == totalTime
    && (t.state == Ready || t.state == New) && (t.state == Ready <==> required == {})
  }

  predicate Accepts(s: Segment, id: int, priority: int, totalTime: int) {
    id >= 0 && priority >= 0 && totalTime > 0 && Worker.FindId(s.tasks, id) == -1 && |s.tasks| < MAX_TASKS
  }

  /** The segment after a submission; a rejected one changes nothing. */
  function Submit(s: Segment, id: int, priority: int, totalTime: int, required: Mask): Segment {
    if !Accepts(s, id, priority, totalTime) then s
    else
      var i, s' := |s.tasks|, s.(tasks := s.tasks + [NewTask(id, priority, totalTime, required)]);
      if required == {} then s'.(ready := StableSort.Sorted(s'.tasks, Enqueue(s.ready, i)))
      else s'.(blocked := Enqueue(s.blocked, i))
  }

  /** The segment after a priority change; an unknown id changes nothing. */
  function ChangePriority(s: Segment, id: int, priority: int): Segment {
    var i := Worker.FindId(s.tasks, id);
    if i == -1 then s
    else
      var t := s.tasks[i].(basePriority := priority, effectivePriority := priority, waitTicks := 0);
      var s' := CycleSpec.SetTask(s, i, t);
      if i in s.ready then s'.(ready := StableSort.Sorted(s'.tasks, s.ready)) else s'
  }

  /** Writes the new task behind the registered ones. */
  method Register(shm: SharedMemorySegment, t: Task)
    requires shm.Valid() && shm.taskCount < MAX_TASKS
    modifies shm, shm.tasks
    ensures shm.Valid()
    ensures shm.View() == old(shm.View()).(tasks := old(shm.View()).tasks + [t])
    ensures shm.taskCount == old(shm.taskCount) + 1
  {
    ghost var was := shm.View().tasks;
    shm.tasks[shm.taskCount] := t;
    shm.taskCount := shm.taskCount + 1;
    assert shm.tasks[..shm.taskCount] == was + [t];
  }

  method SubmitTask(shm: SharedMemorySegment, id: int, priority: int, totalTime: int, required: Mask)
    returns (r: int)
    requires shm.Valid()
    modifies shm.Repr()
    ensures shm.Valid()
    ensures shm.View() == Submit(old(shm.View()), id, priority, totalTime, required)
    ensures r == if Accepts(old(shm.View()), id, priority, totalTime) then id else -1
    ensures r != -1 <==> && id >= 0 && priority >= 0 && totalTime > 0
                         && |old(shm.View()).tasks| < MAX_TASKS
                         && (forall i :: 0 <= i < |old(shm.View()).tasks| ==> old(shm.View()).tasks[i].id != id)
    ensures r == -1 ==> shm.View() == old(shm.View())
    ensures r != -1 ==> var ts, n := shm.View().tasks, |old(shm.View()).tasks|;
                        && |ts| == n + 1 && ts[..n] == old(shm.View()).tasks
                        && AsSubmitted(ts[n], id, priority, totalTime, required)
  {
    if id < 0 || priority < 0 || totalTime <= 0 {
      return -1;
    }
    var known := Worker.FindTask(shm, id);
    if known != -1 {
      return -1;
    }
    if shm.taskCount >= MAX_TASKS {
      return -1;
    }
    var idx := shm.taskCount;
    Register(shm, NewTask(id, priority, totalTime, required));
    if required == {} {
      var _ := shm.PushReady(idx);
      SchedulerCore.QueueReorderPriority(shm, shm.readyQueue);
    } else {
      var _ := shm.PushBlocked(idx);
    }
    return id;
  }

  /** Task k is the one that goes by this id. */
  predicate IsFirst(ts: seq<Task>, k: int, id: int)
    requires 0 <= k < |ts|
  {
    ts[k].id == id && forall i :: 0 <= i < k ==> ts[i].id != id
  }

  method ChangeTaskPriority(shm: SharedMemorySegment, id: int, priority: int)
    requires shm.Valid()
    modifies shm.Repr()
    ensures shm.Valid() && shm.View() == ChangePriority(old(shm.View()), id, priority)
    ensures var ts, ts' := old(shm.View()).tasks, shm.View().tasks;
            && |ts'| == |ts|
            && forall k :: 0 <= k < |ts| ==>
                 if IsFirst(ts, k, id)
                 then && ts'[k].basePriority == priority && ts'[k].effectivePriority == priority
                      && ts'[k].waitTicks == 0
                      && ts[k] == ts'[k].(basePriority := ts[k].basePriority,
                                          effectivePriority := ts[k].effectivePriority, waitTicks := ts[k].waitTicks)
                 else ts'[k] == ts[k]
  {
    var i := Worker.FindTask(shm, id);
    if i != -1 {
      var t := shm.tasks[i];
      assert t == shm.View().tasks[i];
      shm.SetTask(i, t.(basePriority := priority, effectivePriority := priority, waitTicks := 0));
      var queued := shm.readyQueue.Contains(i);
      if queued {
        SchedulerCore.QueueReorderPriority(shm, shm.readyQueue);
      }
    }
  }
}
