/**
 The part of the shared memory segment that the critical sections read and write. The
 mutex and the semaphores belong to the protocol, see Protocol.dfy.
 */
module SharedMemory {
  import opened Model
  import Seqs
  import TaskQueues

  lemma WithoutRange(q: seq<int>, x: int, n: int)
    requires InRange(q, n)
    ensures InRange(Seqs.Without(q, x), n)
  {
    forall i | 0 <= i < |Seqs.Without(q, x)| ensures 0 <= Seqs.Without(q, x)[i] < n {
      assert Seqs.Without(q, x)[i] in q;
    }
  }

  lemma TailRange(q: seq<int>, n: int)
    requires q != [] && InRange(q, n)
    ensures InRange(q[1..], n)
  {
  }

  class SharedMemorySegment {
    const tasks: array<Task>
    const readyQueue: TaskQueues.TaskQueue
    const blockedQueue: TaskQueues.TaskQueue
    var taskCount: int
    var runningTaskId: int
    var activeAlgorithm: int
    var timeQuantum: int

    ghost function Repr(): set<object> {
      {this, tasks, readyQueue, readyQueue.taskIndices, blockedQueue, blockedQueue.taskIndices}
    }

    ghost predicate Valid()
      reads Repr()
    {
      && tasks.Length == MAX_TASKS
      && 0 <= taskCount <= MAX_TASKS
      && readyQueue != blockedQueue
      && readyQueue.taskIndices != blockedQueue.taskIndices
      && readyQueue.Valid() && InRange(readyQueue.Contents, taskCount)
      && blockedQueue.Valid() && InRange(blockedQueue.Contents, taskCount)
    }

    /** The segment as a value. */
    ghost function View(): Segment
      requires Valid()
      reads Repr()
    {
      Segment(tasks[..taskCount], readyQueue.Contents, blockedQueue.Contents,
              runningTaskId, activeAlgorithm, timeQuantum)
    }

    /** Stores t as task i. */
    method SetTask(i: int, t: Task)
      requires Valid() && 0 <= i < taskCount
      modifies tasks
      ensures Valid()
      ensures View() == old(View()).(tasks := old(View()).tasks[i := t])
    {
      ghost var was := tasks[..taskCount];
      tasks[i] := t;
      assert tasks[..taskCount] == was[i := t];
    }

    method PushReady(i: int) returns (r: int)
      requires Valid() && 0 <= i < taskCount
      modifies readyQueue, readyQueue.taskIndices
      ensures Valid()
      ensures r == if |old(View()).ready| >= MAX_TASKS then -1 else 0
      ensures View() == old(View()).(ready := Enqueue(old(View()).ready, i))
    {
      r := readyQueue.PushTail(i);
    }

    method PushBlocked(i: int) returns (r: int)
      requires Valid() && 0 <= i < taskCount
      modifies blockedQueue, blockedQueue.taskIndices
      ensures Valid()
      ensures r == if |old(View()).blocked| >= MAX_TASKS then -1 else 0
      ensures View() == old(View()).(blocked := Enqueue(old(View()).blocked, i))
    {
      r := blockedQueue.PushTail(i);
    }

    method PopReady() returns (i: int)
      requires Valid()
      modifies readyQueue, readyQueue.taskIndices
      ensures Valid()
      ensures var q := old(View()).ready;
              if q == [] then i == -1 && View() == old(View())
              else i == q[0] && View() == old(View()).(ready := q[1..])
    {
      ghost var q := readyQueue.Contents;
      if q != [] { TailRange(q, taskCount); }
      i := readyQueue.PopHead();
      assert q != [] ==> readyQueue.Contents == q[1..];
    }

    method PopBlocked() returns (i: int)
      requires Valid()
      modifies blockedQueue, blockedQueue.taskIndices
      ensures Valid()
      ensures var q := old(View()).blocked;
              if q == [] then i == -1 && View() == old(View())
              else i == q[0] && View() == old(View()).(blocked := q[1..])
    {
      ghost var q := blockedQueue.Contents;
      if q != [] { TailRange(q, taskCount); }
      i := blockedQueue.PopHead();
      assert q != [] ==> blockedQueue.Contents == q[1..];
    }

    method RemoveReady(i: int) returns (found: bool)
      requires Valid()
      modifies readyQueue, readyQueue.taskIndices
      ensures Valid()
      ensures View() == old(View()).(ready := Seqs.Without(old(View()).ready, i))
    {
      WithoutRange(readyQueue.Contents, i, taskCount);
      found := readyQueue.Remove(i);
    }

    method RemoveBlocked(i: int) returns (found: bool)
      requires Valid()
      modifies blockedQueue, blockedQueue.taskIndices
      ensures Valid()
      ensures View() == old(View()).(blocked := Seqs.Without(old(View()).blocked, i))
    {
      WithoutRange(blockedQueue.Contents, i, taskCount);
      found := blockedQueue.Remove(i);
    }

    /** A zeroed segment with both queues initialised. */
    constructor ()
      ensures Valid() && fresh(Repr())
      ensures View() == Segment([], [], [], 0, PRIORITY_ALGORITHM, 0)
    {
      tasks := new Task[MAX_TASKS](_ => Task(0, 0, 0, New, 0, 0, {}, {}, 0));
      readyQueue := new TaskQueues.TaskQueue();
      blockedQueue := new TaskQueues.TaskQueue();
      taskCount, runningTaskId, activeAlgorithm, timeQuantum := 0, 0, 0, 0;
    }
  }
}
