/**
 The shared memory segment as a value: the tasks, the two queues as sequences of
 task indices, and the scalar fields that the critical sections read and write.
 */
module Model {

  const MAX_TASKS: int := 256

  /** A resource mask is the set of the positions of its one bits. */
  newtype Bit = b: int | 0 <= b < 32
  type Mask = set<Bit>

  datatype TaskState = New | Ready | Running | Blocked | Finished | DeadlockAborted

  datatype Task = Task(
    id: int,
    basePriority: int,
    effectivePriority: int,
    state: TaskState,
    totalTime: int,
    remainingTime: int,
    required: Mask,
    held: Mask,
    waitTicks: int)

  predicate Terminal(t: Task) {
    t.state == DeadlockAborted || t.state == Finished
  }

  const PRIORITY_ALGORITHM: int := 0

  datatype Segment = Segment(
    tasks: seq<Task>,
    ready: seq<int>,
    blocked: seq<int>,
    runningId: int,
    algorithm: int,
    timeQuantum: int)

  /** The quantum the Worker uses: the configured one, or 50 ms when none is set. */
  function EffectiveQuantum(timeQuantum: int): (q: int)
    ensures q > 0
  {
    if timeQuantum > 0 then timeQuantum else 50
  }

  /** Effective priority of task i; the default is never used on a queued index. */
  function Prio(tasks: seq<Task>, i: int): int {
    if 0 <= i < |tasks| then tasks[i].effectivePriority else 0
  }

  predicate InRange(q: seq<int>, n: int) {
    forall i :: 0 <= i < |q| ==> 0 <= q[i] < n
  }

  /** A queue after queue_push_tail: full and duplicate pushes change nothing. */
  function Enqueue(q: seq<int>, i: int): seq<int> {
    if |q| >= MAX_TASKS || i in q then q else q + [i]
  }
}
