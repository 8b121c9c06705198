/** Priority order of a queue, and aging. */
module SchedulerCore {
  import opened Model
  import Seqs
  import opened StableSort
  import TaskQueues
  import opened SharedMemory

  /** elems holds the queue was, rearranged without disturbing a priority class. */
  ghost predicate Arranges(ts: seq<Task>, was: seq<int>, elems: seq<int>) {
    && |elems| == |was|
    && InRange(elems, |ts|)
    && forall k :: Class(ts, elems, k) == Class(ts, was, k)
  }

  method Drain(q: TaskQueues.TaskQueue, elems: array<int>) returns (count: int)
    requires q.Valid()
    requires elems != q.taskIndices && elems.Length == MAX_TASKS
    modifies q, q.taskIndices, elems
    ensures q.Valid() && q.Contents == []
    ensures count == |old(q.Contents)| && elems[..count] == old(q.Contents)
  {
    ghost var was := q.Contents;
    count := q.size;
    for i := 0 to count
      invariant q.Valid() && q.Contents == was[i..]
      invariant elems[..i] == was[..i]
    {
      elems[i] := q.PopHead();
    }
  }

  lemma ArrangedInRange(ts: seq<Task>, was: seq<int>, elems: seq<int>)
    requires Arranges(ts, was, elems)
    ensures InRange(elems, |ts|)
  {
  }

  lemma SwapArranges(ts: seq<Task>, was: seq<int>, before: seq<int>, j: int)
    requires Arranges(ts, was, before) && 0 <= j < |before| - 1
    requires Prio(ts, before[j]) != Prio(ts, before[j + 1])
    ensures Arranges(ts, was, before[j := before[j + 1]][j + 1 := before[j]])
  {
    var after := before[j := before[j + 1]][j + 1 := before[j]];
    forall k ensures Class(ts, after, k) == Class(ts, was, k) {
      SwapKeepsClasses(ts, before, j, k);
    }
  }

  /** Two neighbours out of order change places; nothing else moves. */
  method CompareAndSwap(shm: SharedMemorySegment, elems: array<int>, j: int, last: int, count: int,
                        ghost was: seq<int>)
    requires shm.Valid() && elems !in shm.Repr()
    requires 0 <= j < last < count <= elems.Length
    requires Arranges(shm.View().tasks, was, elems[..count])
    modifies elems
    ensures Arranges(shm.View().tasks, was, elems[..count])
    ensures Prio(shm.View().tasks, elems[j]) >= Prio(shm.View().tasks, elems[j + 1])
    ensures elems[..j] == old(elems[..j]) && elems[last + 1..] == old(elems[last + 1..])
    ensures multiset(elems[..last + 1]) == multiset(old(elems[..last + 1]))
    ensures {elems[j], elems[j + 1]} == {old(elems[j]), old(elems[j + 1])}
  {
    hide Arranges;
    ghost var ts, before, front := shm.View().tasks, elems[..count], elems[..last + 1];
    ArrangedInRange(ts, was, before);
    assert before[j] == elems[j] && before[j + 1] == elems[j + 1];
    if shm.tasks[elems[j]].effectivePriority < shm.tasks[elems[j + 1]].effectivePriority {
      elems[j], elems[j + 1] := elems[j + 1], elems[j];
      assert elems[..count] == before[j := before[j + 1]][j + 1 := before[j]];
      assert elems[..last + 1] == front[j := front[j + 1]][j + 1 := front[j]];
      SwapArranges(ts, was, before, j);
    }
  }

  /** One pass of the bubble sort: a least element of the first last + 1 moves to place last. */
  method BubblePass(shm: SharedMemorySegment, elems: array<int>, last: int, count: int, ghost was: seq<int>)
    requires shm.Valid() && elems !in shm.Repr()
    requires 0 <= last < count <= elems.Length
    requires Arranges(shm.View().tasks, was, elems[..count])
    modifies elems
    ensures Arranges(shm.View().tasks, was, elems[..count])
    ensures forall a :: 0 <= a <= last ==>
                          Prio(shm.View().tasks, elems[a]) >= Prio(shm.View().tasks, elems[last])
    ensures elems[last + 1..] == old(elems[last + 1..])
    ensures multiset(elems[..last + 1]) == multiset(old(elems[..last + 1]))
  {
    hide Arranges;
    ghost var ts := shm.View().tasks;
    for j := 0 to last
      invariant Arranges(ts, was, elems[..count])
      invariant forall a :: 0 <= a <= j ==> Prio(ts, elems[a]) >= Prio(ts, elems[j])
      invariant elems[last + 1..] == old(elems[last + 1..])
      invariant multiset(elems[..last + 1]) == multiset(old(elems[..last + 1]))
    {
      ghost var settled := elems[..j];
      CompareAndSwap(shm, elems, j, last, count, was);
      assert forall a :: 0 <= a < j ==> elems[a] == settled[a];
    }
  }

  /** No element at place bound or later has more priority than an element in front of it. */
  ghost predicate SettledFrom(ts: seq<Task>, elems: seq<int>, bound: int) {
    forall a, b :: 0 <= a < b < |elems| && bound <= b ==> Prio(ts, elems[a]) >= Prio(ts, elems[b])
  }

  lemma SettleOne(ts: seq<Task>, before: seq<int>, after: seq<int>, last: int)
    requires 0 <= last < |before| == |after|
    requires SettledFrom(ts, before, last + 1)
    requires before[last + 1..] == after[last + 1..]
    requires multiset(before[..last + 1]) == multiset(after[..last + 1])
    requires forall a :: 0 <= a <= last ==> Prio(ts, after[a]) >= Prio(ts, after[last])
    ensures SettledFrom(ts, after, last)
  {
    forall a, b | 0 <= a < b < |after| && last <= b
      ensures Prio(ts, after[a]) >= Prio(ts, after[b])
    {
      if b > last {
        assert after[b] == after[last + 1..][b - last - 1] == before[b];
        if a > last {
          assert after[a] == after[last + 1..][a - last - 1] == before[a];
        } else {
          assert after[..last + 1][a] in multiset(before[..last + 1]);
          var c :| 0 <= c <= last && before[c] == after[a];
        }
      }
    }
  }

  method BubbleSort(shm: SharedMemorySegment, elems: array<int>, count: int, ghost was: seq<int>)
    requires shm.Valid() && elems !in shm.Repr()
    requires 0 < count <= elems.Length
    requires Arranges(shm.View().tasks, was, elems[..count])
    modifies elems
    ensures elems[..count] == Sorted(shm.View().tasks, was)
  {
    ghost var ts := shm.View().tasks;
    for i := 0 to count - 1
      invariant Arranges(ts, was, elems[..count])
      invariant SettledFrom(ts, elems[..count], count - i)
    {
      ghost var before := elems[..count];
      var last := count - i - 1;
      assert before[..last + 1] == elems[..last + 1];
      ghost var rest := elems[last + 1..];
      BubblePass(shm, elems, last, count, was);
      ghost var after := elems[..count];
      assert after[..last + 1] == elems[..last + 1];
      assert before[last + 1..] == rest[..count - last - 1] == after[last + 1..];
      SettleOne(ts, before, after, last);
    }
    SortedIsTheStableSort(ts, was, elems[..count]);
  }

  lemma SortedRange(ts: seq<Task>, q: seq<int>)
    requires InRange(q, |ts|)
    ensures InRange(Sorted(ts, q), |ts|)
  {
    forall i | 0 <= i < |Sorted(ts, q)| ensures 0 <= Sorted(ts, q)[i] < |ts| {
      assert Sorted(ts, q)[i] in multiset(q);
    }
  }

  method SortDrained(shm: SharedMemorySegment, elems: array<int>, count: int, ghost was: seq<int>)
    requires shm.Valid() && elems !in shm.Repr()
    requires Seqs.NoDup(was) && InRange(was, shm.taskCount)
    requires 0 < count <= elems.Length && elems[..count] == was
    modifies elems
    ensures elems[..count] == Sorted(shm.View().tasks, was)
    ensures Seqs.NoDup(elems[..count]) && InRange(elems[..count], shm.taskCount)
  {
    BubbleSort(shm, elems, count, was);
    Seqs.PermutationNoDup(was, elems[..count]);
    SortedRange(shm.View().tasks, was);
  }

  /** q has its memory for itself, whether it is one of the segment's queues or not. */
  predicate Separate(shm: SharedMemorySegment, q: TaskQueues.TaskQueue) {
    && (q == shm.readyQueue || q.taskIndices != shm.readyQueue.taskIndices)
    && (q == shm.blockedQueue || q.taskIndices != shm.blockedQueue.taskIndices)
  }

  /** Takes everything from q; the rest of the segment stays as it is. */
  method DrainQueue(shm: SharedMemorySegment, q: TaskQueues.TaskQueue, elems: array<int>) returns (count: int)
    requires shm.Valid() && q.Valid() && Separate(shm, q)
    requires elems !in shm.Repr() && elems != q.taskIndices && elems.Length == MAX_TASKS
    modifies q, q.taskIndices, elems
    ensures q.Valid() && q.Contents == []
    ensures count == |old(q.Contents)| && elems[..count] == old(q.Contents)
    ensures shm.Valid() && shm.View().tasks == old(shm.View()).tasks
    ensures q != shm.readyQueue ==> shm.readyQueue.Contents == old(shm.readyQueue.Contents)
    ensures q != shm.blockedQueue ==> shm.blockedQueue.Contents == old(shm.blockedQueue.Contents)
  {
    count := Drain(q, elems);
    assert shm.readyQueue.Valid() && shm.blockedQueue.Valid();
  }

  /** Puts the elements into the empty queue q; the rest of the segment stays as it is. */
  method RefillQueue(shm: SharedMemorySegment, q: TaskQueues.TaskQueue, elems: array<int>, count: int)
    requires shm.Valid() && q.Valid() && Separate(shm, q) && q.Contents == []
    requires elems !in shm.Repr() && elems != q.taskIndices && 0 <= count <= elems.Length == MAX_TASKS
    requires Seqs.NoDup(elems[..count]) && InRange(elems[..count], shm.taskCount)
    modifies q, q.taskIndices
    ensures q.Valid() && q.Contents == elems[..count]
    ensures shm.Valid() && shm.View().tasks == old(shm.View()).tasks
    ensures q != shm.readyQueue ==> shm.readyQueue.Contents == old(shm.readyQueue.Contents)
    ensures q != shm.blockedQueue ==> shm.blockedQueue.Contents == old(shm.blockedQueue.Contents)
  {
    assert q.Contents + elems[..count] == elems[..count];
    q.PushAll(elems, count);
    assert shm.readyQueue.Valid() && shm.blockedQueue.Valid();
  }

  method SortContents(shm: SharedMemorySegment, q: TaskQueues.TaskQueue)
    requires shm.Valid() && q.Valid() && InRange(q.Contents, shm.taskCount) && Separate(shm, q) && q.Contents != []
    modifies q, q.taskIndices
    ensures q.Valid() && q.Contents == Sorted(old(shm.View()).tasks, old(q.Contents))
    ensures shm.Valid() && shm.View().tasks == old(shm.View()).tasks
    ensures q != shm.readyQueue ==> shm.readyQueue.Contents == old(shm.readyQueue.Contents)
    ensures q != shm.blockedQueue ==> shm.blockedQueue.Contents == old(shm.blockedQueue.Contents)
  {
    hide Sorted, InRange;
    ghost var was := q.Contents;
    var elems := new int[MAX_TASKS];
    var count := DrainQueue(shm, q, elems);
    SortDrained(shm, elems, count, was);
    RefillQueue(shm, q, elems, count);
  }

  /** The queue becomes its own stable sort, wherever it starts and however it wraps. */
  method QueueReorderPriority(shm: SharedMemorySegment, q: TaskQueues.TaskQueue)
    requires shm.Valid() && q.Valid() && InRange(q.Contents, shm.taskCount) && Separate(shm, q)
    modifies q, q.taskIndices
    ensures q.Valid() && q.Contents == Sorted(old(shm.View()).tasks, old(q.Contents))
    ensures shm.Valid() && shm.View().tasks == old(shm.View()).tasks
    ensures q != shm.readyQueue ==> shm.readyQueue.Contents == old(shm.readyQueue.Contents)
    ensures q != shm.blockedQueue ==> shm.blockedQueue.Contents == old(shm.blockedQueue.Contents)
  {
    if q.size <= 1 {
      SortedOfDescending(shm.View().tasks, q.Contents);
      return;
    }
    SortContents(shm, q);
  }

  function AgeTask(t: Task): Task {
    if t.waitTicks + 1 >= 5
    then t.(effectivePriority := t.effectivePriority + 1, waitTicks := 0)
    else t.(waitTicks := t.waitTicks + 1)
  }

  function AgeTasks(ts: seq<Task>, ready: seq<int>): (r: seq<Task>)
    ensures |r| == |ts|
    ensures forall i :: 0 <= i < |ts| ==> r[i] == if i in ready then AgeTask(ts[i]) else ts[i]
  {
    seq(|ts|, i requires 0 <= i < |ts| => if i in ready then AgeTask(ts[i]) else ts[i])
  }

  predicate SomeAged(ts: seq<Task>, ready: seq<int>) {
    exists i :: i in ready && 0 <= i < |ts| && ts[i].waitTicks + 1 >= 5
  }

  /** One aging call on the segment. */
  function Age(s: Segment): Segment {
    if s.algorithm != PRIORITY_ALGORITHM || |s.ready| <= 1 then s
    else
      var ts := AgeTasks(s.tasks, s.ready);
      s.(tasks := ts, ready := if SomeAged(s.tasks, s.ready) then Sorted(ts, s.ready) else s.ready)
  }

  lemma AgeTasksStart(ts: seq<Task>, ready: seq<int>)
    ensures AgeTasks(ts, ready[..0]) == ts && !SomeAged(ts, ready[..0])
  {
  }

  lemma AgeTasksStep(ts: seq<Task>, ready: seq<int>, i: int)
    requires 0 <= i < |ready| && InRange(ready, |ts|) && Seqs.NoDup(ready)
    ensures AgeTasks(ts, ready[..i])[ready[i]] == ts[ready[i]]
    ensures AgeTasks(ts, ready[..i + 1]) == AgeTasks(ts, ready[..i])[ready[i] := AgeTask(ts[ready[i]])]
    ensures SomeAged(ts, ready[..i + 1]) <==>
            SomeAged(ts, ready[..i]) || ts[ready[i]].waitTicks + 1 >= 5
  {
    assert ready[i] !in ready[..i];
    assert ready[..i + 1] == ready[..i] + [ready[i]];
  }

  method AgeOne(shm: SharedMemorySegment, idx: int) returns (aged: bool)
    requires shm.Valid() && 0 <= idx < shm.taskCount
    modifies shm.tasks
    ensures shm.Valid()
    ensures var was := old(shm.View());
            && aged == (was.tasks[idx].waitTicks + 1 >= 5)
            && shm.View() == was.(tasks := was.tasks[idx := AgeTask(was.tasks[idx])])
  {
    var t := shm.tasks[idx];
    t := t.(waitTicks := t.waitTicks + 1);
    aged := t.waitTicks >= 5;
    if aged {
      t := t.(effectivePriority := t.effectivePriority + 1, waitTicks := 0);
    }
    shm.SetTask(idx, t);
  }

  /** Ages the task at place i of the ready queue. */
  method AgeAt(shm: SharedMemorySegment, i: int) returns (aged: bool)
    requires shm.Valid() && 0 <= i < |shm.readyQueue.Contents|
    modifies shm.tasks
    ensures shm.Valid()
    ensures var was := old(shm.View());
            var idx := was.ready[i];
            && 0 <= idx < |was.tasks|
            && aged == (was.tasks[idx].waitTicks + 1 >= 5)
            && shm.View() == was.(tasks := was.tasks[idx := AgeTask(was.tasks[idx])])
  {
    hide AgeTask;
    TaskQueues.SlotIsModulo(shm.readyQueue.head, i);
    var idx := shm.readyQueue.taskIndices[(shm.readyQueue.head + i) % MAX_TASKS];
    assert idx == shm.readyQueue.Contents[i];
    aged := AgeOne(shm, idx);
  }

  method AgeAll(shm: SharedMemorySegment) returns (aged: bool)
    requires shm.Valid()
    modifies shm.tasks
    ensures shm.Valid()
    ensures var was := old(shm.View());
            && shm.View() == was.(tasks := AgeTasks(was.tasks, was.ready))
            && aged == SomeAged(was.tasks, was.ready)
  {
    hide AgeTask, SomeAged;
    ghost var was := shm.View();
    aged := false;
    AgeTasksStart(was.tasks, was.ready);
    for i := 0 to shm.readyQueue.size
      invariant shm.Valid()
      invariant shm.View() == was.(tasks := AgeTasks(was.tasks, was.ready[..i]))
      invariant aged == SomeAged(was.tasks, was.ready[..i])
    {
      AgeTasksStep(was.tasks, was.ready, i);
      var one := AgeAt(shm, i);
      aged := aged || one;
    }
    assert was.ready[..|was.ready|] == was.ready;
  }

  method ApplyAging(shm: SharedMemorySegment)
    requires shm.Valid()
    modifies shm.tasks, shm.readyQueue, shm.readyQueue.taskIndices
    ensures shm.Valid() && shm.View() == Age(old(shm.View()))
  {
    if shm.activeAlgorithm != PRIORITY_ALGORITHM {
      return;
    }
    if shm.readyQueue.size <= 1 {
      return;
    }
    var aged := AgeAll(shm);
    if aged {
      QueueReorderPriority(shm, shm.readyQueue);
    }
  }
}
