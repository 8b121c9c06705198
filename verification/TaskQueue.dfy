/** The circular queue of task indices. */
module TaskQueues {
  import opened Model
  import Seqs

  /** The array position of the i-th element of a queue that starts at head. */
  function Slot(head: int, i: int): int {
    if head + i < MAX_TASKS then head + i else head + i - MAX_TASKS
  }

  lemma SlotIsModulo(head: int, i: int)
    requires 0 <= head < MAX_TASKS && 0 <= i <= MAX_TASKS
    ensures Slot(head, i) == (head + i) % MAX_TASKS
  {
  }

  class TaskQueue {
    const taskIndices: array<int>
    var size: int
    var head: int
    var tail: int

    /** The queued indices, first to last. */
    ghost var Contents: seq<int>

    ghost predicate Valid()
      reads this, taskIndices
    {
      && taskIndices.Length == MAX_TASKS
      && 0 <= head < MAX_TASKS
      && 0 <= size <= MAX_TASKS
      && tail == Slot(head, size)
      && |Contents| == size
      && (forall i :: 0 <= i < size ==> taskIndices[Slot(head, i)] == Contents[i])
      && Seqs.NoDup(Contents)
    }

    constructor ()
      ensures Valid() && Contents == []
      ensures fresh(taskIndices)
    {
      taskIndices := new int[MAX_TASKS](_ => -1);
      size, head, tail := 0, 0, 0;
      Contents := [];
    }

    predicate IsEmpty()
      requires Valid()
      reads this, taskIndices
      ensures IsEmpty() <==> Contents == []
    {
      size == 0
    }

    method Contains(taskIdx: int) returns (found: bool)
      requires Valid()
      ensures found <==> taskIdx in Contents
    {
      for i := 0 to size
        invariant taskIdx !in Contents[..i]
      {
        SlotIsModulo(head, i);
        var idx := (head + i) % MAX_TASKS;
        if taskIndices[idx] == taskIdx {
          return true;
        }
      }
      assert Contents[..size] == Contents;
      return false;
    }

    method PushTail(taskIdx: int) returns (r: int)
      requires Valid()
      modifies this, taskIndices
      ensures Valid()
      ensures r == if |old(Contents)| >= MAX_TASKS then -1 else 0
      ensures Contents == if r == -1 || taskIdx in old(Contents) then old(Contents)
                          else old(Contents) + [taskIdx]
    {
      if size >= MAX_TASKS {
        return -1;
      }
      var found := Contains(taskIdx);
      if found {
        return 0;
      }
      taskIndices[tail] := taskIdx;
      tail := (tail + 1) % MAX_TASKS;
      size := size + 1;
      Contents := Contents + [taskIdx];
      return 0;
    }

    method PushHead(taskIdx: int) returns (r: int)
      requires Valid()
      modifies this, taskIndices
      ensures Valid()
      ensures r == if |old(Contents)| >= MAX_TASKS then -1 else 0
      ensures Contents == if r == -1 || taskIdx in old(Contents) then old(Contents)
                          else [taskIdx] + old(Contents)
    {
      if size >= MAX_TASKS {
        return -1;
      }
      var found := Contains(taskIdx);
      if found {
        return 0;
      }
      head := (head - 1 + MAX_TASKS) % MAX_TASKS;
      taskIndices[head] := taskIdx;
      size := size + 1;
      Contents := [taskIdx] + Contents;
      return 0;
    }

    method PopHead() returns (taskIdx: int)
      requires Valid()
      modifies this, taskIndices
      ensures Valid()
      ensures old(Contents) == [] ==> taskIdx == -1 && Contents == []
      ensures old(Contents) != [] ==> [taskIdx] + Contents == old(Contents)
    {
      if size == 0 {
        return -1;
      }
      taskIdx := taskIndices[head];
      taskIndices[head] := -1;
      head := (head + 1) % MAX_TASKS;
      size := size - 1;
      Contents := Contents[1..];
    }

    /** Appends the first n elements of elems, none of which is queued. */
    method PushAll(elems: array<int>, n: int)
      requires Valid()
      requires 0 <= n <= elems.Length && elems != taskIndices
      requires Seqs.NoDup(Contents + elems[..n]) && |Contents| + n <= MAX_TASKS
      modifies this, taskIndices
      ensures Valid()
      ensures Contents == old(Contents) + elems[..n]
    {
      ghost var all := Contents + elems[..n];
      for i := 0 to n
        invariant Valid()
        invariant Contents == all[..|old(Contents)| + i]
      {
        assert elems[i] == all[|old(Contents)| + i];
        var _ := PushTail(elems[i]);
      }
    }

    /** Empties the queue, copying to temp every element but taskIdx. */
    method TakeOthers(taskIdx: int, temp: array<int>) returns (tempSize: int, found: bool)
      requires Valid()
      requires temp != taskIndices && temp.Length == MAX_TASKS
      modifies this, taskIndices, temp
      ensures Valid() && Contents == []
      ensures 0 <= tempSize <= MAX_TASKS
      ensures temp[..tempSize] == Seqs.Without(old(Contents), taskIdx)
      ensures found <==> taskIdx in old(Contents)
    {
      hide Seqs.Without;
      ghost var was := Contents;
      tempSize, found := 0, false;
      var originalSize := size;
      for i := 0 to originalSize
        invariant Valid()
        invariant Contents == was[i..]
        invariant 0 <= tempSize <= i
        invariant temp[..tempSize] == Seqs.Without(was[..i], taskIdx)
        invariant found <==> exists k :: 0 <= k < i && was[k] == taskIdx
      {
        var idx := PopHead();
        assert idx == was[i];
        Seqs.WithoutStep(was, i, taskIdx);
        if idx == taskIdx {
          found := true;
        } else {
          ghost var before := temp[..tempSize];
          temp[tempSize] := idx;
          tempSize := tempSize + 1;
          assert temp[..tempSize] == before + [idx];
        }
      }
      assert was[..originalSize] == was;
    }

    method Remove(taskIdx: int) returns (found: bool)
      requires Valid()
      modifies this, taskIndices
      ensures Valid()
      ensures Contents == Seqs.Without(old(Contents), taskIdx)
      ensures found <==> taskIdx in old(Contents)
    {
      if size == 0 {
        return false;
      }
      Seqs.WithoutNoDup(Contents, taskIdx);
      var temp := new int[MAX_TASKS];
      var tempSize;
      tempSize, found := TakeOthers(taskIdx, temp);
      assert Contents + temp[..tempSize] == temp[..tempSize];
      PushAll(temp, tempSize);
    }
  }
}
