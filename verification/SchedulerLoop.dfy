/** The critical section of the Scheduler on the shared memory segment. */
module SchedulerLoop {
  import opened Model
  import opened SharedMemory
  import SchedulerCore
  import DeadlockGraph
  import DeadlockDetector
  import opened CycleSpec
  import CycleProofs

  /** cur and held after the tasks of s below i have been released and collected. */
  ghost predicate Collected(s: Segment, cur: Segment, i: int, held: Mask) {
    && |cur.tasks| == |s.tasks| && 0 <= i <= |s.tasks|
    && cur == s.(tasks := Release(s.tasks)[..i] + s.tasks[i..])
    && held == HeldUnion(s.tasks[..i])
  }

  lemma CollectedStep(s: Segment, cur: Segment, i: int, held: Mask)
    requires Collected(s, cur, i, held) && i < |s.tasks|
    ensures var t := cur.tasks[i];
            Collected(s, if Terminal(t) then SetTask(cur, i, t.(held := {})) else cur, i + 1,
                      held + (if Terminal(t) then {} else t.held))
  {
    assert s.tasks[..i + 1][..i] == s.tasks[..i];
    var t := cur.tasks[i];
    assert t == s.tasks[i];
    var r := Release(s.tasks);
    assert (if Terminal(t) then cur.tasks[i := t.(held := {})] else cur.tasks) == r[..i + 1] + s.tasks[i + 1..];
  }

  lemma CollectedAll(s: Segment, cur: Segment, held: Mask)
    requires Collected(s, cur, |s.tasks|, held)
    ensures cur == s.(tasks := Release(s.tasks)) && held == HeldUnion(s.tasks)
  {
    assert s.tasks[..|s.tasks|] == s.tasks;
    assert Release(s.tasks)[..|s.tasks|] + s.tasks[|s.tasks|..] == Release(s.tasks);
  }

  method ReleaseOne(shm: SharedMemorySegment, i: int, held: Mask) returns (held': Mask)
    requires shm.Valid() && 0 <= i < shm.taskCount
    modifies shm.tasks
    ensures shm.Valid()
    ensures var s := old(shm.View());
            var t := s.tasks[i];
            && shm.View() == (if Terminal(t) then SetTask(s, i, t.(held := {})) else s)
            && held' == held + (if Terminal(t) then {} else t.held)
  {
    var t := shm.tasks[i];
    assert t == shm.View().tasks[i];
    held' := held;
    if t.state == DeadlockAborted || t.state == Finished {
      shm.SetTask(i, t.(held := {}));
    } else {
      held' := held + t.held;
    }
  }

  /** Terminal tasks give up what they hold; the bits held by the others are collected. */
  method CollectHeld(shm: SharedMemorySegment) returns (held: Mask)
    requires shm.Valid()
    modifies shm.tasks
    ensures shm.Valid()
    ensures shm.View() == old(shm.View()).(tasks := Release(old(shm.View()).tasks))
    ensures held == HeldUnion(old(shm.View()).tasks)
  {
    ghost var was := shm.View();
    held := {};
    assert Release(was.tasks)[..0] + was.tasks[0..] == was.tasks;
    for i := 0 to shm.taskCount
      invariant shm.Valid() && Collected(was, shm.View(), i, held)
    {
      CollectedStep(was, shm.View(), i, held);
      held := ReleaseOne(shm, i, held);
    }
    CollectedAll(was, shm.View(), held);
  }

  method FirstFreeBit(needed: Mask, taken: Mask) returns (bit: int)
    ensures bit == LowestFrom(needed - taken, 0)
  {
    bit := 0;
    while bit < 32
      invariant 0 <= bit <= 32
      invariant LowestFrom(needed - taken, 0) == LowestFrom(needed - taken, bit)
    {
      if bit as Bit in needed {
        if bit as Bit !in taken {
          return;
        }
      }
      bit := bit + 1;
    }
  }

  method AdmitTask(shm: SharedMemorySegment, i: int, t: Task)
    requires shm.Valid() && 0 <= i < shm.taskCount
    modifies shm.Repr()
    ensures shm.Valid() && shm.View() == Admit(old(shm.View()), i, t)
    ensures shm.taskCount == old(shm.taskCount)
  {
    shm.SetTask(i, t.(state := Ready));
    var _ := shm.PushReady(i);
    SchedulerCore.QueueReorderPriority(shm, shm.readyQueue);
  }

  /** The task that now holds t.held either has everything or goes back to the blocked queue. */
  method Requeue(shm: SharedMemorySegment, i: int, t: Task)
    requires shm.Valid() && 0 <= i < shm.taskCount
    modifies shm.Repr()
    ensures shm.Valid() && shm.taskCount == old(shm.taskCount)
    ensures var s := old(shm.View());
            shm.View() == if t.held == t.required then Admit(s, i, t)
                          else SetTask(s, i, t.(state := Blocked)).(blocked := Enqueue(s.blocked, i))
  {
    if t.held == t.required {
      AdmitTask(shm, i, t);
    } else {
      shm.SetTask(i, t.(state := Blocked));
      var _ := shm.PushBlocked(i);
    }
  }

  method AllocateIndex(shm: SharedMemorySegment, i: int, taken: Mask, progress: bool)
    returns (taken': Mask, progress': bool)
    requires shm.Valid() && 0 <= i < shm.taskCount
    modifies shm.Repr()
    ensures shm.Valid() && shm.taskCount == old(shm.taskCount)
    ensures Pass(shm.View(), taken', progress') == AllocateTask(Pass(old(shm.View()), taken, progress), i)
  {
    hide LowestFrom;
    taken', progress' := taken, progress;
    var t := shm.tasks[i];
    assert t == shm.View().tasks[i];
    if t.state == DeadlockAborted || t.state == Finished {
      shm.SetTask(i, t.(held := {}));
      return;
    }
    var needed := t.required - t.held;
    if needed == {} {
      AdmitTask(shm, i, t);
      progress' := true;
    } else {
      var bit := FirstFreeBit(needed, taken);
      if bit < 32 {
        t := t.(held := t.held + {bit as Bit});
        taken' := taken + {bit as Bit};
        progress' := true;
      } else {
        assert t.held + {} == t.held && taken + {} == taken;
      }
      Requeue(shm, i, t);
    }
  }

  method AllocateOne(shm: SharedMemorySegment, taken: Mask, progress: bool)
    returns (taken': Mask, progress': bool)
    requires shm.Valid()
    modifies shm.Repr()
    ensures shm.Valid() && shm.taskCount == old(shm.taskCount)
    ensures Pass(shm.View(), taken', progress') == AllocateHead(Pass(old(shm.View()), taken, progress))
  {
    taken', progress' := taken, progress;
    ghost var q := shm.View().blocked;
    var i := shm.PopBlocked();
    if i == -1 {
      return;
    }
    assert 0 <= i < |shm.View().tasks|;
    taken', progress' := AllocateIndex(shm, i, taken, progress);
  }

  /** The allocation pass over the blocked queue. */
  method AllocateResources(shm: SharedMemorySegment) returns (progress: bool)
    requires shm.Valid()
    modifies shm.Repr()
    ensures shm.Valid()
    ensures shm.View() == Allocation(old(shm.View())).seg
    ensures progress == Allocation(old(shm.View())).progress
  {
    ghost var was := shm.View();
    var taken := CollectHeld(shm);
    progress := false;
    for i := 0 to shm.blockedQueue.size
      invariant shm.Valid()
      invariant Pass(shm.View(), taken, progress) == AllocateN(PassStart(was), i)
    {
      taken, progress := AllocateOne(shm, taken, progress);
    }
  }

  /** Pops the head of the ready queue and makes it the running task. */
  method SelectTask(shm: SharedMemorySegment) returns (idx: int)
    requires shm.Valid()
    modifies shm.Repr()
    ensures shm.Valid() && shm.View() == Select(old(shm.View()))
    ensures idx == if old(shm.View()).ready == [] then -1 else old(shm.View()).ready[0]
  {
    idx := -1;
    var empty := shm.readyQueue.IsEmpty();
    if !empty {
      idx := shm.PopReady();
    }
    if idx != -1 {
      assert 0 <= idx < |shm.View().tasks|;
      var t := shm.tasks[idx];
      t := t.(waitTicks := 0);
      t := t.(effectivePriority := t.basePriority);
      shm.SetTask(idx, t);
      shm.runningTaskId := t.id;
    }
  }

  /**
   The body of the Scheduler's critical section: allocation, deadlock resolution, aging,
   selection. The outcome says how the section is left.
   */
  method SchedulerCycle(shm: SharedMemorySegment) returns (outcome: Outcome, ghost victims: seq<int>)
    requires shm.Valid() && DeadlockGraph.DistinctIds(shm.View().tasks)
    modifies shm.Repr()
    ensures shm.Valid()
    ensures CycleVictims(old(shm.View()), victims)
    ensures shm.View() == Cycle(old(shm.View()), victims)
    ensures outcome == CycleOutcome(old(shm.View()), victims)
    ensures DeadlockGraph.Acyclic(shm.View().tasks)
    ensures DeadlockGraph.AbortsLeast(Allocation(old(shm.View())).seg, victims)
  {
    ghost var s := shm.View();
    AllocationDistinct(shm.View());
    var progress := AllocateResources(shm);
    var resolved;
    resolved, victims := DeadlockDetector.DetectAndResolveDeadlocks(shm);
    if resolved > 0 {
      progress := true;
    }
    var _ := CollectHeld(shm);
    SchedulerCore.ApplyAging(shm);
    var idx := SelectTask(shm);
    outcome := if idx != -1 then Selected(idx) else if progress then Again else Sleep;
    CycleProofs.CycleAcyclic(s, victims);
  }
}
