/** The Worker's and the client's critical sections keep the segment sound and in order. */
module StepProofs {
  import opened Model
  import Seqs
  import StableSort
  import DeadlockGraph
  import opened CycleSpec
  import opened Worker
  import opened Client
  import opened Invariant
  import CycleProofs
  import opened AgingProofs

  /** The segment is sound, in order, and exactly the tasks in `outs` are outside the queues. */
  predicate Good(s: Segment, outs: set<int>, P: int) {
    Sound(s) && Located(s, outs) && Ranked(s, P)
  }

  lemma FindDistinct(ts: seq<Task>, i: int)
    requires DeadlockGraph.DistinctIds(ts) && 0 <= i < |ts|
    ensures FindId(ts, ts[i].id) == i
  {
  }

  // ---- Worker ----

  /** The Worker finds exactly the selected task, READY and with time left. */
  lemma BeginFindsSelected(s: Segment, i: int)
    requires Sound(s) && 0 <= i < |s.tasks| && s.tasks[i].state == Ready && s.runningId == s.tasks[i].id
    ensures var q := EffectiveQuantum(s.timeQuantum);
            BeginAssignment(s) ==
              Quantum(i, if s.tasks[i].remainingTime < q then s.tasks[i].remainingTime else q)
    ensures Begin(s) == SetTask(s, i, s.tasks[i].(state := Running))
  {
    FindDistinct(s.tasks, i);
    assert TaskOk(s.tasks[i]);
  }

  lemma BeginGood(s: Segment, i: int, P: int)
    requires Good(s, {i}, P) && 0 <= i < |s.tasks|
    requires s.tasks[i].state == Ready && s.runningId == s.tasks[i].id
    ensures Good(Begin(s), {i}, P) && Begin(s).tasks[i] == s.tasks[i].(state := Running)
    ensures |Begin(s).tasks| == |s.tasks| && Begin(s).timeQuantum == s.timeQuantum
  {
    BeginFindsSelected(s, i);
    var t := s.tasks[i].(state := Running);
    assert TaskOk(s.tasks[i]);
    ShrinkSound(s, i, t);
    RewriteLocated(s, {i}, s.tasks[i := t]);
    OffQueueRanked(s, i, t, P);
  }

  lemma EndFinishGood(s: Segment, i: int, P: int)
    requires Good(s, {i}, P) && 0 <= i < |s.tasks| && s.tasks[i].state == Running
    ensures Good(End(s, i, s.tasks[i].remainingTime), {}, P)
  {
    var t := Finish(s.tasks[i].(remainingTime := 0));
    assert TaskOk(s.tasks[i]);
    ShrinkSound(s, i, t);
    RewriteLocated(s, {i}, s.tasks[i := t]);
    var s' := SetTask(s, i, t).(runningId := -1);
    forall j | 0 <= j < |s.tasks| ensures PlacedByState(s', j) {
      assert j != i ==> PlacedByState(s, j);
    }
    OffQueueRanked(s, i, t, P);
  }

  lemma IgnoreRunningId(s: Segment, outs: set<int>, P: int, id: int)
    requires Located(s, outs) && Ranked(s, P)
    ensures Located(s.(runningId := id), outs) && Ranked(s.(runningId := id), P)
  {
    RewriteLocated(s, outs, s.tasks);
    forall j | 0 <= j < |s.tasks| && j !in outs ensures PlacedByState(s.(runningId := id), j) {
      assert PlacedByState(s, j);
    }
  }

  /** What is known of a task outside the queues. */
  lemma OutFacts(s: Segment, i: int, P: int)
    requires Good(s, {i}, P) && 0 <= i < |s.tasks|
    ensures TaskOk(s.tasks[i]) && |s.tasks| <= MAX_TASKS
    ensures s.tasks[i].basePriority == s.tasks[i].effectivePriority <= P && s.tasks[i].waitTicks == 0
  {
    assert i !in s.ready;
  }

  lemma EndRequeueGood(s: Segment, i: int, e: int, P: int)
    requires Good(s, {i}, P) && 0 <= i < |s.tasks| && s.tasks[i].state == Running
    requires 0 < e < s.tasks[i].remainingTime
    ensures Good(End(s, i, e), {}, P)
  {
    hide Sound, Located, Ranked;
    var t := s.tasks[i].(remainingTime := s.tasks[i].remainingTime - e);
    OutFacts(s, i, P);
    ShrinkSound(s, i, t.(state := Ready));
    assert {i} - {i} == {};
    AdmitLocated(s, {i}, i, t);
    AdmitRanked(s, {i}, i, t, P);
    var s' := Admit(s, i, t);
    SameTasksSound(SetTask(s, i, t.(state := Ready)), s'.(runningId := -1));
    IgnoreRunningId(s', {}, P, -1);
  }

  /** Ending a quantum brings the task back to the ready queue or finishes it. */
  lemma EndGood(s: Segment, i: int, e: int, P: int)
    requires Good(s, {i}, P) && 0 <= i < |s.tasks| && s.tasks[i].state == Running
    requires 0 < e <= s.tasks[i].remainingTime
    ensures Good(End(s, i, e), {}, P)
  {
    if e < s.tasks[i].remainingTime {
      EndRequeueGood(s, i, e, P);
    } else {
      EndFinishGood(s, i, P);
    }
  }

  // ---- the order of the ready queue ----

  /** A READY task comes in behind all of at least its priority, and in front of the others. */
  predicate BehindEquals(ts: seq<Task>, q: seq<int>, i: int, r: seq<int>) {
    forall a, b :: 0 <= a < |r| && 0 <= b < |r| && r[b] == i && r[a] in q ==>
      (a < b <==> Prio(ts, r[a]) >= Prio(ts, i))
  }

  lemma LastIsBehindEquals(ts: seq<Task>, q: seq<int>, i: int, r: seq<int>)
    requires StableSort.IsStableSort(ts, q + [i], r) && Seqs.NoDup(q + [i]) && Seqs.NoDup(r)
    ensures BehindEquals(ts, q, i, r)
  {
    var all := q + [i];
    forall a, b | 0 <= a < |r| && 0 <= b < |r| && r[b] == i && r[a] in q
      ensures a < b <==> Prio(ts, r[a]) >= Prio(ts, i)
    {
      var c :| 0 <= c < |q| && q[c] == r[a];
      assert all[c] == r[a] && all[|q|] == i;
      if Prio(ts, r[a]) == Prio(ts, i) {
        StableSort.StableOrder(ts, all, r, c, |q|, a, b);
      }
    }
  }

  /** Whoever is admitted joins the others, who keep their order, behind its equals. */
  lemma AdmitJoins(s: Segment, outs: set<int>, i: int, t: Task)
    requires Located(s, outs) && |s.tasks| <= MAX_TASKS && i in outs && 0 <= i < |s.tasks|
    ensures var s' := Admit(s, i, t);
            && StableSort.IsStableSort(s'.tasks, s.ready + [i], s'.ready)
            && BehindEquals(s'.tasks, s.ready, i, s'.ready)
            && s'.blocked == s.blocked && s'.runningId == s.runningId && s'.tasks[i].state == Ready
  {
    hide StableSort.IsStableSort, StableSort.Sorted;
    EnqueueRoom(s.ready, i, |s.tasks|);
    var s' := Admit(s, i, t);
    StableSort.SortedIsStableSort(s'.tasks, s.ready + [i]);
    SortedSame(s'.tasks, s.ready + [i]);
    LastIsBehindEquals(s'.tasks, s.ready, i, s'.ready);
  }

  /** A quantum ends with the task FINISHED, or READY behind its equals; nobody is running any more. */
  lemma EndJoins(s: Segment, i: int, e: int)
    requires Located(s, {i}) && |s.tasks| <= MAX_TASKS && 0 <= i < |s.tasks|
    ensures var s', t := End(s, i, e), s.tasks[i];
            && s'.blocked == s.blocked && s'.runningId == -1
            && |s'.tasks| == |s.tasks| && (forall j :: 0 <= j < |s.tasks| && j != i ==> s'.tasks[j] == s.tasks[j])
            && s'.tasks[i].remainingTime == t.remainingTime - e
            && if t.remainingTime <= e
               then s'.tasks[i].state == Finished && s'.tasks[i].held == {} && s'.ready == s.ready
               else s'.tasks[i].state == Ready && s'.tasks[i].held == t.held
                    && StableSort.IsStableSort(s'.tasks, s.ready + [i], s'.ready)
                    && BehindEquals(s'.tasks, s.ready, i, s'.ready)
  {
    hide StableSort.IsStableSort, StableSort.Sorted, BehindEquals, Located;
    AdmitJoins(s, {i}, i, s.tasks[i].(remainingTime := s.tasks[i].remainingTime - e));
  }

  // ---- client ----

  lemma RegisterSound(s: Segment, t: Task)
    requires Sound(s) && |s.tasks| < MAX_TASKS && TaskOk(t) && t.held == {} && FindId(s.tasks, t.id) == -1
    ensures Sound(s.(tasks := s.tasks + [t]))
  {
    var ts := s.tasks + [t];
    forall i, j | 0 <= i < j < |ts| ensures ts[i].id != ts[j].id && ts[i].held * ts[j].held == {} {
      if j == |s.tasks| {
        assert s.tasks[i].id != t.id;
      }
    }
  }

  lemma RegisterLocated(s: Segment, outs: set<int>, t: Task)
    requires Located(s, outs)
    ensures Located(s.(tasks := s.tasks + [t]), outs + {|s.tasks|})
  {
    InRangeMembers(s.ready, |s.tasks|);
    InRangeMembers(s.blocked, |s.tasks|);
    var s' := s.(tasks := s.tasks + [t]);
    forall j | 0 <= j < |s'.tasks| && j !in outs + {|s.tasks|} ensures PlacedByState(s', j) {
      assert PlacedByState(s, j);
    }
  }

  lemma RegisterRanked(s: Segment, t: Task, P: int)
    requires Ranked(s, P) && InRange(s.ready, |s.tasks|)
    requires t.basePriority == t.effectivePriority <= P && t.waitTicks == 0
    ensures Ranked(s.(tasks := s.tasks + [t]), P)
  {
    var s' := s.(tasks := s.tasks + [t]);
    assert forall p :: 0 <= p < |s.ready| ==> s'.tasks[s.ready[p]] == s.tasks[s.ready[p]];
    assert forall p :: 0 <= p < |s.ready| ==> Prio(s'.tasks, s.ready[p]) == Prio(s.tasks, s.ready[p]);
  }

  /** A submission is a registration followed by one admission or one enqueue. */
  lemma SubmitShape(s: Segment, id: int, priority: int, totalTime: int, required: Mask)
    requires Accepts(s, id, priority, totalTime)
    ensures var t := NewTask(id, priority, totalTime, required);
            var s', n := s.(tasks := s.tasks + [t]), |s.tasks|;
            Submit(s, id, priority, totalTime, required) ==
              if required == {} then Admit(s', n, t) else SetTask(s', n, t).(blocked := Enqueue(s'.blocked, n))
  {
    var t := NewTask(id, priority, totalTime, required);
    assert (s.tasks + [t])[|s.tasks| := t] == s.tasks + [t];
  }

  lemma SubmitTasks(s: Segment, id: int, priority: int, totalTime: int, required: Mask)
    ensures Submit(s, id, priority, totalTime, required).tasks ==
              s.tasks + if Accepts(s, id, priority, totalTime)
                        then [NewTask(id, priority, totalTime, required)] else []
    ensures Submit(s, id, priority, totalTime, required).timeQuantum == s.timeQuantum
    ensures Submit(s, id, priority, totalTime, required).runningId == s.runningId
  {
  }

  lemma RegisterGood(s: Segment, outs: set<int>, t: Task, P: int)
    requires Good(s, outs, P) && |s.tasks| < MAX_TASKS && TaskOk(t) && t.held == {} && FindId(s.tasks, t.id) == -1
    requires t.basePriority == t.effectivePriority <= P && t.waitTicks == 0
    ensures Good(s.(tasks := s.tasks + [t]), outs + {|s.tasks|}, P)
  {
    RegisterSound(s, t);
    RegisterLocated(s, outs, t);
    RegisterRanked(s, t, P);
  }

  lemma EnterReady(s: Segment, outs: set<int>, n: int, P: int)
    requires Good(s, outs + {n}, P) && n !in outs && 0 <= n < |s.tasks| && s.tasks[n].state == Ready
    requires s.tasks[n].basePriority == s.tasks[n].effectivePriority <= P && s.tasks[n].waitTicks == 0
    ensures Good(Admit(s, n, s.tasks[n]), outs, P)
  {
    var t := s.tasks[n];
    assert outs + {n} - {n} == outs;
    assert s.tasks[n := t.(state := Ready)] == s.tasks;
    AdmitLocated(s, outs + {n}, n, t);
    AdmitRanked(s, outs + {n}, n, t, P);
    SameTasksSound(s, Admit(s, n, t));
  }

  lemma EnterBlocked(s: Segment, outs: set<int>, n: int, P: int)
    requires Good(s, outs + {n}, P) && n !in outs && 0 <= n < |s.tasks| && Waiting(s.tasks[n])
    requires s.tasks[n].basePriority == s.tasks[n].effectivePriority <= P && s.tasks[n].waitTicks == 0
    ensures Good(SetTask(s, n, s.tasks[n]).(blocked := Enqueue(s.blocked, n)), outs, P)
  {
    var t := s.tasks[n];
    var s' := SetTask(s, n, t).(blocked := Enqueue(s.blocked, n));
    assert outs + {n} - {n} == outs;
    assert s.tasks[n := t] == s.tasks;
    BlockLocated(s, outs + {n}, n, t);
    OffQueueRanked(s, n, t, P);
    SameTasksSound(s, s');
  }

  lemma SubmitGood(s: Segment, outs: set<int>, P: int, id: int, priority: int, totalTime: int, required: Mask)
    requires Good(s, outs, P) && |s.tasks| !in outs && priority <= P
    ensures Good(Submit(s, id, priority, totalTime, required), outs, P)
  {
    if Accepts(s, id, priority, totalTime) {
      var t, n := NewTask(id, priority, totalTime, required), |s.tasks|;
      SubmitShape(s, id, priority, totalTime, required);
      RegisterGood(s, outs, t, P);
      if required == {} {
        EnterReady(s.(tasks := s.tasks + [t]), outs, n, P);
      } else {
        EnterBlocked(s.(tasks := s.tasks + [t]), outs, n, P);
      }
    }
  }

  /** The new task enters the queue of its state, and no other; those who were there keep their order. */
  lemma SubmitJoins(s: Segment, outs: set<int>, id: int, priority: int, totalTime: int, required: Mask)
    requires Located(s, outs) && |s.tasks| !in outs && Accepts(s, id, priority, totalTime)
    ensures var s', n := Submit(s, id, priority, totalTime, required), |s.tasks|;
            && |s'.tasks| == n + 1 && s'.tasks[..n] == s.tasks
            && AsSubmitted(s'.tasks[n], id, priority, totalTime, required)
            && s'.runningId == s.runningId
            && if required == {}
               then && s'.blocked == s.blocked && StableSort.IsStableSort(s'.tasks, s.ready + [n], s'.ready)
                    && BehindEquals(s'.tasks, s.ready, n, s'.ready)
               else s'.ready == s.ready && s'.blocked == s.blocked + [n]
  {
    hide StableSort.IsStableSort, StableSort.Sorted, BehindEquals;
    var t, n := NewTask(id, priority, totalTime, required), |s.tasks|;
    SubmitShape(s, id, priority, totalTime, required);
    RegisterLocated(s, outs, t);
    var s' := s.(tasks := s.tasks + [t]);
    if required == {} {
      AdmitJoins(s', outs + {n}, n, t);
    } else {
      EnqueueRoom(s.blocked, n, n + 1);
    }
  }

  lemma ChangePriorityTasks(s: Segment, id: int, priority: int)
    ensures CycleProofs.AllReprioritized(s.tasks, ChangePriority(s, id, priority).tasks)
    ensures ChangePriority(s, id, priority).timeQuantum == s.timeQuantum
    ensures ChangePriority(s, id, priority).runningId == s.runningId
  {
  }

  lemma ChangedPrio(ts: seq<Task>, i: int, t: Task, q: seq<int>)
    requires 0 <= i < |ts| && i !in q && StableSort.Descending(ts, q)
    ensures StableSort.Descending(ts[i := t], q)
    ensures forall k :: StableSort.Class(ts[i := t], q, k) == StableSort.Class(ts, q, k)
  {
    forall a | 0 <= a < |q| ensures Prio(ts[i := t], q[a]) == Prio(ts, q[a]) {
      assert q[a] in q;
    }
    forall k ensures StableSort.Class(ts[i := t], q, k) == StableSort.Class(ts, q, k) {
      StableSort.ClassAgrees(ts, ts[i := t], q, k);
    }
  }

  /**
   Whoever has the id gets the priority, base and effective, and starts counting anew; the
   ready queue is put back in order, equals as they were. Nothing else changes.
   */
  lemma ChangeEffect(s: Segment, id: int, priority: int)
    requires DeadlockGraph.DistinctIds(s.tasks) && StableSort.Descending(s.tasks, s.ready)
    ensures var s', ts := ChangePriority(s, id, priority), s.tasks;
            && |s'.tasks| == |ts| && s' == s.(tasks := s'.tasks, ready := s'.ready)
            && (forall i :: 0 <= i < |ts| ==>
                  s'.tasks[i] == if ts[i].id == id
                                 then ts[i].(basePriority := priority, effectivePriority := priority, waitTicks := 0)
                                 else ts[i])
            && StableSort.IsStableSort(s'.tasks, s.ready, s'.ready) && multiset(s'.ready) == multiset(s.ready)
            && ((forall i :: 0 <= i < |ts| ==> ts[i].id != id) ==> s' == s)
  {
    var i := FindId(s.tasks, id);
    if i != -1 {
      assert forall j :: 0 <= j < |s.tasks| && j != i ==> s.tasks[j].id != id;
      var s' := ChangePriority(s, id, priority);
      if i in s.ready {
        StableSort.SortedIsStableSort(s'.tasks, s.ready);
      } else {
        ChangedPrio(s.tasks, i, s'.tasks[i], s.ready);
      }
    }
  }

  lemma ChangePriorityGood(s: Segment, outs: set<int>, P: int, id: int, priority: int)
    requires Good(s, outs, P) && priority <= P
    ensures Good(ChangePriority(s, id, priority), outs, P)
  {
    var i := FindId(s.tasks, id);
    if i != -1 {
      var t := s.tasks[i].(basePriority := priority, effectivePriority := priority, waitTicks := 0);
      var s' := SetTask(s, i, t);
      CycleProofs.ReprioritizeSound(s, s'.tasks);
      RewriteLocated(s, outs, s'.tasks);
      if i in s.ready {
        Seqs.Pigeonhole(s.ready, |s.tasks|);
        ResortLocated(s', outs);
        ResetRanked(s, i, t, P);
      } else {
        OffQueueRanked(s, i, t, P);
      }
    }
  }
}
