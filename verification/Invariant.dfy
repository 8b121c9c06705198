/** What holds of the segment whenever the mutex is free. */
module Invariant {
  import opened Model
  import opened Seqs
  import StableSort
  import DeadlockGraph
  import CycleSpec

  predicate Waiting(t: Task) {
    t.state == New || t.state == Blocked
  }

  /** A task by itself: what it holds and how much is left of it, state by state. */
  predicate TaskOk(t: Task) {
    && t.id >= 0 && t.totalTime > 0 && 0 <= t.waitTicks < 5
    && match t.state
       case New => t.held == {} && t.required != {} && t.remainingTime == t.totalTime
       case Blocked => t.held < t.required && t.remainingTime == t.totalTime
       case Ready => t.held == t.required && 0 < t.remainingTime <= t.totalTime
       case Running => t.held == t.required && 0 < t.remainingTime <= t.totalTime
       case Finished => t.held == {} && t.remainingTime == 0
       case DeadlockAborted => t.held == {} && t.remainingTime == 0
  }

  predicate AllTasksOk(ts: seq<Task>) {
    forall i :: 0 <= i < |ts| ==> TaskOk(ts[i])
  }

  predicate Exclusive(ts: seq<Task>) {
    forall i, j :: 0 <= i < j < |ts| ==> ts[i].held * ts[j].held == {}
  }

  predicate PlacedByState(s: Segment, i: int)
    requires 0 <= i < |s.tasks|
  {
    && s.tasks[i].state != Running
    && (i in s.ready <==> s.tasks[i].state == Ready)
    && (i in s.blocked <==> Waiting(s.tasks[i]))
  }

  /**
   Each queue holds distinct tasks; every task but those in `outs` is in the queue that
   its state names and in no other, and those in `outs` are in none.
   */
  predicate Located(s: Segment, outs: set<int>) {
    && NoDup(s.ready) && InRange(s.ready, |s.tasks|)
    && NoDup(s.blocked) && InRange(s.blocked, |s.tasks|)
    && (forall i :: 0 <= i < |s.tasks| && i !in outs ==> PlacedByState(s, i))
    && (forall i :: i in outs ==> i !in s.ready && i !in s.blocked)
  }

  predicate Sound(s: Segment) {
    && |s.tasks| <= MAX_TASKS && s.algorithm == PRIORITY_ALGORITHM
    && DeadlockGraph.DistinctIds(s.tasks) && AllTasksOk(s.tasks) && Exclusive(s.tasks)
  }

  /** Pigeonhole: there is always room for a task that is not queued. */
  lemma EnqueueRoom(q: seq<int>, i: int, n: int)
    requires NoDup(q) && InRange(q, n) && 0 <= i < n <= MAX_TASKS && i !in q
    ensures Enqueue(q, i) == q + [i]
    ensures NoDup(q + [i]) && InRange(q + [i], n)
  {
    Pigeonhole(q + [i], n);
  }

  lemma SortedSame(ts: seq<Task>, q: seq<int>)
    requires NoDup(q)
    ensures NoDup(StableSort.Sorted(ts, q)) && |StableSort.Sorted(ts, q)| == |q|
    ensures forall i :: i in StableSort.Sorted(ts, q) <==> i in q
  {
    PermutationNoDup(q, StableSort.Sorted(ts, q));
  }

  lemma InRangeMembers(q: seq<int>, n: int)
    ensures InRange(q, n) <==> forall i :: i in q ==> 0 <= i < n
  {
    if InRange(q, n) {
      forall i | i in q ensures 0 <= i < n {
        var k :| 0 <= k < |q| && q[k] == i;
      }
    }
    if forall i :: i in q ==> 0 <= i < n {
      forall k | 0 <= k < |q| ensures 0 <= q[k] < n {
        assert q[k] in q;
      }
    }
  }

  /** A task outside the queues that becomes READY and is admitted is where it belongs. */
  lemma AdmitLocated(s: Segment, outs: set<int>, i: int, t: Task)
    requires Located(s, outs) && |s.tasks| <= MAX_TASKS
    requires i in outs && 0 <= i < |s.tasks|
    ensures Located(CycleSpec.Admit(s, i, t), outs - {i})
    ensures multiset(CycleSpec.Admit(s, i, t).ready) == multiset(s.ready + [i])
  {
    EnqueueRoom(s.ready, i, |s.tasks|);
    var s' := CycleSpec.Admit(s, i, t);
    SortedSame(s'.tasks, s.ready + [i]);
    InRangeMembers(s.ready + [i], |s.tasks|);
    InRangeMembers(s'.ready, |s.tasks|);
    forall j | 0 <= j < |s.tasks| && j !in outs - {i} ensures PlacedByState(s', j) {
      if j != i {
        assert PlacedByState(s, j);
      }
    }
  }

  /** A task outside the queues that joins the blocked queue is where it belongs. */
  lemma BlockLocated(s: Segment, outs: set<int>, i: int, t: Task)
    requires Located(s, outs) && |s.tasks| <= MAX_TASKS
    requires i in outs && 0 <= i < |s.tasks| && Waiting(t)
    ensures Located(CycleSpec.SetTask(s, i, t).(blocked := Enqueue(s.blocked, i)), outs - {i})
    ensures Enqueue(s.blocked, i) == s.blocked + [i]
  {
    EnqueueRoom(s.blocked, i, |s.tasks|);
    var s' := CycleSpec.SetTask(s, i, t).(blocked := Enqueue(s.blocked, i));
    forall j | 0 <= j < |s.tasks| && j !in outs - {i} ensures PlacedByState(s', j) {
      if j != i {
        assert PlacedByState(s, j);
      }
    }
  }

  /** A task taken from the head of a queue is in none. */
  lemma PopBlockedLocated(s: Segment, outs: set<int>)
    requires Located(s, outs) && s.blocked != []
    ensures Located(s.(blocked := s.blocked[1..]), outs + {s.blocked[0]})
    ensures 0 <= s.blocked[0] < |s.tasks| && Waiting(s.tasks[s.blocked[0]]) && s.blocked[0] !in outs
  {
    var i, s' := s.blocked[0], s.(blocked := s.blocked[1..]);
    assert i in s.blocked && PlacedByState(s, i);
    assert s.blocked == [i] + s.blocked[1..];
    forall j | 0 <= j < |s.tasks| && j !in outs + {i} ensures PlacedByState(s', j) {
      assert PlacedByState(s, j);
    }
  }

  lemma PopReadyLocated(s: Segment, outs: set<int>)
    requires Located(s, outs) && s.ready != []
    ensures Located(s.(ready := s.ready[1..]), outs + {s.ready[0]})
    ensures 0 <= s.ready[0] < |s.tasks| && s.tasks[s.ready[0]].state == Ready && s.ready[0] !in outs
  {
    var i, s' := s.ready[0], s.(ready := s.ready[1..]);
    assert i in s.ready && PlacedByState(s, i);
    assert s.ready == [i] + s.ready[1..];
    forall j | 0 <= j < |s.tasks| && j !in outs + {i} ensures PlacedByState(s', j) {
      assert PlacedByState(s, j);
    }
  }

  /** Rewriting tasks without touching states leaves the queues right. */
  lemma RewriteLocated(s: Segment, outs: set<int>, ts: seq<Task>)
    requires Located(s, outs) && |ts| == |s.tasks|
    requires forall i :: 0 <= i < |ts| && i !in outs ==> ts[i].state == s.tasks[i].state
    ensures Located(s.(tasks := ts), outs)
  {
    forall j | 0 <= j < |ts| && j !in outs ensures PlacedByState(s.(tasks := ts), j) {
      assert PlacedByState(s, j);
    }
  }

  lemma ResortLocated(s: Segment, outs: set<int>)
    requires Located(s, outs)
    ensures Located(s.(ready := StableSort.Sorted(s.tasks, s.ready)), outs)
  {
    var s' := s.(ready := StableSort.Sorted(s.tasks, s.ready));
    SortedSame(s.tasks, s.ready);
    InRangeMembers(s.ready, |s.tasks|);
    InRangeMembers(s'.ready, |s.tasks|);
    forall j | 0 <= j < |s.tasks| && j !in outs ensures PlacedByState(s', j) {
      assert PlacedByState(s, j);
    }
  }

  /** The victim leaves both queues. */
  lemma AbortLocated(s: Segment, outs: set<int>, v: int)
    requires Located(s, outs) && 0 <= v < |s.tasks|
    ensures Located(DeadlockGraph.Abort(s, v), outs - {v})
  {
    WithoutNoDup(s.ready, v);
    WithoutNoDup(s.blocked, v);
    InRangeMembers(s.ready, |s.tasks|);
    InRangeMembers(s.blocked, |s.tasks|);
    InRangeMembers(Without(s.ready, v), |s.tasks|);
    InRangeMembers(Without(s.blocked, v), |s.tasks|);
    var s' := DeadlockGraph.Abort(s, v);
    forall j | 0 <= j < |s.tasks| && j !in outs - {v} ensures PlacedByState(s', j) {
      if j != v {
        assert PlacedByState(s, j);
      }
    }
  }

  lemma SameTasksSound(s: Segment, s': Segment)
    requires Sound(s) && s'.tasks == s.tasks && s'.algorithm == s.algorithm
    ensures Sound(s')
  {
  }

  /** Replacing one task keeps the segment sound if nobody else holds what it holds. */
  lemma SetTaskSound(s: Segment, i: int, t: Task)
    requires Sound(s) && 0 <= i < |s.tasks|
    requires t.id == s.tasks[i].id && TaskOk(t)
    requires forall j :: 0 <= j < |s.tasks| && j != i ==> t.held * s.tasks[j].held == {}
    ensures Sound(CycleSpec.SetTask(s, i, t))
  {
    var ts := s.tasks[i := t];
    forall j, k | 0 <= j < k < |ts| ensures ts[j].held * ts[k].held == {} {
      if j == i {
        assert t.held * s.tasks[k].held == {};
      } else if k == i {
        assert t.held * s.tasks[j].held == {};
        assert ts[j].held * ts[k].held == ts[k].held * ts[j].held;
      }
    }
  }

  /** Holding no more than before keeps the segment sound. */
  lemma ShrinkSound(s: Segment, i: int, t: Task)
    requires Sound(s) && 0 <= i < |s.tasks|
    requires t.id == s.tasks[i].id && TaskOk(t) && t.held <= s.tasks[i].held
    ensures Sound(CycleSpec.SetTask(s, i, t))
  {
    forall j | 0 <= j < |s.tasks| && j != i ensures t.held * s.tasks[j].held == {} {
      assert s.tasks[i].held * s.tasks[j].held == {} by {
        assert if i < j then s.tasks[i].held * s.tasks[j].held == {} else s.tasks[j].held * s.tasks[i].held == {};
      }
    }
    SetTaskSound(s, i, t);
  }
}
