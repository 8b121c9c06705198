/** The wait-for graph, its cycles, and what aborting a victim does to the segment. */
module DeadlockGraph {
  import opened Model
  import Seqs

  predicate IsWaitingFor(ti: Task, tj: Task) {
    && ti.state == Blocked
    && (tj.state == Blocked || tj.state == Running)
    && (ti.required - ti.held) * tj.held != {}
  }

  predicate Edge(ts: seq<Task>, i: int, j: int) {
    0 <= i < |ts| && 0 <= j < |ts| && IsWaitingFor(ts[i], ts[j])
  }

  predicate IsPath(ts: seq<Task>, p: seq<int>) {
    forall k :: 0 <= k < |p| - 1 ==> Edge(ts, p[k], p[k + 1])
  }

  predicate IsClosedWalk(ts: seq<Task>, w: seq<int>) {
    w != [] && IsPath(ts, w) && Edge(ts, w[|w| - 1], w[0])
  }

  /** A simple cycle. */
  predicate IsCycle(ts: seq<Task>, c: seq<int>) {
    IsClosedWalk(ts, c) && Seqs.NoDup(c)
  }

  ghost predicate Acyclic(ts: seq<Task>) {
    forall w :: !IsClosedWalk(ts, w)
  }

  /** a is preferred to b as a victim. */
  predicate Before(a: Task, b: Task) {
    || a.effectivePriority < b.effectivePriority
    || (a.effectivePriority == b.effectivePriority
        && (a.remainingTime > b.remainingTime
            || (a.remainingTime == b.remainingTime && a.id < b.id)))
  }

  predicate DistinctIds(ts: seq<Task>) {
    forall i, j :: 0 <= i < j < |ts| ==> ts[i].id != ts[j].id
  }

  /** v is preferred to every other member of c. */
  predicate IsVictimOf(ts: seq<Task>, c: seq<int>, v: int) {
    && v in c
    && (forall i :: i in c ==> 0 <= i < |ts|)
    && (forall i :: i in c && i != v ==> Before(ts[v], ts[i]))
  }

  /** v is the victim of some deadlock of at least two tasks. */
  ghost predicate IsDeadlockVictim(ts: seq<Task>, v: int) {
    exists c :: IsCycle(ts, c) && |c| >= 2 && IsVictimOf(ts, c, v)
  }

  // ---- the same in terms of the tasks' fields ----

  function Next<T>(c: seq<T>, k: int): T
    requires 0 <= k < |c|
  {
    if k + 1 < |c| then c[k + 1] else c[0]
  }

  /** Two or more BLOCKED tasks, each of which misses something that the next one holds. */
  predicate CircularWait(ts: seq<Task>, c: seq<int>) {
    && |c| >= 2 && Seqs.NoDup(c)
    && (forall k :: 0 <= k < |c| ==> 0 <= c[k] < |ts| && ts[c[k]].state == Blocked)
    && forall k :: 0 <= k < |c| ==> (ts[c[k]].required - ts[c[k]].held) * ts[Next(c, k)].held != {}
  }

  /** v has the lowest effective priority in c; of those the most remaining time; of those the smallest id. */
  predicate LeastOf(ts: seq<Task>, c: seq<int>, v: int) {
    && v in c && (forall i :: i in c ==> 0 <= i < |ts|)
    && forall i :: i in c ==>
         && ts[v].effectivePriority <= ts[i].effectivePriority
         && (ts[v].effectivePriority == ts[i].effectivePriority ==>
               && ts[v].remainingTime >= ts[i].remainingTime
               && (ts[v].remainingTime == ts[i].remainingTime && i != v ==> ts[v].id < ts[i].id))
  }

  lemma VictimIsLeast(ts: seq<Task>, c: seq<int>, v: int)
    ensures IsVictimOf(ts, c, v) <==> LeastOf(ts, c, v)
  {
  }

  function Aborted(t: Task): Task {
    t.(state := DeadlockAborted, held := {}, remainingTime := 0)
  }

  function Abort(s: Segment, v: int): Segment {
    if 0 <= v < |s.tasks| then
      s.(tasks := s.tasks[v := Aborted(s.tasks[v])],
         blocked := Seqs.Without(s.blocked, v),
         ready := Seqs.Without(s.ready, v),
         runningId := if s.runningId == s.tasks[v].id then -1 else s.runningId)
    else s
  }

  function AbortAll(s: Segment, victims: seq<int>): Segment {
    if victims == [] then s
    else Abort(AbortAll(s, victims[..|victims| - 1]), victims[|victims| - 1])
  }

  /** Each victim belongs to a deadlock that its predecessors left. */
  ghost predicate Justified(s: Segment, victims: seq<int>) {
    forall k :: 0 <= k < |victims| ==> IsDeadlockVictim(AbortAll(s, victims[..k]).tasks, victims[k])
  }

  /** What a detector call does: justified aborts until no cycle is left. */
  ghost predicate Resolves(s: Segment, victims: seq<int>) {
    Justified(s, victims) && Acyclic(AbortAll(s, victims).tasks)
  }

  /** An edge is a bit that one task misses and the other holds. */
  lemma EdgeMeaning(ts: seq<Task>, i: int, j: int)
    ensures Edge(ts, i, j) <==>
              && 0 <= i < |ts| && 0 <= j < |ts| && ts[i].state == Blocked
              && (ts[j].state == Blocked || ts[j].state == Running)
              && exists b :: b in ts[i].required && b !in ts[i].held && b in ts[j].held
  {
    if 0 <= i < |ts| && 0 <= j < |ts| {
      var common := (ts[i].required - ts[i].held) * ts[j].held;
      assert forall b :: b in common <==> b in ts[i].required && b !in ts[i].held && b in ts[j].held;
    }
  }

  /** Every member of a closed walk is BLOCKED. */
  lemma ClosedWalkBlocked(ts: seq<Task>, w: seq<int>)
    requires IsClosedWalk(ts, w)
    ensures forall i :: i in w ==> 0 <= i < |ts| && ts[i].state == Blocked
  {
    forall i | i in w ensures 0 <= i < |ts| && ts[i].state == Blocked {
      var k :| 0 <= k < |w| && w[k] == i;
      assert k < |w| - 1 ==> Edge(ts, w[k], w[k + 1]);
    }
  }

  lemma NoSelfWait(t: Task)
    ensures !IsWaitingFor(t, t)
  {
    assert (t.required - t.held) * t.held == {};
  }

  /** No task waits for itself, so a deadlock has at least two tasks. */
  lemma CycleLength(ts: seq<Task>, c: seq<int>)
    requires IsClosedWalk(ts, c)
    ensures |c| >= 2
  {
    assert Edge(ts, c[|c| - 1], c[0]);
    NoSelfWait(ts[c[0]]);
  }

  /** The cycles of the wait-for graph are the circular waits. */
  lemma CycleIsCircularWait(ts: seq<Task>, c: seq<int>)
    ensures IsCycle(ts, c) <==> CircularWait(ts, c)
  {
    if IsCycle(ts, c) {
      CycleLength(ts, c);
      ClosedWalkBlocked(ts, c);
      assert forall k :: 0 <= k < |c| ==> c[k] in c;
      forall k | 0 <= k < |c| ensures (ts[c[k]].required - ts[c[k]].held) * ts[Next(c, k)].held != {} {
        assert Edge(ts, c[k], Next(c, k));
      }
    }
    if CircularWait(ts, c) {
      forall k | 0 <= k < |c| ensures Edge(ts, c[k], Next(c, k)) {
        assert (ts[c[k]].required - ts[c[k]].held) * ts[Next(c, k)].held != {};
      }
      assert Next(c, |c| - 1) == c[0];
      assert forall k :: 0 <= k < |c| - 1 ==> Next(c, k) == c[k + 1];
    }
  }

  lemma BeforeAsymmetric(a: Task, b: Task)
    ensures !(Before(a, b) && Before(b, a))
  {
  }

  /** With distinct ids the victim of a cycle does not depend on where the cycle is cut. */
  lemma VictimUnique(ts: seq<Task>, c: seq<int>, d: seq<int>, v: int, w: int)
    requires forall i :: i in c <==> i in d
    requires IsVictimOf(ts, c, v) && IsVictimOf(ts, d, w)
    ensures v == w
  {
    assert v in d && w in c;
    BeforeAsymmetric(ts[v], ts[w]);
  }

  /** Finish order of the search: every edge leads to a vertex finished earlier. */
  ghost predicate FinishOrder(ts: seq<Task>, order: seq<int>) {
    && Seqs.NoDup(order)
    && forall i, v :: 0 <= i < |order| && Edge(ts, order[i], v) ==> v in order[..i]
  }

  lemma {:induction false} WalkDescends(ts: seq<Task>, order: seq<int>, w: seq<int>, k: nat, r: nat) returns (q: nat)
    requires FinishOrder(ts, order) && IsPath(ts, w)
    requires k < |w| && r < |order| && order[r] == w[0]
    ensures q <= r - k && order[q] == w[k]
  {
    if k == 0 {
      q := r;
    } else {
      var p := WalkDescends(ts, order, w, k - 1, r);
      assert Edge(ts, w[k - 1], w[k]);
      assert w[k] in order[..p];
      q :| 0 <= q < p && order[q] == w[k];
    }
  }

  /** If every BLOCKED task is in a finish order, there is no deadlock. */
  lemma FinishOrderAcyclic(ts: seq<Task>, order: seq<int>)
    requires FinishOrder(ts, order)
    requires forall i :: 0 <= i < |ts| && ts[i].state == Blocked ==> i in order
    ensures Acyclic(ts)
  {
    forall w ensures !IsClosedWalk(ts, w) {
      if IsClosedWalk(ts, w) {
        ClosedWalkBlocked(ts, w);
        assert w[0] in w;
        var r :| 0 <= r < |order| && order[r] == w[0];
        var round := w + [w[0]];
        forall k | 0 <= k < |round| - 1 ensures Edge(ts, round[k], round[k + 1]) {
          assert round[k] == w[k];
        }
        var _ := WalkDescends(ts, order, round, |w|, r);
      }
    }
  }

  /** Somebody is aborted exactly when there is a deadlock. */
  lemma VictimsIffDeadlock(s: Segment, victims: seq<int>)
    requires Resolves(s, victims)
    ensures victims == [] <==> Acyclic(s.tasks)
  {
    if victims != [] {
      assert victims[..0] == [];
      assert IsDeadlockVictim(AbortAll(s, victims[..0]).tasks, victims[0]);
      var c :| IsCycle(s.tasks, c) && |c| >= 2 && IsVictimOf(s.tasks, c, victims[0]);
    }
  }

  /** v is the least member of some circular wait. */
  ghost predicate LeastVictim(ts: seq<Task>, v: int) {
    exists c :: CircularWait(ts, c) && LeastOf(ts, c, v)
  }

  lemma DeadlockVictimIsLeast(ts: seq<Task>, v: int)
    ensures IsDeadlockVictim(ts, v) <==> LeastVictim(ts, v)
  {
    forall c ensures IsCycle(ts, c) <==> CircularWait(ts, c) {
      CycleIsCircularWait(ts, c);
    }
    forall c ensures IsVictimOf(ts, c, v) <==> LeastOf(ts, c, v) {
      VictimIsLeast(ts, c, v);
    }
  }

  /** Each victim is the least member of a circular wait of its moment. */
  ghost predicate AbortsLeast(s: Segment, victims: seq<int>) {
    forall k :: 0 <= k < |victims| ==> LeastVictim(AbortAll(s, victims[..k]).tasks, victims[k])
  }

  lemma JustifiedAbortsLeast(s: Segment, victims: seq<int>)
    ensures Justified(s, victims) <==> AbortsLeast(s, victims)
  {
    hide IsDeadlockVictim, LeastVictim, AbortAll;
    forall k | 0 <= k < |victims|
      ensures IsDeadlockVictim(AbortAll(s, victims[..k]).tasks, victims[k]) <==>
              LeastVictim(AbortAll(s, victims[..k]).tasks, victims[k])
    {
      DeadlockVictimIsLeast(AbortAll(s, victims[..k]).tasks, victims[k]);
    }
  }

  lemma AbortAllStep(s: Segment, victims: seq<int>, v: int)
    ensures AbortAll(s, victims + [v]) == Abort(AbortAll(s, victims), v)
  {
    assert (victims + [v])[..|victims|] == victims;
  }

  lemma JustifiedStep(s: Segment, victims: seq<int>, v: int)
    requires Justified(s, victims)
    requires IsDeadlockVictim(AbortAll(s, victims).tasks, v)
    ensures Justified(s, victims + [v])
  {
    hide IsDeadlockVictim, AbortAll;
    var vs := victims + [v];
    forall k | 0 <= k < |vs| ensures IsDeadlockVictim(AbortAll(s, vs[..k]).tasks, vs[k]) {
      assert vs[..k] == victims[..k];
      assert victims[..|victims|] == victims;
    }
  }

  /** ts' has no BLOCKED task that ts has not. */
  predicate BlockedBefore(ts: seq<Task>, ts': seq<Task>) {
    forall i :: 0 <= i < |ts'| && ts'[i].state == Blocked ==>
      && i < |ts| && ts[i].state == Blocked && ts'[i].required == ts[i].required && ts'[i].held == ts[i].held
  }

  /** Where no task has become BLOCKED or holds more while BLOCKED, no deadlock has come about. */
  lemma StaysAcyclic(ts: seq<Task>, ts': seq<Task>)
    requires Acyclic(ts) && BlockedBefore(ts, ts')
    ensures Acyclic(ts')
  {
    forall w ensures !IsClosedWalk(ts', w) {
      if IsClosedWalk(ts', w) {
        ClosedWalkBlocked(ts', w);
        assert forall k :: 0 <= k < |w| ==> w[k] in w;
        forall k | 0 <= k < |w| - 1 ensures Edge(ts, w[k], w[k + 1]) {
          assert Edge(ts', w[k], w[k + 1]);
        }
        assert IsClosedWalk(ts, w);
      }
    }
  }

  lemma {:induction false} AbortAllLength(s: Segment, victims: seq<int>)
    ensures |AbortAll(s, victims).tasks| == |s.tasks|
  {
    if victims != [] {
      AbortAllLength(s, victims[..|victims| - 1]);
    }
  }
}
