/** Whatever the segment, there is a way to resolve its deadlocks. */
module Resolution {
  import opened Model
  import Seqs
  import opened DeadlockGraph
  import DeadlockDetector

  /** A closed walk contains a simple cycle. */
  lemma SimpleCycle(ts: seq<Task>, w: seq<int>) returns (c: seq<int>)
    requires IsClosedWalk(ts, w)
    ensures IsCycle(ts, c)
    decreases |w|
  {
    if Seqs.NoDup(w) {
      c := w;
    } else {
      var i, j :| 0 <= i < j < |w| && w[i] == w[j];
      var v := w[i..j];
      forall k | 0 <= k < |v| - 1 ensures Edge(ts, v[k], v[k + 1]) {
        assert Edge(ts, w[i + k], w[i + k + 1]);
      }
      assert Edge(ts, w[j - 1], w[j]);
      c := SimpleCycle(ts, v);
    }
  }

  /** Some member of a nonempty list is preferred to all the others. */
  lemma {:induction false} PreferredExists(ts: seq<Task>, c: seq<int>) returns (v: int)
    requires DistinctIds(ts) && c != [] && forall i :: i in c ==> 0 <= i < |ts|
    ensures IsVictimOf(ts, c, v)
  {
    var front, last := c[..|c| - 1], c[|c| - 1];
    assert c == front + [last] && last in c;
    assert forall i :: i in front ==> i in c;
    if front == [] {
      v := last;
    } else {
      v := PreferredExists(ts, front);
      if v != last && Before(ts[last], ts[v]) {
        v := last;
      }
    }
  }

  lemma VictimExists(ts: seq<Task>) returns (v: int)
    requires DistinctIds(ts) && !Acyclic(ts)
    ensures IsDeadlockVictim(ts, v) && 0 <= v < |ts| && ts[v].state == Blocked
  {
    var w :| IsClosedWalk(ts, w);
    var c := SimpleCycle(ts, w);
    CycleLength(ts, c);
    ClosedWalkBlocked(ts, c);
    v := PreferredExists(ts, c);
  }

  lemma ResolveFurther(s: Segment, victims: seq<int>) returns (all: seq<int>)
    requires Justified(s, victims) && DistinctIds(AbortAll(s, victims).tasks)
    ensures Resolves(s, all)
    decreases DeadlockDetector.BlockedCount(AbortAll(s, victims).tasks)
  {
    hide Justified, AbortAll, Acyclic;
    var ts := AbortAll(s, victims).tasks;
    if Acyclic(ts) {
      all := victims;
    } else {
      var v := VictimExists(ts);
      JustifiedStep(s, victims, v);
      AbortAllStep(s, victims, v);
      DeadlockDetector.AbortDropsBlocked(ts, v);
      all := ResolveFurther(s, victims + [v]);
    }
  }

  /** Deadlock resolution is always possible, so the Scheduler's section can always run. */
  lemma ResolutionExists(s: Segment) returns (victims: seq<int>)
    requires DistinctIds(s.tasks)
    ensures Resolves(s, victims)
  {
    victims := ResolveFurther(s, []);
  }
}
