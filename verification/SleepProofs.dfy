/** The Scheduler goes to sleep only when nothing is left to do. */
module SleepProofs {
  import opened Model
  import Seqs
  import SchedulerCore
  import opened DeadlockGraph
  import opened CycleSpec
  import opened Invariant
  import opened CycleProofs

  // ---- a finite graph in which every vertex has a successor has a cycle ----

  ghost predicate WaitsForBlocked(ts: seq<Task>, i: int) {
    exists j :: Edge(ts, i, j) && ts[j].state == Blocked
  }

  /** Every BLOCKED task waits for a BLOCKED task. */
  ghost predicate AllStuck(ts: seq<Task>) {
    forall i {:trigger WaitsForBlocked(ts, i)} ::
      0 <= i < |ts| && ts[i].state == Blocked ==> WaitsForBlocked(ts, i)
  }

  lemma GrowPath(ts: seq<Task>, path: seq<int>) returns (w: seq<int>)
    requires AllStuck(ts)
    requires path != [] && Seqs.NoDup(path) && IsPath(ts, path)
    requires forall k :: 0 <= k < |path| ==> 0 <= path[k] < |ts| && ts[path[k]].state == Blocked
    ensures IsClosedWalk(ts, w)
    decreases |ts| - |path|
  {
    hide IsWaitingFor;
    var last := path[|path| - 1];
    assert WaitsForBlocked(ts, last);
    var j :| Edge(ts, last, j) && ts[j].state == Blocked;
    if j in path {
      var p :| 0 <= p < |path| && path[p] == j;
      w := path[p..];
      forall k | 0 <= k < |w| - 1 ensures Edge(ts, w[k], w[k + 1]) {
        assert Edge(ts, path[p + k], path[p + k + 1]);
      }
    } else {
      var longer := path + [j];
      forall k | 0 <= k < |longer| - 1 ensures Edge(ts, longer[k], longer[k + 1]) {
        assert k < |path| - 1 ==> Edge(ts, path[k], path[k + 1]);
      }
      Seqs.Pigeonhole(longer, |ts|);
      w := GrowPath(ts, longer);
    }
  }

  /** Without a deadlock, some BLOCKED task waits for no BLOCKED task. */
  lemma StuckMeansCycle(ts: seq<Task>, i: int)
    requires AllStuck(ts) && 0 <= i < |ts| && ts[i].state == Blocked
    ensures !Acyclic(ts)
  {
    var w := GrowPath(ts, [i]);
  }

  // ---- a pass without progress ----

  /** The first n tasks visited are BLOCKED, and all they miss is taken. */
  predicate Exhausted(p: Pass, q: seq<int>, n: int) {
    && 0 <= n <= |q|
    && forall k :: 0 <= k < n ==>
         && 0 <= q[k] < |p.seg.tasks| && p.seg.tasks[q[k]].state == Blocked
         && p.seg.tasks[q[k]].required - p.seg.tasks[q[k]].held <= p.taken
  }

  lemma GiveNothing(p: Pass, i: int)
    requires 0 <= i < |p.seg.tasks| && Waiting(p.seg.tasks[i]) && TaskOk(p.seg.tasks[i])
    requires Located(p.seg, {i}) && |p.seg.tasks| <= MAX_TASKS
    requires !GiveOne(p, i).progress
    ensures GiveOne(p, i) == p.(seg := p.seg.(tasks := p.seg.tasks[i := p.seg.tasks[i].(state := Blocked)],
                                              blocked := p.seg.blocked + [i]))
    ensures p.seg.tasks[i].required - p.seg.tasks[i].held <= p.taken
  {
    var t := p.seg.tasks[i];
    VisitedOk(t, p.taken);
    assert t.held + {} == t.held && p.taken + {} == p.taken;
    EnqueueRoom(p.seg.blocked, i, |p.seg.tasks|);
  }

  lemma ProgressMonotone(p: Pass)
    ensures p.progress ==> AllocateHead(p).progress
  {
  }

  /** A visit without progress moves the head of the blocked queue to its tail. */
  lemma VisitWithoutProgress(p: Pass)
    requires PassOk(p) && p.seg.blocked != [] && !AllocateHead(p).progress
    ensures var i := p.seg.blocked[0];
            && 0 <= i < |p.seg.tasks|
            && AllocateHead(p) ==
                 p.(seg := p.seg.(tasks := p.seg.tasks[i := p.seg.tasks[i].(state := Blocked)],
                                  blocked := p.seg.blocked[1..] + [i]))
            && p.seg.tasks[i].required - p.seg.tasks[i].held <= p.taken
  {
    VisitHead(p);
    HeadGives(p, p.seg.blocked[0]);
    GiveNothing(Popped(p), p.seg.blocked[0]);
  }

  /** The first n visits have moved the first n tasks of q behind the others, in vain. */
  predicate MovedInVain(p: Pass, m: Pass, n: int) {
    && 0 <= n <= |p.seg.blocked|
    && m.seg.blocked == p.seg.blocked[n..] + p.seg.blocked[..n]
    && m.seg.ready == p.seg.ready
    && Exhausted(m, p.seg.blocked, n)
  }

  lemma MovedStep(p: Pass, m: Pass, n: int, i: int)
    requires MovedInVain(p, m, n) && n < |p.seg.blocked| && i == p.seg.blocked[n]
    requires 0 <= i < |m.seg.tasks| && m.seg.tasks[i].required - m.seg.tasks[i].held <= m.taken
    ensures m.seg.blocked[0] == i
    ensures MovedInVain(p, m.(seg := m.seg.(tasks := m.seg.tasks[i := m.seg.tasks[i].(state := Blocked)],
                                            blocked := m.seg.blocked[1..] + [i])), n + 1)
  {
    var q := p.seg.blocked;
    assert m.seg.blocked[1..] + [i] == q[n + 1..] + q[..n + 1];
  }

  lemma VainStep(p: Pass, m: Pass, n: int)
    requires PassOk(m) && MovedInVain(p, m, n) && n < |p.seg.blocked|
    requires !AllocateHead(m).progress
    ensures MovedInVain(p, AllocateHead(m), n + 1)
  {
    assert m.seg.blocked[0] == p.seg.blocked[n];
    VisitWithoutProgress(m);
    MovedStep(p, m, n, p.seg.blocked[n]);
  }

  lemma {:induction false} PassWithoutProgress(p: Pass, n: nat)
    requires PassOk(p) && n <= |p.seg.blocked| && !AllocateN(p, n).progress
    ensures MovedInVain(p, AllocateN(p, n), n)
  {
    hide PassOk, AllocateHead;
    if n == 0 {
      assert p.seg.blocked[0..] + p.seg.blocked[..0] == p.seg.blocked;
    } else {
      var m := AllocateN(p, n - 1);
      ProgressMonotone(m);
      PassWithoutProgress(p, n - 1);
      PassKeepsOk(p, n - 1);
      VainStep(p, m, n - 1);
    }
  }

  /** A bit somebody misses and that is taken is held by a task that is not terminal. */
  lemma Holder(ts: seq<Task>, i: int) returns (j: int)
    requires AllTasksOk(ts) && 0 <= i < |ts| && ts[i].state == Blocked
    requires ts[i].required - ts[i].held <= HeldUnion(ts)
    ensures 0 <= j < |ts| && !Terminal(ts[j]) && (ts[i].required - ts[i].held) * ts[j].held != {}
  {
    assert TaskOk(ts[i]);
    var missing := ts[i].required - ts[i].held;
    assert ts[i].required <= ts[i].held + missing;
    assert missing != {};
    var b :| b in missing;
    HeldUnionMember(ts, b);
    j :| Holds(ts, j, b);
    assert b in missing * ts[j].held;
  }

  /** If nothing is ready and the pass made no progress, every BLOCKED task waits for another. */
  lemma NoProgressMeansStuck(s: Segment)
    requires Sound(s) && Located(s, {}) && !Allocation(s).progress && Allocation(s).seg.ready == []
    ensures var ts := Allocation(s).seg.tasks;
            && AllStuck(ts)
            && forall i :: 0 <= i < |ts| ==> ts[i].state == Blocked || Terminal(ts[i])
  {
    PassStartOk(s);
    var n := |s.blocked|;
    PassKeepsOk(PassStart(s), n);
    PassWithoutProgress(PassStart(s), n);
    var m := Allocation(s);
    var ts := m.seg.tasks;
    assert m.seg.blocked == s.blocked[n..] + s.blocked[..n] == s.blocked;
    forall i | 0 <= i < |ts| && !Terminal(ts[i])
      ensures ts[i].state == Blocked && ts[i].required - ts[i].held <= m.taken
    {
      assert PlacedByState(m.seg, i);
      assert i in s.blocked;
      var k :| 0 <= k < n && s.blocked[k] == i;
    }
    forall i | 0 <= i < |ts| && ts[i].state == Blocked
      ensures WaitsForBlocked(ts, i)
    {
      var j := Holder(ts, i);
      assert Edge(ts, i, j);
    }
  }

  lemma SleepMeansNothingReady(s: Segment, victims: seq<int>)
    requires Sound(s) && Located(s, {}) && CycleVictims(s, victims)
    requires CycleOutcome(s, victims) == Sleep
    ensures victims == [] && !Allocation(s).progress && Allocation(s).seg.ready == []
    ensures Cycle(s, victims) == Allocation(s).seg
  {
    Stages(s, victims);
    var d := Allocation(s).seg;
    assert AbortAll(d, []) == d;
    SortedSame(SchedulerCore.Age(d).tasks, d.ready);
  }

  /** Going to sleep, the Scheduler leaves only terminal tasks behind. */
  lemma SleepOnlyWhenDone(s: Segment, victims: seq<int>)
    requires Sound(s) && Located(s, {}) && CycleVictims(s, victims)
    requires CycleOutcome(s, victims) == Sleep
    ensures forall i :: 0 <= i < |Cycle(s, victims).tasks| ==> Terminal(Cycle(s, victims).tasks[i])
  {
    SleepMeansNothingReady(s, victims);
    NoProgressMeansStuck(s);
    var ts := Cycle(s, victims).tasks;
    forall i | 0 <= i < |ts| ensures Terminal(ts[i]) {
      if ts[i].state == Blocked {
        StuckMeansCycle(ts, i);
      }
    }
  }
}
