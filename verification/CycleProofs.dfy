/** A critical section of the Scheduler keeps the segment sound, stage by stage. */
module CycleProofs {
  import opened Model
  import opened SchedulerCore
  import opened DeadlockGraph
  import opened CycleSpec
  import opened Invariant

  /** The allocation pass keeps the segment sound and knows exactly which bits are held. */
  predicate PassOk(p: Pass) {
    Sound(p.seg) && Located(p.seg, {}) && p.taken == HeldUnion(p.seg.tasks)
  }

  lemma ReleaseIdentity(ts: seq<Task>)
    requires AllTasksOk(ts)
    ensures Release(ts) == ts
  {
    forall i | 0 <= i < |ts| ensures Release(ts)[i] == ts[i] {
      assert TaskOk(ts[i]);
    }
  }

  /** A bit that is not taken is held by nobody. */
  lemma FreeBitHeldByNone(s: Segment, j: int, g: Mask)
    requires Sound(s) && 0 <= j < |s.tasks| && g * HeldUnion(s.tasks) == {}
    ensures g * s.tasks[j].held == {}
  {
    assert TaskOk(s.tasks[j]);
    forall b | b in g ensures b !in s.tasks[j].held {
      HeldUnionMember(s.tasks, b);
      assert b !in g * HeldUnion(s.tasks);
      assert !Holds(s.tasks, j, b);
    }
  }

  lemma HeldUnionGrows(ts: seq<Task>, i: int, t: Task, g: Mask)
    requires 0 <= i < |ts| && !Terminal(ts[i]) && !Terminal(t) && t.held == ts[i].held + g
    ensures HeldUnion(ts[i := t]) == HeldUnion(ts) + g
  {
    var ts' := ts[i := t];
    forall b ensures b in HeldUnion(ts') <==> b in HeldUnion(ts) + g {
      HeldUnionMember(ts, b);
      HeldUnionMember(ts', b);
      assert forall k :: k != i ==> (Holds(ts', k, b) <==> Holds(ts, k, b));
      assert Holds(ts', i, b) <==> Holds(ts, i, b) || b in g;
    }
  }

  /** What the pass may do to a task. */
  predicate Advances(t: Task, t': Task) {
    && SameFixed(t, t')
    && t.held <= t'.held
    && if Waiting(t) then t'.state == New || t'.state == Blocked || t'.state == Ready else t' == t
  }

  predicate AllAdvance(ts: seq<Task>, ts': seq<Task>) {
    |ts'| == |ts| && forall i :: 0 <= i < |ts| ==> Advances(ts[i], ts'[i])
  }

  lemma VisitedOk(t: Task, taken: Mask)
    requires TaskOk(t) && Waiting(t)
    ensures TaskOk(Visited(t, taken)) && Advances(t, Visited(t, taken))
    ensures t.required - t.held != {}
  {
    var g := Grant(t.required - t.held, taken);
    assert t.held + g <= t.required;
  }

  lemma AllocateWaiting(p: Pass, i: int)
    requires 0 <= i < |p.seg.tasks| && Waiting(p.seg.tasks[i]) && TaskOk(p.seg.tasks[i])
    ensures AllocateTask(p, i) == GiveOne(p, i)
  {
    VisitedOk(p.seg.tasks[i], p.taken);
  }

  lemma HeadGives(p: Pass, i: int)
    requires p.seg.blocked != [] && i == p.seg.blocked[0]
    requires 0 <= i < |p.seg.tasks| && Waiting(p.seg.tasks[i]) && TaskOk(p.seg.tasks[i])
    ensures AllocateHead(p) == GiveOne(Popped(p), i)
  {
    AllocateWaiting(Popped(p), i);
  }

  /** The head of the blocked queue is waiting, and outside the queues once popped. */
  lemma VisitHead(p: Pass)
    requires PassOk(p) && p.seg.blocked != []
    ensures var i := p.seg.blocked[0];
            && 0 <= i < |p.seg.tasks| && Waiting(p.seg.tasks[i]) && TaskOk(p.seg.tasks[i])
            && Located(Popped(p).seg, {i})
  {
    PopBlockedLocated(p.seg, {});
    assert {} + {p.seg.blocked[0]} == {p.seg.blocked[0]};
  }

  /** A visit writes one task and one queue. */
  lemma VisitTasks(p: Pass, i: int)
    requires 0 <= i < |p.seg.tasks|
    ensures var p' := GiveOne(p, i);
            && p'.seg.tasks == p.seg.tasks[i := Visited(p.seg.tasks[i], p.taken)]
            && p'.seg.algorithm == p.seg.algorithm && p'.seg.timeQuantum == p.seg.timeQuantum
            && p'.seg.runningId == p.seg.runningId
            && p'.taken == p.taken + Grant(p.seg.tasks[i].required - p.seg.tasks[i].held, p.taken)
  {
  }

  lemma VisitedHolds(t: Task, taken: Mask)
    requires TaskOk(t) && Waiting(t)
    ensures var t' := Visited(t, taken);
            t'.held == t.held + Grant(t.required - t.held, taken) && !Terminal(t') && t'.id == t.id && TaskOk(t')
  {
    VisitedOk(t, taken);
  }

  /** What task i is granted nobody else holds. */
  lemma VisitedExclusive(p: Pass, i: int, j: int)
    requires Sound(p.seg) && p.taken == HeldUnion(p.seg.tasks)
    requires 0 <= i < |p.seg.tasks| && 0 <= j < |p.seg.tasks| && i != j
    ensures var t := p.seg.tasks[i];
            (t.held + Grant(t.required - t.held, p.taken)) * p.seg.tasks[j].held == {}
  {
    hide Grant;
    var t := p.seg.tasks[i];
    FreeBitHeldByNone(p.seg, j, Grant(t.required - t.held, p.taken));
    assert if i < j then t.held * p.seg.tasks[j].held == {} else p.seg.tasks[j].held * t.held == {};
  }

  lemma VisitSound(p: Pass, i: int)
    requires Sound(p.seg) && p.taken == HeldUnion(p.seg.tasks)
    requires 0 <= i < |p.seg.tasks| && Waiting(p.seg.tasks[i]) && TaskOk(p.seg.tasks[i])
    ensures Sound(GiveOne(p, i).seg)
    ensures GiveOne(p, i).taken == HeldUnion(GiveOne(p, i).seg.tasks)
  {
    hide Sound, GiveOne, Visited, Grant, HeldUnion, TaskOk;
    var t, t' := p.seg.tasks[i], Visited(p.seg.tasks[i], p.taken);
    VisitTasks(p, i);
    VisitedHolds(t, p.taken);
    forall j | 0 <= j < |p.seg.tasks| && j != i ensures t'.held * p.seg.tasks[j].held == {} {
      VisitedExclusive(p, i, j);
    }
    SetTaskSound(p.seg, i, t');
    SameTasksSound(SetTask(p.seg, i, t'), GiveOne(p, i).seg);
    HeldUnionGrows(p.seg.tasks, i, t', Grant(t.required - t.held, p.taken));
  }

  lemma VisitLocated(p: Pass, i: int)
    requires Sound(p.seg) && Located(p.seg, {i})
    requires 0 <= i < |p.seg.tasks|
    ensures Located(GiveOne(p, i).seg, {})
  {
    var t' := Visited(p.seg.tasks[i], p.taken);
    assert {i} - {i} == {};
    if t'.state == Ready {
      AdmitLocated(p.seg, {i}, i, t');
    } else {
      BlockLocated(p.seg, {i}, i, t');
    }
  }

  lemma PoppedSound(p: Pass)
    requires Sound(p.seg) && p.seg.blocked != []
    ensures Sound(Popped(p).seg)
  {
  }

  lemma VisitOk(p: Pass)
    requires PassOk(p)
    ensures PassOk(AllocateHead(p))
    ensures AllAdvance(p.seg.tasks, AllocateHead(p).seg.tasks)
    ensures AllocateHead(p).seg.timeQuantum == p.seg.timeQuantum
    ensures AllocateHead(p).seg.runningId == p.seg.runningId
  {
    if p.seg.blocked != [] {
      VisitHead(p);
      PoppedSound(p);
      var i := p.seg.blocked[0];
      HeadGives(p, i);
      VisitTasks(Popped(p), i);
      VisitSound(Popped(p), i);
      VisitLocated(Popped(p), i);
      VisitedOk(p.seg.tasks[i], p.taken);
    }
  }

  /** Resources stay exclusive, and the held bits stay known, throughout the pass. */
  lemma {:induction false} PassKeepsOk(p: Pass, n: nat)
    requires PassOk(p)
    ensures PassOk(AllocateN(p, n))
    ensures AllAdvance(p.seg.tasks, AllocateN(p, n).seg.tasks)
    ensures AllocateN(p, n).seg.timeQuantum == p.seg.timeQuantum
    ensures AllocateN(p, n).seg.runningId == p.seg.runningId
  {
    if n > 0 {
      PassKeepsOk(p, n - 1);
      var m := AllocateN(p, n - 1);
      VisitOk(m);
      forall i | 0 <= i < |p.seg.tasks| ensures Advances(p.seg.tasks[i], AllocateN(p, n).seg.tasks[i]) {
        assert Advances(p.seg.tasks[i], m.seg.tasks[i]);
        assert Advances(m.seg.tasks[i], AllocateN(p, n).seg.tasks[i]);
      }
    }
  }

  // ---- deadlock resolution ----

  lemma JustifiedPrefix(s: Segment, victims: seq<int>)
    requires Justified(s, victims) && victims != []
    ensures Justified(s, victims[..|victims| - 1])
    ensures IsDeadlockVictim(AbortAll(s, victims[..|victims| - 1]).tasks, victims[|victims| - 1])
  {
    hide IsDeadlockVictim, AbortAll;
    var front := victims[..|victims| - 1];
    forall k | 0 <= k < |front| ensures IsDeadlockVictim(AbortAll(s, front[..k]).tasks, front[k]) {
      assert front[..k] == victims[..k];
    }
  }

  /** A deadlock victim is BLOCKED, and so is some other task. */
  lemma VictimBlocked(ts: seq<Task>, v: int) returns (w: int)
    requires IsDeadlockVictim(ts, v)
    ensures 0 <= v < |ts| && ts[v].state == Blocked
    ensures 0 <= w < |ts| && ts[w].state == Blocked && w != v
  {
    var c :| IsCycle(ts, c) && |c| >= 2 && IsVictimOf(ts, c, v);
    ClosedWalkBlocked(ts, c);
    w := if c[0] == v then c[1] else c[0];
    assert c[0] in c && c[1] in c;
  }

  lemma AbortOk(s: Segment, v: int)
    requires Sound(s) && Located(s, {}) && 0 <= v < |s.tasks| && s.tasks[v].state == Blocked
    ensures Sound(Abort(s, v)) && Located(Abort(s, v), {})
  {
    AbortLocated(s, {}, v);
    assert {} - {v} == {};
    assert TaskOk(s.tasks[v]);
    ShrinkSound(s, v, Aborted(s.tasks[v]));
  }

  /** Only BLOCKED tasks are aborted; the others are left as they are. */
  predicate Resolved(t: Task, t': Task) {
    t' == t || (t.state == Blocked && t' == Aborted(t))
  }

  predicate AllResolved(ts: seq<Task>, ts': seq<Task>) {
    |ts'| == |ts| && forall i :: 0 <= i < |ts| ==> Resolved(ts[i], ts'[i])
  }

  lemma ResolvedStep(ts: seq<Task>, m: seq<Task>, v: int)
    requires AllResolved(ts, m) && 0 <= v < |m| && m[v].state == Blocked
    ensures AllResolved(ts, m[v := Aborted(m[v])])
  {
    assert Resolved(ts[v], m[v]);
  }

  lemma {:induction false} AbortAllOk(s: Segment, victims: seq<int>)
    requires Sound(s) && Located(s, {}) && Justified(s, victims)
    ensures var s' := AbortAll(s, victims);
            && Sound(s') && Located(s', {}) && AllResolved(s.tasks, s'.tasks)
            && s'.timeQuantum == s.timeQuantum
  {
    if victims != [] {
      JustifiedPrefix(s, victims);
      var front, v := victims[..|victims| - 1], victims[|victims| - 1];
      AbortAllOk(s, front);
      var m := AbortAll(s, front);
      var _ := VictimBlocked(m.tasks, v);
      AbortOk(m, v);
      ResolvedStep(s.tasks, m.tasks, v);
    }
  }

  /** Every deadlock has a survivor: after the last abort some task is still BLOCKED. */
  lemma Survivor(s: Segment, victims: seq<int>) returns (w: int)
    requires Justified(s, victims) && victims != []
    ensures 0 <= w < |AbortAll(s, victims).tasks|
    ensures AbortAll(s, victims).tasks[w].state == Blocked
  {
    JustifiedPrefix(s, victims);
    w := VictimBlocked(AbortAll(s, victims[..|victims| - 1]).tasks, victims[|victims| - 1]);
  }

  // ---- aging and selection ----

  /** Only priorities and wait counters differ. */
  predicate Reprioritized(t: Task, t': Task) {
    && t' == t.(basePriority := t'.basePriority, effectivePriority := t'.effectivePriority, waitTicks := t'.waitTicks)
    && (0 <= t.waitTicks < 5 ==> 0 <= t'.waitTicks < 5)
  }

  predicate AllReprioritized(ts: seq<Task>, ts': seq<Task>) {
    |ts'| == |ts| && forall i :: 0 <= i < |ts| ==> Reprioritized(ts[i], ts'[i])
  }

  lemma ReprioritizeSound(s: Segment, ts: seq<Task>)
    requires Sound(s) && AllReprioritized(s.tasks, ts)
    ensures Sound(s.(tasks := ts))
  {
    forall i | 0 <= i < |ts| ensures TaskOk(ts[i]) {
      assert TaskOk(s.tasks[i]) && Reprioritized(s.tasks[i], ts[i]);
    }
    forall i, j | 0 <= i < j < |ts| ensures ts[i].id != ts[j].id && ts[i].held * ts[j].held == {} {
      assert Reprioritized(s.tasks[i], ts[i]) && Reprioritized(s.tasks[j], ts[j]);
      assert s.tasks[i].held * s.tasks[j].held == {};
    }
  }

  lemma AgeReprioritizes(s: Segment)
    ensures AllReprioritized(s.tasks, Age(s).tasks)
  {
  }

  lemma AgeOk(s: Segment)
    requires Sound(s) && Located(s, {})
    ensures Sound(Age(s)) && Located(Age(s), {})
    ensures Age(s).timeQuantum == s.timeQuantum
  {
    hide Sound, Located, AgeTasks;
    AgeReprioritizes(s);
    ReprioritizeSound(s, Age(s).tasks);
    SameTasksSound(s.(tasks := Age(s).tasks), Age(s));
    RewriteLocated(s, {}, AgeTasks(s.tasks, s.ready));
    ResortLocated(s.(tasks := AgeTasks(s.tasks, s.ready)), {});
  }

  lemma SelectOk(s: Segment)
    requires Sound(s) && Located(s, {}) && s.ready != []
    ensures var s', i := Select(s), s.ready[0];
            && Sound(s') && Located(s', {i}) && 0 <= i < |s'.tasks|
            && s'.tasks[i].state == Ready && s'.runningId == s'.tasks[i].id
            && s'.tasks == s.tasks[i := s.tasks[i].(waitTicks := 0, effectivePriority := s.tasks[i].basePriority)]
            && s'.ready == s.ready[1..] && s'.timeQuantum == s.timeQuantum
  {
    PopReadyLocated(s, {});
    var i := s.ready[0];
    var popped := s.(ready := s.ready[1..]);
    assert {} + {i} == {i};
    var t := s.tasks[i].(waitTicks := 0, effectivePriority := s.tasks[i].basePriority);
    assert TaskOk(s.tasks[i]);
    ShrinkSound(s, i, t);
    RewriteLocated(popped, {i}, s.tasks[i := t]);
  }

  // ---- the whole section ----

  /** What one critical section of the Scheduler may do to a task. */
  predicate Progresses(t: Task, t': Task) {
    && t'.id == t.id && t'.totalTime == t.totalTime && t'.required == t.required
    && t'.basePriority == t.basePriority
    && if Waiting(t) then
         || t'.state == DeadlockAborted
         || ((Waiting(t') || t'.state == Ready) && t'.remainingTime == t.remainingTime && t.held <= t'.held)
       else t'.state == t.state && t'.remainingTime == t.remainingTime && t'.held == t.held
  }

  predicate AllProgress(ts: seq<Task>, ts': seq<Task>) {
    |ts'| == |ts| && forall i :: 0 <= i < |ts| ==> Progresses(ts[i], ts'[i])
  }

  lemma PassStartOk(s: Segment)
    requires Sound(s) && Located(s, {})
    ensures PassOk(PassStart(s)) && PassStart(s).seg == s
  {
    ReleaseIdentity(s.tasks);
  }

  /** The stages of a section: p after allocation, d after resolution, r after aging. */
  lemma Stages(s: Segment, victims: seq<int>)
    requires Sound(s) && Located(s, {}) && CycleVictims(s, victims)
    ensures var p, r := Allocation(s), BeforeSelect(s, victims);
            var d := AbortAll(p.seg, victims);
            && PassOk(p) && AllAdvance(s.tasks, p.seg.tasks)
            && Sound(d) && Located(d, {}) && AllResolved(p.seg.tasks, d.tasks)
            && r == Age(d) && Sound(r) && Located(r, {})
            && r.timeQuantum == s.timeQuantum
  {
    PassStartOk(s);
    PassKeepsOk(PassStart(s), |s.blocked|);
    var p := Allocation(s);
    AbortAllOk(p.seg, victims);
    var d := AbortAll(p.seg, victims);
    ReleaseIdentity(d.tasks);
    AgeOk(d);
  }

  lemma StagesProgress(t: Task, a: Task, b: Task, c: Task)
    requires Advances(t, a) && Resolved(a, b) && Reprioritized(b, c) && c.basePriority == b.basePriority
    ensures Progresses(t, c)
  {
  }

  lemma AgeKeepsBase(s: Segment, i: int)
    requires 0 <= i < |s.tasks|
    ensures 0 <= i < |Age(s).tasks| && Age(s).tasks[i].basePriority == s.tasks[i].basePriority
  {
  }

  lemma BeforeSelectProgress(s: Segment, victims: seq<int>)
    requires Sound(s) && Located(s, {}) && CycleVictims(s, victims)
    ensures AllProgress(s.tasks, BeforeSelect(s, victims).tasks)
  {
    Stages(s, victims);
    var p, r := Allocation(s), BeforeSelect(s, victims);
    var d := AbortAll(p.seg, victims);
    AgeReprioritizes(d);
    forall i | 0 <= i < |s.tasks| ensures Progresses(s.tasks[i], r.tasks[i]) {
      AgeKeepsBase(d, i);
      StagesProgress(s.tasks[i], p.seg.tasks[i], d.tasks[i], r.tasks[i]);
    }
  }

  /** A section keeps the segment sound; the task selected, if any, is the one outside the queues. */
  lemma CycleOk(s: Segment, victims: seq<int>)
    requires Sound(s) && Located(s, {}) && CycleVictims(s, victims)
    ensures var s' := Cycle(s, victims);
            && Sound(s') && AllProgress(s.tasks, s'.tasks) && s'.timeQuantum == s.timeQuantum
            && match CycleOutcome(s, victims)
               case Selected(i) => && Located(s', {i}) && 0 <= i < |s'.tasks|
                                   && s'.tasks[i].state == Ready && s'.runningId == s'.tasks[i].id
               case _ => Located(s', {}) && s'.ready == []
  {
    hide Sound, Located;
    Stages(s, victims);
    BeforeSelectProgress(s, victims);
    var r := BeforeSelect(s, victims);
    if r.ready != [] {
      SelectOk(r);
      var s' := Cycle(s, victims);
      forall i | 0 <= i < |s.tasks| ensures Progresses(s.tasks[i], s'.tasks[i]) {
        assert Progresses(s.tasks[i], r.tasks[i]);
      }
    }
  }

  /** Aging and selection change no wait. */
  lemma AgeSelectWaits(d: Segment)
    ensures BlockedBefore(d.tasks, Select(Age(d)).tasks)
  {
    AgeReprioritizes(d);
    var r := Age(d);
    forall i | 0 <= i < |r.tasks| ensures r.tasks[i].state == d.tasks[i].state
                                          && r.tasks[i].required == d.tasks[i].required
                                          && r.tasks[i].held == d.tasks[i].held {
      assert Reprioritized(d.tasks[i], r.tasks[i]);
    }
  }

  /** A section leaves no deadlock behind, however it ends. */
  lemma CycleAcyclic(s: Segment, victims: seq<int>)
    requires CycleVictims(s, victims)
    ensures Acyclic(Cycle(s, victims).tasks)
  {
    var d := AbortAll(Allocation(s).seg, victims);
    var released := d.(tasks := Release(d.tasks));
    StaysAcyclic(d.tasks, released.tasks);
    AgeSelectWaits(released);
    StaysAcyclic(released.tasks, Select(Age(released)).tasks);
  }
}
