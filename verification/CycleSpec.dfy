/** One critical section of the Scheduler, as functions on the segment. */
module CycleSpec {
  import opened Model
  import StableSort
  import SchedulerCore
  import DeadlockGraph

  /** The least b <= r < 32 in m, or 32. */
  function LowestFrom(m: Mask, b: int): (r: int)
    requires 0 <= b <= 32
    ensures b <= r <= 32
    ensures r < 32 ==> r as Bit in m
    ensures forall c: Bit :: c in m && b <= c as int ==> r <= c as int
    decreases 32 - b
  {
    if b == 32 then 32
    else if b as Bit in m then b
    else LowestFrom(m, b + 1)
  }

  /** The one bit that a task missing `missing` is given when `taken` is held: the lowest free one. */
  function Grant(missing: Mask, taken: Mask): (g: Mask)
    ensures g <= missing - taken
    ensures g == {} <==> missing <= taken
    ensures forall b, c :: b in g && c in missing - taken ==> b <= c
    ensures |g| <= 1
  {
    var b := LowestFrom(missing - taken, 0);
    assert missing <= taken + (missing - taken);
    assert b == 32 ==> missing - taken == {};
    if b < 32 then {b as Bit} else {}
  }

  /** Terminal tasks hold nothing. */
  function Release(ts: seq<Task>): (r: seq<Task>)
    ensures |r| == |ts|
    ensures forall i :: 0 <= i < |ts| ==> r[i] == if Terminal(ts[i]) then ts[i].(held := {}) else ts[i]
  {
    seq(|ts|, i requires 0 <= i < |ts| => if Terminal(ts[i]) then ts[i].(held := {}) else ts[i])
  }

  /** All bits held by tasks that are not terminal. */
  function HeldUnion(ts: seq<Task>): Mask {
    if ts == [] then {}
    else
      var t := ts[|ts| - 1];
      HeldUnion(ts[..|ts| - 1]) + (if Terminal(t) then {} else t.held)
  }

  predicate Holds(ts: seq<Task>, i: int, b: Bit) {
    0 <= i < |ts| && !Terminal(ts[i]) && b in ts[i].held
  }

  lemma {:induction false} HeldUnionMember(ts: seq<Task>, b: Bit)
    ensures b in HeldUnion(ts) <==> exists i :: Holds(ts, i, b)
  {
    if ts != [] {
      var n, front := |ts| - 1, ts[..|ts| - 1];
      HeldUnionMember(front, b);
      assert forall i :: Holds(front, i, b) ==> Holds(ts, i, b);
      assert forall i :: Holds(ts, i, b) && i != n ==> Holds(front, i, b);
      assert b in HeldUnion(ts) && b !in HeldUnion(front) ==> Holds(ts, n, b);
    }
  }

  /** The state of the allocation pass: segment, held resources, progress flag. */
  datatype Pass = Pass(seg: Segment, taken: Mask, progress: bool)

  function SetTask(s: Segment, i: int, t: Task): Segment
    requires 0 <= i < |s.tasks|
  {
    s.(tasks := s.tasks[i := t])
  }

  /** Task i becomes t and joins the ready queue in priority order. */
  function Admit(s: Segment, i: int, t: Task): Segment
    requires 0 <= i < |s.tasks|
  {
    var s' := SetTask(s, i, t.(state := Ready));
    s'.(ready := StableSort.Sorted(s'.tasks, Enqueue(s.ready, i)))
  }

  /** The task after its visit: the lowest free missing bit more, and READY when complete. */
  function Visited(t: Task, taken: Mask): Task {
    var t' := t.(held := t.held + Grant(t.required - t.held, taken));
    t'.(state := if t'.held == t'.required then Ready else Blocked)
  }

  /** Task i, which misses something, is given one bit and queued again. */
  function GiveOne(p: Pass, i: int): Pass
    requires 0 <= i < |p.seg.tasks|
  {
    var t := p.seg.tasks[i];
    var g, t' := Grant(t.required - t.held, p.taken), Visited(t, p.taken);
    Pass(if t'.state == Ready then Admit(p.seg, i, t')
         else SetTask(p.seg, i, t').(blocked := Enqueue(p.seg.blocked, i)),
         p.taken + g,
         p.progress || g != {})
  }

  /** What the pass does with the task popped from the blocked queue. */
  function AllocateTask(p: Pass, i: int): Pass
    requires 0 <= i < |p.seg.tasks|
  {
    var t := p.seg.tasks[i];
    if Terminal(t) then p.(seg := SetTask(p.seg, i, t.(held := {})))
    else if t.required - t.held == {} then Pass(Admit(p.seg, i, t), p.taken, true)
    else GiveOne(p, i)
  }

  function Popped(p: Pass): Pass
    requires p.seg.blocked != []
  {
    p.(seg := p.seg.(blocked := p.seg.blocked[1..]))
  }

  function AllocateHead(p: Pass): Pass {
    if p.seg.blocked == [] then p
    else
      var i := p.seg.blocked[0];
      if 0 <= i < |p.seg.tasks| then AllocateTask(Popped(p), i) else Popped(p)
  }

  function AllocateN(p: Pass, n: nat): Pass {
    if n == 0 then p else AllocateHead(AllocateN(p, n - 1))
  }

  function PassStart(s: Segment): Pass {
    Pass(s.(tasks := Release(s.tasks)), HeldUnion(s.tasks), false)
  }

  /** The pass visits each task that is blocked at its start once. */
  function Allocation(s: Segment): Pass {
    AllocateN(PassStart(s), |s.blocked|)
  }

  datatype Outcome = Selected(idx: int) | Again | Sleep

  /** Takes the head of the ready queue for the Worker. */
  function Select(s: Segment): Segment {
    if s.ready == [] then s
    else
      var i, s' := s.ready[0], s.(ready := s.ready[1..]);
      if 0 <= i < |s.tasks| then
        var t := s.tasks[i].(waitTicks := 0, effectivePriority := s.tasks[i].basePriority);
        SetTask(s', i, t).(runningId := t.id)
      else s'
  }

  /** The segment before selection, when the detector has aborted `victims`. */
  function BeforeSelect(s: Segment, victims: seq<int>): Segment {
    var d := DeadlockGraph.AbortAll(Allocation(s).seg, victims);
    SchedulerCore.Age(d.(tasks := Release(d.tasks)))
  }

  function CycleOutcome(s: Segment, victims: seq<int>): Outcome {
    var r := BeforeSelect(s, victims);
    if r.ready != [] then Selected(r.ready[0])
    else if Allocation(s).progress || victims != [] then Again
    else Sleep
  }

  function Cycle(s: Segment, victims: seq<int>): Segment {
    Select(BeforeSelect(s, victims))
  }

  /** The aborts a cycle may make: the detector's, after the allocation pass. */
  ghost predicate CycleVictims(s: Segment, victims: seq<int>) {
    DeadlockGraph.Resolves(Allocation(s).seg, victims)
  }

  /** The fields that no step of the pass writes. */
  predicate SameFixed(t: Task, t': Task) {
    t' == t.(state := t'.state, held := t'.held)
  }

  predicate AllSameFixed(ts: seq<Task>, ts': seq<Task>) {
    |ts'| == |ts| && forall i :: 0 <= i < |ts| ==> SameFixed(ts[i], ts'[i])
  }

  /** The only task that a step of the pass writes is the one it visits. */
  lemma AllocateTaskWrites(p: Pass, i: int)
    requires 0 <= i < |p.seg.tasks|
    ensures var t' := AllocateTask(p, i).seg.tasks;
            && |t'| == |p.seg.tasks|
            && SameFixed(p.seg.tasks[i], t'[i])
            && t' == p.seg.tasks[i := t'[i]]
  {
  }

  lemma AllocateHeadFixed(p: Pass)
    ensures AllSameFixed(p.seg.tasks, AllocateHead(p).seg.tasks)
  {
    if p.seg.blocked != [] && 0 <= p.seg.blocked[0] < |p.seg.tasks| {
      AllocateTaskWrites(Popped(p), p.seg.blocked[0]);
    }
  }

  lemma {:induction false} AllocateFixed(p: Pass, n: nat)
    ensures AllSameFixed(p.seg.tasks, AllocateN(p, n).seg.tasks)
  {
    if n > 0 {
      AllocateFixed(p, n - 1);
      AllocateHeadFixed(AllocateN(p, n - 1));
    }
  }

  lemma AllocationDistinct(s: Segment)
    requires DeadlockGraph.DistinctIds(s.tasks)
    ensures DeadlockGraph.DistinctIds(Allocation(s).seg.tasks)
  {
    AllocateFixed(PassStart(s), |s.blocked|);
  }
}
