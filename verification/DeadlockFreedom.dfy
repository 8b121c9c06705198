/** No deadlock outlives a section of the Scheduler, and what that means for the waiting tasks. */
module DeadlockFreedom {
  import opened Model
  import Seqs
  import opened DeadlockGraph
  import SleepProofs
  import Resolution
  import CycleProofs
  import Worker
  import Client
  import StepProofs
  import opened Protocol
  import opened ProtocolProofs

  // ---- what the absence of deadlocks means ----

  predicate IsBlocked(ts: seq<Task>, i: int) {
    0 <= i < |ts| && ts[i].state == Blocked
  }

  /** What task i misses, task j does not hold. */
  predicate NotHeldUp(ts: seq<Task>, i: int, j: int)
    requires 0 <= i < |ts| && 0 <= j < |ts|
  {
    (ts[i].required - ts[i].held) * ts[j].held == {}
  }

  /** BLOCKED tasks in an order in which none waits for one that does not come before it. */
  ghost predicate Ordered(ts: seq<Task>, order: seq<int>) {
    && Seqs.NoDup(order) && (forall a :: 0 <= a < |order| ==> IsBlocked(ts, order[a]))
    && forall a, j :: 0 <= a < |order| && IsBlocked(ts, j) && j !in order[..a] ==> NotHeldUp(ts, order[a], j)
  }

  /** All BLOCKED tasks in such an order: the others gone, each can get what it misses from its predecessors. */
  ghost predicate SafeOrder(ts: seq<Task>, order: seq<int>) {
    Ordered(ts, order) && forall i :: IsBlocked(ts, i) ==> i in order
  }

  /** The tasks with those in `order` taken out of the graph. */
  function Without(ts: seq<Task>, order: seq<int>): (r: seq<Task>)
    ensures |r| == |ts|
    ensures forall i :: 0 <= i < |ts| ==> r[i] == if i in order then ts[i].(state := Finished) else ts[i]
  {
    seq(|ts|, i requires 0 <= i < |ts| => if i in order then ts[i].(state := Finished) else ts[i])
  }

  /** Without a deadlock, some BLOCKED task not in `order` waits for no other such task. */
  lemma NextInOrder(ts: seq<Task>, order: seq<int>, i: int) returns (k: int)
    requires Acyclic(ts) && IsBlocked(ts, i) && i !in order
    ensures IsBlocked(ts, k) && k !in order
    ensures forall j :: IsBlocked(ts, j) && j !in order ==> NotHeldUp(ts, k, j)
  {
    var rest := Without(ts, order);
    StaysAcyclic(ts, rest);
    if SleepProofs.AllStuck(rest) {
      SleepProofs.StuckMeansCycle(rest, i);
    }
    k :| 0 <= k < |rest| && rest[k].state == Blocked && !SleepProofs.WaitsForBlocked(rest, k);
    forall j | IsBlocked(ts, j) && j !in order ensures NotHeldUp(ts, k, j) {
      assert rest[j] == ts[j] && rest[k] == ts[k];
      assert !Edge(rest, k, j);
    }
  }

  lemma OrderGrows(ts: seq<Task>, order: seq<int>, k: int)
    requires Ordered(ts, order) && IsBlocked(ts, k) && k !in order
    requires forall j :: IsBlocked(ts, j) && j !in order ==> NotHeldUp(ts, k, j)
    ensures Ordered(ts, order + [k]) && |order| < |ts|
  {
    var longer := order + [k];
    forall a, j | 0 <= a < |longer| && IsBlocked(ts, j) && j !in longer[..a] ensures NotHeldUp(ts, longer[a], j) {
      if a < |order| {
        assert longer[..a] == order[..a];
      } else {
        assert longer[..a] == order;
      }
    }
    Seqs.Pigeonhole(longer, |ts|);
  }

  lemma ExtendOrder(ts: seq<Task>, order: seq<int>) returns (full: seq<int>)
    requires Acyclic(ts) && Ordered(ts, order)
    ensures SafeOrder(ts, full)
    decreases |ts| - |order|
  {
    if forall i :: IsBlocked(ts, i) ==> i in order {
      full := order;
    } else {
      var i :| IsBlocked(ts, i) && i !in order;
      var k := NextInOrder(ts, order, i);
      OrderGrows(ts, order, k);
      full := ExtendOrder(ts, order + [k]);
    }
  }

  /** In a safe order every wait between BLOCKED tasks leads forward to a predecessor. */
  lemma SafeOrderAcyclic(ts: seq<Task>, order: seq<int>)
    requires SafeOrder(ts, order)
    ensures Acyclic(ts)
  {
    var still := seq(|ts|, i requires 0 <= i < |ts| =>
                       if ts[i].state == Running then ts[i].(state := Ready) else ts[i]);
    forall a, v | 0 <= a < |order| && Edge(still, order[a], v) ensures v in order[..a] {
      assert IsBlocked(ts, order[a]) && IsBlocked(ts, v);
      assert !NotHeldUp(ts, order[a], v);
    }
    FinishOrderAcyclic(still, order);
    StaysAcyclic(still, ts);
  }

  /** There is no closed walk exactly when there is no circular wait. */
  lemma AcyclicMeansNoCircularWait(ts: seq<Task>)
    ensures Acyclic(ts) <==> forall c :: !CircularWait(ts, c)
  {
    if Acyclic(ts) {
      forall c ensures !CircularWait(ts, c) {
        CycleIsCircularWait(ts, c);
      }
    } else {
      var w :| IsClosedWalk(ts, w);
      var c := Resolution.SimpleCycle(ts, w);
      CycleIsCircularWait(ts, c);
    }
  }

  /** And that is so exactly when the BLOCKED tasks can be put into a safe order. */
  lemma AcyclicMeansSafeOrder(ts: seq<Task>)
    ensures Acyclic(ts) <==> exists order :: SafeOrder(ts, order)
  {
    if Acyclic(ts) {
      var order := ExtendOrder(ts, []);
    }
    forall order | SafeOrder(ts, order) ensures Acyclic(ts) {
      SafeOrderAcyclic(ts, order);
    }
  }

  lemma EmptyAcyclic(ts: seq<Task>)
    requires ts == []
    ensures Acyclic(ts)
  {
    SafeOrderAcyclic(ts, []);
  }

  // ---- over runs ----

  lemma SubmitWaits(s: System, id: int, priority: int, totalTime: int, required: Mask)
    ensures BlockedBefore(s.seg.tasks, AfterSubmit(s, id, priority, totalTime, required).seg.tasks)
  {
    StepProofs.SubmitTasks(s.seg, id, priority, totalTime, required);
  }

  lemma ChangeWaits(s: System, id: int, priority: int)
    ensures BlockedBefore(s.seg.tasks, Client.ChangePriority(s.seg, id, priority).tasks)
  {
    StepProofs.ChangePriorityTasks(s.seg, id, priority);
    var ts := Client.ChangePriority(s.seg, id, priority).tasks;
    forall i | 0 <= i < |ts|
      ensures ts[i].state == s.seg.tasks[i].state && ts[i].required == s.seg.tasks[i].required
              && ts[i].held == s.seg.tasks[i].held
    {
      assert CycleProofs.Reprioritized(s.seg.tasks[i], ts[i]);
    }
  }

  lemma WorkerWaits(s: System, a: Action, P: int)
    requires SystemOk(s, P) && Enabled(s, a) && (a == WorkBegin || a == WorkEnd)
    ensures BlockedBefore(s.seg.tasks, Apply(s, a).seg.tasks)
  {
    hide SystemOk, SegmentOk, HandoffOk, StopOk, Worker.End;
    SystemParts(s, P);
    if a == WorkBegin {
      BeginShape(s, P);
    } else {
      Worker.EndTasks(s.seg, s.wpc.idx, s.wpc.execTime);
    }
  }

  lemma StepWaits(s: System, a: Action, P: int)
    requires SystemOk(s, P) && Enabled(s, a) && !Quiet(a) && !a.SchedSection? && Acyclic(s.seg.tasks)
    ensures Acyclic(Apply(s, a).seg.tasks)
  {
    hide SystemOk, Acyclic, BlockedBefore;
    if a.ClientSubmit? {
      SubmitWaits(s, a.id, a.priority, a.totalTime, a.required);
    } else if a.ClientChange? {
      ChangeWaits(s, a.id, a.priority);
    } else {
      WorkerWaits(s, a, P);
    }
    StaysAcyclic(s.seg.tasks, Apply(s, a).seg.tasks);
  }

  /** Only a section makes tasks wait for each other, and it resolves the deadlocks that come of it. */
  lemma StepAcyclic(s: System, a: Action, P: int)
    requires SystemOk(s, P) && Enabled(s, a) && Acyclic(s.seg.tasks)
    ensures Acyclic(Apply(s, a).seg.tasks)
  {
    hide SystemOk, Acyclic, BlockedBefore;
    match a
    case SchedSection(victims) => CycleProofs.CycleAcyclic(s.seg, victims);
    case WorkBegin => StepWaits(s, a, P);
    case WorkEnd => StepWaits(s, a, P);
    case ClientSubmit(_, _, _, _) => StepWaits(s, a, P);
    case ClientChange(_, _) => StepWaits(s, a, P);
    case _ => QuietFrame(s, a);
  }

  lemma {:induction false} RunAcyclic(s: System, acts: seq<Action>, P: int)
    requires SystemOk(s, P) && IsRun(s, acts) && AllAtMost(acts, P) && Acyclic(s.seg.tasks)
    ensures Acyclic(After(s, acts).seg.tasks)
    decreases |acts|
  {
    hide SystemOk, Acyclic;
    if acts != [] {
      assert AtMost(acts[0], P);
      StepOk(s, acts[0], P);
      StepAcyclic(s, acts[0], P);
      RunAcyclic(Apply(s, acts[0]), acts[1..], P);
    }
  }
}
