/** A waiting task is selected within a bounded number of scheduling cycles. */
module Starvation {
  import opened Model
  import Seqs
  import CycleSpec
  import Worker
  import Client
  import Invariant
  import opened AgingProofs
  import StepProofs
  import opened Protocol
  import opened ProtocolProofs

  /** This step neither selects task i nor sets its priority. */
  predicate PassesOver(s: System, a: Action, i: int) {
    match a
    case SchedSection(victims) => CycleSpec.CycleOutcome(s.seg, victims) != CycleSpec.Selected(i)
    case ClientChange(id, _) => Worker.FindId(s.seg.tasks, id) != i
    case _ => true
  }

  ghost predicate PassedOver(s: System, acts: seq<Action>, i: int)
    requires IsRun(s, acts)
    decreases |acts|
  {
    acts == [] || (PassesOver(s, acts[0], i) && PassedOver(Apply(s, acts[0]), acts[1..], i))
  }

  function Sections(acts: seq<Action>): nat {
    if acts == [] then 0 else (if acts[0].SchedSection? then 1 else 0) + Sections(acts[1..])
  }

  predicate Queued(s: System, i: int) {
    0 <= i < |s.seg.tasks| && i in s.seg.ready
  }

  lemma AdmitKeeps(s: Segment, i: int, n: int, t: Task)
    requires 0 <= n < |s.tasks| && n != i && Seqs.NoDup(s.ready) && i in s.ready && 0 <= i < |s.tasks|
    requires InRange(s.ready, |s.tasks|) && |s.tasks| <= MAX_TASKS
    ensures i in CycleSpec.Admit(s, n, t).ready && CycleSpec.Admit(s, n, t).tasks[i] == s.tasks[i]
  {
    var q := Enqueue(s.ready, n);
    if n !in s.ready {
      Invariant.EnqueueRoom(s.ready, n, |s.tasks|);
    }
    Invariant.SortedSame(CycleSpec.Admit(s, n, t).tasks, q);
  }

  /** The Worker's task is not queued, and every queue fits the table. */
  lemma QueueFacts(s: System, P: int)
    requires SystemOk(s, P)
    ensures Seqs.NoDup(s.seg.ready) && InRange(s.seg.ready, |s.seg.tasks|) && |s.seg.tasks| <= MAX_TASKS
    ensures s.slot != -1 ==> s.slot !in s.seg.ready
    ensures s.wpc.WRun? ==> s.wpc.idx == s.slot && s.slot != -1
  {
  }

  lemma BeginKeeps(s: System, i: int, P: int)
    requires SystemOk(s, P) && Enabled(s, WorkBegin) && Queued(s, i)
    ensures Queued(AfterBegin(s), i) && AfterBegin(s).seg.tasks[i] == s.seg.tasks[i]
  {
    hide HandoffOk, StopOk, HistoryOk, WakeOk, SomeSurvivor, NamesLive;
    QueueFacts(s, P);
    BeginShape(s, P);
  }

  lemma EndAdmits(s: Segment, n: int, i: int, e: int)
    requires 0 <= n < |s.tasks| && n != i && Seqs.NoDup(s.ready) && i in s.ready && 0 <= i < |s.tasks|
    requires InRange(s.ready, |s.tasks|) && |s.tasks| <= MAX_TASKS
    ensures i in Worker.End(s, n, e).ready && |Worker.End(s, n, e).tasks| == |s.tasks|
    ensures Worker.End(s, n, e).tasks[i] == s.tasks[i]
  {
    AdmitKeeps(s, i, n, s.tasks[n].(remainingTime := s.tasks[n].remainingTime - e));
  }

  lemma EndKeeps(s: System, i: int, P: int)
    requires SystemOk(s, P) && Enabled(s, WorkEnd) && Queued(s, i)
    ensures Queued(AfterEnd(s), i) && AfterEnd(s).seg.tasks[i] == s.seg.tasks[i]
  {
    hide SystemOk;
    QueueFacts(s, P);
    EndAdmits(s.seg, s.slot, i, s.wpc.execTime);
  }

  lemma SubmitKeeps(s: System, i: int, P: int, id: int, priority: int, totalTime: int, required: Mask)
    requires SystemOk(s, P) && Queued(s, i)
    ensures var s' := AfterSubmit(s, id, priority, totalTime, required);
            Queued(s', i) && s'.seg.tasks[i] == s.seg.tasks[i]
  {
    if Client.Accepts(s.seg, id, priority, totalTime) && required == {} {
      var t, n := Client.NewTask(id, priority, totalTime, required), |s.seg.tasks|;
      StepProofs.SubmitShape(s.seg, id, priority, totalTime, required);
      var s' := s.seg.(tasks := s.seg.tasks + [t]);
      Invariant.InRangeMembers(s.seg.ready, n);
      Invariant.InRangeMembers(s.seg.ready, n + 1);
      AdmitKeeps(s', i, n, t);
    }
  }

  lemma ChangeLeaves(s: Segment, i: int, id: int, priority: int)
    requires Seqs.NoDup(s.ready) && 0 <= i < |s.tasks| && i in s.ready && Worker.FindId(s.tasks, id) != i
    ensures var s' := Client.ChangePriority(s, id, priority);
            |s'.tasks| == |s.tasks| && i in s'.ready && s'.tasks[i] == s.tasks[i]
  {
    Invariant.SortedSame(Client.ChangePriority(s, id, priority).tasks, s.ready);
  }

  lemma ChangeKeeps(s: System, i: int, P: int, id: int, priority: int)
    requires SystemOk(s, P) && Queued(s, i) && Worker.FindId(s.seg.tasks, id) != i
    ensures var seg := Client.ChangePriority(s.seg, id, priority);
            |seg.tasks| == |s.seg.tasks| && i in seg.ready && seg.tasks[i] == s.seg.tasks[i]
  {
    hide SystemOk;
    QueueFacts(s, P);
    ChangeLeaves(s.seg, i, id, priority);
  }

  /** A step that passes task i over leaves it queued; a section raises its potential by one. */
  lemma StepWaits(s: System, a: Action, P: int, i: int)
    requires SystemOk(s, P) && Enabled(s, a) && Queued(s, i) && PassesOver(s, a, i)
    ensures Queued(Apply(s, a), i)
    ensures Phi(Apply(s, a).seg.tasks[i]) == Phi(s.seg.tasks[i]) + (if a.SchedSection? then 1 else 0)
  {
    hide SystemOk, SegmentOk, HandoffOk, SlotOk, StopOk, Phi;
    SystemParts(s, P);
    match a
    case SchedSection(victims) =>
      SectionStart(s, P);
      WaitingGains(s.seg, victims, i);
    case WorkBegin => BeginKeeps(s, i, P);
    case WorkEnd => EndKeeps(s, i, P);
    case ClientSubmit(id, priority, totalTime, required) => SubmitKeeps(s, i, P, id, priority, totalTime, required);
    case ClientChange(id, priority) => ChangeKeeps(s, i, P, id, priority);
    case _ => QuietFrame(s, a);
  }

  lemma {:induction false} WaitingRises(s: System, acts: seq<Action>, P: int, i: int)
    requires SystemOk(s, P) && IsRun(s, acts) && AllAtMost(acts, P)
    requires Queued(s, i) && PassedOver(s, acts, i)
    ensures var s' := After(s, acts);
            SystemOk(s', P) && Queued(s', i) && Phi(s'.seg.tasks[i]) == Phi(s.seg.tasks[i]) + Sections(acts)
    decreases |acts|
  {
    hide SystemOk, Queued, PassesOver, Phi;
    if acts != [] {
      assert AtMost(acts[0], P);
      StepOk(s, acts[0], P);
      StepWaits(s, acts[0], P, i);
      WaitingRises(Apply(s, acts[0]), acts[1..], P, i);
    }
  }

  /**
   Starvation freedom: while priorities of at most P come and go, a READY task whose own
   priority is not changed is passed over in fewer than 5 * (P - effective) - ticks + 256
   cycles.
   */
  lemma StarvationFree(s: System, acts: seq<Action>, P: int, i: int)
    requires SystemOk(s, P) && IsRun(s, acts) && AllAtMost(acts, P)
    requires Queued(s, i) && PassedOver(s, acts, i)
    ensures Sections(acts) < 5 * (P - s.seg.tasks[i].effectivePriority) - s.seg.tasks[i].waitTicks + 256
  {
    WaitingRises(s, acts, P, i);
    var s' := After(s, acts);
    var p :| 0 <= p < |s'.seg.ready| && s'.seg.ready[p] == i;
    assert Phi(s'.seg.tasks[s'.seg.ready[p]]) + p <= 5 * P + 255;
  }
}
