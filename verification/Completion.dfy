/**
 A READY task is not only selected but FINISHED within a bounded number of scheduling
 cycles, whatever is submitted or requeued meanwhile.
 */
module Completion {
  import opened Model
  import CycleSpec
  import Worker
  import Client
  import Invariant
  import CycleProofs
  import WorkProofs
  import AgingProofs
  import StepProofs
  import opened Protocol
  import opened ProtocolProofs
  import Starvation

  // ---- a task that has become READY stays so until it is FINISHED ----

  predicate OnceReady(s: System, i: int) {
    0 <= i < |s.seg.tasks| && (s.seg.tasks[i].state == Ready || s.seg.tasks[i].state == Running
                               || s.seg.tasks[i].state == Finished)
  }

  /** Between two steps nothing has happened to task i but perhaps a new priority. */
  predicate Kept(s: System, s': System, i: int)
    requires 0 <= i < |s.seg.tasks|
  {
    && |s.seg.tasks| <= |s'.seg.tasks|
    && CycleProofs.Reprioritized(s.seg.tasks[i], s'.seg.tasks[i])
    && (s'.slot == i <==> s.slot == i)
    && Q(s') == Q(s)
  }

  lemma SectionKeepsReady(s: System, victims: seq<int>, P: int, i: int)
    requires SystemOk(s, P) && Enabled(s, SchedSection(victims)) && OnceReady(s, i)
    ensures OnceReady(AfterSection(s, victims), i)
    ensures var t, t' := s.seg.tasks[i], AfterSection(s, victims).seg.tasks[i];
            t'.state == t.state && t'.remainingTime == t.remainingTime && t'.basePriority == t.basePriority
    ensures Q(AfterSection(s, victims)) == Q(s)
  {
    hide SegmentOk, HandoffOk, SlotOk, StopOk, WakeOk, HistoryOk, SomeSurvivor, NamesLive;
    SectionStart(s, P);
    CycleProofs.CycleOk(s.seg, victims);
    assert CycleProofs.Progresses(s.seg.tasks[i], CycleSpec.Cycle(s.seg, victims).tasks[i]);
  }

  lemma BeginKeepsReady(s: System, P: int, i: int)
    requires SystemOk(s, P) && Enabled(s, WorkBegin) && OnceReady(s, i)
    ensures OnceReady(AfterBegin(s), i)
    ensures var s' := AfterBegin(s);
            s'.seg.tasks[i] == s.seg.tasks[i].(state := s'.seg.tasks[i].state)
            && s'.slot == s.slot && Q(s') == Q(s)
            && (s'.seg.tasks[i].state == Finished <==> s.seg.tasks[i].state == Finished)
  {
    BeginShape(s, P);
  }

  lemma EndKeepsReady(s: System, P: int, i: int)
    requires SystemOk(s, P) && Enabled(s, WorkEnd) && OnceReady(s, i)
    ensures OnceReady(AfterEnd(s), i)
    ensures var t, s' := s.seg.tasks[i], AfterEnd(s);
            && s'.seg.tasks[i] == (if i == s.slot then Worker.Ran(t, s.wpc.execTime) else t)
            && s'.slot == -1 && Q(s') == Q(s)
  {
    Worker.EndTasks(s.seg, s.slot, s.wpc.execTime);
  }

  lemma SubmitKept(s: System, i: int, id: int, priority: int, totalTime: int, required: Mask)
    requires 0 <= i < |s.seg.tasks|
    ensures var s' := AfterSubmit(s, id, priority, totalTime, required);
            Kept(s, s', i) && s'.seg.tasks[i] == s.seg.tasks[i]
  {
    StepProofs.SubmitTasks(s.seg, id, priority, totalTime, required);
  }

  lemma ChangeKept(s: System, i: int, id: int, priority: int)
    requires 0 <= i < |s.seg.tasks|
    ensures var s' := s.(seg := Client.ChangePriority(s.seg, id, priority), pending := s.pending + 1);
            Kept(s, s', i) && (Worker.FindId(s.seg.tasks, id) != i ==> s'.seg.tasks[i] == s.seg.tasks[i])
  {
    StepProofs.ChangePriorityTasks(s.seg, id, priority);
    assert CycleProofs.Reprioritized(s.seg.tasks[i], Client.ChangePriority(s.seg, id, priority).tasks[i]);
  }

  lemma SlotRuns(s: System, P: int)
    requires SystemOk(s, P) && s.wpc.WRun?
    ensures 0 <= s.slot < |s.seg.tasks| && s.wpc.idx == s.slot && s.seg.tasks[s.slot].state == Running
    ensures var t := s.seg.tasks[s.slot];
            t.remainingTime > 0 && s.wpc.execTime == if t.remainingTime < Q(s) then t.remainingTime else Q(s)
  {
    assert Invariant.TaskOk(s.seg.tasks[s.slot]);
  }

  lemma StepKeepsReady(s: System, a: Action, P: int, i: int)
    requires SystemOk(s, P) && Enabled(s, a) && OnceReady(s, i)
    ensures OnceReady(Apply(s, a), i)
    ensures s.seg.tasks[i].state == Finished ==> Apply(s, a).seg.tasks[i].state == Finished
  {
    hide SystemOk;
    match a
    case SchedSection(victims) => SectionKeepsReady(s, victims, P, i);
    case WorkBegin => BeginKeepsReady(s, P, i);
    case WorkEnd =>
      EndKeepsReady(s, P, i);
      SlotRuns(s, P);
    case ClientSubmit(id, priority, totalTime, required) => SubmitKept(s, i, id, priority, totalTime, required);
    case ClientChange(id, priority) => ChangeKept(s, i, id, priority);
    case _ => QuietFrame(s, a);
  }

  // ---- the sections a task can still have to wait ----

  /** Sections per quantum: those that pass the task over after a requeue, and the one that selects it. */
  function PerQuantum(base: int, P: int): int {
    5 * (P - base) + 256
  }

  /** Sections until task i is selected. */
  function UntilSelected(t: Task, P: int): int {
    5 * P + 256 - AgingProofs.Phi(t)
  }

  /** Sections for n quanta. */
  function ForQuanta(n: int, base: int, P: int): int {
    n * PerQuantum(base, P)
  }

  /** Sections that can still begin before t is FINISHED; `taken` tells whether the Worker has it. */
  function Left(t: Task, taken: bool, q: int, P: int): int
    requires q > 0
  {
    if t.state == Finished then 0
    else ForQuanta(WorkProofs.QuantaLeft(t.remainingTime, q) - 1, t.basePriority, P)
         + if taken then 0 else UntilSelected(t, P)
  }

  function SectionsLeft(s: System, P: int, i: int): int
    requires 0 <= i < |s.seg.tasks|
  {
    Left(s.seg.tasks[i], s.slot == i, Q(s), P)
  }

  lemma ForQuantaStep(n: int, base: int, P: int)
    requires base <= P
    ensures n >= 0 ==> ForQuanta(n, base, P) >= 0
    ensures ForQuanta(n + 1, base, P) == ForQuanta(n, base, P) + PerQuantum(base, P)
  {
  }

  predicate InProgress(t: Task, P: int) {
    t.basePriority <= P && t.basePriority <= t.effectivePriority && 0 <= t.waitTicks && t.remainingTime > 0
  }

  lemma LeftBounds(t: Task, taken: bool, q: int, P: int)
    requires q > 0 && (t.state == Finished ==> t.remainingTime == 0) && t.basePriority <= P
    requires t.state != Finished ==> InProgress(t, P) && (taken || UntilSelected(t, P) >= 1)
    ensures 0 <= Left(t, taken, q, P) <= ForQuanta(WorkProofs.QuantaLeft(t.remainingTime, q), t.basePriority, P)
  {
    hide ForQuanta;
    var n: int := WorkProofs.QuantaLeft(t.remainingTime, q);
    ForQuantaStep(n, t.basePriority, P);
    ForQuantaStep(n - 1, t.basePriority, P);
  }

  lemma SelectedLess(t: Task, t': Task, q: int, P: int)
    requires q > 0 && t.state != Finished && t'.state != Finished && UntilSelected(t, P) >= 1
    requires t'.remainingTime == t.remainingTime && t'.basePriority == t.basePriority
    ensures Left(t', true, q, P) < Left(t, false, q, P)
  {
    hide ForQuanta;
  }

  lemma PassedLess(t: Task, t': Task, q: int, P: int)
    requires q > 0 && t.state != Finished && t'.state != Finished
    requires AgingProofs.Phi(t') == AgingProofs.Phi(t) + 1
    requires t'.remainingTime == t.remainingTime && t'.basePriority == t.basePriority
    ensures Left(t', false, q, P) < Left(t, false, q, P)
  {
    hide ForQuanta, AgingProofs.Phi;
  }

  /** A quantum costs no section: the one that selected the task has been counted. */
  lemma RanNoMore(t: Task, q: int, P: int)
    requires q > 0 && t.state == Running && InProgress(t, P)
    requires t.effectivePriority == t.basePriority && t.waitTicks == 0
    ensures Left(Worker.Ran(t, if t.remainingTime < q then t.remainingTime else q), false, q, P) <= Left(t, true, q, P)
  {
    hide ForQuanta;
    var n: int := WorkProofs.QuantaLeft(t.remainingTime, q);
    WorkProofs.QuantumTaken(t.remainingTime, q);
    ForQuantaStep(n - 1, t.basePriority, P);
    ForQuantaStep(n - 2, t.basePriority, P);
  }

  /** Where a task that has become READY is, and what is known of it there. */
  lemma ReadyFacts(s: System, P: int, i: int)
    requires SystemOk(s, P) && OnceReady(s, i)
    ensures var t := s.seg.tasks[i];
            && t.basePriority <= P && (t.state == Finished ==> t.remainingTime == 0)
            && (t.state != Finished ==>
                  && InProgress(t, P)
                  && (s.slot == i || (t.state == Ready && i in s.seg.ready && UntilSelected(t, P) >= 1)))
  {
    var t := s.seg.tasks[i];
    assert Invariant.TaskOk(t);
    if t.state != Finished && s.slot != i {
      assert Invariant.PlacedByState(s.seg, i);
      var p :| 0 <= p < |s.seg.ready| && s.seg.ready[p] == i;
      assert AgingProofs.Phi(s.seg.tasks[s.seg.ready[p]]) + p <= 5 * P + 255;
    }
  }

  lemma SectionsLeftBounds(s: System, P: int, i: int)
    requires SystemOk(s, P) && OnceReady(s, i)
    ensures var t := s.seg.tasks[i];
            0 <= SectionsLeft(s, P, i) <= ForQuanta(WorkProofs.QuantaLeft(t.remainingTime, Q(s)), t.basePriority, P)
  {
    hide SystemOk, ForQuanta, Left;
    ReadyFacts(s, P, i);
    LeftBounds(s.seg.tasks[i], s.slot == i, Q(s), P);
  }

  // ---- every section brings the task closer ----

  /** This step does not set the priority of task i. */
  predicate LeavesPriority(s: System, a: Action, i: int) {
    a.ClientChange? ==> Worker.FindId(s.seg.tasks, a.id) != i
  }

  ghost predicate PriorityLeft(s: System, acts: seq<Action>, i: int)
    requires IsRun(s, acts)
    decreases |acts|
  {
    acts == [] || (LeavesPriority(s, acts[0], i) && PriorityLeft(Apply(s, acts[0]), acts[1..], i))
  }

  lemma SectionBrings(s: System, victims: seq<int>, P: int, i: int)
    requires SystemOk(s, P) && Enabled(s, SchedSection(victims)) && OnceReady(s, i)
    requires s.seg.tasks[i].state != Finished
    ensures OnceReady(AfterSection(s, victims), i)
    ensures SectionsLeft(AfterSection(s, victims), P, i) < SectionsLeft(s, P, i)
  {
    hide SystemOk, Left, SegmentOk, HandoffOk, SlotOk, StopOk;
    SectionKeepsReady(s, victims, P, i);
    ReadyFacts(s, P, i);
    SystemParts(s, P);
    SectionStart(s, P);
    var t, t' := s.seg.tasks[i], AfterSection(s, victims).seg.tasks[i];
    if CycleSpec.CycleOutcome(s.seg, victims) == CycleSpec.Selected(i) {
      SelectedLess(t, t', Q(s), P);
    } else {
      AgingProofs.WaitingGains(s.seg, victims, i);
      PassedLess(t, t', Q(s), P);
    }
  }

  lemma BeginBrings(s: System, P: int, i: int)
    requires SystemOk(s, P) && Enabled(s, WorkBegin) && OnceReady(s, i)
    ensures OnceReady(AfterBegin(s), i)
    ensures SectionsLeft(AfterBegin(s), P, i) == SectionsLeft(s, P, i)
  {
    hide SystemOk, ForQuanta;
    BeginKeepsReady(s, P, i);
  }

  /** A task in the Worker's hands has its base priority. */
  lemma SlotPriority(s: System, P: int)
    requires SystemOk(s, P) && 0 <= s.slot < |s.seg.tasks|
    ensures var t := s.seg.tasks[s.slot]; t.effectivePriority == t.basePriority && t.waitTicks == 0
  {
    assert s.slot !in s.seg.ready;
  }

  lemma EndBrings(s: System, P: int, i: int)
    requires SystemOk(s, P) && Enabled(s, WorkEnd) && OnceReady(s, i)
    ensures OnceReady(AfterEnd(s), i)
    ensures SectionsLeft(AfterEnd(s), P, i) <= SectionsLeft(s, P, i)
  {
    hide SystemOk, Left, AfterEnd;
    EndKeepsReady(s, P, i);
    if i == s.slot {
      ReadyFacts(s, P, i);
      SlotRuns(s, P);
      SlotPriority(s, P);
      RanNoMore(s.seg.tasks[i], Q(s), P);
    }
  }

  lemma SameSectionsLeft(s: System, s': System, P: int, i: int)
    requires 0 <= i < |s.seg.tasks| && i < |s'.seg.tasks| && s'.seg.tasks[i] == s.seg.tasks[i]
    requires (s'.slot == i <==> s.slot == i) && Q(s') == Q(s)
    ensures SectionsLeft(s', P, i) == SectionsLeft(s, P, i)
  {
  }

  lemma QuietBrings(s: System, a: Action, P: int, i: int)
    requires Enabled(s, a) && Quiet(a) && 0 <= i < |s.seg.tasks|
    ensures i < |Apply(s, a).seg.tasks| && SectionsLeft(Apply(s, a), P, i) == SectionsLeft(s, P, i)
  {
    hide SectionsLeft, Q;
    QuietFrame(s, a);
    SameSectionsLeft(s, Apply(s, a), P, i);
  }

  lemma ClientBrings(s: System, a: Action, P: int, i: int)
    requires (a.ClientSubmit? || a.ClientChange?) && 0 <= i < |s.seg.tasks| && LeavesPriority(s, a, i)
    ensures i < |Apply(s, a).seg.tasks| && SectionsLeft(Apply(s, a), P, i) == SectionsLeft(s, P, i)
  {
    hide SectionsLeft, Q;
    if a.ClientSubmit? {
      SubmitKept(s, i, a.id, a.priority, a.totalTime, a.required);
    } else {
      ChangeKept(s, i, a.id, a.priority);
    }
    SameSectionsLeft(s, Apply(s, a), P, i);
  }

  /** Nothing but a section counts, and each section counts until task i is FINISHED. */
  lemma StepBrings(s: System, a: Action, P: int, i: int)
    requires SystemOk(s, P) && Enabled(s, a) && OnceReady(s, i) && LeavesPriority(s, a, i)
    requires s.seg.tasks[i].state != Finished
    ensures OnceReady(Apply(s, a), i)
    ensures SectionsLeft(Apply(s, a), P, i) + (if a.SchedSection? then 1 else 0) <= SectionsLeft(s, P, i)
  {
    hide SystemOk, SectionsLeft, LeavesPriority;
    StepKeepsReady(s, a, P, i);
    match a
    case SchedSection(victims) => SectionBrings(s, victims, P, i);
    case WorkBegin => BeginBrings(s, P, i);
    case WorkEnd => EndBrings(s, P, i);
    case ClientSubmit(_, _, _, _) => ClientBrings(s, a, P, i);
    case ClientChange(_, _) => ClientBrings(s, a, P, i);
    case _ => QuietBrings(s, a, P, i);
  }

  /** Until task i is FINISHED, every section of a run is one of those that were left. */
  lemma {:induction false} RunBrings(s: System, acts: seq<Action>, P: int, i: int)
    requires SystemOk(s, P) && IsRun(s, acts) && AllAtMost(acts, P)
    requires OnceReady(s, i) && PriorityLeft(s, acts, i)
    ensures OnceReady(After(s, acts), i)
    ensures s.seg.tasks[i].state == Finished ==> After(s, acts).seg.tasks[i].state == Finished
    ensures After(s, acts).seg.tasks[i].state != Finished ==>
              Starvation.Sections(acts) <= SectionsLeft(s, P, i)
    decreases |acts|
  {
    hide SystemOk, SectionsLeft, LeavesPriority;
    if acts == [] {
      SectionsLeftBounds(s, P, i);
    } else {
      assert AtMost(acts[0], P);
      StepOk(s, acts[0], P);
      StepKeepsReady(s, acts[0], P, i);
      if s.seg.tasks[i].state != Finished {
        StepBrings(s, acts[0], P, i);
      }
      RunBrings(Apply(s, acts[0]), acts[1..], P, i);
    }
  }

  /**
   While priorities of at most P come and go, a READY task whose own priority is not
   changed is FINISHED once more sections have run than its quanta times
   5 * (P - base) + 256.
   */
  lemma FinishedInTime(s: System, acts: seq<Action>, P: int, i: int)
    requires SystemOk(s, P) && IsRun(s, acts) && AllAtMost(acts, P)
    requires OnceReady(s, i) && PriorityLeft(s, acts, i)
    requires var t := s.seg.tasks[i];
             Starvation.Sections(acts) > WorkProofs.QuantaLeft(t.remainingTime, Q(s)) * (5 * (P - t.basePriority) + 256)
    ensures OnceReady(After(s, acts), i) && After(s, acts).seg.tasks[i].state == Finished
  {
    hide SystemOk, SectionsLeft, PriorityLeft, IsRun;
    RunBrings(s, acts, P, i);
    SectionsLeftBounds(s, P, i);
  }
}
