/** The invariant of the whole system, kept by every step of every process. */
module ProtocolProofs {
  import opened Model
  import DeadlockGraph
  import opened CycleSpec
  import opened Worker
  import Client
  import opened Invariant
  import opened CycleProofs
  import SleepProofs
  import WorkProofs
  import AgingProofs
  import opened StepProofs
  import opened Protocol

  function Q(s: System): (q: int)
    ensures q > 0
  {
    EffectiveQuantum(s.seg.timeQuantum)
  }

  // ---- handoff ----

  /** The Worker has taken a token and not yet posted its answer. */
  predicate HasToken(w: WorkerPc) {
    w == WTest || w == WBegin || w.WRun? || w == WPost
  }

  /** The Worker is past its flag check and not yet through its second section. */
  predicate Executing(w: WorkerPc) {
    w == WBegin || w.WRun?
  }

  function Tokens(s: System): int {
    s.workerSem + s.schedulerSem + (if HasToken(s.wpc) then 1 else 0) + (if s.spc == SPost then 1 else 0)
  }

  predicate Leaving(p: SchedulerPc) {
    p.SExit? || p == SDone
  }

  /** Exactly one token is under way while the Scheduler awaits a quantum, and none otherwise. */
  predicate HandoffOk(s: System) {
    && !s.wpc.WPostEarly? && !s.wpc.WPostEvent?
    && (!s.shutdown ==>
          && Tokens(s) == (if s.spc == SPost || s.spc == SAwaitQuantum then 1 else 0)
          && !Leaving(s.spc) && s.wpc != WDone)
    && (Executing(s.wpc) ==>
          s.spc == SAwaitQuantum || (s.shutdown && (s.spc == STest || Leaving(s.spc))))
  }

  /** The token stands for a quantum still to be executed. */
  predicate QuantumAhead(s: System) {
    s.spc == SPost || s.workerSem == 1 || s.wpc == WTest || Executing(s.wpc)
  }

  /** The task handed over: READY until the Worker begins, RUNNING while it executes. */
  predicate SlotOk(s: System) {
    && -1 <= s.slot < |s.seg.tasks|
    && (!s.shutdown ==> (s.slot != -1 <==> QuantumAhead(s)))
    && (s.spc == SCheck || s.spc == SSection || s.spc == SAwaitEvent ==> s.slot == -1)
    && (Executing(s.wpc) ==> s.slot != -1)
    && (s.slot != -1 ==>
          if s.wpc.WRun? then
            var t := s.seg.tasks[s.slot];
            && s.wpc.idx == s.slot && t.state == Running
            && s.wpc.execTime == (if t.remainingTime < Q(s) then t.remainingTime else Q(s))
          else s.seg.tasks[s.slot].state == Ready && s.seg.runningId == s.seg.tasks[s.slot].id)
  }

  function Outs(s: System): set<int> {
    if s.slot == -1 then {} else {s.slot}
  }

  predicate SegmentOk(s: System, P: int) {
    Good(s.seg, Outs(s), P)
  }

  // ---- shutdown ----

  /** The posts of stop() that have been made are still there for whoever needs them. */
  predicate StopOk(s: System) {
    && (s.shutdown <==> s.stop.Stopping?)
    && (s.stop.Stopping? ==> 0 <= s.stop.left <= 3)
    && (s.spc.SExit? ==> 1 <= s.spc.left <= 3)
    && (s.stop.Stopping? && s.stop.left <= 2 && s.wpc == WAwait ==> s.workerSem > 0)
    && (s.stop.Stopping? && s.stop.left <= 1 && (s.spc == SSection || s.spc == SPost || s.spc == SAwaitQuantum) ==>
          s.schedulerSem > 0)
    && (s.stop.Stopping? && s.stop.left <= 0 && (s.spc == SSection || s.spc == SAwaitEvent) ==> s.eventSem > 0)
  }

  // ---- sleeping, histories, survivors ----

  predicate AllTerminal(ts: seq<Task>) {
    forall i :: 0 <= i < |ts| ==> Terminal(ts[i])
  }

  /** No wakeup is lost: an event is under way whenever the Scheduler sleeps on unfinished work. */
  predicate WakeOk(s: System) {
    s.spc == SAwaitEvent && !AllTerminal(s.seg.tasks) ==> s.eventSem + s.pending > 0
  }

  /** Executed time and quanta account for what is left; aborted tasks have executed nothing. */
  predicate Accounted(t: Task, quanta: int, executed: int, q: int)
    requires q > 0
  {
    if t.state == DeadlockAborted then quanta == 0 && executed == 0
    else executed == t.totalTime - t.remainingTime
         && quanta == WorkProofs.QuantaLeft(t.totalTime, q) - WorkProofs.QuantaLeft(t.remainingTime, q)
  }

  predicate AllAccounted(ts: seq<Task>, quanta: seq<int>, executed: seq<int>, q: int)
    requires q > 0
  {
    && |quanta| == |executed| == |ts|
    && forall i :: 0 <= i < |ts| ==> Accounted(ts[i], quanta[i], executed[i], q)
  }

  predicate HistoryOk(s: System) {
    AllAccounted(s.seg.tasks, s.quanta, s.executed, Q(s))
  }

  ghost predicate SomeSurvivor(ts: seq<Task>) {
    ts != [] ==> exists i :: 0 <= i < |ts| && ts[i].state != DeadlockAborted
  }

  /** running_task_id never names a terminal task. */
  predicate NamesLive(s: Segment) {
    forall i :: 0 <= i < |s.tasks| && Terminal(s.tasks[i]) ==> s.tasks[i].id != s.runningId
  }

  ghost predicate SystemOk(s: System, P: int) {
    && SegmentOk(s, P) && HandoffOk(s) && SlotOk(s) && StopOk(s)
    && WakeOk(s) && HistoryOk(s) && SomeSurvivor(s.seg.tasks) && NamesLive(s.seg)
  }

  lemma SystemParts(s: System, P: int)
    requires SystemOk(s, P)
    ensures SegmentOk(s, P) && HandoffOk(s) && SlotOk(s) && StopOk(s)
  {
  }

  lemma EmptyGood(s: Segment, P: int)
    requires s.tasks == [] && s.ready == [] && s.blocked == [] && s.algorithm == PRIORITY_ALGORITHM
    ensures Good(s, {}, P)
  {
  }

  lemma InitialFlow(timeQuantum: int)
    ensures var s := Initial(timeQuantum);
            && HandoffOk(s) && SlotOk(s) && StopOk(s) && WakeOk(s) && HistoryOk(s)
            && SomeSurvivor(s.seg.tasks) && NamesLive(s.seg)
  {
  }

  lemma InitialSegment(timeQuantum: int, P: int)
    ensures SegmentOk(Initial(timeQuantum), P)
  {
    EmptyGood(Initial(timeQuantum).seg, P);
  }

  lemma InitialOk(timeQuantum: int, P: int)
    ensures SystemOk(Initial(timeQuantum), P)
  {
    InitialFlow(timeQuantum);
    InitialSegment(timeQuantum, P);
  }

  // ---- steps that leave the segment alone ----

  predicate Quiet(a: Action) {
    !a.SchedSection? && !a.WorkBegin? && !a.WorkEnd? && !a.ClientSubmit? && !a.ClientChange?
  }

  lemma QuietFrame(s: System, a: Action)
    requires Enabled(s, a) && Quiet(a)
    ensures var s' := Apply(s, a);
            && s'.seg == s.seg && s'.slot == s.slot && s'.quanta == s.quanta && s'.executed == s.executed
            && Q(s') == Q(s)
  {
  }

  lemma QuietHandoff(s: System, a: Action)
    requires HandoffOk(s) && StopOk(s) && Enabled(s, a) && Quiet(a)
    ensures HandoffOk(Apply(s, a))
  {
  }

  lemma QuietStop(s: System, a: Action)
    requires HandoffOk(s) && StopOk(s) && Enabled(s, a) && Quiet(a)
    ensures StopOk(Apply(s, a))
  {
    hide HasToken, Tokens;
  }

  lemma QuietSlot(s: System, a: Action)
    requires HandoffOk(s) && SlotOk(s) && StopOk(s) && Enabled(s, a) && Quiet(a)
    ensures SlotOk(Apply(s, a))
  {
    hide Q;
    QuietFrame(s, a);
  }

  lemma QuietWake(s: System, a: Action)
    requires WakeOk(s) && Enabled(s, a) && Quiet(a)
    ensures WakeOk(Apply(s, a))
  {
  }

  lemma QuietOk(s: System, a: Action, P: int)
    requires SystemOk(s, P) && Enabled(s, a) && Quiet(a)
    ensures SystemOk(Apply(s, a), P)
  {
    QuietFrame(s, a);
    QuietHandoff(s, a);
    QuietStop(s, a);
    QuietSlot(s, a);
    QuietWake(s, a);
  }

  // ---- the Scheduler's section ----

  lemma SectionStart(s: System, P: int)
    requires SegmentOk(s, P) && SlotOk(s) && s.spc == SSection
    ensures s.slot == -1 && Sound(s.seg) && Located(s.seg, {})
  {
  }

  lemma SectionSegment(s: System, victims: seq<int>, P: int)
    requires SegmentOk(s, P) && SlotOk(s) && s.spc == SSection && CycleVictims(s.seg, victims)
    ensures SegmentOk(AfterSection(s, victims), P)
  {
    CycleOk(s.seg, victims);
    AgingProofs.CycleRanked(s.seg, victims, P);
  }

  lemma SectionFlow(s: System, victims: seq<int>, P: int)
    requires SegmentOk(s, P) && HandoffOk(s) && SlotOk(s) && StopOk(s)
    requires s.spc == SSection && CycleVictims(s.seg, victims)
    ensures var s' := AfterSection(s, victims); HandoffOk(s') && SlotOk(s') && StopOk(s')
  {
    hide SegmentOk, CycleVictims, Sound, Located, AllProgress, Cycle, CycleOutcome;
    SectionStart(s, P);
    CycleOk(s.seg, victims);
  }

  lemma SectionWake(s: System, victims: seq<int>, P: int)
    requires SegmentOk(s, P) && SlotOk(s) && s.spc == SSection && CycleVictims(s.seg, victims)
    ensures WakeOk(AfterSection(s, victims))
  {
    if CycleOutcome(s.seg, victims) == Sleep {
      SleepProofs.SleepOnlyWhenDone(s.seg, victims);
    }
  }

  lemma ProgressAccounted(t: Task, t': Task, quanta: int, executed: int, q: int)
    requires q > 0 && TaskOk(t) && Progresses(t, t') && Accounted(t, quanta, executed, q)
    ensures Accounted(t', quanta, executed, q)
  {
  }

  lemma SectionHistory(s: System, victims: seq<int>, P: int)
    requires SegmentOk(s, P) && SlotOk(s) && HistoryOk(s) && s.spc == SSection && CycleVictims(s.seg, victims)
    ensures HistoryOk(AfterSection(s, victims))
  {
    CycleOk(s.seg, victims);
    var s' := AfterSection(s, victims);
    forall i | 0 <= i < |s.seg.tasks|
      ensures Accounted(s'.seg.tasks[i], s.quanta[i], s.executed[i], Q(s))
    {
      assert TaskOk(s.seg.tasks[i]);
      ProgressAccounted(s.seg.tasks[i], s'.seg.tasks[i], s.quanta[i], s.executed[i], Q(s));
    }
  }

  /** Selection and aging change no state. */
  lemma AfterResolution(s: Segment, victims: seq<int>, i: int)
    requires Sound(s) && Located(s, {}) && CycleVictims(s, victims) && 0 <= i < |s.tasks|
    ensures var d, s' := DeadlockGraph.AbortAll(Allocation(s).seg, victims), Cycle(s, victims);
            |d.tasks| == |s.tasks| == |s'.tasks| && s'.tasks[i].state == d.tasks[i].state
  {
    Stages(s, victims);
    var d, r := DeadlockGraph.AbortAll(Allocation(s).seg, victims), BeforeSelect(s, victims);
    AgeReprioritizes(d);
    assert Reprioritized(d.tasks[i], r.tasks[i]);
    if r.ready != [] {
      SelectOk(r);
    }
  }

  lemma SurvivorOfAborts(s: Segment, victims: seq<int>) returns (w: int)
    requires Sound(s) && Located(s, {}) && CycleVictims(s, victims) && victims != []
    ensures 0 <= w < |Cycle(s, victims).tasks| && Cycle(s, victims).tasks[w].state == Blocked
  {
    Stages(s, victims);
    w := Survivor(Allocation(s).seg, victims);
    AfterResolution(s, victims, w);
  }

  lemma SurvivorOfPass(s: Segment, i: int)
    requires Sound(s) && Located(s, {}) && CycleVictims(s, [])
    requires 0 <= i < |s.tasks| && s.tasks[i].state != DeadlockAborted
    ensures |Cycle(s, []).tasks| == |s.tasks| && Cycle(s, []).tasks[i].state != DeadlockAborted
  {
    Stages(s, []);
    assert DeadlockGraph.AbortAll(Allocation(s).seg, []) == Allocation(s).seg;
    assert Advances(s.tasks[i], Allocation(s).seg.tasks[i]);
    AfterResolution(s, [], i);
  }

  lemma CycleSurvivor(s: Segment, victims: seq<int>)
    requires Sound(s) && Located(s, {}) && CycleVictims(s, victims) && SomeSurvivor(s.tasks)
    ensures SomeSurvivor(Cycle(s, victims).tasks)
  {
    CycleOk(s, victims);
    if s.tasks != [] {
      if victims != [] {
        var w := SurvivorOfAborts(s, victims);
      } else {
        var i :| 0 <= i < |s.tasks| && s.tasks[i].state != DeadlockAborted;
        SurvivorOfPass(s, i);
      }
    }
  }

  lemma AdvanceNamesLive(s: Segment, s': Segment)
    requires NamesLive(s) && AllAdvance(s.tasks, s'.tasks) && s'.runningId == s.runningId
    ensures NamesLive(s')
  {
    forall i | 0 <= i < |s'.tasks| && Terminal(s'.tasks[i]) ensures s'.tasks[i].id != s'.runningId {
      assert Advances(s.tasks[i], s'.tasks[i]);
    }
  }

  lemma ReprioritizeNamesLive(s: Segment, s': Segment)
    requires NamesLive(s) && AllReprioritized(s.tasks, s'.tasks) && s'.runningId == s.runningId
    ensures NamesLive(s')
  {
    forall i | 0 <= i < |s'.tasks| && Terminal(s'.tasks[i]) ensures s'.tasks[i].id != s'.runningId {
      assert Reprioritized(s.tasks[i], s'.tasks[i]);
    }
  }

  /** The detector withdraws the running id together with the task it names. */
  lemma {:induction false} AbortAllNamesLive(s: Segment, victims: seq<int>)
    requires NamesLive(s) && AllTasksOk(s.tasks)
    ensures NamesLive(DeadlockGraph.AbortAll(s, victims)) && AllTasksOk(DeadlockGraph.AbortAll(s, victims).tasks)
    decreases |victims|
  {
    if victims != [] {
      AbortAllNamesLive(s, victims[..|victims| - 1]);
    }
  }

  lemma SelectNamesLive(r: Segment)
    requires Sound(r) && Located(r, {}) && r.ready != []
    ensures NamesLive(Select(r))
  {
    SelectOk(r);
  }

  lemma CycleNamesLive(s: Segment, victims: seq<int>)
    requires Sound(s) && Located(s, {}) && CycleVictims(s, victims) && NamesLive(s)
    ensures NamesLive(Cycle(s, victims))
  {
    Stages(s, victims);
    PassStartOk(s);
    PassKeepsOk(PassStart(s), |s.blocked|);
    var p, d, r := Allocation(s).seg, DeadlockGraph.AbortAll(Allocation(s).seg, victims), BeforeSelect(s, victims);
    AdvanceNamesLive(s, p);
    AbortAllNamesLive(p, victims);
    AgeReprioritizes(d);
    ReprioritizeNamesLive(d, r);
    CycleOk(s, victims);
    if r.ready != [] {
      SelectNamesLive(r);
    }
  }

  lemma SectionRest(s: System, victims: seq<int>, P: int)
    requires SegmentOk(s, P) && SlotOk(s) && s.spc == SSection && CycleVictims(s.seg, victims)
    requires SomeSurvivor(s.seg.tasks) && NamesLive(s.seg)
    ensures var s' := AfterSection(s, victims); SomeSurvivor(s'.seg.tasks) && NamesLive(s'.seg)
  {
    hide SomeSurvivor, NamesLive;
    SectionStart(s, P);
    CycleSurvivor(s.seg, victims);
    CycleNamesLive(s.seg, victims);
  }

  lemma SectionOk(s: System, victims: seq<int>, P: int)
    requires SystemOk(s, P) && Enabled(s, SchedSection(victims))
    ensures SystemOk(Apply(s, SchedSection(victims)), P)
  {
    hide SegmentOk, HandoffOk, SlotOk, StopOk, WakeOk, HistoryOk, SomeSurvivor, NamesLive, AfterSection;
    SectionSegment(s, victims, P);
    SectionFlow(s, victims, P);
    SectionWake(s, victims, P);
    SectionHistory(s, victims, P);
    SectionRest(s, victims, P);
  }

  // ---- the Worker's sections ----

  lemma BeginShape(s: System, P: int)
    requires SegmentOk(s, P) && SlotOk(s) && s.wpc == WBegin
    ensures var t := s.seg.tasks[s.slot];
            var e := if t.remainingTime < Q(s) then t.remainingTime else Q(s);
            && Good(Begin(s.seg), {s.slot}, P)
            && AfterBegin(s) == s.(seg := SetTask(s.seg, s.slot, t.(state := Running)),
                                   wpc := WRun(s.slot, e))
            && Begin(s.seg) == AfterBegin(s).seg
  {
    BeginFindsSelected(s.seg, s.slot);
    BeginGood(s.seg, s.slot, P);
  }

  lemma BeginFlow(s: System, P: int)
    requires SegmentOk(s, P) && HandoffOk(s) && SlotOk(s) && StopOk(s) && s.wpc == WBegin
    ensures var s' := AfterBegin(s); HandoffOk(s') && SlotOk(s') && StopOk(s') && SegmentOk(s', P)
  {
    BeginShape(s, P);
  }

  lemma BeginRest(s: System, P: int)
    requires SegmentOk(s, P) && HandoffOk(s) && SlotOk(s) && s.wpc == WBegin
    requires HistoryOk(s) && SomeSurvivor(s.seg.tasks) && NamesLive(s.seg)
    ensures var s' := AfterBegin(s); WakeOk(s') && HistoryOk(s') && SomeSurvivor(s'.seg.tasks) && NamesLive(s'.seg)
  {
    BeginShape(s, P);
    assert AfterBegin(s).seg.tasks[s.slot].state != DeadlockAborted;
  }

  lemma BeginOk(s: System, P: int)
    requires SystemOk(s, P) && Enabled(s, WorkBegin)
    ensures SystemOk(Apply(s, WorkBegin), P)
  {
    BeginFlow(s, P);
    BeginRest(s, P);
  }

  lemma EndFlow(s: System, P: int)
    requires SegmentOk(s, P) && HandoffOk(s) && SlotOk(s) && StopOk(s) && s.wpc.WRun?
    ensures var s' := AfterEnd(s); HandoffOk(s') && SlotOk(s') && StopOk(s') && SegmentOk(s', P)
  {
    assert TaskOk(s.seg.tasks[s.slot]);
    EndGood(s.seg, s.slot, s.wpc.execTime, P);
  }

  lemma QuantumAccounted(t: Task, quanta: int, executed: int, q: int)
    requires q > 0 && t.state == Running && t.remainingTime > 0 && Accounted(t, quanta, executed, q)
    ensures var e := if t.remainingTime < q then t.remainingTime else q;
            Accounted(Ran(t, e), quanta + 1, executed + e, q)
  {
    WorkProofs.QuantumTaken(t.remainingTime, q);
  }

  lemma AccountUpdate(ts: seq<Task>, quanta: seq<int>, executed: seq<int>, q: int, i: int, t: Task, n: int, e: int)
    requires q > 0 && AllAccounted(ts, quanta, executed, q) && 0 <= i < |ts|
    requires Accounted(t, n, e, q)
    ensures AllAccounted(ts[i := t], quanta[i := n], executed[i := e], q)
  {
  }

  lemma EndShape(s: System)
    requires s.wpc.WRun? && 0 <= s.wpc.idx < |s.seg.tasks| == |s.quanta| == |s.executed|
    ensures var i, e, s' := s.wpc.idx, s.wpc.execTime, AfterEnd(s);
            && s'.seg.tasks == s.seg.tasks[i := Ran(s.seg.tasks[i], e)] && Q(s') == Q(s)
            && s'.quanta == s.quanta[i := s.quanta[i] + 1] && s'.executed == s.executed[i := s.executed[i] + e]
  {
    EndTasks(s.seg, s.wpc.idx, s.wpc.execTime);
  }

  lemma ExecutedHistory(s: System, i: int)
    requires HistoryOk(s) && s.wpc.WRun? && s.wpc.idx == i && 0 <= i < |s.seg.tasks|
    requires s.seg.tasks[i].state == Running && s.seg.tasks[i].remainingTime > 0
    requires s.wpc.execTime == (if s.seg.tasks[i].remainingTime < Q(s) then s.seg.tasks[i].remainingTime else Q(s))
    ensures HistoryOk(AfterEnd(s))
  {
    var t, e := s.seg.tasks[i], s.wpc.execTime;
    EndShape(s);
    QuantumAccounted(t, s.quanta[i], s.executed[i], Q(s));
    AccountUpdate(s.seg.tasks, s.quanta, s.executed, Q(s), i, Ran(t, e), s.quanta[i] + 1, s.executed[i] + e);
  }

  lemma EndHistory(s: System, P: int)
    requires SegmentOk(s, P) && SlotOk(s) && HistoryOk(s) && s.wpc.WRun?
    ensures HistoryOk(AfterEnd(s))
  {
    assert TaskOk(s.seg.tasks[s.slot]);
    ExecutedHistory(s, s.slot);
  }

  lemma EndNamesLive(s: Segment, i: int, e: int)
    requires Sound(s) && 0 <= i < |s.tasks|
    ensures NamesLive(End(s, i, e))
  {
    EndTasks(s, i, e);
    var s' := End(s, i, e);
    assert s'.runningId == -1;
    forall j | 0 <= j < |s'.tasks| ensures s'.tasks[j].id != -1 {
      assert TaskOk(s.tasks[j]);
      assert s'.tasks[j].id == s.tasks[j].id;
    }
  }

  lemma EndOk(s: System, P: int)
    requires SystemOk(s, P) && Enabled(s, WorkEnd)
    ensures SystemOk(Apply(s, WorkEnd), P)
  {
    EndFlow(s, P);
    EndHistory(s, P);
    EndNamesLive(s.seg, s.slot, s.wpc.execTime);
    EndTasks(s.seg, s.slot, s.wpc.execTime);
    assert AfterEnd(s).seg.tasks[s.slot].state != DeadlockAborted;
  }

  // ---- the clients ----

  lemma SubmitFlow(s: System, P: int, id: int, priority: int, totalTime: int, required: Mask)
    requires SegmentOk(s, P) && HandoffOk(s) && SlotOk(s) && StopOk(s) && WakeOk(s) && priority <= P
    ensures var s' := AfterSubmit(s, id, priority, totalTime, required);
            HandoffOk(s') && SlotOk(s') && StopOk(s') && WakeOk(s') && SegmentOk(s', P)
  {
    SubmitGood(s.seg, Outs(s), P, id, priority, totalTime, required);
    SubmitTasks(s.seg, id, priority, totalTime, required);
  }

  lemma SubmitRest(s: System, id: int, priority: int, totalTime: int, required: Mask)
    requires HistoryOk(s) && SomeSurvivor(s.seg.tasks) && NamesLive(s.seg)
    ensures var s' := AfterSubmit(s, id, priority, totalTime, required);
            HistoryOk(s') && SomeSurvivor(s'.seg.tasks) && NamesLive(s'.seg)
  {
    SubmitTasks(s.seg, id, priority, totalTime, required);
    if Client.Accepts(s.seg, id, priority, totalTime) {
      var s' := AfterSubmit(s, id, priority, totalTime, required);
      assert s'.seg.tasks[|s.seg.tasks|].state != DeadlockAborted;
    }
  }

  lemma ChangeFlow(s: System, P: int, id: int, priority: int)
    requires SegmentOk(s, P) && HandoffOk(s) && SlotOk(s) && StopOk(s) && priority <= P
    ensures var s' := s.(seg := Client.ChangePriority(s.seg, id, priority), pending := s.pending + 1);
            HandoffOk(s') && SlotOk(s') && StopOk(s') && WakeOk(s') && SegmentOk(s', P)
  {
    ChangePriorityGood(s.seg, Outs(s), P, id, priority);
    ChangePriorityTasks(s.seg, id, priority);
    if s.slot != -1 {
      assert Reprioritized(s.seg.tasks[s.slot], Client.ChangePriority(s.seg, id, priority).tasks[s.slot]);
    }
  }

  lemma ChangeRest(s: System, id: int, priority: int)
    requires HistoryOk(s) && SomeSurvivor(s.seg.tasks) && NamesLive(s.seg)
    ensures var s' := s.(seg := Client.ChangePriority(s.seg, id, priority), pending := s.pending + 1);
            HistoryOk(s') && SomeSurvivor(s'.seg.tasks) && NamesLive(s'.seg)
  {
    ChangePriorityTasks(s.seg, id, priority);
    ReprioritizeNamesLive(s.seg, Client.ChangePriority(s.seg, id, priority));
    var ts := Client.ChangePriority(s.seg, id, priority).tasks;
    assert forall i :: 0 <= i < |ts| ==> Reprioritized(s.seg.tasks[i], ts[i]);
    if s.seg.tasks != [] {
      var i :| 0 <= i < |s.seg.tasks| && s.seg.tasks[i].state != DeadlockAborted;
      assert ts[i].state != DeadlockAborted;
    }
  }

  lemma SubmitOk(s: System, P: int, id: int, priority: int, totalTime: int, required: Mask)
    requires SystemOk(s, P) && priority <= P
    ensures SystemOk(AfterSubmit(s, id, priority, totalTime, required), P)
  {
    SubmitFlow(s, P, id, priority, totalTime, required);
    SubmitRest(s, id, priority, totalTime, required);
  }

  lemma ChangeOk(s: System, P: int, id: int, priority: int)
    requires SystemOk(s, P) && priority <= P
    ensures SystemOk(s.(seg := Client.ChangePriority(s.seg, id, priority), pending := s.pending + 1), P)
  {
    ChangeFlow(s, P, id, priority);
    ChangeRest(s, id, priority);
  }

  /** Every step of every process keeps the invariant. */
  lemma StepOk(s: System, a: Action, P: int)
    requires SystemOk(s, P) && Enabled(s, a) && AtMost(a, P)
    ensures SystemOk(Apply(s, a), P)
  {
    hide SystemOk;
    match a
    case SchedSection(victims) => SectionOk(s, victims, P);
    case WorkBegin => BeginOk(s, P);
    case WorkEnd => EndOk(s, P);
    case ClientSubmit(id, priority, totalTime, required) =>
      SubmitOk(s, P, id, priority, totalTime, required);
    case ClientChange(id, priority) => ChangeOk(s, P, id, priority);
    case _ => QuietOk(s, a, P);
  }

  lemma {:induction false} RunOk(s: System, acts: seq<Action>, P: int)
    requires SystemOk(s, P) && IsRun(s, acts) && AllAtMost(acts, P)
    ensures SystemOk(After(s, acts), P)
    decreases |acts|
  {
    hide SystemOk;
    if acts != [] {
      StepOk(s, acts[0], P);
      RunOk(Apply(s, acts[0]), acts[1..], P);
    }
  }
}
