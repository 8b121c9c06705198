/** stop() ends both processes, whatever they were doing. */
module Shutdown {
  import opened Protocol
  import opened ProtocolProofs
  import Liveness

  function ExitRank(p: SchedulerPc): nat {
    match p
    case SSection => 7
    case SPost => 6
    case SAwaitQuantum => 5
    case SAwaitEvent => 5
    case STest => 4
    case SCheck => 4
    case SExit(left) => if left == 3 then 3 else if left == 2 then 2 else 1
    case SDone => 0
  }

  function QuitRank(p: WorkerPc): nat {
    match p
    case WBegin => 5
    case WRun(_, _) => 4
    case WPost => 3
    case WPostEarly => 4
    case WPostEvent => 3
    case WAwait => 2
    case WTest => 1
    case WCheck => 1
    case WDone => 0
  }

  /** Steps that the two processes and stop() can still take once the flag is set; at most 15. */
  function ShutdownRank(s: System): nat {
    ExitRank(s.spc) + QuitRank(s.wpc) + (if s.stop.Stopping? && s.stop.left > 0 then s.stop.left else 0)
  }

  predicate ByProcess(a: Action) {
    BySched(a) || ByWorker(a) || a.StopPost?
  }

  lemma QuietLeads(s: System, a: Action)
    requires HandoffOk(s) && StopOk(s) && s.shutdown && Enabled(s, a) && Quiet(a)
    ensures Apply(s, a).shutdown
    ensures ByProcess(a) ==> ShutdownRank(Apply(s, a)) < ShutdownRank(s)
    ensures !ByProcess(a) ==> ShutdownRank(Apply(s, a)) == ShutdownRank(s)
  {
    hide Q, Tokens;
  }

  lemma SectionLeads(s: System, victims: seq<int>)
    requires s.spc == SSection
    ensures var s' := AfterSection(s, victims);
            s'.shutdown == s.shutdown && s'.wpc == s.wpc && ShutdownRank(s') < ShutdownRank(s)
  {
  }

  lemma BeginLeads(s: System)
    requires s.wpc == WBegin
    ensures var s' := AfterBegin(s); s'.shutdown == s.shutdown && ShutdownRank(s') < ShutdownRank(s)
  {
  }

  lemma EndLeads(s: System)
    requires s.wpc.WRun? && 0 <= s.wpc.idx < |s.seg.tasks|
    ensures var s' := AfterEnd(s); s'.shutdown == s.shutdown && ShutdownRank(s') < ShutdownRank(s)
  {
  }

  /** After the flag every step of a process leads to the exit; clients do not hinder it. */
  lemma StepLeads(s: System, a: Action, P: int)
    requires SystemOk(s, P) && s.shutdown && Enabled(s, a)
    ensures Apply(s, a).shutdown
    ensures ByProcess(a) ==> ShutdownRank(Apply(s, a)) < ShutdownRank(s)
    ensures !ByProcess(a) ==> ShutdownRank(Apply(s, a)) == ShutdownRank(s)
  {
    hide SegmentOk, SlotOk, WakeOk, HistoryOk, SomeSurvivor, NamesLive;
    match a
    case SchedSection(victims) => SectionLeads(s, victims);
    case WorkBegin => BeginLeads(s);
    case WorkEnd => EndLeads(s);
    case ClientSubmit(_, _, _, _) =>
    case ClientChange(_, _) =>
    case _ => QuietLeads(s, a);
  }

  ghost function ProcessSteps(acts: seq<Action>): nat {
    if acts == [] then 0 else (if ByProcess(acts[0]) then 1 else 0) + ProcessSteps(acts[1..])
  }

  /** Once the flag is set, the processes take at most 15 more steps, however the clients interleave. */
  lemma {:induction false} ShutdownBounded(s: System, acts: seq<Action>, P: int)
    requires SystemOk(s, P) && s.shutdown && IsRun(s, acts) && AllAtMost(acts, P)
    ensures SystemOk(After(s, acts), P) && After(s, acts).shutdown
    ensures ProcessSteps(acts) + ShutdownRank(After(s, acts)) <= ShutdownRank(s)
    decreases |acts|
  {
    hide SystemOk, ShutdownRank, ByProcess;
    if acts != [] {
      assert AtMost(acts[0], P);
      StepOk(s, acts[0], P);
      StepLeads(s, acts[0], P);
      ShutdownBounded(Apply(s, acts[0]), acts[1..], P);
    }
  }

  /** Once stop() has made its posts, neither process can be left waiting. */
  lemma NobodyHangs(s: System, P: int)
    requires SystemOk(s, P) && s.stop == Stopping(0)
    ensures s.spc != SDone ==> exists a :: BySched(a) && Enabled(s, a)
    ensures s.wpc != WDone ==> exists a :: ByWorker(a) && Enabled(s, a)
  {
    if s.spc != SDone {
      var a := Liveness.SchedulerCanStep(s, P);
    }
    if s.wpc != WDone {
      var a := Liveness.WorkerCanStep(s, P);
    }
  }

  /** Until then, stop() itself can go on. */
  lemma StopGoesOn(s: System, P: int)
    requires SystemOk(s, P) && s.shutdown && s.stop != Stopping(0)
    ensures Enabled(s, StopPost)
  {
  }

  /** When neither the processes nor stop() can go on, both have left their loops. */
  lemma HaltedMeansDone(s: System, P: int)
    requires SystemOk(s, P) && s.shutdown && forall a :: ByProcess(a) ==> !Enabled(s, a)
    ensures s.spc == SDone && s.wpc == WDone
  {
    hide SystemOk;
    if s.stop != Stopping(0) {
      StopGoesOn(s, P);
    } else {
      NobodyHangs(s, P);
    }
  }

  lemma RankAtMost(s: System, P: int)
    requires SystemOk(s, P)
    ensures ShutdownRank(s) <= 15
  {
  }

  ghost function QuantaEnded(acts: seq<Action>): nat {
    if acts == [] then 0 else (if acts[0] == WorkEnd then 1 else 0) + QuantaEnded(acts[1..])
  }

  /** After the flag the Worker begins no further quantum. */
  lemma NoNewQuantum(s: System, a: Action)
    requires s.shutdown && Enabled(s, a)
    ensures Executing(Apply(s, a).wpc) ==> Executing(s.wpc)
    ensures a == WorkEnd ==> Executing(s.wpc) && !Executing(Apply(s, a).wpc)
  {
    match a
    case SchedSection(victims) => SectionLeads(s, victims);
    case _ =>
  }

  /** After the flag the Worker ends at most the quantum whose flag check it had passed. */
  lemma {:induction false} OneLastQuantum(s: System, acts: seq<Action>, P: int)
    requires SystemOk(s, P) && s.shutdown && IsRun(s, acts) && AllAtMost(acts, P)
    ensures QuantaEnded(acts) <= if Executing(s.wpc) then 1 else 0
    decreases |acts|
  {
    hide SystemOk, ShutdownRank, ByProcess;
    if acts != [] {
      assert AtMost(acts[0], P);
      StepOk(s, acts[0], P);
      StepLeads(s, acts[0], P);
      NoNewQuantum(s, acts[0]);
      OneLastQuantum(Apply(s, acts[0]), acts[1..], P);
    }
  }
}
