/**
 The methods on the shared memory segment take the steps of the transition system: where
 a step is enabled, the method can be called, and it leaves the segment the step leaves.
 */
module Refinement {
  import opened Model
  import opened SharedMemory
  import CycleSpec
  import SchedulerLoop
  import Worker
  import Client
  import opened Protocol
  import ProtocolProofs

  method SchedulerStep(shm: SharedMemorySegment, ghost s: System, ghost P: int)
    returns (outcome: CycleSpec.Outcome, ghost a: Action)
    requires shm.Valid() && shm.View() == s.seg && ProtocolProofs.SystemOk(s, P) && s.spc == SSection
    modifies shm.Repr()
    ensures shm.Valid() && a.SchedSection? && Enabled(s, a) && shm.View() == Apply(s, a).seg
    ensures Apply(s, a).spc == match outcome
                               case Selected(_) => SPost
                               case Again => SCheck
                               case Sleep => SAwaitEvent
  {
    ghost var victims;
    outcome, victims := SchedulerLoop.SchedulerCycle(shm);
    a := SchedSection(victims);
  }

  method WorkerBeginStep(shm: SharedMemorySegment, ghost s: System, ghost P: int) returns (idx: int, execTime: int)
    requires shm.Valid() && shm.View() == s.seg && ProtocolProofs.SystemOk(s, P) && s.wpc == WBegin
    modifies shm.Repr()
    ensures shm.Valid() && shm.View() == Apply(s, WorkBegin).seg
    ensures Apply(s, WorkBegin).wpc == WRun(idx, execTime)
  {
    ProtocolProofs.BeginShape(s, P);
    var r := Worker.BeginQuantum(shm);
    idx, execTime := r.idx, r.execTime;
  }

  method WorkerEndStep(shm: SharedMemorySegment, ghost s: System, ghost P: int, idx: int, execTime: int)
    requires shm.Valid() && shm.View() == s.seg && ProtocolProofs.SystemOk(s, P) && s.wpc == WRun(idx, execTime)
    modifies shm.Repr()
    ensures shm.Valid() && Enabled(s, WorkEnd) && shm.View() == Apply(s, WorkEnd).seg
  {
    Worker.EndQuantum(shm, idx, execTime);
  }

  lemma SubmissionVisible(s: System, id: int, priority: int, totalTime: int, required: Mask)
    ensures Client.Accepts(s.seg, id, priority, totalTime) <==>
            AfterSubmit(s, id, priority, totalTime, required) != s
  {
    if Client.Accepts(s.seg, id, priority, totalTime) {
      assert AfterSubmit(s, id, priority, totalTime, required).pending == s.pending + 1;
    }
  }

  method SubmitStep(shm: SharedMemorySegment, ghost s: System, ghost P: int,
                    id: int, priority: int, totalTime: int, required: Mask) returns (r: int)
    requires shm.Valid() && shm.View() == s.seg && ProtocolProofs.SystemOk(s, P)
    modifies shm.Repr()
    ensures shm.Valid() && shm.View() == Apply(s, ClientSubmit(id, priority, totalTime, required)).seg
    ensures r == -1 <==> Apply(s, ClientSubmit(id, priority, totalTime, required)) == s
  {
    SubmissionVisible(s, id, priority, totalTime, required);
    r := Client.SubmitTask(shm, id, priority, totalTime, required);
  }

  method ChangePriorityStep(shm: SharedMemorySegment, ghost s: System, id: int, priority: int)
    requires shm.Valid() && shm.View() == s.seg
    modifies shm.Repr()
    ensures shm.Valid() && shm.View() == Apply(s, ClientChange(id, priority)).seg
  {
    Client.ChangeTaskPriority(shm, id, priority);
  }
}
