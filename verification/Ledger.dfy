/**
 What the clients have asked for, read off their calls alone, and the proof that the
 registered tasks are exactly that, whatever the processes do in between.
 */
module Ledger {
  import opened Model
  import StableSort
  import DeadlockGraph
  import CycleSpec
  import CycleProofs
  import Worker
  import Client
  import StepProofs
  import opened Protocol
  import opened ProtocolProofs

  /** A task as its client sees it. */
  datatype Request = Request(id: int, totalTime: int, required: Mask, priority: int)

  predicate Known(l: seq<Request>, id: int) {
    exists i :: 0 <= i < |l| && l[i].id == id
  }

  /** The request named id gets a new priority. */
  function Reprioritize(l: seq<Request>, id: int, priority: int): (r: seq<Request>)
    ensures |r| == |l|
    ensures forall i :: 0 <= i < |l| ==> r[i] == if l[i].id == id then l[i].(priority := priority) else l[i]
  {
    seq(|l|, i requires 0 <= i < |l| => if l[i].id == id then l[i].(priority := priority) else l[i])
  }

  /** A call enters a new request, or sets the priority of one; no other step counts. */
  function Record(l: seq<Request>, a: Action): seq<Request> {
    match a
    case ClientSubmit(id, priority, totalTime, required) =>
      if id < 0 || priority < 0 || totalTime <= 0 || Known(l, id) || |l| >= 256 then l
      else l + [Request(id, totalTime, required, priority)]
    case ClientChange(id, priority) => Reprioritize(l, id, priority)
    case _ => l
  }

  /** The ledger after the calls of a run. */
  function Recorded(l: seq<Request>, acts: seq<Action>): seq<Request>
    decreases |acts|
  {
    if acts == [] then l else Recorded(Record(l, acts[0]), acts[1..])
  }

  function RequestOf(t: Task): Request {
    Request(t.id, t.totalTime, t.required, t.basePriority)
  }

  function Requests(ts: seq<Task>): (r: seq<Request>)
    ensures |r| == |ts| && forall i :: 0 <= i < |ts| ==> r[i] == RequestOf(ts[i])
  {
    seq(|ts|, i requires 0 <= i < |ts| => RequestOf(ts[i]))
  }

  lemma SameRequests(ts: seq<Task>, ts': seq<Task>)
    requires |ts'| == |ts| && forall i :: 0 <= i < |ts| ==> RequestOf(ts'[i]) == RequestOf(ts[i])
    ensures Requests(ts') == Requests(ts)
  {
  }

  lemma SectionRequests(s: System, victims: seq<int>, P: int)
    requires SystemOk(s, P) && Enabled(s, SchedSection(victims))
    ensures Requests(AfterSection(s, victims).seg.tasks) == Requests(s.seg.tasks)
    ensures AfterSection(s, victims).seg.timeQuantum == s.seg.timeQuantum
  {
    hide SystemOk, SegmentOk, HandoffOk, SlotOk, StopOk;
    SystemParts(s, P);
    SectionStart(s, P);
    CycleProofs.CycleOk(s.seg, victims);
    var ts' := CycleSpec.Cycle(s.seg, victims).tasks;
    forall i | 0 <= i < |s.seg.tasks| ensures RequestOf(ts'[i]) == RequestOf(s.seg.tasks[i]) {
      assert CycleProofs.Progresses(s.seg.tasks[i], ts'[i]);
    }
    SameRequests(s.seg.tasks, ts');
  }

  lemma WorkerRequests(s: System, a: Action, P: int)
    requires SystemOk(s, P) && Enabled(s, a) && (a == WorkBegin || a == WorkEnd)
    ensures Requests(Apply(s, a).seg.tasks) == Requests(s.seg.tasks)
    ensures Apply(s, a).seg.timeQuantum == s.seg.timeQuantum
  {
    hide SystemOk, SegmentOk, HandoffOk, StopOk, Worker.End;
    SystemParts(s, P);
    if a == WorkBegin {
      BeginShape(s, P);
    } else {
      Worker.EndTasks(s.seg, s.wpc.idx, s.wpc.execTime);
    }
    SameRequests(s.seg.tasks, Apply(s, a).seg.tasks);
  }

  lemma KnownIsFound(ts: seq<Task>, id: int)
    ensures Known(Requests(ts), id) <==> Worker.FindId(ts, id) != -1
  {
    if Worker.FindId(ts, id) != -1 {
      assert Requests(ts)[Worker.FindId(ts, id)].id == id;
    }
  }

  /** The call is accepted exactly when the ledger has a place for it. */
  lemma SubmitRequests(s: System, a: Action, P: int)
    requires SystemOk(s, P) && a.ClientSubmit?
    ensures Requests(Apply(s, a).seg.tasks) == Record(Requests(s.seg.tasks), a)
    ensures Apply(s, a).seg.timeQuantum == s.seg.timeQuantum
  {
    hide SystemOk;
    var l, n := Requests(s.seg.tasks), |s.seg.tasks|;
    StepProofs.SubmitTasks(s.seg, a.id, a.priority, a.totalTime, a.required);
    KnownIsFound(s.seg.tasks, a.id);
    var ts' := Apply(s, a).seg.tasks;
    assert Requests(ts')[..n] == l;
    if Client.Accepts(s.seg, a.id, a.priority, a.totalTime) {
      assert Requests(ts') == l + [RequestOf(ts'[n])];
    }
  }

  lemma InOrder(s: System, P: int)
    requires SystemOk(s, P)
    ensures DeadlockGraph.DistinctIds(s.seg.tasks) && StableSort.Descending(s.seg.tasks, s.seg.ready)
  {
  }

  lemma ChangeRequests(s: System, a: Action, P: int)
    requires SystemOk(s, P) && a.ClientChange?
    ensures Requests(Apply(s, a).seg.tasks) == Record(Requests(s.seg.tasks), a)
    ensures Apply(s, a).seg.timeQuantum == s.seg.timeQuantum
  {
    hide SystemOk;
    InOrder(s, P);
    StepProofs.ChangeEffect(s.seg, a.id, a.priority);
    var ts, ts' := s.seg.tasks, Apply(s, a).seg.tasks;
    assert Requests(ts') == Reprioritize(Requests(ts), a.id, a.priority);
  }

  lemma StepRecords(s: System, a: Action, P: int)
    requires SystemOk(s, P) && Enabled(s, a)
    ensures Requests(Apply(s, a).seg.tasks) == Record(Requests(s.seg.tasks), a)
    ensures Apply(s, a).seg.timeQuantum == s.seg.timeQuantum
  {
    hide SystemOk, Requests;
    match a
    case SchedSection(victims) => SectionRequests(s, victims, P);
    case WorkBegin => WorkerRequests(s, a, P);
    case WorkEnd => WorkerRequests(s, a, P);
    case ClientSubmit(_, _, _, _) => SubmitRequests(s, a, P);
    case ClientChange(_, _) => ChangeRequests(s, a, P);
    case _ => QuietFrame(s, a);
  }

  /** The registered tasks are what the clients have asked for, in order, with the last priority given to each. */
  lemma {:induction false} RunRecords(s: System, acts: seq<Action>, P: int)
    requires SystemOk(s, P) && IsRun(s, acts) && AllAtMost(acts, P)
    ensures SystemOk(After(s, acts), P)
    ensures Requests(After(s, acts).seg.tasks) == Recorded(Requests(s.seg.tasks), acts)
    ensures After(s, acts).seg.timeQuantum == s.seg.timeQuantum
    decreases |acts|
  {
    hide SystemOk, Requests, Record;
    if acts != [] {
      assert AtMost(acts[0], P);
      StepOk(s, acts[0], P);
      StepRecords(s, acts[0], P);
      RunRecords(Apply(s, acts[0]), acts[1..], P);
    }
  }

  lemma {:induction false} SomeBound(acts: seq<Action>) returns (P: int)
    ensures AllAtMost(acts, P)
  {
    P := 0;
    if acts != [] {
      P := SomeBound(acts[1..]);
      if !AtMost(acts[0], P) {
        P := acts[0].priority;
      }
      assert acts == [acts[0]] + acts[1..];
      forall k | 0 <= k < |acts| ensures AtMost(acts[k], P) {
        assert k > 0 ==> acts[k] == acts[1..][k - 1];
      }
    }
  }

  /** In every run from the start: no bound on priorities is needed. */
  lemma InitialRunRecords(timeQuantum: int, acts: seq<Action>) returns (P: int)
    requires IsRun(Initial(timeQuantum), acts)
    ensures AllAtMost(acts, P) && SystemOk(After(Initial(timeQuantum), acts), P)
    ensures Requests(After(Initial(timeQuantum), acts).seg.tasks) == Recorded([], acts)
    ensures After(Initial(timeQuantum), acts).seg.timeQuantum == timeQuantum
  {
    hide SystemOk, IsRun;
    P := SomeBound(acts);
    InitialOk(timeQuantum, P);
    RunRecords(Initial(timeQuantum), acts, P);
    assert Requests(Initial(timeQuantum).seg.tasks) == [];
  }
}
