/**
 The deadlock detector: an iterative depth-first search of the wait-for graph that
 starts over after every abort.
 */
module DeadlockDetector {
  import opened Model
  import Seqs
  import opened SharedMemory
  import opened DeadlockGraph

  const WHITE := 0
  const GRAY := 1
  const BLACK := 2

  /** Gray are exactly the vertices on the stack, black the finished ones. */
  ghost predicate Colored(color: seq<int>, stack: seq<int>, order: seq<int>) {
    && Seqs.NoDup(stack) && InRange(stack, |color|)
    && Seqs.NoDup(order) && InRange(order, |color|)
    && forall v :: 0 <= v < |color| ==>
         && color[v] in {WHITE, GRAY, BLACK}
         && (color[v] == GRAY <==> v in stack)
         && (color[v] == BLACK <==> v in order)
  }

  /** The edges of u below bound lead to finished vertices or to next. */
  ghost predicate Settled(ts: seq<Task>, u: int, bound: int, next: int, order: seq<int>) {
    forall v :: v < bound && Edge(ts, u, v) ==> v in order || v == next
  }

  function Above(stack: seq<int>, k: int): int
    requires 0 <= k < |stack|
  {
    if k + 1 < |stack| then stack[k + 1] else -1
  }

  /** Edges examined so far lead to finished vertices or up the stack. */
  ghost predicate Examined(ts: seq<Task>, stack: seq<int>, ptr: seq<int>, order: seq<int>) {
    && |ptr| == |stack|
    && forall k :: 0 <= k < |stack| ==> Settled(ts, stack[k], ptr[k], Above(stack, k), order)
  }

  ghost predicate Searching(ts: seq<Task>, color: seq<int>, stack: seq<int>, ptr: seq<int>, order: seq<int>) {
    && |color| == |ts|
    && Colored(color, stack, order)
    && IsPath(ts, stack)
    && Examined(ts, stack, ptr, order)
    && FinishOrder(ts, order)
  }

  lemma StackRoom(color: seq<int>, stack: seq<int>, order: seq<int>)
    requires Colored(color, stack, order)
    ensures |stack| + |order| <= |color|
  {
    var all := stack + order;
    forall i, j | 0 <= i < j < |all| ensures all[i] != all[j] {
      if i < |stack| <= j {
        assert all[i] in stack && all[j] in order;
      }
    }
    Seqs.Pigeonhole(all, |color|);
  }

  lemma Push(ts: seq<Task>, color: seq<int>, stack: seq<int>, ptr: seq<int>, order: seq<int>, v: int)
    requires stack != [] && |ptr| == |stack|
    requires Edge(ts, stack[|stack| - 1], v)
    requires Searching(ts, color, stack, ptr[|stack| - 1 := v], order)
    requires color[v] == WHITE
    ensures Searching(ts, color[v := GRAY], stack + [v], ptr[|stack| - 1 := v + 1] + [0], order)
  {
    assert v !in stack && v !in order;
    var top := |stack| - 1;
    var stack', ptr' := stack + [v], ptr[top := v + 1] + [0];
    forall k | 0 <= k < |stack'| ensures Settled(ts, stack'[k], ptr'[k], Above(stack', k), order) {
      if k <= top {
        assert Settled(ts, stack[k], ptr[top := v][k], Above(stack, k), order);
      }
    }
  }

  lemma Pop(ts: seq<Task>, color: seq<int>, stack: seq<int>, ptr: seq<int>, order: seq<int>)
    requires stack != [] && Searching(ts, color, stack, ptr, order)
    requires ptr[|stack| - 1] >= |ts|
    ensures Searching(ts, color[stack[|stack| - 1] := BLACK], stack[..|stack| - 1], ptr[..|stack| - 1],
                      order + [stack[|stack| - 1]])
  {
    var top := |stack| - 1;
    var u := stack[top];
    assert u in stack;
    assert u !in order;
    assert u !in stack[..top];
    var order' := order + [u];
    assert Settled(ts, stack[top], ptr[top], -1, order);
    forall i, v | 0 <= i < |order'| && Edge(ts, order'[i], v) ensures v in order'[..i] {
      assert order'[..i] == order[..i];
      if i < |order| {
        assert Edge(ts, order[i], v);
      } else {
        assert Edge(ts, stack[top], v);
        assert order[..i] == order;
      }
    }
    forall k | 0 <= k < top ensures Settled(ts, stack[k], ptr[k], Above(stack[..top], k), order') {
      assert Settled(ts, stack[k], ptr[k], Above(stack, k), order);
    }
  }

  lemma Start(ts: seq<Task>, color: seq<int>, order: seq<int>, v: int)
    requires Searching(ts, color, [], [], order)
    requires 0 <= v < |ts| && color[v] == WHITE
    ensures Searching(ts, color[v := GRAY], [v], [0], order)
  {
    assert forall k :: 0 <= k < |[v]| ==> [0][k] == 0;
  }

  /**
   The next edge of u, from the remembered position on, to a vertex that is not black;
   taskCount if there is none.
   */
  method NextNeighbour(shm: SharedMemorySegment, u: int, color: array<int>, edgePtr: array<int>, top: int)
    returns (j: int)
    requires shm.Valid() && edgePtr !in shm.Repr() && edgePtr != color
    requires 0 <= u < shm.taskCount <= color.Length
    requires 0 <= top < edgePtr.Length && 0 <= edgePtr[top]
    requires forall v :: 0 <= v < shm.taskCount ==> color[v] in {WHITE, GRAY, BLACK}
    modifies edgePtr
    ensures 0 <= j <= shm.taskCount
    ensures edgePtr[top] > j || j == shm.taskCount <= edgePtr[top]
    ensures edgePtr[..top] == old(edgePtr[..top])
    ensures forall v :: old(edgePtr[top]) <= v < j && Edge(shm.View().tasks, u, v) ==> color[v] == BLACK
    ensures j < shm.taskCount ==>
              Edge(shm.View().tasks, u, j) && color[j] != BLACK && edgePtr[top] == j + 1
  {
    j := edgePtr[top];
    while j < shm.taskCount
      invariant old(edgePtr[top]) <= j == edgePtr[top]
      invariant j <= shm.taskCount || j == old(edgePtr[top])
      invariant edgePtr[..top] == old(edgePtr[..top])
      invariant forall v :: old(edgePtr[top]) <= v < j && Edge(shm.View().tasks, u, v) ==> color[v] == BLACK
    {
      edgePtr[top] := j + 1;
      if IsWaitingFor(shm.tasks[u], shm.tasks[j]) && (color[j] == GRAY || color[j] == WHITE) {
        return;
      }
      j := j + 1;
    }
    j := shm.taskCount;
  }

  lemma CycleOnStack(ts: seq<Task>, stack: seq<int>, p: int)
    requires 0 <= p < |stack| && Seqs.NoDup(stack) && IsPath(ts, stack)
    requires Edge(ts, stack[|stack| - 1], stack[p])
    ensures IsCycle(ts, stack[p..])
  {
    var c := stack[p..];
    forall k | 0 <= k < |c| - 1 ensures Edge(ts, c[k], c[k + 1]) {
      assert Edge(ts, stack[p + k], stack[p + k + 1]);
    }
  }

  /** Copies the stack from vertex j to the top: the cycle that the edge from the top to j closes. */
  method ExtractCycle(stack: array<int>, top: int, j: int, cycleNodes: array<int>, ghost ts: seq<Task>)
    returns (cycleLen: int)
    requires 0 <= top < stack.Length == cycleNodes.Length && stack != cycleNodes
    requires Seqs.NoDup(stack[..top + 1]) && j in stack[..top + 1]
    requires IsPath(ts, stack[..top + 1]) && Edge(ts, stack[top], j)
    modifies cycleNodes
    ensures 0 < cycleLen <= top + 1
    ensures IsCycle(ts, cycleNodes[..cycleLen])
  {
    ghost var p :| 0 <= p <= top && stack[p] == j;
    cycleLen := 0;
    var inCycle := false;
    for k := 0 to top + 1
      invariant inCycle <==> p < k
      invariant cycleLen == if p < k then k - p else 0
      invariant cycleNodes[..cycleLen] == if p < k then stack[p..k] else []
    {
      if stack[k] == j {
        inCycle := true;
        assert stack[..top + 1][k] == stack[..top + 1][p];
      }
      if inCycle {
        cycleNodes[cycleLen] := stack[k];
        cycleLen := cycleLen + 1;
      }
    }
    CycleOnStack(ts, stack[..top + 1], p);
    assert stack[p..top + 1] == stack[..top + 1][p..];
  }

  /** The neighbour search settles the edges it has passed. */
  lemma Passed(ts: seq<Task>, color: seq<int>, stack: seq<int>, ptr: seq<int>, order: seq<int>, j: int)
    requires stack != [] && Searching(ts, color, stack, ptr, order)
    requires 0 <= j <= |ts|
    requires forall v :: ptr[|stack| - 1] <= v < j && Edge(ts, stack[|stack| - 1], v) ==> color[v] == BLACK
    ensures Searching(ts, color, stack, ptr[|stack| - 1 := j], order)
  {
    var top := |stack| - 1;
    assert Settled(ts, stack[top], ptr[top], -1, order);
    forall k | 0 <= k < |stack| ensures Settled(ts, stack[k], ptr[top := j][k], Above(stack, k), order) {
      assert Settled(ts, stack[k], ptr[k], Above(stack, k), order);
    }
  }

  /** The search state held by the arrays; top is the place of the last stack entry. */
  ghost predicate InSearch(ts: seq<Task>, color: array<int>, stack: array<int>, edgePtr: array<int>,
                           top: int, order: seq<int>)
    reads color, stack, edgePtr
  {
    && color.Length == stack.Length == edgePtr.Length == MAX_TASKS
    && color != stack && color != edgePtr && stack != edgePtr
    && -1 <= top < |ts| <= MAX_TASKS
    && Searching(ts, color[..|ts|], stack[..top + 1], edgePtr[..top + 1], order)
    && forall k :: 0 <= k <= top ==> 0 <= edgePtr[k]
  }

  method PushVertex(ghost ts: seq<Task>, color: array<int>, stack: array<int>, edgePtr: array<int>,
                    top: int, j: int, ghost order: seq<int>, ghost pt: seq<int>)
    requires color.Length == stack.Length == edgePtr.Length == MAX_TASKS
    requires color != stack && color != edgePtr && stack != edgePtr
    requires 0 <= top < |ts| <= MAX_TASKS && |pt| == top + 1
    requires Searching(ts, color[..|ts|], stack[..top + 1], pt[top := j], order)
    requires Edge(ts, stack[top], j) && color[j] == WHITE
    requires edgePtr[..top + 1] == pt[top := j + 1]
    requires forall k :: 0 <= k <= top ==> 0 <= edgePtr[k]
    modifies color, stack, edgePtr
    ensures InSearch(ts, color, stack, edgePtr, top + 1, order)
    ensures stack[0] == old(stack[0])
  {
    ghost var c, st := color[..|ts|], stack[..top + 1];
    assert st[top] == stack[top];
    Push(ts, c, st, pt, order, j);
    StackRoom(c[j := GRAY], st + [j], order);
    color[j] := GRAY;
    stack[top + 1], edgePtr[top + 1] := j, 0;
    assert color[..|ts|] == c[j := GRAY];
    assert stack[..top + 2] == st + [j];
    assert edgePtr[..top + 2] == pt[top := j + 1] + [0];
  }

  method PushStart(ghost ts: seq<Task>, color: array<int>, stack: array<int>, edgePtr: array<int>,
                   start: int, ghost order: seq<int>)
    requires color.Length == stack.Length == edgePtr.Length == MAX_TASKS
    requires color != stack && color != edgePtr && stack != edgePtr
    requires |ts| <= MAX_TASKS && Searching(ts, color[..|ts|], [], [], order)
    requires 0 <= start < |ts| && color[start] == WHITE
    modifies color, stack, edgePtr
    ensures InSearch(ts, color, stack, edgePtr, 0, order) && stack[0] == start
  {
    ghost var c := color[..|ts|];
    Start(ts, c, order, start);
    stack[0], edgePtr[0], color[start] := start, 0, GRAY;
    assert color[..|ts|] == c[start := GRAY] && stack[..1] == [start] && edgePtr[..1] == [0];
  }

  method PopVertex(ghost ts: seq<Task>, color: array<int>, stack: array<int>, edgePtr: array<int>,
                   top: int, ghost order: seq<int>, ghost pt: seq<int>)
    requires color.Length == stack.Length == edgePtr.Length == MAX_TASKS
    requires color != stack && color != edgePtr && stack != edgePtr
    requires 0 <= top < |ts| <= MAX_TASKS && |pt| == top + 1
    requires Searching(ts, color[..|ts|], stack[..top + 1], pt, order) && pt[top] == |ts|
    requires edgePtr[..top] == pt[..top]
    requires forall k :: 0 <= k < top ==> 0 <= edgePtr[k]
    modifies color
    ensures InSearch(ts, color, stack, edgePtr, top - 1, order + [stack[top]])
  {
    ghost var c, st := color[..|ts|], stack[..top + 1];
    assert st[top] == stack[top];
    Pop(ts, c, st, pt, order);
    color[stack[top]] := BLACK;
    assert color[..|ts|] == c[st[top] := BLACK];
    assert stack[..top] == st[..top];
  }

  /** One round of the search: close a cycle, go deeper, or finish the top vertex. */
  method SearchStep(shm: SharedMemorySegment, color: array<int>, stack: array<int>, edgePtr: array<int>,
                    top: int, cycleNodes: array<int>, ghost order: seq<int>)
    returns (top': int, cycleLen: int, ghost order': seq<int>)
    requires shm.Valid() && color !in shm.Repr() && stack !in shm.Repr()
    requires edgePtr !in shm.Repr() && cycleNodes !in shm.Repr()
    requires cycleNodes != color && cycleNodes != stack && cycleNodes != edgePtr
    requires cycleNodes.Length == MAX_TASKS
    requires InSearch(shm.View().tasks, color, stack, edgePtr, top, order) && top >= 0
    modifies color, stack, edgePtr, cycleNodes
    ensures 0 <= cycleLen <= shm.taskCount
    ensures cycleLen > 0 ==> IsCycle(shm.View().tasks, cycleNodes[..cycleLen])
    ensures cycleLen == 0 ==>
              && InSearch(shm.View().tasks, color, stack, edgePtr, top', order')
              && ((top' == top + 1 && order' == order)
                  || (top' == top - 1 && order' == order + [old(stack[top])]))
              && stack[0] == old(stack[0])
  {
    hide IsCycle, FinishOrder, Settled;
    ghost var ts := shm.View().tasks;
    ghost var pt := edgePtr[..top + 1];
    top', cycleLen, order' := top, 0, order;
    assert stack[..top + 1][top] == stack[top];
    assert stack[top] in stack[..top + 1];
    var u := stack[top];
    var j := NextNeighbour(shm, u, color, edgePtr, top);
    Passed(ts, color[..|ts|], stack[..top + 1], pt, order, j);
    if j < shm.taskCount {
      if color[j] == GRAY {
        cycleLen := ExtractCycle(stack, top, j, cycleNodes, ts);
      } else {
        assert edgePtr[..top + 1] == pt[top := j + 1];
        PushVertex(ts, color, stack, edgePtr, top, j, order, pt);
        top' := top + 1;
      }
    } else {
      PopVertex(ts, color, stack, edgePtr, top, order, pt[top := j]);
      top', order' := top - 1, order + [u];
    }
  }

  lemma SearchRoom(ts: seq<Task>, color: array<int>, stack: array<int>, edgePtr: array<int>,
                   top: int, order: seq<int>)
    requires InSearch(ts, color, stack, edgePtr, top, order)
    ensures top + 1 + |order| <= |ts|
  {
    StackRoom(color[..|ts|], stack[..top + 1], order);
  }

  method SearchLoop(shm: SharedMemorySegment, color: array<int>, stack: array<int>, edgePtr: array<int>,
                    cycleNodes: array<int>, ghost order0: seq<int>)
    returns (cycleLen: int, ghost order: seq<int>)
    requires shm.Valid() && color !in shm.Repr() && stack !in shm.Repr()
    requires edgePtr !in shm.Repr() && cycleNodes !in shm.Repr()
    requires cycleNodes != color && cycleNodes != stack && cycleNodes != edgePtr
    requires cycleNodes.Length == MAX_TASKS
    requires InSearch(shm.View().tasks, color, stack, edgePtr, 0, order0)
    modifies color, stack, edgePtr, cycleNodes
    ensures 0 <= cycleLen <= shm.taskCount
    ensures cycleLen > 0 ==> IsCycle(shm.View().tasks, cycleNodes[..cycleLen])
    ensures cycleLen == 0 ==>
              && InSearch(shm.View().tasks, color, stack, edgePtr, -1, order)
              && order0 <= order && old(stack[0]) in order
  {
    ghost var ts := shm.View().tasks;
    order := order0;
    var top := 0;
    cycleLen := 0;
    while top >= 0 && cycleLen == 0
      invariant 0 <= cycleLen <= |ts|
      invariant cycleLen > 0 ==> IsCycle(ts, cycleNodes[..cycleLen])
      invariant cycleLen == 0 ==> InSearch(ts, color, stack, edgePtr, top, order) && order0 <= order
      invariant cycleLen == 0 ==> if top >= 0 then stack[0] == old(stack[0]) else old(stack[0]) in order
      decreases cycleLen == 0, 2 * (|ts| - |order|) - top
    {
      SearchRoom(ts, color, stack, edgePtr, top, order);
      top, cycleLen, order := SearchStep(shm, color, stack, edgePtr, top, cycleNodes, order);
      if cycleLen == 0 {
        SearchRoom(ts, color, stack, edgePtr, top, order);
      }
    }
  }

  /**
   Depth-first search from start. Either it finishes start and everything reachable, or
   it finds a cycle.
   */
  method SearchFrom(shm: SharedMemorySegment, start: int, color: array<int>, cycleNodes: array<int>,
                    ghost order0: seq<int>)
    returns (cycleLen: int, ghost order: seq<int>)
    requires shm.Valid() && color !in shm.Repr() && cycleNodes !in shm.Repr() && color != cycleNodes
    requires color.Length == cycleNodes.Length == MAX_TASKS
    requires Searching(shm.View().tasks, color[..shm.taskCount], [], [], order0)
    requires 0 <= start < shm.taskCount && color[start] == WHITE
    modifies color, cycleNodes
    ensures 0 <= cycleLen <= shm.taskCount
    ensures cycleLen > 0 ==> IsCycle(shm.View().tasks, cycleNodes[..cycleLen])
    ensures cycleLen == 0 ==>
              && Searching(shm.View().tasks, color[..shm.taskCount], [], [], order)
              && order0 <= order && start in order
  {
    ghost var ts := shm.View().tasks;
    order := order0;
    var stack, edgePtr := new int[MAX_TASKS], new int[MAX_TASKS];
    PushStart(ts, color, stack, edgePtr, start, order);
    cycleLen, order := SearchLoop(shm, color, stack, edgePtr, cycleNodes, order);
    assert stack[..0] == [] && edgePtr[..0] == [];
  }

  function BlockedCount(ts: seq<Task>): nat {
    if ts == [] then 0
    else BlockedCount(ts[..|ts| - 1]) + (if ts[|ts| - 1].state == Blocked then 1 else 0)
  }

  lemma {:induction false} AbortDropsBlocked(ts: seq<Task>, v: int)
    requires 0 <= v < |ts| && ts[v].state == Blocked
    ensures BlockedCount(ts[v := Aborted(ts[v])]) == BlockedCount(ts) - 1
  {
    var front := ts[..|ts| - 1];
    if v < |ts| - 1 {
      AbortDropsBlocked(front, v);
      assert ts[v := Aborted(ts[v])][..|ts| - 1] == front[v := Aborted(ts[v])];
    } else {
      assert ts[v := Aborted(ts[v])][..|ts| - 1] == front;
    }
  }

  /** The preferred victim among the members of the cycle. */
  method ChooseVictim(shm: SharedMemorySegment, cycleNodes: array<int>, cycleLen: int) returns (best: int)
    requires shm.Valid() && DistinctIds(shm.View().tasks)
    requires 0 < cycleLen <= cycleNodes.Length
    requires IsCycle(shm.View().tasks, cycleNodes[..cycleLen])
    ensures IsVictimOf(shm.View().tasks, cycleNodes[..cycleLen], best)
    ensures LeastOf(shm.View().tasks, cycleNodes[..cycleLen], best)
  {
    ghost var ts, c := shm.View().tasks, cycleNodes[..cycleLen];
    ClosedWalkBlocked(ts, c);
    assert forall a :: 0 <= a < cycleLen ==> c[a] in c;
    best := cycleNodes[0];
    ghost var at := 0;
    for k := 1 to cycleLen
      invariant 0 <= at < k && best == c[at]
      invariant forall a :: 0 <= a < k && a != at ==> Before(ts[best], ts[c[a]])
    {
      assert c[k] != best;
      var curr, b := shm.tasks[cycleNodes[k]], shm.tasks[best];
      assert curr.id != b.id;
      if curr.effectivePriority < b.effectivePriority {
        best, at := cycleNodes[k], k;
      } else if curr.effectivePriority == b.effectivePriority {
        if curr.remainingTime > b.remainingTime {
          best, at := cycleNodes[k], k;
        } else if curr.remainingTime == b.remainingTime {
          if curr.id < b.id {
            best, at := cycleNodes[k], k;
          }
        }
      }
    }
    VictimIsLeast(ts, c, best);
  }

  method AbortTask(shm: SharedMemorySegment, v: int)
    requires shm.Valid() && 0 <= v < shm.taskCount
    modifies shm.Repr()
    ensures shm.Valid() && shm.View() == Abort(old(shm.View()), v)
    ensures shm.taskCount == old(shm.taskCount)
  {
    var victim := shm.tasks[v];
    victim := victim.(state := DeadlockAborted);
    victim := victim.(held := {});
    victim := victim.(remainingTime := 0);
    shm.SetTask(v, victim);
    var _ := shm.RemoveBlocked(v);
    var _ := shm.RemoveReady(v);
    if shm.runningTaskId == victim.id {
      shm.runningTaskId := -1;
    }
  }

  lemma AbortVictim(s: Segment, victims: seq<int>, c: seq<int>, v: int)
    requires Justified(s, victims)
    requires var ts := AbortAll(s, victims).tasks; DistinctIds(ts) && IsCycle(ts, c) && IsVictimOf(ts, c, v)
    ensures Justified(s, victims + [v])
    ensures var t, t' := AbortAll(s, victims), AbortAll(s, victims + [v]);
            && t' == Abort(t, v) && |t'.tasks| == |t.tasks| && DistinctIds(t'.tasks)
            && BlockedCount(t'.tasks) == BlockedCount(t.tasks) - 1
  {
    var ts := AbortAll(s, victims).tasks;
    CycleLength(ts, c);
    ClosedWalkBlocked(ts, c);
    JustifiedStep(s, victims, v);
    AbortAllStep(s, victims, v);
    AbortDropsBlocked(ts, v);
  }

  /** Aborts the victim of the cycle found. */
  method ResolveCycle(shm: SharedMemorySegment, cycleNodes: array<int>, cycleLen: int,
                      ghost s: Segment, ghost victims: seq<int>) returns (v: int)
    requires shm.Valid() && DistinctIds(shm.View().tasks)
    requires 0 < cycleLen <= cycleNodes.Length && cycleNodes !in shm.Repr()
    requires IsCycle(shm.View().tasks, cycleNodes[..cycleLen])
    requires shm.View() == AbortAll(s, victims) && Justified(s, victims)
    modifies shm.Repr()
    ensures shm.Valid() && DistinctIds(shm.View().tasks) && shm.taskCount == old(shm.taskCount)
    ensures shm.View() == AbortAll(s, victims + [v]) && Justified(s, victims + [v])
    ensures BlockedCount(shm.View().tasks) == BlockedCount(old(shm.View()).tasks) - 1
  {
    v := ChooseVictim(shm, cycleNodes, cycleLen);
    AbortVictim(s, victims, cycleNodes[..cycleLen], v);
    AbortTask(shm, v);
  }

  method ClearColors(color: array<int>)
    modifies color
    ensures forall v :: 0 <= v < color.Length ==> color[v] == WHITE
  {
    for i := 0 to color.Length
      invariant forall v :: 0 <= v < i ==> color[v] == WHITE
    {
      color[i] := WHITE;
    }
  }

  /** cur is what the victims so far have made of s. */
  ghost predicate Resolving(s: Segment, cur: Segment, victims: seq<int>) {
    && DistinctIds(cur.tasks) && |cur.tasks| == |s.tasks|
    && cur == AbortAll(s, victims) && Justified(s, victims)
    && |victims| == BlockedCount(s.tasks) - BlockedCount(cur.tasks)
  }

  /** The search has finished every BLOCKED task below startIdx without finding a cycle. */
  ghost predicate Scanned(ts: seq<Task>, color: seq<int>, order: seq<int>, startIdx: int) {
    && Searching(ts, color, [], [], order)
    && forall i :: 0 <= i < startIdx <= |ts| && ts[i].state == Blocked ==> i in order
  }

  lemma ScanSkips(ts: seq<Task>, color: seq<int>, order: seq<int>, startIdx: int)
    requires 0 <= startIdx < |ts| && Scanned(ts, color, order, startIdx)
    requires ts[startIdx].state != Blocked || color[startIdx] != WHITE
    ensures Scanned(ts, color, order, startIdx + 1)
  {
  }

  lemma ScanExtends(ts: seq<Task>, color: seq<int>, color': seq<int>, order: seq<int>, order': seq<int>, startIdx: int)
    requires 0 <= startIdx < |ts| && Scanned(ts, color, order, startIdx)
    requires Searching(ts, color', [], [], order') && order <= order' && startIdx in order'
    ensures Scanned(ts, color', order', startIdx + 1)
  {
    forall i | 0 <= i < startIdx + 1 && ts[i].state == Blocked ensures i in order' {
      if i < startIdx {
        assert i in order;
      }
    }
  }

  /** One start index: skip it, search from it in vain, or abort the victim of the cycle found. */
  method VisitStart(shm: SharedMemorySegment, startIdx: int, color: array<int>, cycleNodes: array<int>,
                    ghost s: Segment, ghost victims: seq<int>, ghost order: seq<int>)
    returns (aborted: bool, ghost victims': seq<int>, ghost order': seq<int>)
    requires shm.Valid() && color !in shm.Repr() && cycleNodes !in shm.Repr() && color != cycleNodes
    requires color.Length == cycleNodes.Length == MAX_TASKS
    requires 0 <= startIdx < shm.taskCount
    requires Resolving(s, shm.View(), victims)
    requires Scanned(shm.View().tasks, color[..shm.taskCount], order, startIdx)
    modifies shm.Repr(), color, cycleNodes
    ensures shm.Valid() && Resolving(s, shm.View(), victims') && shm.taskCount == old(shm.taskCount)
    ensures aborted ==> |victims'| == |victims| + 1
    ensures !aborted ==>
              && shm.View() == old(shm.View()) && victims' == victims
              && Scanned(shm.View().tasks, color[..shm.taskCount], order', startIdx + 1)
  {
    aborted, victims', order' := false, victims, order;
    ghost var cur, cs := shm.View(), color[..shm.taskCount];
    assert cs[startIdx] == color[startIdx];
    if shm.tasks[startIdx].state != Blocked {
      ScanSkips(cur.tasks, cs, order, startIdx);
    } else if color[startIdx] != WHITE {
      ScanSkips(cur.tasks, cs, order, startIdx);
    } else {
      var cycleLen;
      cycleLen, order' := SearchFrom(shm, startIdx, color, cycleNodes, order);
      if cycleLen > 0 {
        var v := ResolveCycle(shm, cycleNodes, cycleLen, s, victims);
        aborted, victims' := true, victims + [v];
      } else {
        ScanExtends(cur.tasks, cs, color[..shm.taskCount], order, order', startIdx);
      }
    }
  }

  lemma ScanStarts(ts: seq<Task>, color: seq<int>)
    requires |color| == |ts| && forall v :: 0 <= v < |color| ==> color[v] == WHITE
    ensures Scanned(ts, color, [], 0)
  {
  }

  method Restart(shm: SharedMemorySegment, color: array<int>)
    requires shm.Valid() && color !in shm.Repr() && color.Length == MAX_TASKS
    modifies color
    ensures shm.Valid() && shm.View() == old(shm.View())
    ensures Scanned(shm.View().tasks, color[..shm.taskCount], [], 0)
  {
    ClearColors(color);
    ScanStarts(shm.View().tasks, color[..shm.taskCount]);
  }

  /** As VisitStart, and after an abort the scan starts over. */
  method ScanRound(shm: SharedMemorySegment, startIdx: int, color: array<int>, cycleNodes: array<int>,
                   ghost s: Segment, ghost victims: seq<int>, ghost order: seq<int>)
    returns (aborted: bool, next: int, ghost victims': seq<int>, ghost order': seq<int>)
    requires shm.Valid() && color !in shm.Repr() && cycleNodes !in shm.Repr() && color != cycleNodes
    requires color.Length == cycleNodes.Length == MAX_TASKS
    requires 0 <= startIdx < shm.taskCount
    requires Resolving(s, shm.View(), victims)
    requires Scanned(shm.View().tasks, color[..shm.taskCount], order, startIdx)
    modifies shm.Repr(), color, cycleNodes
    ensures shm.Valid() && Resolving(s, shm.View(), victims') && shm.taskCount == old(shm.taskCount)
    ensures Scanned(shm.View().tasks, color[..shm.taskCount], order', next)
    ensures if aborted then |victims'| == |victims| + 1 && next == 0
            else victims' == victims && next == startIdx + 1
  {
    aborted, victims', order' := VisitStart(shm, startIdx, color, cycleNodes, s, victims, order);
    next := startIdx + 1;
    if aborted {
      Restart(shm, color);
      order', next := [], 0;
    }
  }

  lemma ScanComplete(s: Segment, cur: Segment, victims: seq<int>, color: seq<int>, order: seq<int>)
    requires Resolving(s, cur, victims) && Scanned(cur.tasks, color, order, |cur.tasks|)
    ensures Resolves(s, victims)
  {
    FinishOrderAcyclic(cur.tasks, order);
  }

  method ScanAll(shm: SharedMemorySegment, color: array<int>, cycleNodes: array<int>)
    returns (resolved: int, ghost victims: seq<int>)
    requires shm.Valid() && color !in shm.Repr() && cycleNodes !in shm.Repr() && color != cycleNodes
    requires color.Length == cycleNodes.Length == MAX_TASKS
    requires Resolving(shm.View(), shm.View(), [])
    requires Scanned(shm.View().tasks, color[..shm.taskCount], [], 0)
    modifies shm.Repr(), color, cycleNodes
    ensures shm.Valid()
    ensures Resolving(old(shm.View()), shm.View(), victims)
    ensures Resolves(old(shm.View()), victims) && resolved == |victims|
  {
    ghost var s := shm.View();
    resolved, victims := 0, [];
    ghost var order: seq<int> := [];
    var startIdx := 0;
    while startIdx < shm.taskCount
      invariant shm.Valid() && Resolving(s, shm.View(), victims) && resolved == |victims|
      invariant 0 <= startIdx <= shm.taskCount == |s.tasks|
      invariant Scanned(shm.View().tasks, color[..shm.taskCount], order, startIdx)
      decreases BlockedCount(s.tasks) - |victims|, |s.tasks| - startIdx
    {
      var aborted;
      aborted, startIdx, victims, order := ScanRound(shm, startIdx, color, cycleNodes, s, victims, order);
      if aborted {
        resolved := resolved + 1;
      }
    }
    ScanComplete(s, shm.View(), victims, color[..shm.taskCount], order);
  }

  /**
   Aborts one victim of one deadlock after the other until there is none. The ghost result
   lists the victims in order; there are as many as the drop in BLOCKED tasks.
   */
  method DetectAndResolveDeadlocks(shm: SharedMemorySegment) returns (resolved: int, ghost victims: seq<int>)
    requires shm.Valid() && DistinctIds(shm.View().tasks)
    modifies shm.Repr()
    ensures shm.Valid()
    ensures Resolves(old(shm.View()), victims) && AbortsLeast(old(shm.View()), victims)
    ensures shm.View() == AbortAll(old(shm.View()), victims)
    ensures resolved == |victims|
    ensures resolved == BlockedCount(old(shm.View()).tasks) - BlockedCount(shm.View().tasks)
  {
    var color, cycleNodes := new int[MAX_TASKS], new int[MAX_TASKS];
    Restart(shm, color);
    ghost var s := shm.View();
    resolved, victims := ScanAll(shm, color, cycleNodes);
    JustifiedAbortsLeast(s, victims);
  }
}
