/** What the allocation pass does, in terms of the tasks' fields and the order of the queues. */
module PassProofs {
  import opened Model
  import opened Seqs
  import opened StableSort
  import opened CycleSpec
  import opened Invariant
  import opened CycleProofs

  /**
   The k-th task in the queue finds bit b taken: a task held it when the pass began, or one
   served before holds it now.
   */
  ghost predicate TakenBefore(ts: seq<Task>, ts': seq<Task>, q: seq<int>, k: int, b: Bit) {
    || (exists j :: Holds(ts, j, b))
    || (exists m :: 0 <= m < k <= |q| && 0 <= q[m] < |ts'| && b in ts'[q[m]].held)
  }

  /** Everything the task misses is taken, and it gets nothing. */
  ghost predicate GetsNothing(ts: seq<Task>, ts': seq<Task>, q: seq<int>, k: int, t: Task, t': Task) {
    t'.held == t.held && forall b :: b in t.required - t.held ==> TakenBefore(ts, ts', q, k, b)
  }

  /** The task gets bit b: of those it misses, the lowest that is not taken. */
  ghost predicate GetsBit(ts: seq<Task>, ts': seq<Task>, q: seq<int>, k: int, t: Task, t': Task, b: Bit) {
    && t'.held == t.held + {b}
    && b in t.required - t.held && !TakenBefore(ts, ts', q, k, b)
    && forall c :: c in t.required - t.held && c < b ==> TakenBefore(ts, ts', q, k, c)
  }

  /** The k-th task in the queue is served: one bit if there is one for it, and READY when complete. */
  ghost predicate ServedAt(ts: seq<Task>, ts': seq<Task>, q: seq<int>, k: int)
    requires 0 <= k < |q| && 0 <= q[k] < |ts| && |ts'| == |ts|
  {
    var t, t' := ts[q[k]], ts'[q[k]];
    && t' == t.(state := t'.state, held := t'.held)
    && t'.state == (if t'.held == t'.required then Ready else Blocked)
    && (GetsNothing(ts, ts', q, k, t, t') || exists b :: GetsBit(ts, ts', q, k, t, t', b))
  }

  /** The first n tasks of q have been served in their order, and nobody else. */
  ghost predicate Served(ts: seq<Task>, ts': seq<Task>, q: seq<int>, n: int) {
    && |ts'| == |ts| && 0 <= n <= |q| && InRange(q, |ts|)
    && (forall i :: 0 <= i < |ts| && i !in q[..n] ==> ts'[i] == ts[i])
    && (forall k :: 0 <= k < n ==> ServedAt(ts, ts', q, k))
  }

  /** The members of q that are (not) READY, in their order. */
  function Among(ts: seq<Task>, q: seq<int>, ready: bool): (r: seq<int>)
    ensures forall i :: i in r <==> i in q && 0 <= i < |ts| && (ts[i].state == Ready <==> ready)
  {
    if q == [] then []
    else
      var i := q[|q| - 1];
      Among(ts, q[..|q| - 1], ready)
      + if 0 <= i < |ts| && (ts[i].state == Ready <==> ready) then [i] else []
  }

  lemma {:induction false} AmongSame(ts: seq<Task>, ts': seq<Task>, q: seq<int>, ready: bool)
    requires |ts'| == |ts| && forall i :: i in q && 0 <= i < |ts| ==> ts'[i] == ts[i]
    ensures Among(ts', q, ready) == Among(ts, q, ready)
  {
    if q != [] {
      AmongSame(ts, ts', q[..|q| - 1], ready);
    }
  }

  lemma AmongStep(ts: seq<Task>, q: seq<int>, n: int, ready: bool)
    requires 0 <= n < |q| && 0 <= q[n] < |ts|
    ensures Among(ts, q[..n + 1], ready) ==
            Among(ts, q[..n], ready) + if ts[q[n]].state == Ready <==> ready then [q[n]] else []
  {
    assert q[..n + 1][..n] == q[..n];
  }

  /** The bits recorded as taken are those that the next task finds taken. */
  ghost predicate TakenKnown(ts: seq<Task>, m: Pass, q: seq<int>, n: int) {
    forall b :: b in m.taken <==> TakenBefore(ts, m.seg.tasks, q, n, b)
  }

  /** Something was granted exactly if the pass says so. */
  ghost predicate ProgressKnown(ts: seq<Task>, m: Pass, q: seq<int>, n: int) {
    && |m.seg.tasks| == |ts| && InRange(q, |ts|) && 0 <= n <= |q|
    && (m.progress <==> exists k :: 0 <= k < n && m.seg.tasks[q[k]].held != ts[q[k]].held)
  }

  /** Those not READY are queued again, behind those still to be served, in their order. */
  predicate StillQueued(m: Pass, q: seq<int>, n: int) {
    0 <= n <= |q| && m.seg.blocked == q[n..] + Among(m.seg.tasks, q[..n], false)
  }

  /** Those READY have joined the ready queue one after the other, each behind its equals. */
  ghost predicate Joined(ready: seq<int>, m: Pass, q: seq<int>, n: int) {
    0 <= n <= |q| && IsStableSort(m.seg.tasks, ready + Among(m.seg.tasks, q[..n], true), m.seg.ready)
  }

  ghost predicate Serving(s: Segment, m: Pass, n: int) {
    && Served(s.tasks, m.seg.tasks, s.blocked, n)
    && TakenKnown(s.tasks, m, s.blocked, n)
    && ProgressKnown(s.tasks, m, s.blocked, n)
    && StillQueued(m, s.blocked, n)
    && Joined(s.ready, m, s.blocked, n)
  }

  // ---- one visit ----

  lemma TakenBeforeSame(ts: seq<Task>, a: seq<Task>, i: int, t: Task, q: seq<int>, k: int, b: Bit)
    requires 0 <= i < |a| && k <= |q| && forall m :: 0 <= m < k ==> q[m] != i
    ensures TakenBefore(ts, a[i := t], q, k, b) <==> TakenBefore(ts, a, q, k, b)
  {
    assert forall m :: 0 <= m < k && 0 <= q[m] < |a| ==> a[i := t][q[m]] == a[q[m]];
  }

  /** A later visit does not change how a task was served. */
  lemma ServedAtStays(ts: seq<Task>, a: seq<Task>, i: int, t: Task, q: seq<int>, k: int)
    requires |a| == |ts| && 0 <= k < |q| && 0 <= q[k] < |ts| && ServedAt(ts, a, q, k)
    requires 0 <= i < |a| && forall m :: 0 <= m <= k ==> q[m] != i
    ensures ServedAt(ts, a[i := t], q, k)
  {
    hide TakenBefore;
    forall b ensures TakenBefore(ts, a[i := t], q, k, b) <==> TakenBefore(ts, a, q, k, b) {
      TakenBeforeSame(ts, a, i, t, q, k, b);
    }
    var u, u' := ts[q[k]], a[q[k]];
    if !GetsNothing(ts, a, q, k, u, u') {
      var b :| GetsBit(ts, a, q, k, u, u', b);
      assert GetsBit(ts, a[i := t], q, k, u, u', b);
    }
  }

  lemma OneBit(g: Mask, b: Bit)
    requires |g| <= 1 && b in g
    ensures g == {b}
  {
    if g != {b} {
      SubsetCardinality({b}, g);
      var c :| c in g && c != b;
      SubsetCardinality({b, c}, g);
    }
  }

  /** The bit granted is the lowest missing one that is free. */
  lemma GrantedBit(missing: Mask, taken: Mask, b: Bit)
    requires b in Grant(missing, taken)
    ensures Grant(missing, taken) == {b} && b in missing && b !in taken
    ensures forall c :: c in missing && c < b ==> c in taken
  {
    OneBit(Grant(missing, taken), b);
    assert forall c :: c in missing && c !in taken ==> c in missing - taken;
  }

  lemma VisitedGets(t: Task, taken: Mask)
    requires TaskOk(t) && Waiting(t)
    ensures var t' := Visited(t, taken);
            && t' == t.(state := t'.state, held := t.held + Grant(t.required - t.held, taken))
            && t'.state == (if t'.held == t'.required then Ready else Blocked)
            && t'.effectivePriority == t.effectivePriority
  {
  }

  /** What Visited gives is what the task is to get. */
  lemma VisitServes(ts: seq<Task>, m: Pass, q: seq<int>, n: int)
    requires 0 <= n < |q| && NoDup(q) && InRange(q, |ts|) && |m.seg.tasks| == |ts|
    requires m.seg.tasks[q[n]] == ts[q[n]] && TaskOk(ts[q[n]]) && Waiting(ts[q[n]]) && TakenKnown(ts, m, q, n)
    ensures ServedAt(ts, m.seg.tasks[q[n] := Visited(ts[q[n]], m.taken)], q, n)
  {
    hide TakenBefore, TaskOk, Visited, Grant;
    var i, t := q[n], ts[q[n]];
    var t' := Visited(t, m.taken);
    var ts' := m.seg.tasks[i := t'];
    forall b ensures TakenBefore(ts, ts', q, n, b) <==> b in m.taken {
      TakenBeforeSame(ts, m.seg.tasks, i, t', q, n, b);
    }
    VisitedGets(t, m.taken);
    var g := Grant(t.required - t.held, m.taken);
    if g == {} {
      assert t.held + {} == t.held;
      assert GetsNothing(ts, ts', q, n, t, t');
    } else {
      var b :| b in g;
      GrantedBit(t.required - t.held, m.taken, b);
      assert GetsBit(ts, ts', q, n, t, t', b);
    }
  }

  lemma VisitServed(ts: seq<Task>, m: Pass, q: seq<int>, n: int)
    requires Served(ts, m.seg.tasks, q, n) && n < |q| && NoDup(q)
    requires TaskOk(ts[q[n]]) && Waiting(ts[q[n]]) && TakenKnown(ts, m, q, n)
    ensures m.seg.tasks[q[n]] == ts[q[n]]
    ensures Served(ts, m.seg.tasks[q[n] := Visited(ts[q[n]], m.taken)], q, n + 1)
  {
    hide TakenBefore, TaskOk, ServedAt, Visited;
    var i, ts' := q[n], m.seg.tasks[q[n] := Visited(ts[q[n]], m.taken)];
    assert i !in q[..n];
    VisitServes(ts, m, q, n);
    forall k | 0 <= k < n + 1 ensures ServedAt(ts, ts', q, k) {
      if k < n {
        ServedAtStays(ts, m.seg.tasks, i, Visited(ts[i], m.taken), q, k);
      }
    }
    assert q[..n + 1] == q[..n] + [i];
  }

  lemma TakenBeforeNext(ts: seq<Task>, ts': seq<Task>, q: seq<int>, n: int, b: Bit)
    requires 0 <= n < |q| && 0 <= q[n] < |ts'|
    ensures TakenBefore(ts, ts', q, n + 1, b) <==> TakenBefore(ts, ts', q, n, b) || b in ts'[q[n]].held
  {
  }

  lemma VisitTaken(ts: seq<Task>, m: Pass, q: seq<int>, n: int, m': Pass)
    requires 0 <= n < |q| && NoDup(q) && InRange(q, |ts|) && |m.seg.tasks| == |ts| && m.seg.tasks[q[n]] == ts[q[n]]
    requires TaskOk(ts[q[n]]) && Waiting(ts[q[n]]) && TakenKnown(ts, m, q, n)
    requires m'.seg.tasks == m.seg.tasks[q[n] := Visited(ts[q[n]], m.taken)]
    requires m'.taken == m.taken + Grant(ts[q[n]].required - ts[q[n]].held, m.taken)
    ensures TakenKnown(ts, m', q, n + 1)
  {
    hide Visited, Grant, TaskOk;
    var i, t := q[n], ts[q[n]];
    VisitedGets(t, m.taken);
    forall b ensures b in m'.taken <==> TakenBefore(ts, m'.seg.tasks, q, n + 1, b) {
      TakenBeforeSame(ts, m.seg.tasks, i, Visited(t, m.taken), q, n, b);
      TakenBeforeNext(ts, m'.seg.tasks, q, n, b);
      if b in t.held {
        assert Holds(ts, i, b);
      }
    }
  }

  lemma GrantMissing(t: Task, taken: Mask)
    ensures var g := Grant(t.required - t.held, taken); g == {} <==> t.held + g == t.held
  {
    var g := Grant(t.required - t.held, taken);
    assert forall b :: b in g ==> b in t.held + g && b !in t.held;
  }

  lemma VisitProgressKnown(ts: seq<Task>, m: Pass, q: seq<int>, n: int, m': Pass)
    requires 0 <= n < |q| && NoDup(q) && ProgressKnown(ts, m, q, n) && m.seg.tasks[q[n]] == ts[q[n]]
    requires TaskOk(ts[q[n]]) && Waiting(ts[q[n]])
    requires m'.seg.tasks == m.seg.tasks[q[n] := Visited(ts[q[n]], m.taken)]
    requires m'.progress == (m.progress || Grant(ts[q[n]].required - ts[q[n]].held, m.taken) != {})
    ensures ProgressKnown(ts, m', q, n + 1)
  {
    hide Visited, Grant, TaskOk;
    var t := ts[q[n]];
    VisitedGets(t, m.taken);
    GrantMissing(t, m.taken);
    assert forall k :: 0 <= k < n ==> m'.seg.tasks[q[k]] == m.seg.tasks[q[k]];
    assert m'.seg.tasks[q[n]] == Visited(t, m.taken);
  }

  lemma NotBefore(q: seq<int>, n: int)
    requires NoDup(q) && 0 <= n < |q|
    ensures q[n] !in q[..n]
  {
  }

  /** One more task of the queue has been looked at. */
  lemma AmongGrows(ts: seq<Task>, ts': seq<Task>, q: seq<int>, n: int, ready: bool)
    requires NoDup(q) && 0 <= n < |q| && InRange(q, |ts|) && |ts'| == |ts|
    requires forall i :: 0 <= i < |ts| && i != q[n] ==> ts'[i] == ts[i]
    ensures Among(ts', q[..n + 1], ready) ==
            Among(ts, q[..n], ready) + if ts'[q[n]].state == Ready <==> ready then [q[n]] else []
  {
    hide Among, NoDup;
    NotBefore(q, n);
    AmongSame(ts, ts', q[..n], ready);
    AmongStep(ts', q, n, ready);
  }

  lemma VisitQueued(m: Pass, q: seq<int>, n: int, m': Pass)
    requires StillQueued(m, q, n) && n < |q| && NoDup(q) && InRange(q, |m.seg.tasks|)
    requires |m'.seg.tasks| == |m.seg.tasks|
    requires forall i :: 0 <= i < |m.seg.tasks| && i != q[n] ==> m'.seg.tasks[i] == m.seg.tasks[i]
    requires m'.seg.blocked == m.seg.blocked[1..] + if m'.seg.tasks[q[n]].state == Ready then [] else [q[n]]
    ensures StillQueued(m', q, n + 1)
  {
    hide Among, NoDup;
    AmongGrows(m.seg.tasks, m'.seg.tasks, q, n, false);
    var a, x := Among(m.seg.tasks, q[..n], false), if m'.seg.tasks[q[n]].state == Ready then [] else [q[n]];
    assert q[n..] == [q[n]] + q[n + 1..];
    assert (q[n..] + a)[1..] == q[n + 1..] + a;
    ConcatAssociative(q[n + 1..], a, x);
  }

  lemma StableSortSame(ts: seq<Task>, ts': seq<Task>, q: seq<int>, r: seq<int>)
    requires IsStableSort(ts, q, r) && forall i :: Prio(ts', i) == Prio(ts, i)
    ensures IsStableSort(ts', q, r)
  {
    forall k ensures Class(ts', r, k) == Class(ts', q, k) {
      ClassAgrees(ts, ts', q, k);
      ClassAgrees(ts, ts', r, k);
    }
  }

  /** Sorting in one more element keeps the stable order of all that have come. */
  lemma StableSortGrows(ts: seq<Task>, q: seq<int>, r: seq<int>, x: int)
    requires IsStableSort(ts, q, r)
    ensures IsStableSort(ts, q + [x], Sorted(ts, r + [x]))
  {
    hide Prio, Class, Sorted;
    SortedIsStableSort(ts, r + [x]);
    forall k ensures Class(ts, Sorted(ts, r + [x]), k) == Class(ts, q + [x], k) {
      ClassConcat(ts, q, [x], k);
      ClassConcat(ts, r, [x], k);
    }
  }

  lemma VisitJoined(ready: seq<int>, m: Pass, q: seq<int>, n: int, m': Pass)
    requires Joined(ready, m, q, n) && n < |q| && NoDup(q) && InRange(q, |m.seg.tasks|)
    requires |m'.seg.tasks| == |m.seg.tasks|
    requires forall i :: 0 <= i < |m.seg.tasks| && i != q[n] ==> m'.seg.tasks[i] == m.seg.tasks[i]
    requires m'.seg.tasks[q[n]].effectivePriority == m.seg.tasks[q[n]].effectivePriority
    requires m'.seg.ready == if m'.seg.tasks[q[n]].state == Ready then Sorted(m'.seg.tasks, m.seg.ready + [q[n]])
                             else m.seg.ready
    ensures Joined(ready, m', q, n + 1)
  {
    hide IsStableSort, Sorted, Among, NoDup;
    var i, a := q[n], Among(m.seg.tasks, q[..n], true);
    AmongGrows(m.seg.tasks, m'.seg.tasks, q, n, true);
    StableSortSame(m.seg.tasks, m'.seg.tasks, ready + a, m.seg.ready);
    if m'.seg.tasks[i].state == Ready {
      StableSortGrows(m'.seg.tasks, ready + a, m.seg.ready, i);
      ConcatAssociative(ready, a, [i]);
    } else {
      assert a + [] == a;
    }
  }

  /** One visit, queues included. */
  lemma VisitQueues(m: Pass, i: int)
    requires Located(m.seg, {i}) && |m.seg.tasks| <= MAX_TASKS && 0 <= i < |m.seg.tasks|
    ensures var m' := GiveOne(m, i);
            var t' := Visited(m.seg.tasks[i], m.taken);
            && m'.seg.ready == (if t'.state == Ready then Sorted(m'.seg.tasks, m.seg.ready + [i]) else m.seg.ready)
            && m'.seg.blocked == m.seg.blocked + (if t'.state == Ready then [] else [i])
            && m'.progress == (m.progress || Grant(m.seg.tasks[i].required - m.seg.tasks[i].held, m.taken) != {})
  {
    EnqueueRoom(m.seg.ready, i, |m.seg.tasks|);
    EnqueueRoom(m.seg.blocked, i, |m.seg.tasks|);
    var t' := Visited(m.seg.tasks[i], m.taken);
    assert t'.state == Ready ==> t'.(state := Ready) == t';
  }

  lemma TableSize(m: Pass)
    requires PassOk(m)
    ensures |m.seg.tasks| <= MAX_TASKS
  {
  }

  /** What a visit of the head of the blocked queue does. */
  lemma VisitEffect(m: Pass)
    requires PassOk(m) && m.seg.blocked != []
    ensures var i, m' := m.seg.blocked[0], AllocateHead(m);
            && 0 <= i < |m.seg.tasks| && Waiting(m.seg.tasks[i]) && TaskOk(m.seg.tasks[i])
            && var t, t' := m.seg.tasks[i], Visited(m.seg.tasks[i], m.taken);
               && m'.seg.tasks == m.seg.tasks[i := t']
               && m'.taken == m.taken + Grant(t.required - t.held, m.taken)
               && m'.progress == (m.progress || Grant(t.required - t.held, m.taken) != {})
               && m'.seg.ready == (if t'.state == Ready then Sorted(m'.seg.tasks, m.seg.ready + [i]) else m.seg.ready)
               && m'.seg.blocked == m.seg.blocked[1..] + (if t'.state == Ready then [] else [i])
  {
    hide GiveOne, Visited, Grant, Sorted, Located, TaskOk, AllocateHead;
    VisitHead(m);
    TableSize(m);
    HeadGives(m, m.seg.blocked[0]);
    VisitTasks(Popped(m), m.seg.blocked[0]);
    VisitQueues(Popped(m), m.seg.blocked[0]);
  }

  // ---- the whole pass ----

  lemma ServingStep(s: Segment, m: Pass, n: int)
    requires PassOk(m) && Serving(s, m, n) && n < |s.blocked| && NoDup(s.blocked)
    ensures Serving(s, AllocateHead(m), n + 1)
  {
    hide PassOk, ServedAt, TakenBefore, Grant, Visited, Sorted, TaskOk, AllocateHead, TakenKnown, ProgressKnown, Joined;
    var q, m' := s.blocked, AllocateHead(m);
    var i := q[n];
    assert q[n..][0] == i;
    assert m.seg.blocked[0] == i;
    VisitEffect(m);
    assert i !in q[..n];
    VisitedGets(m.seg.tasks[i], m.taken);
    VisitServed(s.tasks, m, q, n);
    VisitTaken(s.tasks, m, q, n, m');
    VisitProgressKnown(s.tasks, m, q, n, m');
    VisitQueued(m, q, n, m');
    VisitJoined(s.ready, m, q, n, m');
  }

  lemma ServingStart(s: Segment)
    requires Sound(s) && Located(s, {}) && Descending(s.tasks, s.ready)
    ensures Serving(s, PassStart(s), 0)
  {
    PassStartOk(s);
    var p := PassStart(s);
    forall b ensures b in p.taken <==> TakenBefore(s.tasks, p.seg.tasks, s.blocked, 0, b) {
      HeldUnionMember(s.tasks, b);
    }
    assert s.blocked[0..] == s.blocked;
    assert s.ready + [] == s.ready;
  }

  lemma {:induction false} PassServing(s: Segment, n: nat)
    requires Sound(s) && Located(s, {}) && Descending(s.tasks, s.ready) && n <= |s.blocked|
    ensures Serving(s, AllocateN(PassStart(s), n), n)
  {
    hide Serving, PassOk, AllocateHead, Sound, PassStart;
    if n == 0 {
      ServingStart(s);
    } else {
      PassServing(s, n - 1);
      PassStartOk(s);
      PassKeepsOk(PassStart(s), n - 1);
      ServingStep(s, AllocateN(PassStart(s), n - 1), n - 1);
    }
  }

  /** The pass serves every task that was queued, in the order of the queue, and tells whether it gave anything. */
  lemma PassServesAll(s: Segment)
    requires Sound(s) && Located(s, {}) && Descending(s.tasks, s.ready)
    ensures var s', q := Allocation(s).seg, s.blocked;
            && Served(s.tasks, s'.tasks, q, |q|)
            && s'.blocked == Among(s'.tasks, q, false)
            && IsStableSort(s'.tasks, s.ready + Among(s'.tasks, q, true), s'.ready)
            && (Allocation(s).progress <==> exists k :: 0 <= k < |q| && s'.tasks[q[k]].held != s.tasks[q[k]].held)
  {
    hide ServedAt, TakenKnown;
    PassServing(s, |s.blocked|);
    assert s.blocked[..|s.blocked|] == s.blocked;
  }

  lemma TakenLater(ts: seq<Task>, ts': seq<Task>, q: seq<int>, k: int, n: int, b: Bit)
    requires k <= n <= |q| && TakenBefore(ts, ts', q, k, b)
    ensures TakenBefore(ts, ts', q, n, b)
  {
  }

  /** What a task found taken is held by somebody after the pass. */
  lemma StillHeld(s: Segment, k: int, b: Bit)
    requires Sound(s) && Located(s, {}) && Descending(s.tasks, s.ready) && k <= |s.blocked|
    requires TakenBefore(s.tasks, Allocation(s).seg.tasks, s.blocked, k, b)
    ensures exists j :: Holds(Allocation(s).seg.tasks, j, b)
  {
    hide Sound, Located, Served, ProgressKnown, StillQueued, Joined, TakenBefore;
    PassServing(s, |s.blocked|);
    PassStartOk(s);
    PassKeepsOk(PassStart(s), |s.blocked|);
    TakenLater(s.tasks, Allocation(s).seg.tasks, s.blocked, k, |s.blocked|, b);
    HeldUnionMember(Allocation(s).seg.tasks, b);
  }

  /**
   So each queued task is READY or BLOCKED afterwards, READY exactly if it has all it needs,
   and has got one of the bits it missed, or nothing because all of them are held.
   */
  lemma EachIsServed(s: Segment, i: int)
    requires Sound(s) && Located(s, {}) && Descending(s.tasks, s.ready) && i in s.blocked
    ensures var ts' := Allocation(s).seg.tasks;
            && 0 <= i < |s.tasks| == |ts'|
            && var t, t' := s.tasks[i], ts'[i];
               && (t'.state == Ready || t'.state == Blocked)
               && (t'.state == Ready <==> t'.held == t'.required)
               && ((exists b :: b in t.required - t.held && t'.held == t.held + {b})
                   || (t'.held == t.held && forall b :: b in t.required - t.held ==> exists j :: Holds(ts', j, b)))
  {
    PassServesAll(s);
    InRangeMembers(s.blocked, |s.tasks|);
    var ts', q := Allocation(s).seg.tasks, s.blocked;
    var k :| 0 <= k < |q| && q[k] == i;
    assert ServedAt(s.tasks, ts', q, k);
    var t, t' := s.tasks[i], ts'[i];
    if GetsNothing(s.tasks, ts', q, k, t, t') {
      forall b | b in t.required - t.held ensures exists j :: Holds(ts', j, b) {
        StillHeld(s, k, b);
      }
    } else {
      var b :| GetsBit(s.tasks, ts', q, k, t, t', b);
    }
  }

  // ---- nothing else would do ----

  lemma TakenBeforeAgrees(ts: seq<Task>, a: seq<Task>, b: seq<Task>, q: seq<int>, k: int, c: Bit)
    requires |a| == |b| && forall m :: 0 <= m < k <= |q| && 0 <= q[m] < |a| ==> a[q[m]] == b[q[m]]
    ensures TakenBefore(ts, a, q, k, c) <==> TakenBefore(ts, b, q, k, c)
  {
  }

  /** How a task is served follows from how those before it were. */
  lemma ServedAtUnique(ts: seq<Task>, a: seq<Task>, b: seq<Task>, q: seq<int>, k: int)
    requires |a| == |b| == |ts| && 0 <= k < |q| && 0 <= q[k] < |ts|
    requires ServedAt(ts, a, q, k) && ServedAt(ts, b, q, k)
    requires forall m :: 0 <= m < k && 0 <= q[m] < |ts| ==> a[q[m]] == b[q[m]]
    ensures a[q[k]] == b[q[k]]
  {
    hide TakenBefore;
    var t := ts[q[k]];
    forall c ensures TakenBefore(ts, a, q, k, c) <==> TakenBefore(ts, b, q, k, c) {
      TakenBeforeAgrees(ts, a, b, q, k, c);
    }
    if !GetsNothing(ts, a, q, k, t, a[q[k]]) {
      var c :| GetsBit(ts, a, q, k, t, a[q[k]], c);
      assert !GetsNothing(ts, b, q, k, t, b[q[k]]);
      var d :| GetsBit(ts, b, q, k, t, b[q[k]], d);
      assert c == d;
    }
  }

  lemma {:induction false} ServedPrefixUnique(ts: seq<Task>, a: seq<Task>, b: seq<Task>, q: seq<int>, n: nat)
    requires n <= |q| && Served(ts, a, q, |q|) && Served(ts, b, q, |q|)
    ensures forall k :: 0 <= k < n ==> a[q[k]] == b[q[k]]
  {
    hide ServedAt;
    if n > 0 {
      ServedPrefixUnique(ts, a, b, q, n - 1);
      ServedAtUnique(ts, a, b, q, n - 1);
    }
  }

  /** The conditions of Served leave no choice: they determine what the pass makes of the tasks. */
  lemma ServedUnique(ts: seq<Task>, a: seq<Task>, b: seq<Task>, q: seq<int>)
    requires Served(ts, a, q, |q|) && Served(ts, b, q, |q|)
    ensures a == b
  {
    hide ServedAt;
    ServedPrefixUnique(ts, a, b, q, |q|);
    assert q[..|q|] == q;
    forall i | 0 <= i < |ts| ensures a[i] == b[i] {
      if i in q {
        var k :| 0 <= k < |q| && q[k] == i;
      }
    }
  }
}
