/**
 The order of the ready queue: descending effective priority, first-in first-out among
 equal priorities.
 */
module StableSort {
  import opened Model
  import Seqs

  /** The elements of q whose priority is k, in queue order. */
  function Class(tasks: seq<Task>, q: seq<int>, k: int): seq<int> {
    if q == [] then []
    else (if Prio(tasks, q[0]) == k then [q[0]] else []) + Class(tasks, q[1..], k)
  }

  predicate Descending(tasks: seq<Task>, q: seq<int>) {
    forall i, j :: 0 <= i < j < |q| ==> Prio(tasks, q[i]) >= Prio(tasks, q[j])
  }

  /** r is q sorted by descending priority, each priority class keeping its order. */
  ghost predicate IsStableSort(tasks: seq<Task>, q: seq<int>, r: seq<int>) {
    && Descending(tasks, r)
    && forall k :: Class(tasks, r, k) == Class(tasks, q, k)
  }

  /** x goes behind every element of at least its priority. */
  function Insert(tasks: seq<Task>, q: seq<int>, x: int): (r: seq<int>)
    ensures multiset(r) == multiset(q) + multiset{x}
  {
    if q == [] then [x]
    else
      var last := q[|q| - 1];
      assert q == q[..|q| - 1] + [last];
      if Prio(tasks, last) >= Prio(tasks, x) then q + [x]
      else Insert(tasks, q[..|q| - 1], x) + [last]
  }

  function Sorted(tasks: seq<Task>, q: seq<int>): (r: seq<int>)
    ensures multiset(r) == multiset(q)
  {
    if q == [] then []
    else
      assert q == q[..|q| - 1] + [q[|q| - 1]];
      Insert(tasks, Sorted(tasks, q[..|q| - 1]), q[|q| - 1])
  }

  lemma {:induction false} ClassConcat(tasks: seq<Task>, a: seq<int>, b: seq<int>, k: int)
    ensures Class(tasks, a + b, k) == Class(tasks, a, k) + Class(tasks, b, k)
  {
    hide Prio;
    if a == [] {
      assert a + b == b;
    } else {
      var head := if Prio(tasks, a[0]) == k then [a[0]] else [];
      ClassConcat(tasks, a[1..], b, k);
      assert (a + b)[1..] == a[1..] + b;
      assert Class(tasks, a + b, k) == head + Class(tasks, a[1..] + b, k);
      Seqs.ConcatAssociative(head, Class(tasks, a[1..], k), Class(tasks, b, k));
    }
  }

  lemma {:induction false} ClassMembers(tasks: seq<Task>, q: seq<int>, k: int)
    ensures forall x :: x in Class(tasks, q, k) <==> x in q && Prio(tasks, x) == k
  {
    if q != [] {
      ClassMembers(tasks, q[1..], k);
      assert q == [q[0]] + q[1..];
    }
  }

  lemma {:induction false} InsertElement(tasks: seq<Task>, q: seq<int>, x: int, y: int)
    ensures y in Insert(tasks, q, x) <==> y in q || y == x
  {
    assert y in Insert(tasks, q, x) <==> y in multiset(Insert(tasks, q, x));
  }

  lemma {:induction false} InsertDescending(tasks: seq<Task>, q: seq<int>, x: int)
    requires Descending(tasks, q)
    ensures Descending(tasks, Insert(tasks, q, x))
  {
    if q != [] && Prio(tasks, q[|q| - 1]) < Prio(tasks, x) {
      var front := q[..|q| - 1];
      var r := Insert(tasks, front, x);
      InsertDescending(tasks, front, x);
      forall i | 0 <= i < |r| ensures Prio(tasks, r[i]) >= Prio(tasks, q[|q| - 1]) {
        InsertElement(tasks, front, x, r[i]);
      }
    }
  }

  lemma {:induction false} ClassAgrees(tasks: seq<Task>, tasks': seq<Task>, q: seq<int>, k: int)
    requires forall i :: 0 <= i < |q| ==> Prio(tasks', q[i]) == Prio(tasks, q[i])
    ensures Class(tasks', q, k) == Class(tasks, q, k)
  {
    hide Prio;
    if q != [] {
      ClassAgrees(tasks, tasks', q[1..], k);
    }
  }

  lemma OneOfTwo(tasks: seq<Task>, x: int, y: int, k: int)
    requires Prio(tasks, x) != Prio(tasks, y)
    ensures Class(tasks, [x], k) == [] || Class(tasks, [y], k) == []
  {
  }

  /** Moving x in front of an element of another priority changes no class. */
  lemma PassBehind(tasks: seq<Task>, front: seq<int>, x: int, last: int, k: int)
    requires Prio(tasks, last) != Prio(tasks, x)
    ensures Class(tasks, front + [x], k) + Class(tasks, [last], k) == Class(tasks, front + [last] + [x], k)
  {
    hide Class, Prio;
    ClassConcat(tasks, front, [x], k);
    ClassConcat(tasks, front, [last], k);
    ClassConcat(tasks, front + [last], [x], k);
    OneOfTwo(tasks, x, last, k);
  }

  lemma {:induction false} InsertClass(tasks: seq<Task>, q: seq<int>, x: int, k: int)
    ensures Class(tasks, Insert(tasks, q, x), k) == Class(tasks, q + [x], k)
  {
    if q == [] {
      assert q + [x] == [x];
    } else if Prio(tasks, q[|q| - 1]) < Prio(tasks, x) {
      var front, last := q[..|q| - 1], q[|q| - 1];
      InsertClass(tasks, front, x, k);
      ClassConcat(tasks, Insert(tasks, front, x), [last], k);
      assert q == front + [last];
      PassBehind(tasks, front, x, last, k);
    }
  }

  /** Sorted computes a stable sort. */
  lemma {:induction false} SortedIsStableSort(tasks: seq<Task>, q: seq<int>)
    ensures IsStableSort(tasks, q, Sorted(tasks, q))
  {
    hide Class, Prio, Insert;
    if q != [] {
      var front, last := q[..|q| - 1], q[|q| - 1];
      SortedIsStableSort(tasks, front);
      InsertDescending(tasks, Sorted(tasks, front), last);
      forall k ensures Class(tasks, Sorted(tasks, q), k) == Class(tasks, q, k) {
        InsertClass(tasks, Sorted(tasks, front), last, k);
        ClassConcat(tasks, Sorted(tasks, front), [last], k);
        ClassConcat(tasks, front, [last], k);
        assert q == front + [last];
      }
    }
  }

  lemma ClassTail(tasks: seq<Task>, q: seq<int>, k: int)
    requires q != []
    ensures Class(tasks, q[1..], k) ==
            if Prio(tasks, q[0]) == k then Class(tasks, q, k)[1..] else Class(tasks, q, k)
  {
  }

  lemma SameHead(tasks: seq<Task>, r: seq<int>, s: seq<int>)
    requires Descending(tasks, r) && Descending(tasks, s)
    requires forall k :: Class(tasks, r, k) == Class(tasks, s, k)
    requires r != []
    ensures s != [] && s[0] == r[0]
  {
    var k := Prio(tasks, r[0]);
    ClassMembers(tasks, r, k);
    ClassMembers(tasks, s, k);
    assert r[0] in Class(tasks, s, k);
    assert s != [];
    var m := Prio(tasks, s[0]);
    ClassMembers(tasks, r, m);
    ClassMembers(tasks, s, m);
    assert s[0] in Class(tasks, r, m);
    assert Class(tasks, r, k)[0] == r[0];
    assert Class(tasks, s, m)[0] == s[0];
  }

  /** Two descending sequences with the same priority classes are equal. */
  lemma {:induction false} StableSortUnique(tasks: seq<Task>, r: seq<int>, s: seq<int>)
    requires Descending(tasks, r) && Descending(tasks, s)
    requires forall k :: Class(tasks, r, k) == Class(tasks, s, k)
    ensures r == s
  {
    if r == [] {
      if s != [] {
        SameHead(tasks, s, r);
      }
    } else {
      SameHead(tasks, r, s);
      forall k ensures Class(tasks, r[1..], k) == Class(tasks, s[1..], k) {
        ClassTail(tasks, r, k);
        ClassTail(tasks, s, k);
      }
      StableSortUnique(tasks, r[1..], s[1..]);
      assert r == [r[0]] + r[1..];
      assert s == [s[0]] + s[1..];
    }
  }

  /** Sorted is the stable sort: whatever is one, is it. */
  lemma SortedIsTheStableSort(tasks: seq<Task>, q: seq<int>, r: seq<int>)
    ensures IsStableSort(tasks, q, r) <==> r == Sorted(tasks, q)
  {
    SortedIsStableSort(tasks, q);
    if IsStableSort(tasks, q, r) {
      StableSortUnique(tasks, r, Sorted(tasks, q));
    }
  }

  /** A queue in order is left alone. */
  lemma SortedOfDescending(tasks: seq<Task>, q: seq<int>)
    requires Descending(tasks, q)
    ensures Sorted(tasks, q) == q
  {
    SortedIsTheStableSort(tasks, q, q);
  }

  /** Exchanging two neighbours of different priority changes no class. */
  lemma SwapKeepsClasses(tasks: seq<Task>, q: seq<int>, j: int, k: int)
    requires 0 <= j < |q| - 1
    requires Prio(tasks, q[j]) != Prio(tasks, q[j + 1])
    ensures Class(tasks, q[j := q[j + 1]][j + 1 := q[j]], k) == Class(tasks, q, k)
  {
    hide Class, Prio;
    var a, x, y, b := q[..j], q[j], q[j + 1], q[j + 2..];
    assert q == a + ([x, y] + b);
    assert q[j := y][j + 1 := x] == a + ([y, x] + b);
    ClassConcat(tasks, a, [x, y] + b, k);
    ClassConcat(tasks, a, [y, x] + b, k);
    ClassConcat(tasks, [x, y], b, k);
    ClassConcat(tasks, [y, x], b, k);
    ClassConcat(tasks, [x], [y], k);
    ClassConcat(tasks, [y], [x], k);
    OneOfTwo(tasks, x, y, k);
    assert [x] + [y] == [x, y] && [y] + [x] == [y, x];
  }

  /** The order within a class is the order within the sequence. */
  lemma {:induction false} ClassOrder(tasks: seq<Task>, r: seq<int>, k: int, i: int, j: int, c: int, d: int)
    requires Seqs.NoDup(r)
    requires 0 <= i < j < |Class(tasks, r, k)| && 0 <= c < |r| && 0 <= d < |r|
    requires Class(tasks, r, k)[i] == r[c] && Class(tasks, r, k)[j] == r[d]
    ensures c < d
  {
    hide Prio;
    var e := if Prio(tasks, r[0]) == k then 1 else 0;
    ClassMembers(tasks, r, k);
    ClassMembers(tasks, r[1..], k);
    assert r[d] in Class(tasks, r, k);
    assert r[0] !in r[1..];
    assert Class(tasks, r, k)[j] == Class(tasks, r[1..], k)[j - e];
    assert d != 0;
    if c != 0 {
      assert i - e >= 0;
      ClassOrder(tasks, r[1..], k, i - e, j - e, c - 1, d - 1);
    }
  }

  lemma ClassPositions(tasks: seq<Task>, q: seq<int>, a: int, b: int) returns (i: int, j: int)
    requires 0 <= a < b < |q| && Prio(tasks, q[a]) == Prio(tasks, q[b])
    ensures var c := Class(tasks, q, Prio(tasks, q[a]));
            0 <= i < j < |c| && c[i] == q[a] && c[j] == q[b]
  {
    var k := Prio(tasks, q[a]);
    var front, back := q[..b], q[b..];
    assert q == front + back;
    ClassConcat(tasks, front, back, k);
    ClassMembers(tasks, front, k);
    assert front[a] in Class(tasks, front, k);
    i :| 0 <= i < |Class(tasks, front, k)| && Class(tasks, front, k)[i] == q[a];
    j := |Class(tasks, front, k)|;
    assert Class(tasks, back, k)[0] == q[b];
  }

  /** Equal priorities keep their order. */
  lemma StableOrder(tasks: seq<Task>, q: seq<int>, r: seq<int>, a: int, b: int, c: int, d: int)
    requires IsStableSort(tasks, q, r) && Seqs.NoDup(q) && Seqs.NoDup(r)
    requires 0 <= a < b < |q| && 0 <= c < |r| && 0 <= d < |r|
    requires r[c] == q[a] && r[d] == q[b]
    requires Prio(tasks, q[a]) == Prio(tasks, q[b])
    ensures c < d
  {
    var k := Prio(tasks, q[a]);
    var i, j := ClassPositions(tasks, q, a, b);
    assert Class(tasks, q, k) == Class(tasks, r, k);
    ClassOrder(tasks, r, k, i, j, c, d);
  }

  /** Among the first p + 1 elements of a permutation some came from place p or later. */
  lemma Latecomer(q: seq<int>, r: seq<int>, p: int) returns (j: int, u: int)
    requires Seqs.NoDup(r) && (forall x :: x in r ==> x in q) && 0 <= p < |r| && p <= |q|
    ensures 0 <= j <= p <= u < |q| && q[u] == r[j]
  {
    var prefix := r[..p + 1];
    if forall x :: x in prefix ==> x in q[..p] {
      Seqs.NoDupNoLonger(prefix, q[..p]);
    }
    var x :| x in prefix && x !in q[..p];
    j :| 0 <= j <= p && r[j] == x;
    assert x in r && q == q[..p] + q[p..];
    var w :| 0 <= w < |q[p..]| && q[p..][w] == x;
    u := p + w;
  }

  /**
   Whatever a stable sort moves: the element at place p of the result came from place p
   or later, or was overtaken by an element that did and has a strictly larger priority.
   */
  lemma Overtaken(tasks: seq<Task>, q: seq<int>, r: seq<int>, p: int) returns (o: int)
    requires IsStableSort(tasks, q, r) && Seqs.NoDup(q) && multiset(q) == multiset(r)
    requires 0 <= p < |r|
    ensures p <= o < |q|
    ensures q[o] == r[p] || Prio(tasks, q[o]) > Prio(tasks, r[p])
  {
    hide Class;
    Seqs.PermutationNoDup(q, r);
    assert r[p] in q;
    var v :| 0 <= v < |q| && q[v] == r[p];
    if v >= p {
      o := v;
    } else {
      var j, u := Latecomer(q, r, p);
      o := u;
      assert Prio(tasks, r[j]) >= Prio(tasks, r[p]);
      if Prio(tasks, r[j]) == Prio(tasks, r[p]) {
        StableOrder(tasks, q, r, v, u, p, j);
      }
    }
  }
}
