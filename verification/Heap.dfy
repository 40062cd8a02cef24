/**
 The array heap behind the priority queue (`utils/priority_queue/heap_queue.go`) under the sift loops of Go's
 `container/heap`, as functions on the sequence of items.
 */
module Heap {
  import opened Nodes

  datatype QueueItem<T> = QueueItem(item: T, priority: int, index: int)

  /** The max queue serves the greatest priority first, the min queue the least. */
  predicate Less(max: bool, p: int, q: int) {
    if max then p > q else p < q
  }

  predicate Before<T>(max: bool, s: seq<QueueItem<T>>, i: nat, j: nat)
    requires i < |s| && j < |s|
  {
    Less(max, s[i].priority, s[j].priority)
  }

  function Parent(k: nat): nat {
    if k == 0 then 0 else (k - 1) / 2
  }

  function Swap<T>(s: seq<QueueItem<T>>, i: nat, j: nat): (r: seq<QueueItem<T>>)
    requires i < |s| && j < |s|
    ensures |r| == |s|
  {
    var swapped := s[i := s[j]][j := s[i]];
    var first := swapped[i := swapped[i].(index := i)];
    first[j := first[j].(index := j)]
  }

  function SiftUp<T>(max: bool, s: seq<QueueItem<T>>, j: nat): seq<QueueItem<T>>
    requires j < |s|
    decreases j
  {
    if j == 0 || !Before(max, s, j, Parent(j)) then s else SiftUp(max, Swap(s, Parent(j), j), Parent(j))
  }

  /** The child that goes first, if `i` has one. */
  function Child<T>(max: bool, s: seq<QueueItem<T>>, i: nat, n: nat): (j: nat)
    requires 2 * i + 1 < n <= |s|
    ensures i < j < n
  {
    if 2 * i + 2 < n && Before(max, s, 2 * i + 2, 2 * i + 1) then 2 * i + 2 else 2 * i + 1
  }

  function SiftDown<T>(max: bool, s: seq<QueueItem<T>>, i: nat, n: nat): seq<QueueItem<T>>
    requires i < n <= |s| || n == 0
    decreases n - i
  {
    if 2 * i + 1 >= n || !Before(max, s, Child(max, s, i, n), i) then s
    else SiftDown(max, Swap(s, i, Child(max, s, i, n)), Child(max, s, i, n), n)
  }

  function Pushed<T>(max: bool, s: seq<QueueItem<T>>, x: QueueItem<T>): seq<QueueItem<T>> {
    SiftUp(max, s + [x.(index := |s|)], |s|)
  }

  /** What is left after `Pop`, and what it returns. */
  function Popped<T>(max: bool, s: seq<QueueItem<T>>): (seq<QueueItem<T>>, QueueItem<T>)
    requires s != []
  {
    SiftedSize(max, Swap(s, 0, |s| - 1), 0, |s| - 1);
    var sifted := SiftDown(max, Swap(s, 0, |s| - 1), 0, |s| - 1);
    (sifted[..|s| - 1], sifted[|s| - 1].(index := -1))
  }

  lemma {:induction false} SiftedSize<T>(max: bool, s: seq<QueueItem<T>>, i: nat, n: nat)
    requires i < n <= |s| || n == 0
    ensures |SiftDown(max, s, i, n)| == |s|
    ensures forall k :: n <= k < |s| ==> SiftDown(max, s, i, n)[k] == s[k]
    decreases n - i
  {
    if 2 * i + 1 < n && Before(max, s, Child(max, s, i, n), i) {
      SiftedSize(max, Swap(s, i, Child(max, s, i, n)), Child(max, s, i, n), n);
    }
  }

  // ---------------------------------------------------------------- heap order and index fields

  predicate Ordered<T>(max: bool, s: seq<QueueItem<T>>) {
    forall k :: 0 < k < |s| ==> !Before(max, s, k, Parent(k))
  }

  predicate Indexed<T>(s: seq<QueueItem<T>>) {
    forall k :: 0 <= k < |s| ==> s[k].index == k
  }

  /** In order but for `j`, which may have to go up. */
  predicate OrderedBut<T>(max: bool, s: seq<QueueItem<T>>, j: nat)
    requires j < |s|
  {
    && (forall k :: 0 < k < |s| && k != j ==> !Before(max, s, k, Parent(k)))
    && (forall k :: 0 < k < |s| && Parent(k) == j && j > 0 ==> !Before(max, s, k, Parent(j)))
  }

  /** The first `n` are in order but for `i`, which may have to go down. */
  predicate OrderedAbove<T>(max: bool, s: seq<QueueItem<T>>, i: nat, n: nat)
    requires n <= |s|
  {
    && (forall k :: 0 < k < n && Parent(k) != i ==> !Before(max, s, k, Parent(k)))
    && (forall k :: 0 < k < n && Parent(k) == i && i > 0 ==> !Before(max, s, k, Parent(i)))
  }

  lemma UpStep<T>(max: bool, s: seq<QueueItem<T>>, j: nat)
    requires 0 < j < |s| && OrderedBut(max, s, j) && Before(max, s, j, Parent(j))
    ensures OrderedBut(max, Swap(s, Parent(j), j), Parent(j))
  {
    var i, r := Parent(j), Swap(s, Parent(j), j);
    forall k | 0 < k < |r| && k != i
      ensures !Before(max, r, k, Parent(k))
    {
      assert k != j ==> !Before(max, s, k, Parent(k));
    }
    forall k | 0 < k < |r| && Parent(k) == i && i > 0
      ensures !Before(max, r, k, Parent(i))
    {
      assert !Before(max, s, i, Parent(i));
      assert k != j ==> !Before(max, s, k, i);
    }
  }

  lemma {:induction false} SiftUpOrders<T>(max: bool, s: seq<QueueItem<T>>, j: nat)
    requires j < |s| && OrderedBut(max, s, j)
    ensures Ordered(max, SiftUp(max, s, j))
    decreases j
  {
    if j > 0 && Before(max, s, j, Parent(j)) {
      UpStep(max, s, j);
      SiftUpOrders(max, Swap(s, Parent(j), j), Parent(j));
    }
  }

  lemma DownStep<T>(max: bool, s: seq<QueueItem<T>>, i: nat, n: nat)
    requires 2 * i + 1 < n <= |s| && OrderedAbove(max, s, i, n) && Before(max, s, Child(max, s, i, n), i)
    ensures OrderedAbove(max, Swap(s, i, Child(max, s, i, n)), Child(max, s, i, n), n)
  {
    var j := Child(max, s, i, n);
    var r := Swap(s, i, j);
    forall k | 0 < k < n && Parent(k) != j
      ensures !Before(max, r, k, Parent(k))
    {
      if Parent(k) == i {
        assert k == 2 * i + 1 || k == 2 * i + 2;
      } else if k == i {
        assert Parent(j) == i && !Before(max, s, j, Parent(i));
      } else {
        assert !Before(max, s, k, Parent(k));
      }
    }
    forall k | 0 < k < n && Parent(k) == j
      ensures !Before(max, r, k, i)
    {
      assert !Before(max, s, k, Parent(k));
    }
  }

  lemma {:induction false} SiftDownOrders<T>(max: bool, s: seq<QueueItem<T>>, i: nat, n: nat)
    requires i < n <= |s| && OrderedAbove(max, s, i, n)
    ensures |SiftDown(max, s, i, n)| == |s| && Ordered(max, SiftDown(max, s, i, n)[..n])
    decreases n - i
  {
    SiftedSize(max, s, i, n);
    if 2 * i + 1 < n {
      var j := Child(max, s, i, n);
      if Before(max, s, j, i) {
        DownStep(max, s, i, n);
        SiftDownOrders(max, Swap(s, i, j), j, n);
      } else {
        forall k | 0 < k < n
          ensures !Before(max, s, k, Parent(k))
        {
          assert Parent(k) == i ==> k == 2 * i + 1 || k == 2 * i + 2;
        }
      }
    }
  }

  lemma {:induction false} SiftUpIndexed<T>(max: bool, s: seq<QueueItem<T>>, j: nat)
    requires j < |s| && Indexed(s)
    ensures Indexed(SiftUp(max, s, j))
    decreases j
  {
    if j > 0 && Before(max, s, j, Parent(j)) {
      SiftUpIndexed(max, Swap(s, Parent(j), j), Parent(j));
    }
  }

  lemma {:induction false} SiftDownIndexed<T>(max: bool, s: seq<QueueItem<T>>, i: nat, n: nat)
    requires (i < n <= |s| || n == 0) && Indexed(s)
    ensures Indexed(SiftDown(max, s, i, n))
    decreases n - i
  {
    if 2 * i + 1 < n && Before(max, s, Child(max, s, i, n), i) {
      SiftDownIndexed(max, Swap(s, i, Child(max, s, i, n)), Child(max, s, i, n), n);
    }
  }

  // ---------------------------------------------------------------- contents

  /** An item with its priority, without the position it happens to have. */
  function Entry<T>(x: QueueItem<T>): (T, int) {
    (x.item, x.priority)
  }

  function Entries<T>(s: seq<QueueItem<T>>): (r: seq<(T, int)>)
    ensures |r| == |s| && forall k :: 0 <= k < |s| ==> r[k] == Entry(s[k])
  {
    seq(|s|, k requires 0 <= k < |s| => Entry(s[k]))
  }

  lemma Exchanged<A>(e: seq<A>, i: nat, j: nat)
    requires i < |e| && j < |e|
    ensures multiset(e[i := e[j]][j := e[i]]) == multiset(e)
  {
    var once := e[i := e[j]];
    assert multiset(once) == multiset(e) - multiset{e[i]} + multiset{e[j]};
    assert multiset(once[j := e[i]]) == multiset(once) - multiset{once[j]} + multiset{e[i]};
    assert once[j] == e[j];
  }

  lemma SwapEntries<T>(s: seq<QueueItem<T>>, i: nat, j: nat)
    requires i < |s| && j < |s|
    ensures multiset(Entries(Swap(s, i, j))) == multiset(Entries(s))
  {
    SwapExchanges(s, i, j);
    hide Entries, Swap;
    Exchanged(Entries(s), i, j);
  }

  lemma SwapExchanges<T>(s: seq<QueueItem<T>>, i: nat, j: nat)
    requires i < |s| && j < |s|
    ensures Entries(Swap(s, i, j)) == Entries(s)[i := Entries(s)[j]][j := Entries(s)[i]]
  {
    var r := Swap(s, i, j);
    forall k | 0 <= k < |s|
      ensures Entry(r[k]) == Entries(s)[i := Entries(s)[j]][j := Entries(s)[i]][k]
    {
    }
  }

  lemma {:induction false} SiftUpEntries<T>(max: bool, s: seq<QueueItem<T>>, j: nat)
    requires j < |s|
    ensures multiset(Entries(SiftUp(max, s, j))) == multiset(Entries(s))
    decreases j
  {
    if j > 0 && Before(max, s, j, Parent(j)) {
      SwapEntries(s, Parent(j), j);
      SiftUpEntries(max, Swap(s, Parent(j), j), Parent(j));
    }
  }

  lemma {:induction false} SiftDownEntries<T>(max: bool, s: seq<QueueItem<T>>, i: nat, n: nat)
    requires i < n <= |s| || n == 0
    ensures multiset(Entries(SiftDown(max, s, i, n))) == multiset(Entries(s))
    decreases n - i
  {
    if 2 * i + 1 < n && Before(max, s, Child(max, s, i, n), i) {
      SwapEntries(s, i, Child(max, s, i, n));
      SiftDownEntries(max, Swap(s, i, Child(max, s, i, n)), Child(max, s, i, n), n);
    }
  }

  // ---------------------------------------------------------------- the queue

  /** What both operations keep. */
  predicate Valid<T>(max: bool, s: seq<QueueItem<T>>) {
    Ordered(max, s) && Indexed(s)
  }

  /** No entry goes before `p`. */
  ghost predicate First<T>(max: bool, entries: multiset<(T, int)>, p: int) {
    forall e <- entries :: !Less(max, e.1, p)
  }

  lemma PushKeeps<T>(max: bool, s: seq<QueueItem<T>>, x: QueueItem<T>)
    requires Valid(max, s)
    ensures Valid(max, Pushed(max, s, x))
    ensures multiset(Entries(Pushed(max, s, x))) == multiset(Entries(s)) + multiset{Entry(x)}
  {
    var all := s + [x.(index := |s|)];
    assert forall k :: 0 < k < |s| ==> (Before(max, all, k, Parent(k)) <==> Before(max, s, k, Parent(k)));
    SiftUpOrders(max, all, |s|);
    SiftUpIndexed(max, all, |s|);
    SiftUpEntries(max, all, |s|);
    assert Entries(all) == Entries(s) + [Entry(x)];
  }

  /** Nothing in a heap goes before its root. */
  lemma {:induction false} RootIsFirst<T>(max: bool, s: seq<QueueItem<T>>, k: nat)
    requires Ordered(max, s) && k < |s|
    ensures !Before(max, s, k, 0)
  {
    if k > 0 {
      RootIsFirst(max, s, Parent(k));
      assert !Before(max, s, k, Parent(k));
    }
  }

  lemma RootFirst<T>(max: bool, s: seq<QueueItem<T>>)
    requires Ordered(max, s) && s != []
    ensures First(max, multiset(Entries(s)), s[0].priority)
  {
    forall e <- multiset(Entries(s))
      ensures !Less(max, e.1, s[0].priority)
    {
      var k: nat :| k < |s| && Entries(s)[k] == e;
      RootIsFirst(max, s, k);
    }
  }

  /** The root goes to the end, and the rest is put in order without it. */
  lemma PopOrders<T>(max: bool, s: seq<QueueItem<T>>)
    requires Valid(max, s) && s != []
    ensures var (rest, x) := Popped(max, s);
            Valid(max, rest) && x == s[0].(index := -1) && |rest| == |s| - 1
  {
    var n := |s| - 1;
    var swapped := Swap(s, 0, n);
    SiftedSize(max, swapped, 0, n);
    SiftDownIndexed(max, swapped, 0, n);
    if n > 0 {
      assert forall k :: 0 < k < n && Parent(k) != 0 ==> (Before(max, swapped, k, Parent(k)) <==> Before(max, s, k, Parent(k)));
      SiftDownOrders(max, swapped, 0, n);
    }
  }

  lemma PopEntries<T>(max: bool, s: seq<QueueItem<T>>)
    requires s != []
    ensures var (rest, x) := Popped(max, s);
            multiset(Entries(rest)) + multiset{Entry(x)} == multiset(Entries(s))
  {
    var n := |s| - 1;
    var swapped := Swap(s, 0, n);
    var sifted := SiftDown(max, swapped, 0, n);
    SiftedSize(max, swapped, 0, n);
    SwapEntries(s, 0, n);
    SiftDownEntries(max, swapped, 0, n);
    assert Entries(sifted) == Entries(sifted[..n]) + [Entry(sifted[n])];
  }

  /** `Pop` takes a first entry and leaves the rest a heap. */
  lemma PopKeeps<T>(max: bool, s: seq<QueueItem<T>>)
    requires Valid(max, s) && s != []
    ensures var (rest, x) := Popped(max, s);
            && Valid(max, rest) && x.index == -1 && |rest| == |s| - 1
            && multiset(Entries(rest)) + multiset{Entry(x)} == multiset(Entries(s))
            && First(max, multiset(Entries(s)), x.priority)
  {
    PopOrders(max, s);
    PopEntries(max, s);
    RootFirst(max, s);
  }

  /** The same, as what the queue's contents lose. */
  lemma PopTakes<T>(max: bool, s: seq<QueueItem<T>>)
    requires Valid(max, s) && s != []
    ensures var (rest, x) := Popped(max, s);
            && |rest| == |s| - 1 && Entry(x) in multiset(Entries(s))
            && multiset(Entries(rest)) == multiset(Entries(s)) - multiset{Entry(x)}
  {
    PopKeeps(max, s);
    var (rest, x) := Popped(max, s);
    hide Popped, Entries, Valid, First;
    assert Entry(x) in multiset(Entries(rest)) + multiset{Entry(x)};
  }

  /** In numbers: the max queue gives up its greatest priority, the min queue its least. */
  lemma FirstIsExtreme<T>(max: bool, entries: multiset<(T, int)>, p: int)
    requires First(max, entries, p)
    ensures forall e <- entries :: if max then e.1 <= p else p <= e.1
  {
  }

  // ---------------------------------------------------------------- draining

  /** The priorities in the order in which pops return them. */
  function Drained<T>(max: bool, s: seq<QueueItem<T>>): seq<(T, int)>
    decreases |s|
  {
    if s == [] then [] else
      SiftedSize(max, Swap(s, 0, |s| - 1), 0, |s| - 1);
      [Entry(Popped(max, s).1)] + Drained(max, Popped(max, s).0)
  }

  predicate Sorted<T>(max: bool, order: seq<(T, int)>) {
    forall i, j :: 0 <= i < j < |order| ==> !Less(max, order[j].1, order[i].1)
  }

  lemma FirstThenSorted<T>(max: bool, e: (T, int), order: seq<(T, int)>)
    requires Sorted(max, order) && First(max, multiset(order), e.1)
    ensures Sorted(max, [e] + order)
  {
    var all := [e] + order;
    forall i, j | 0 <= i < j < |all|
      ensures !Less(max, all[j].1, all[i].1)
    {
      assert all[j] == order[j - 1] && order[j - 1] in multiset(order);
    }
  }

  /** Popping until the queue is empty sorts its contents. */
  lemma {:induction false} DrainSorts<T>(max: bool, s: seq<QueueItem<T>>)
    requires Valid(max, s)
    ensures Sorted(max, Drained(max, s)) && multiset(Drained(max, s)) == multiset(Entries(s))
    decreases |s|
  {
    if s != [] {
      PopKeeps(max, s);
      var (rest, x) := Popped(max, s);
      hide Popped, Entries, Valid, Sorted;
      DrainSorts(max, rest);
      var order := Drained(max, rest);
      assert multiset([Entry(x)] + order) == multiset{Entry(x)} + multiset(order);
      FirstThenSorted(max, Entry(x), order);
    }
  }

  // ---------------------------------------------------------------- snapshots

  /** A heap's array starts with the entry the next pop returns. */
  lemma SnapshotStartsRight<T>(max: bool, s: seq<QueueItem<T>>)
    requires Valid(max, s) && s != []
    ensures Drained(max, s)[0] == Entries(s)[0]
  {
    PopOrders(max, s);
  }

  function Ranks<T>(order: seq<(T, int)>): (r: seq<int>)
    ensures |r| == |order| && forall k :: 0 <= k < |r| ==> r[k] == order[k].1
  {
    seq(|order|, k requires 0 <= k < |order| => order[k].1)
  }

  lemma Without<A>(a: seq<A>, k: nat)
    requires k < |a|
    ensures multiset(a[..k] + a[k + 1..]) == multiset(a) - multiset{a[k]}
  {
    assert a == a[..k] + [a[k]] + a[k + 1..];
  }

  lemma RanksWithout<T>(a: seq<(T, int)>, k: nat)
    requires k < |a|
    ensures multiset(Ranks(a[..k] + a[k + 1..])) == multiset(Ranks(a)) - multiset{a[k].1}
  {
    Without(Ranks(a), k);
    assert Ranks(a[..k] + a[k + 1..]) == Ranks(a)[..k] + Ranks(a)[k + 1..];
  }

  lemma {:induction false} SameRanks<T>(a: seq<(T, int)>, b: seq<(T, int)>)
    requires multiset(a) == multiset(b)
    ensures multiset(Ranks(a)) == multiset(Ranks(b))
  {
    hide Ranks;
    assert |a| == |multiset(a)| == |multiset(b)| == |b|;
    if a != [] {
      assert a[0] in multiset(b);
      var k :| 0 <= k < |b| && b[k] == a[0];
      Without(a, 0);
      Without(b, k);
      SameRanks(a[..0] + a[0 + 1..], b[..k] + b[k + 1..]);
      SameRanksBack(a, b, k);
    }
  }

  lemma SameRanksBack<T>(a: seq<(T, int)>, b: seq<(T, int)>, k: nat)
    requires a != [] && k < |b| && b[k] == a[0]
    requires multiset(Ranks(a[..0] + a[0 + 1..])) == multiset(Ranks(b[..k] + b[k + 1..]))
    ensures multiset(Ranks(a)) == multiset(Ranks(b))
  {
    RanksWithout(a, 0);
    RanksWithout(b, k);
    assert a[0].1 == Ranks(a)[0] && a[0].1 == Ranks(b)[k];
    hide Ranks;
    AddBack(multiset(Ranks(a)), multiset(Ranks(b)), a[0].1);
  }

  lemma AddBack<A>(p: multiset<A>, q: multiset<A>, x: A)
    requires x in p && x in q && p - multiset{x} == q - multiset{x}
    ensures p == q
  {
    assert p == p - multiset{x} + multiset{x} && q == q - multiset{x} + multiset{x};
  }

  predicate SortedRanks(max: bool, r: seq<int>) {
    forall i, j :: 0 <= i < j < |r| ==> !Less(max, r[j], r[i])
  }

  lemma {:induction false} SortedOnce(max: bool, a: seq<int>, b: seq<int>)
    requires SortedRanks(max, a) && SortedRanks(max, b) && multiset(a) == multiset(b)
    ensures a == b
  {
    assert |a| == |multiset(a)| == |multiset(b)| == |b|;
    if a != [] {
      assert a[0] in multiset(b) && b[0] in multiset(a);
      assert a[0] == b[0];
      assert a == [a[0]] + a[1..] && b == [b[0]] + b[1..];
      assert multiset(a[1..]) == multiset(a) - multiset{a[0]};
      assert multiset(b[1..]) == multiset(b) - multiset{b[0]};
      SortedOnce(max, a[1..], b[1..]);
    }
  }

  // ---------------------------------------------------------------- queues a program can build

  datatype Op<T> = Put(item: T, priority: int) | Take

  /** The array after some pushes and pops on an empty queue; a pop of an empty queue is no run. */
  function Run<T>(max: bool, ops: seq<Op<T>>): (r: Option<seq<QueueItem<T>>>)
    ensures r.Some? ==> Valid(max, r.value)
  {
    if ops == [] then Some([])
    else
      var before, op := Run(max, ops[..|ops| - 1]), ops[|ops| - 1];
      if before.None? || (op.Take? && before.value == []) then None
      else if op.Put? then
        PushKeeps(max, before.value, QueueItem(op.item, op.priority, 0));
        Some(Pushed(max, before.value, QueueItem(op.item, op.priority, 0)))
      else
        PopKeeps(max, before.value);
        Some(Popped(max, before.value).0)
  }

  /** Draining a queue of at most two entries returns them as the array lists them. */
  lemma TwoInOrder<T>(max: bool, s: seq<QueueItem<T>>)
    requires Valid(max, s) && |s| <= 2
    ensures Entries(s) == Drained(max, s)
  {
    if s == [] {
      assert Entries(s) == [];
    } else {
      PopOrders(max, s);
      if |s| == 2 {
        SecondOf(max, s);
        OneInOrder(max, Popped(max, s).0);
      }
      hide Popped, Valid;
      assert Drained(max, s) == [Entry(s[0])] + Drained(max, Popped(max, s).0);
    }
  }

  lemma OneInOrder<T>(max: bool, s: seq<QueueItem<T>>)
    requires Valid(max, s) && |s| == 1
    ensures Drained(max, s) == [Entry(s[0])]
  {
    PopOrders(max, s);
    hide Popped, Valid;
    assert Drained(max, Popped(max, s).0) == [];
  }

  lemma SecondOf<T>(max: bool, s: seq<QueueItem<T>>)
    requires Valid(max, s) && |s| == 2
    ensures |Popped(max, s).0| == 1 && Entry(Popped(max, s).0[0]) == Entry(s[1])
  {
    PopOrders(max, s);
    var swapped := Swap(s, 0, 1);
    assert SiftDown(max, swapped, 0, 1) == swapped;
  }

  /** Priorities that come to rest where they are pushed: the least urgent of the first three in second place. */
  function Settling(max: bool, k: nat): int {
    var p := if k == 0 then 3 else if k == 1 then 1 else if k == 2 then 2 else -(k as int);
    if max then p else -p
  }

  /** `a` in second place, `b` everywhere else. */
  function SettlingItem<T>(a: T, b: T, k: nat): T {
    if k == 1 then a else b
  }

  function SettlingOps<T>(max: bool, a: T, b: T, n: nat): seq<Op<T>> {
    if n == 0 then [] else SettlingOps(max, a, b, n - 1) + [Put(SettlingItem(a, b, n - 1), Settling(max, n - 1))]
  }

  lemma {:induction false} SettlingRun<T>(max: bool, a: T, b: T, n: nat)
    ensures var r := Run(max, SettlingOps(max, a, b, n));
            && r.Some? && |r.value| == n
            && forall k :: 0 <= k < n ==> Entry(r.value[k]) == (SettlingItem(a, b, k), Settling(max, k))
  {
    if n > 0 {
      SettlingRun(max, a, b, n - 1);
      var ops := SettlingOps(max, a, b, n);
      assert ops[..|ops| - 1] == SettlingOps(max, a, b, n - 1);
      var before := Run(max, ops[..|ops| - 1]).value;
      StaysLast(max, before, QueueItem(SettlingItem(a, b, n - 1), Settling(max, n - 1), 0), n - 1);
    }
  }

  lemma StaysLast<T>(max: bool, s: seq<QueueItem<T>>, x: QueueItem<T>, n: nat)
    requires |s| == n && x.priority == Settling(max, n)
    requires forall k :: 0 <= k < n ==> s[k].priority == Settling(max, k)
    ensures Pushed(max, s, x) == s + [x.(index := n)]
  {
  }

  function Items<T>(order: seq<(T, int)>): (r: seq<T>)
    ensures |r| == |order| && forall k :: 0 <= k < |r| ==> r[k] == order[k].0
  {
    seq(|order|, k requires 0 <= k < |order| => order[k].0)
  }

  /** Every queue of `n` entries that pushes and pops can build lists its items in the order of the pops. */
  ghost predicate AlwaysInPopOrder<T(!new)>(max: bool, n: nat) {
    forall ops: seq<Op<T>> :: var r := Run(max, ops);
      r.Some? && |r.value| == n ==> Items(Entries(r.value)) == Items(Drained(max, r.value))
  }

  /** The least urgent of the first three items is not the second one popped. */
  lemma SettlingOutOfOrder<T>(max: bool, a: T, b: T, s: seq<QueueItem<T>>)
    requires a != b && |s| >= 3 && Valid(max, s)
    requires forall k :: 0 <= k < |s| ==> Entry(s[k]) == (SettlingItem(a, b, k), Settling(max, k))
    ensures Items(Entries(s)) != Items(Drained(max, s))
  {
    DrainSorts(max, s);
    var order := Drained(max, s);
    assert |order| == |multiset(order)| == |multiset(Entries(s))| == |s|;
    assert Entries(s)[2] in multiset(order) && order[1] in multiset(Entries(s));
    var j :| 0 <= j < |order| && order[j] == Entries(s)[2];
    SnapshotStartsRight(max, s);
    assert j != 0;
    assert !Less(max, order[j].1, order[1].1);
    var k :| 0 <= k < |s| && order[1] == Entries(s)[k];
    assert Items(order)[1] != Items(Entries(s))[1];
  }

  /**
   What `GetSnapshot` promises of the items it returns holds of all queues of a size exactly if that size is at most two,
   in max and min queues, as soon as there are two different items.
   */
  lemma SnapshotInPopOrder<T(!new)>(max: bool, n: nat, a: T, b: T)
    requires a != b
    ensures AlwaysInPopOrder<T>(max, n) <==> n <= 2
  {
    if n <= 2 {
      forall ops: seq<Op<T>> | Run(max, ops).Some? && |Run(max, ops).value| == n
        ensures Items(Entries(Run(max, ops).value)) == Items(Drained(max, Run(max, ops).value))
      {
        TwoInOrder(max, Run(max, ops).value);
      }
    } else {
      SettlingRun(max, a, b, n);
      var ops := SettlingOps(max, a, b, n);
      hide Valid, Settling, SettlingItem, SettlingOps, Drained;
      SettlingOutOfOrder(max, a, b, Run(max, ops).value);
      assert Run(max, ops).Some? && |Run(max, ops).value| == n;
    }
  }

  predicate DistinctPriorities<T>(order: seq<(T, int)>) {
    forall i, j :: 0 <= i < j < |order| ==> order[i].1 != order[j].1
  }

  /** When no two entries share a priority, a snapshot is in pop order if and only if its priorities are sorted. */
  lemma SnapshotSorted<T>(max: bool, s: seq<QueueItem<T>>)
    requires Valid(max, s) && DistinctPriorities(Entries(s))
    ensures Entries(s) == Drained(max, s) <==> Sorted(max, Entries(s))
  {
    DrainSorts(max, s);
    if Sorted(max, Entries(s)) {
      SameRanks(Entries(s), Drained(max, s));
      SortedRanksToo(max, Entries(s));
      SortedRanksToo(max, Drained(max, s));
      SortedOnce(max, Ranks(Entries(s)), Ranks(Drained(max, s)));
      RanksDecide(Entries(s), Drained(max, s));
    }
  }

  lemma RanksDecide<T>(a: seq<(T, int)>, b: seq<(T, int)>)
    requires DistinctPriorities(a) && multiset(a) == multiset(b) && Ranks(a) == Ranks(b)
    ensures a == b
  {
    assert |a| == |Ranks(a)| == |Ranks(b)| == |b|;
    forall k | 0 <= k < |a|
      ensures a[k] == b[k]
    {
      assert b[k] in multiset(a);
      var i :| 0 <= i < |a| && a[i] == b[k];
      assert a[k].1 == Ranks(a)[k] == Ranks(b)[k] == a[i].1;
    }
  }

  /** Three pushes in rising order are enough for a snapshot out of order. */
  lemma SnapshotOutOfOrder<T>(a: T, b: T, c: T)
    ensures var s := Pushed(true, Pushed(true, Pushed(true, [], QueueItem(a, 1, 0)), QueueItem(b, 2, 0)), QueueItem(c, 3, 0));
            && Ranks(Entries(s)) == [3, 1, 2] && Ranks(Drained(true, s)) == [3, 2, 1]
  {
    var one := Pushed(true, [], QueueItem(a, 1, 0));
    assert one == [QueueItem(a, 1, 0)];
    var two := Pushed(true, one, QueueItem(b, 2, 0));
    assert two == [QueueItem(b, 2, 0), QueueItem(a, 1, 1)];
    var s := Pushed(true, two, QueueItem(c, 3, 0));
    assert s == [QueueItem(c, 3, 0), QueueItem(a, 1, 1), QueueItem(b, 2, 2)];
    assert Ranks(Entries(s)) == [3, 1, 2];
    DrainedThree(s);
  }

  lemma DrainedThree<T>(s: seq<QueueItem<T>>)
    requires Valid(true, s) && Ranks(Entries(s)) == [3, 1, 2]
    ensures Ranks(Drained(true, s)) == [3, 2, 1]
  {
    DrainSorts(true, s);
    SameRanks(Drained(true, s), Entries(s));
    SortedRanksToo(true, Drained(true, s));
    hide Ranks, Drained, Entries;
    assert multiset([3, 1, 2]) == multiset([3, 2, 1]);
    SortedOnce(true, Ranks(Drained(true, s)), [3, 2, 1]);
  }

  lemma SortedRanksToo<T>(max: bool, order: seq<(T, int)>)
    requires Sorted(max, order)
    ensures SortedRanks(max, Ranks(order))
  {
  }
}
