/** The priority queue (`utils/priority_queue/priority_queue.go`) over the array heap. */
module PriorityQueues {
  import opened Heap

  class HeapQueue<T> {
    var items: seq<QueueItem<T>>
    const max: bool

    constructor (max: bool)
      ensures items == [] && this.max == max
    {
      items := [];
      this.max := max;
    }

    predicate Less(i: nat, j: nat)
      reads this
      requires i < |items| && j < |items|
    {
      Heap.Less(max, items[i].priority, items[j].priority)
    }

    method Swap(i: nat, j: nat)
      requires i < |items| && j < |items|
      modifies this
      ensures items == Heap.Swap(old(items), i, j)
    {
      items := items[i := items[j]][j := items[i]];
      items := items[i := items[i].(index := i)];
      items := items[j := items[j].(index := j)];
    }

    method Push(item: QueueItem<T>)
      modifies this
      ensures items == old(items) + [item.(index := |old(items)|)]
    {
      var n := |items|;
      items := items + [item.(index := n)];
    }

    method Pop() returns (item: QueueItem<T>)
      requires items != []
      modifies this
      ensures items == old(items)[..|old(items)| - 1] && item == old(items)[|old(items)| - 1].(index := -1)
    {
      var n := |items|;
      item := items[n - 1].(index := -1);
      items := items[..n - 1];
    }

    /** `up` of `container/heap`. */
    method Up(start: nat)
      requires start < |items|
      modifies this
      ensures items == SiftUp(max, old(items), start)
    {
      var j: nat := start;
      while true
        invariant j < |items| && SiftUp(max, items, j) == SiftUp(max, old(items), start)
        decreases j
      {
        var i := Parent(j);
        if i == j || !Less(j, i) {
          break;
        }
        Swap(i, j);
        j := i;
      }
    }

    method FirstChild(i: nat, n: nat) returns (j: nat)
      requires 2 * i + 1 < n <= |items|
      ensures i < j < n && j == Child(max, items, i, n)
    {
      j := 2 * i + 1;
      var j2 := j + 1;
      if j2 < n && Less(j2, j) {
        j := j2;
      }
    }

    /** `down` of `container/heap`. */
    method Down(start: nat, n: nat)
      requires start < n <= |items| || n == 0
      modifies this
      ensures |items| == |old(items)| && items == SiftDown(max, old(items), start, n)
    {
      var i := start;
      while true
        invariant |items| == |old(items)| && (i < n <= |items| || n == 0)
        invariant SiftDown(max, items, i, n) == SiftDown(max, old(items), start, n)
        decreases n - i
      {
        if 2 * i + 1 >= n {
          break;
        }
        var j := FirstChild(i, n);
        if !Less(j, i) {
          break;
        }
        Swap(i, j);
        i := j;
      }
    }

    /** `heap.Push`. */
    method HeapPush(item: QueueItem<T>)
      modifies this
      ensures items == Pushed(max, old(items), item)
    {
      Push(item);
      Up(|items| - 1);
    }

    /** `heap.Pop`. */
    method HeapPop() returns (item: QueueItem<T>)
      requires items != []
      modifies this
      ensures (items, item) == Popped(max, old(items))
    {
      var n := |items| - 1;
      Swap(0, n);
      Down(0, n);
      item := Pop();
    }
  }

  class PriorityQueue<T> {
    const queue: HeapQueue<T>

    /** What the queue holds, whatever the order of the array. */
    ghost function Contents(): multiset<(T, int)>
      reads queue
    {
      multiset(Entries(queue.items))
    }

    ghost predicate Valid()
      reads queue
    {
      Heap.Valid(queue.max, queue.items)
    }

    constructor NewMaxPriorityQueue()
      ensures Valid() && fresh(queue) && queue.max && Contents() == multiset{}
    {
      queue := new HeapQueue(true);
    }

    constructor NewMinPriorityQueue()
      ensures Valid() && fresh(queue) && !queue.max && Contents() == multiset{}
    {
      queue := new HeapQueue(false);
    }

    method Push(item: QueueItem<T>) returns (size: nat)
      requires Valid()
      modifies queue
      ensures Valid() && queue.items == Pushed(queue.max, old(queue.items), item)
      ensures Contents() == old(Contents()) + multiset{(item.item, item.priority)} && size == |Contents()|
    {
      PushKeeps(queue.max, queue.items, item);
      queue.HeapPush(item);
      size := |queue.items|;
    }

    /** Panics on an empty queue. */
    method Pop() returns (item: T, size: nat, ghost priority: int)
      requires Valid() && queue.items != []
      modifies queue
      ensures Valid() && queue.items == Popped(queue.max, old(queue.items)).0
      ensures (item, priority) == Entry(Popped(queue.max, old(queue.items)).1)
      ensures (item, priority) in old(Contents()) && First(queue.max, old(Contents()), priority)
      ensures forall e <- old(Contents()) :: if queue.max then e.1 <= priority else priority <= e.1
      ensures Contents() == old(Contents()) - multiset{(item, priority)} && size == |queue.items| == |old(queue.items)| - 1
    {
      PopKeeps(queue.max, queue.items);
      PopTakes(queue.max, queue.items);
      var popped := queue.HeapPop();
      item, size, priority := popped.item, |queue.items|, popped.priority;
    }

    method Size() returns (size: nat)
      ensures size == |Contents()|
    {
      size := |queue.items|;
    }

    /** The items of a permutation of the contents whose first entry is the one the next pop returns. */
    method GetSnapshot() returns (snapshot: seq<T>)
      requires Valid()
      ensures exists order: seq<(T, int)> :: ListsItems(order, snapshot) && multiset(order) == Contents()
                              && (order != [] ==> First(queue.max, Contents(), order[0].1)
                                                  && order[0] == Drained(queue.max, queue.items)[0])
    {
      snapshot := [];
      var i := 0;
      while i < |queue.items|
        invariant i == |snapshot| <= |queue.items|
        invariant forall k :: 0 <= k < i ==> snapshot[k] == queue.items[k].item
      {
        snapshot := snapshot + [queue.items[i].item];
        i := i + 1;
      }
      ghost var order := Entries(queue.items);
      assert ListsItems(order, snapshot);
      if snapshot != [] {
        RootFirst(queue.max, queue.items);
        SnapshotStartsRight(queue.max, queue.items);
      }
    }
  }

  ghost predicate ListsItems<T>(order: seq<(T, int)>, items: seq<T>) {
    |order| == |items| && forall k :: 0 <= k < |items| ==> items[k] == order[k].0
  }
}
