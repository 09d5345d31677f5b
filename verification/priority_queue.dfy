/**
 * `OrderedPriorityQueue`: a priority queue whose entries are the triples
 * `(priority, sequence number, element)`. The underlying binary heap is
 * abstracted to a sequence from which the least entry, in the order of the
 * pair (priority, sequence number), is removed.
 */
module PriorityQueue {
  import opened Wrappers

  /** The priority `put` uses when none is given. */
  const DefaultPriority: int := 5

  datatype Entry<T> = Entry(priority: int, order: nat, item: T)

  /** The queue's entries in insertion order, and the next sequence number. */
  datatype Queue<T> = Queue(entries: seq<Entry<T>>, counter: nat)

  /** What `get` returns (`element`, `priority`) together with the queue it leaves. */
  datatype Taken<T> = Taken(item: T, priority: int, rest: Queue<T>)

  /**
   * Tuple order on `(priority, sequence number)`: numerically lower
   * priorities come first, and equal priorities in sequence order.
   */
  predicate Before<T>(a: Entry<T>, b: Entry<T>) {
    a.priority < b.priority || (a.priority == b.priority && a.order < b.order)
  }

  /** Sequence numbers are below the counter and pairwise distinct. */
  ghost predicate WellFormed<T>(q: Queue<T>) {
    && (forall i :: 0 <= i < |q.entries| ==> q.entries[i].order < q.counter)
    && (forall i, j :: 0 <= i < j < |q.entries| ==> q.entries[i].order != q.entries[j].order)
  }

  /** A fresh queue: no entries, counter 0. */
  function Empty<T>(): (q: Queue<T>)
    ensures WellFormed(q) && |q.entries| == 0
  {
    Queue([], 0)
  }

  function Size<T>(q: Queue<T>): nat {
    |q.entries|
  }

  /** `put(element, priority)`: the entry carries the current counter, which then grows by one. */
  function Put<T>(q: Queue<T>, item: T, priority: int): (r: Queue<T>)
    ensures r.counter == q.counter + 1
    ensures Size(r) == Size(q) + 1
    ensures r.entries[Size(q)] == Entry(priority, q.counter, item)
    ensures r.entries[..Size(q)] == q.entries
  {
    Queue(q.entries + [Entry(priority, q.counter, item)], q.counter + 1)
  }

  lemma PutWellFormed<T>(q: Queue<T>, item: T, priority: int)
    requires WellFormed(q)
    ensures WellFormed(Put(q, item, priority))
  {
  }

  /** Position of an entry that no other entry precedes. */
  function MinIndex<T>(es: seq<Entry<T>>): (k: nat)
    requires |es| > 0
    ensures k < |es|
    ensures forall i :: 0 <= i < |es| ==> !Before(es[i], es[k])
  {
    if |es| == 1 then 0
    else
      var k := MinIndex(es[..|es| - 1]);
      assert forall i :: 0 <= i < |es| - 1 ==> es[..|es| - 1][i] == es[i];
      if Before(es[|es| - 1], es[k]) then |es| - 1 else k
  }

  function RemoveAt<T>(es: seq<Entry<T>>, k: nat): (r: seq<Entry<T>>)
    requires k < |es|
    ensures |r| == |es| - 1
    ensures forall i :: 0 <= i < |r| ==> r[i] == if i < k then es[i] else es[i + 1]
  {
    es[..k] + es[k + 1..]
  }

  lemma RemoveAtMultiset<T>(es: seq<Entry<T>>, k: nat)
    requires k < |es|
    ensures multiset(RemoveAt(es, k)) + multiset{es[k]} == multiset(es)
  {
    assert es == es[..k] + [es[k]] + es[k + 1..];
  }

  /**
   * `get()`: removes and returns the least entry; on an empty queue the
   * timed variant raises `queue.Empty`.
   */
  function Get<T>(q: Queue<T>): (r: Result<Taken<T>>)
    ensures Size(q) == 0 <==> r.Err?
    ensures r.Err? ==> r.error == QueueEmpty
    ensures r.Ok? ==> r.value.rest.counter == q.counter && Size(r.value.rest) == Size(q) - 1
  {
    if |q.entries| == 0 then Err(QueueEmpty)
    else
      var k := MinIndex(q.entries);
      var e := q.entries[k];
      Ok(Taken(e.item, e.priority, Queue(RemoveAt(q.entries, k), q.counter)))
  }

  /** `get` returns an entry no other entry precedes, and leaves exactly the other entries. */
  lemma GetLeast<T>(q: Queue<T>)
    requires Size(q) > 0
    ensures var r := Get(q).value;
            exists k :: 0 <= k < Size(q) && Taken(q.entries[k].item, q.entries[k].priority, r.rest) == r
                        && (forall i :: 0 <= i < Size(q) ==> !Before(q.entries[i], q.entries[k]))
                        && multiset(r.rest.entries) + multiset{q.entries[k]} == multiset(q.entries)
  {
    var k := MinIndex(q.entries);
    RemoveAtMultiset(q.entries, k);
  }

  lemma GetWellFormed<T>(q: Queue<T>)
    requires WellFormed(q) && Get(q).Ok?
    ensures WellFormed(Get(q).value.rest)
  {
    var k := MinIndex(q.entries);
    var es := q.entries;
    var r := RemoveAt(es, k);
    assert forall i :: 0 <= i < |r| ==> r[i] == (if i < k then es[i] else es[i + 1]);
  }

  /** The entry `get` takes precedes every other entry of a well-formed queue. */
  lemma GetTakesLeast<T>(q: Queue<T>)
    requires WellFormed(q) && Size(q) > 0
    ensures var k := MinIndex(q.entries);
            forall i :: 0 <= i < Size(q) && i != k ==> Before(q.entries[k], q.entries[i])
  {
  }

  /** The entries in the order repeated `get` calls return them. */
  function Drain<T>(q: Queue<T>): (d: seq<Entry<T>>)
    ensures |d| == Size(q)
    decreases Size(q)
  {
    if Size(q) == 0 then []
    else
      var k := MinIndex(q.entries);
      [q.entries[k]] + Drain(Queue(RemoveAt(q.entries, k), q.counter))
  }

  /** One `get` takes the least entry; the rest drain from what it leaves. */
  lemma DrainStep<T>(q: Queue<T>)
    requires Size(q) > 0
    ensures Drain(q) == [q.entries[MinIndex(q.entries)]] + Drain(Queue(RemoveAt(q.entries, MinIndex(q.entries)), q.counter))
  {
  }

  /** The item `get` returns is the first drained, and the rest drains as the remaining queue. */
  lemma GetDrains<T>(q: Queue<T>)
    requires Size(q) > 0
    ensures Items(Drain(q)) == [Get(q).value.item] + Items(Drain(Get(q).value.rest))
  {
    var k := MinIndex(q.entries);
    DrainStep(q);
    ItemsCons(q.entries[k], Drain(Get(q).value.rest));
  }

  lemma ItemsCons<T>(e: Entry<T>, d: seq<Entry<T>>)
    ensures Items([e] + d) == [e.item] + Items(d)
  {
    assert ([e] + d)[1..] == d;
  }

  function Items<T>(es: seq<Entry<T>>): (xs: seq<T>)
    ensures |xs| == |es|
    ensures forall i :: 0 <= i < |es| ==> xs[i] == es[i].item
  {
    if |es| == 0 then [] else [es[0].item] + Items(es[1..])
  }

  predicate Sorted<T>(d: seq<Entry<T>>) {
    forall i, j :: 0 <= i < j < |d| ==> Before(d[i], d[j])
  }

  /** In a well-formed queue the least entry precedes every entry left after its removal. */
  lemma LeastPrecedesRest<T>(q: Queue<T>)
    requires WellFormed(q) && Size(q) > 0
    ensures var k := MinIndex(q.entries);
            forall x :: x in RemoveAt(q.entries, k) ==> Before(q.entries[k], x)
  {
    var es := q.entries;
    var k := MinIndex(es);
    var r := RemoveAt(es, k);
    forall x | x in r
      ensures Before(es[k], x)
    {
      var m :| 0 <= m < |r| && r[m] == x;
      assert r[m] == (if m < k then es[m] else es[m + 1]);
    }
  }

  /** Draining a well-formed queue returns all of its entries, strictly ordered by (priority, sequence number). */
  lemma {:induction false} DrainSorted<T>(q: Queue<T>)
    requires WellFormed(q)
    ensures multiset(Drain(q)) == multiset(q.entries)
    ensures Sorted(Drain(q))
    decreases Size(q)
  {
    if Size(q) > 0 {
      var es := q.entries;
      var k := MinIndex(es);
      var rest := Queue(RemoveAt(es, k), q.counter);
      GetWellFormed(q);
      RemoveAtMultiset(es, k);
      DrainSorted(rest);
      LeastPrecedesRest(q);
      var tail := Drain(rest);
      DrainStep(q);
      forall j | 0 <= j < |tail|
        ensures Before(es[k], tail[j])
      {
        assert tail[j] in multiset(tail);
        assert tail[j] in multiset(rest.entries);
      }
      SortedCons(es[k], tail);
      assert multiset([es[k]] + tail) == multiset{es[k]} + multiset(tail);
    }
  }

  lemma SortedCons<T>(e: Entry<T>, d: seq<Entry<T>>)
    requires Sorted(d)
    requires forall j :: 0 <= j < |d| ==> Before(e, d[j])
    ensures Sorted([e] + d)
  {
    var s := [e] + d;
    forall i, j | 0 <= i < j < |s|
      ensures Before(s[i], s[j])
    {
      assert s[j] == d[j - 1];
      if i > 0 {
        assert s[i] == d[i - 1];
      }
    }
  }

  /** `put` of each element in turn with one priority. */
  function PutAll<T>(q: Queue<T>, xs: seq<T>, priority: int): (r: Queue<T>)
    ensures r.counter == q.counter + |xs|
    ensures Size(r) == Size(q) + |xs|
    ensures r.entries[..Size(q)] == q.entries
    ensures forall i :: 0 <= i < |xs| ==> r.entries[Size(q) + i] == Entry(priority, q.counter + i, xs[i])
    decreases |xs|
  {
    if |xs| == 0 then q
    else
      var r := PutAll(Put(q, xs[0], priority), xs[1..], priority);
      assert forall i :: 1 <= i < |xs| ==> xs[1..][i - 1] == xs[i];
      r
  }

  /** Entries of one priority, in increasing sequence order. */
  ghost predicate SamePriorityFifo<T>(es: seq<Entry<T>>, priority: int) {
    && (forall i :: 0 <= i < |es| ==> es[i].priority == priority)
    && (forall i, j :: 0 <= i < j < |es| ==> es[i].order < es[j].order)
  }

  /** Equal-priority entries leave in the order they were put. */
  lemma {:induction false} DrainFifo<T>(q: Queue<T>, priority: int)
    requires SamePriorityFifo(q.entries, priority)
    ensures Drain(q) == q.entries
    decreases Size(q)
  {
    if Size(q) > 0 {
      var rest := Queue(q.entries[1..], q.counter);
      FifoHead(q.entries, priority);
      DrainFifo(rest, priority);
      DrainStep(q);
      HeadTail(q.entries);
    }
  }

  /** In a one-priority FIFO run the first entry is the least, and the rest is again such a run. */
  lemma FifoHead<T>(es: seq<Entry<T>>, priority: int)
    requires |es| > 0 && SamePriorityFifo(es, priority)
    ensures MinIndex(es) == 0 && RemoveAt(es, 0) == es[1..]
    ensures SamePriorityFifo(es[1..], priority)
  {
    FifoLeast(es, priority);
    RemoveFirst(es);
    FifoTail(es, priority);
  }

  lemma FifoLeast<T>(es: seq<Entry<T>>, priority: int)
    requires |es| > 0 && SamePriorityFifo(es, priority)
    ensures MinIndex(es) == 0
  {
    var k := MinIndex(es);
    assert !Before(es[0], es[k]);
  }

  lemma RemoveFirst<X>(es: seq<Entry<X>>)
    requires |es| > 0
    ensures RemoveAt(es, 0) == es[1..]
  {
  }

  lemma FifoTail<T>(es: seq<Entry<T>>, priority: int)
    requires |es| > 0 && SamePriorityFifo(es, priority)
    ensures SamePriorityFifo(es[1..], priority)
  {
    var t := es[1..];
    assert forall i :: 0 <= i < |t| ==> t[i] == es[i + 1];
  }

  /** Elements put with one priority into a fresh queue come back in the order they were put. */
  lemma PutAllDrain<T>(xs: seq<T>, priority: int)
    ensures Items(Drain(PutAll(Empty(), xs, priority))) == xs
  {
    var q := PutAll(Empty<T>(), xs, priority);
    assert |q.entries| == |xs|;
    assert forall i :: 0 <= i < |xs| ==> q.entries[i] == Entry(priority, i, xs[i]);
    assert SamePriorityFifo(q.entries, priority);
    DrainFifo(q, priority);
    assert Drain(q) == q.entries;
    assert forall i :: 0 <= i < |xs| ==> Items(q.entries)[i] == xs[i];
  }

  /** The module's self-test: ten default-priority puts of 0..9 come back as 0..9, and then the queue is empty. */
  lemma SelfTest()
    ensures var q := PutAll(Empty(), [0, 1, 2, 3, 4, 5, 6, 7, 8, 9], DefaultPriority);
            Items(Drain(q)) == [0, 1, 2, 3, 4, 5, 6, 7, 8, 9] && Size(q) == 10
  {
    PutAllDrain([0, 1, 2, 3, 4, 5, 6, 7, 8, 9], DefaultPriority);
  }

  /** Lower numbers first: an item put third with a lower priority overtakes the two before it. */
  lemma LowerPriorityFirst<T>(a: T, b: T, c: T, d: T, p: int, low: int)
    requires low < p
    ensures var q := Put(Put(Put(Put(Empty(), a, p), b, p), c, low), d, p);
            Items(Drain(q)) == [c, a, b, d]
  {
    var e := [Entry(p, 0, a), Entry(p, 1, b), Entry(low, 2, c), Entry(p, 3, d)];
    FourPuts(a, b, c, d, p, low);
    DrainLowThird(e, p, low);
    var xs := Items([e[2], e[0], e[1], e[3]]);
    SeqOfFour(xs);
  }

  lemma FourPuts<T>(a: T, b: T, c: T, d: T, p: int, low: int)
    ensures Put(Put(Put(Put(Empty(), a, p), b, p), c, low), d, p)
            == Queue([Entry(p, 0, a), Entry(p, 1, b), Entry(low, 2, c), Entry(p, 3, d)], 4)
  {
  }

  lemma DrainLowThird<T>(e: seq<Entry<T>>, p: int, low: int)
    requires |e| == 4 && low < p
    requires e[0].priority == p && e[1].priority == p && e[2].priority == low && e[3].priority == p
    requires e[0].order < e[1].order < e[3].order
    ensures Drain(Queue(e, 4)) == [e[2], e[0], e[1], e[3]]
  {
    LowEntryIsLeast(e, p, low);
    RemoveThird(e);
    var rest := Queue([e[0], e[1], e[3]], 4);
    FifoOfThree(e[0], e[1], e[3], p);
    DrainFifo(rest, p);
    DrainStep(Queue(e, 4));
    ConsThree(e[2], e[0], e[1], e[3]);
  }

  lemma ConsThree<X>(a: X, b: X, c: X, d: X)
    ensures [a] + [b, c, d] == [a, b, c, d]
  {
  }

  lemma FifoOfThree<T>(a: Entry<T>, b: Entry<T>, c: Entry<T>, p: int)
    requires a.priority == p && b.priority == p && c.priority == p
    requires a.order < b.order < c.order
    ensures SamePriorityFifo([a, b, c], p)
  {
  }

  lemma HeadTail<X>(s: seq<X>)
    requires |s| > 0
    ensures s == [s[0]] + s[1..]
  {
  }

  lemma SeqOfFour<T>(xs: seq<T>)
    requires |xs| == 4
    ensures xs == [xs[0], xs[1], xs[2], xs[3]]
  {
  }

  lemma LowEntryIsLeast<T>(e: seq<Entry<T>>, p: int, low: int)
    requires |e| == 4 && low < p
    requires e[0].priority == p && e[1].priority == p && e[2].priority == low && e[3].priority == p
    ensures MinIndex(e) == 2
  {
    var k := MinIndex(e);
    assert !Before(e[2], e[k]);
  }

  lemma RemoveThird<T>(e: seq<Entry<T>>)
    requires |e| == 4
    ensures RemoveAt(e, 2) == [e[0], e[1], e[3]]
  {
  }
}
