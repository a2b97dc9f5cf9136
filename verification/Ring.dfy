/** The bounded ring of one worker: an array with head, tail and count that is a FIFO sequence. */
module Ring {
  import Bits

  const PROCESS_BATCH_SIZE := 2

  /** The i-th cell from `head`, wrapping at the end of the array. */
  function Slot(head: nat, i: nat, n: nat): (slot: nat)
    requires head < n && i <= n
    ensures slot < n
  {
    if head + i < n then head + i else head + i - n
  }

  lemma Remainder(k: nat, n: nat, q: nat)
    requires 0 < n && q * n <= k < q * n + n
    ensures k % n == k - q * n
  {
    Bits.DivisionIsUnique(k, n, q, k - q * n);
    assert k == k / n * n + k % n;
  }

  lemma SlotIsModular(head: nat, i: nat, n: nat)
    requires head < n && i <= n
    ensures Slot(head, i, n) == (head + i) % n
  {
    Remainder(head + i, n, if head + i < n then 0 else 1);
  }

  function Contents<T>(cells: seq<T>, head: nat, count: nat): (c: seq<T>)
    requires head < |cells| && count <= |cells|
    ensures |c| == count
  {
    seq(count, i requires 0 <= i < count => cells[Slot(head, i, |cells|)])
  }

  /** Writing at the tail appends; no occupied cell is touched. */
  lemma PushAppends<T>(cells: seq<T>, head: nat, count: nat, x: T)
    requires head < |cells| && count < |cells|
    ensures var tail := Slot(head, count, |cells|);
            Contents(cells[tail := x], head, count + 1) == Contents(cells, head, count) + [x]
  {
    forall i | 0 <= i < count
      ensures Slot(head, i, |cells|) != Slot(head, count, |cells|)
    {
    }
  }

  /** Moving the head removes the oldest item and leaves the tail where it was. */
  lemma PopDrops<T>(cells: seq<T>, head: nat, count: nat)
    requires head < |cells| && 0 < count <= |cells|
    ensures var next := Slot(head, 1, |cells|);
            && [cells[head]] + Contents(cells, next, count - 1) == Contents(cells, head, count)
            && Slot(next, count - 1, |cells|) == Slot(head, count, |cells|)
  {
    var next := Slot(head, 1, |cells|);
    forall i | 0 <= i < count - 1
      ensures Slot(next, i, |cells|) == Slot(head, i + 1, |cells|)
    {
    }
  }

  class WorkerRing<T(0)> {
    const items: array<T>
    var head: nat
    var tail: nat
    var count: nat

    ghost predicate Valid()
      reads this, items
    {
      && head < items.Length
      && count <= items.Length
      && tail == Slot(head, count, items.Length)
    }

    ghost function Sequence(): seq<T>
      requires Valid()
      reads this, items
    {
      Contents(items[..], head, count)
    }

    constructor (size: nat)
      requires 0 < size
      ensures Valid() && Sequence() == [] && items.Length == size && fresh(items)
    {
      items := new T[size];
      head, tail, count := 0, 0, 0;
    }

    /** One producer, once there is space. */
    method Put(x: T)
      requires Valid() && count < items.Length
      modifies this, items
      ensures Valid() && Sequence() == old(Sequence()) + [x]
    {
      PushAppends(items[..], head, count, x);
      SlotIsModular(tail, 1, items.Length);
      items[tail] := x;
      tail := (tail + 1) % items.Length;
      count := count + 1;
    }

    /** The consumer empties at most a batch under the lock. */
    method TakeBatch() returns (batch: seq<T>)
      requires Valid()
      modifies this
      ensures Valid()
      ensures |batch| == if old(count) > PROCESS_BATCH_SIZE then PROCESS_BATCH_SIZE else old(count)
      ensures batch + Sequence() == old(Sequence())
    {
      var size := if count > PROCESS_BATCH_SIZE then PROCESS_BATCH_SIZE else count;
      batch := [];
      for i := 0 to size
        invariant Valid() && |batch| == i && count == old(count) - i
        invariant batch + Sequence() == old(Sequence())
      {
        PopDrops(items[..], head, count);
        SlotIsModular(head, 1, items.Length);
        ghost var rest := Contents(items[..], Slot(head, 1, items.Length), count - 1);
        assert batch + ([items[head]] + rest) == (batch + [items[head]]) + rest;
        batch := batch + [items[head]];
        head := (head + 1) % items.Length;
        count := count - 1;
      }
    }
  }
}
