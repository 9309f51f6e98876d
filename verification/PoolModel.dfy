/** The buffer pool of src/buffer.c as a value: a queue of spare buffers that is refilled by a
    batch when a Dequeue fails. */
module PoolModel {
  import opened QueueModel

  const BATCH_SIZE: nat := 16

  ghost predicate AllData<T>(items: seq<QueueItem<T>>) {
    forall i :: 0 <= i < |items| ==> items[i].DataItem?
  }

  function Datas<T>(buffers: seq<T>): (items: seq<QueueItem<T>>)
    ensures |items| == |buffers|
  {
    seq(|buffers|, i requires 0 <= i < |buffers| => DataItem(buffers[i]))
  }

  /** The refill loop: the new buffers are enqueued one by one. */
  function AddBatch<T>(q: QState<T>, batch: seq<T>): QState<T>
    decreases |batch|
  {
    if batch == [] then q else AddBatch(Enqueue(q, DataItem(batch[0])).0, batch[1..])
  }

  /** AllocateBuffer; None is NULL. `batch` is what is made if the first Dequeue fails. */
  function Allocate<T>(q: QState<T>, batch: seq<T>): (QState<T>, Option<QueueItem<T>>) {
    var (q1, r) := Dequeue(q);
    if r.Some? then (q1, r) else Dequeue(AddBatch(q1, batch))
  }

  /** The pool is refilled when it is empty, and also when its last emptying is unreported. */
  predicate Refills<T>(q: QState<T>) {
    Dequeue(q).1.None?
  }

  lemma {:induction false} AddBatchAppends<T>(q: QState<T>, batch: seq<T>)
    requires !q.exit
    ensures var q' := AddBatch(q, batch);
      q'.items == q.items + Datas(batch) && q'.emptied == q.emptied && !q'.exit
    decreases |batch|
  {
    if batch == [] {
      assert q.items + Datas(batch) == q.items;
    } else {
      var q1 := Enqueue(q, DataItem(batch[0])).0;
      AddBatchAppends(q1, batch[1..]);
      assert q.items + Datas(batch) == q1.items + Datas(batch[1..]);
    }
  }

  /** AllocateBuffer never returns NULL: a false Dequeue leaves the flag clear, so the one after
      the refill succeeds. The buffer comes off the front and nothing else leaves the pool. */
  lemma AllocateSucceeds<T>(q: QState<T>, batch: seq<T>)
    requires !q.exit && |batch| > 0 && AllData(q.items)
    ensures var (q', r) := Allocate(q, batch);
      && r.Some? && r.value.DataItem? && !q'.exit && AllData(q'.items)
      && [r.value] + q'.items == q.items + (if Refills(q) then Datas(batch) else [])
  {
    AddBatchAppends(Dequeue(q).0, batch);
    assert Refills(q) ==> AllData(q.items + Datas(batch));
  }
}
