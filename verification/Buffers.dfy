/** The buffers and the buffer pool of src/buffer.c on the heap. Buffer operations change an array
    and two marks in place and are proved against BufferModel; the pool hands out buffers through
    the recycling queue. */
module Buffers {
  import opened BufferModel
  import opened QueueModel
  import opened Queues
  import PoolModel

  class Buffer {
    const size: nat
    const data: array<byte>
    var position: int
    var limit: int
    var pool: BufferPool?

    ghost function View(): Buf
      reads this, data
    {
      Buf(size, data[..], position, limit)
    }

    ghost predicate Valid()
      reads this, data
    {
      Sound(View())
    }

    /** NewBuffer. */
    constructor (size: nat)
      ensures Valid() && View() == NewBuf(size) && pool == null && fresh(data)
    {
      this.size := size;
      data := new byte[size + 2](_ => 0);
      position, limit := 0, size;
      pool := null;
    }

    method Flip()
      requires Valid()
      modifies this
      ensures Valid() && View() == BufferModel.Flip(old(View())) && pool == old(pool)
      ensures limit == old(position) && position == 0
    {
      limit := position;
      position := 0;
    }

    /** BufferPosition, which checks the upper bound only. */
    method SetPosition(position: int) returns (ok: bool)
      requires Valid()
      modifies this
      ensures Valid() <==> !ok || position >= 0
      ensures (View(), ok) == BufferModel.SetPosition(old(View()), position) && pool == old(pool)
      ensures ok <==> position <= limit
      ensures this.position == (if ok then position else old(this.position)) && limit == old(limit)
    {
      if position > limit {
        return false;
      }
      this.position := position;
      return true;
    }

    /** BufferLimit, likewise. */
    method SetLimit(limit: int) returns (ok: bool)
      requires Valid()
      modifies this
      ensures Valid() <==> !ok || limit >= 0
      ensures (View(), ok) == BufferModel.SetLimit(old(View()), limit) && pool == old(pool)
      ensures ok <==> limit <= size
      ensures this.limit == (if ok then limit else old(this.limit)) && position == old(position)
    {
      if limit > size {
        return false;
      }
      this.limit := limit;
      return true;
    }

    method Reset()
      requires Valid()
      modifies this, data
      ensures Valid() && View() == BufferModel.Reset(old(View())) && pool == old(pool)
      ensures position == 0 && limit == size && forall i :: 0 <= i < size ==> data[i] == 0
    {
      forall i | 0 <= i < size {
        data[i] := 0;
      }
      position := 0;
      limit := size;
      assert data[..] == Overwrite(old(data[..]), 0, Zeros(size));
    }

    /** memcpy(&data[at], bytes, size). */
    method Write(at: nat, bytes: seq<byte>)
      requires at + |bytes| <= data.Length
      modifies data
      ensures data[..] == Overwrite(old(data[..]), at, bytes)
    {
      forall i | 0 <= i < |bytes| {
        data[at + i] := bytes[i];
      }
    }

    /** BufferCopy. */
    method CopyFrom(src: Buffer)
      requires Valid() && src.Valid() && src != this && src.data != data
      requires src.position <= src.limit && src.limit - src.position <= size
      modifies this, data
      ensures Valid() && View() == BufferModel.Copy(old(View()), src.View()) && pool == old(pool)
      ensures Content(View()) == Content(src.View())
      ensures position == 0 && limit == src.limit - src.position && forall i :: limit <= i < size ==> data[i] == 0
    {
      CopyTakesContent(View(), src.View());
      Reset();
      Write(0, src.data[src.position..src.limit]);
      var ok := SetLimit(src.limit - src.position);
    }

    /** BufferGet. */
    method Get(size: nat) returns (ok: bool, out: seq<byte>)
      requires Valid()
      modifies `position
      ensures Valid() && (View(), ok, out) == BufferModel.Get(old(View()), size)
      ensures ok <==> old(position) + size <= limit
      ensures if ok then position == old(position) + size && out == data[old(position)..position] else position == old(position)
    {
      if position + size > limit {
        return false, [];
      }
      out := data[position..position + size];
      position := position + size;
      ok := true;
    }

    /** BufferPut. */
    method Put(bytes: seq<byte>) returns (ok: bool)
      requires Valid()
      modifies `position, data
      ensures Valid() && (View(), ok) == BufferModel.Put(old(View()), bytes)
      ensures ok <==> old(position) + |bytes| <= limit
      ensures if ok then position == old(position) + |bytes| && data[old(position)..position] == bytes
              else position == old(position) && data[..] == old(data[..])
    {
      if position + |bytes| > limit {
        return false;
      }
      Write(position, bytes);
      position := position + |bytes|;
      ok := true;
    }

    /** strlen(&data[position]); the two zeros past the capacity stop the scan. */
    method StrLen() returns (n: nat)
      requires Valid()
      ensures data[size] == 0 && position + n == NulFrom(data[..], position)
    {
      assert data[..][size] == 0;
      n := 0;
      while data[position + n] != 0
        invariant position + n <= size
        invariant forall i :: position <= i < position + n ==> data[i] != 0
        decreases size - position - n
      {
        n := n + 1;
      }
    }

    /** BufferGetString; `start` is the index the returned pointer points to. */
    method GetString() returns (start: nat)
      requires Valid()
      modifies `position, data
      ensures Valid() && start == old(position) && data[size] == 0
      ensures (View(), CString(data[..], start)) == BufferModel.GetString(old(View()))
      ensures limit == old(limit) && 0 <= position <= limit
    {
      assert data[..][size] == 0;
      var len := StrLen();
      len := len + 1;
      start := position;
      ghost var before := data[..];
      var step: int := len;
      if len > limit - position {
        step := limit - position;
        data[limit] := 0;
        data[limit + 1] := 0;
        assert data[..] == before[limit := 0][limit + 1 := 0];
        assert data[..][size] == 0;
      }
      position := position + step;
    }

    /** BufferPutString. */
    method PutString(chars: seq<byte>) returns (ok: bool)
      requires Valid() && position <= limit && NoNul(chars)
      modifies `position, data
      ensures Valid() && (View(), ok) == BufferModel.PutString(old(View()), chars)
      ensures ok <==> old(position) + |chars| + 1 <= limit
      ensures if ok then position == old(position) + |chars| + 1 && data[old(position)..position] == chars + [0]
              else position == old(position) && data[..] == old(data[..])
    {
      if |chars| >= limit - position {
        return false;
      }
      Write(position, chars + [0]);
      position := position + |chars| + 1;
      ok := true;
    }
  }

  class BufferPool {
    const buffers: Queue<Buffer>
    const batch: nat
    const bufferSize: nat
    ghost var stock: seq<Buffer> // the buffers in the pool, in queue order
    ghost var out: set<Buffer>   // the buffers handed out and not yet released

    /** A buffer is in the pool or handed out, never both; no two share their bytes; and the
        pool's are as good as new. */
    ghost predicate Holds()
      reads this, buffers, buffers.Repr, stock, set b | b in stock :: b.data
    {
      && buffers.Valid() && !buffers.exit && this !in buffers.Repr
      && batch == PoolModel.BATCH_SIZE
      && buffers.items == PoolModel.Datas(stock)
      && (forall i :: 0 <= i < |stock| ==> Spare(stock[i]))
      && (forall i, j :: 0 <= i < j < |stock| ==> stock[i] != stock[j] && stock[i].data != stock[j].data)
      && (forall b <- out :: Own(b) && forall i :: 0 <= i < |stock| ==> stock[i] != b && stock[i].data != b.data)
      && (forall b <- out, c <- out :: b != c ==> b.data != c.data)
    }

    /** Besides, the buffers ever made are a whole number of batches. */
    ghost predicate Valid()
      reads this, buffers, buffers.Repr, stock, set b | b in stock :: b.data
    {
      Holds() && (|stock| + |out|) % PoolModel.BATCH_SIZE == 0
    }

    /** Not part of the queue's own structure. */
    ghost predicate Own(b: Buffer)
      reads buffers
    {
      b !in buffers.Repr && b.data !in buffers.Repr && b.size == bufferSize
    }

    ghost predicate Spare(b: Buffer)
      reads buffers, b, b.data
    {
      Own(b) && b.pool == this && b.View() == NewBuf(bufferSize)
    }

    /** NewBufferPool. */
    constructor (bufferSize: nat)
      ensures Valid() && fresh(buffers.Repr) && out == {} && |stock| == PoolModel.BATCH_SIZE
      ensures this.bufferSize == bufferSize
    {
      this.bufferSize := bufferSize;
      batch := PoolModel.BATCH_SIZE;
      buffers := new Queue();
      stock, out := [], {};
      new;
      FillFirst();
    }

    /** The loop of NewBufferPool. */
    method FillFirst()
      requires Holds() && stock == [] && out == {}
      modifies `stock, buffers.Repr
      ensures Valid() && |stock| == PoolModel.BATCH_SIZE && fresh(buffers.Repr - old(buffers.Repr))
    {
      hide Queue.Valid, Spare, Own;
      var i := 0;
      while i < PoolModel.BATCH_SIZE
        invariant i <= PoolModel.BATCH_SIZE && |stock| == i && Holds() && fresh(buffers.Repr - old(buffers.Repr))
      {
        AddNew();
        i := i + 1;
      }
    }

    /** One round of the refill loop, and of NewBufferPool's. */
    method AddNew()
      requires Holds()
      modifies `stock, buffers.Repr
      ensures Holds() && fresh(buffers.Repr - old(buffers.Repr))
      ensures |stock| == |old(stock)| + 1 && stock[..|old(stock)|] == old(stock)
      ensures var b := stock[|old(stock)|]; fresh(b) && fresh(b.data)
      ensures buffers.emptied == old(buffers.emptied)
    {
      hide Queue.Valid;
      var b := new Buffer(bufferSize);
      b.pool := this;
      var ok := buffers.Enqueue(DataItem(b));
      stock := stock + [b];
    }

    /** The refill loop of AllocateBuffer. */
    method Refill()
      requires Holds() && !buffers.emptied
      modifies `stock, buffers.Repr
      ensures Holds() && fresh(buffers.Repr - old(buffers.Repr)) && !buffers.emptied
      ensures |stock| == |old(stock)| + PoolModel.BATCH_SIZE && stock[..|old(stock)|] == old(stock)
      ensures forall k :: |old(stock)| <= k < |stock| ==> fresh(stock[k]) && fresh(stock[k].data)
    {
      hide Queue.Valid, Spare, Own;
      var i := 0;
      ghost var n := |stock|;
      while i < batch
        invariant i <= batch && Holds() && !buffers.emptied && fresh(buffers.Repr - old(buffers.Repr))
        invariant |stock| == n + i && stock[..n] == old(stock)
        invariant forall k :: n <= k < |stock| ==> fresh(stock[k]) && fresh(stock[k].data)
      {
        ghost var before := stock;
        AddNew();
        assert stock[..n] == before[..n];
        assert forall k :: n <= k < |before| ==> stock[k] == before[k];
        i := i + 1;
      }
    }

    /** A Dequeue of the pool, with the buffer it hands out. */
    method Take() returns (dequeued: bool, buffer: Buffer?)
      requires Holds()
      modifies `stock, `out, buffers.Repr
      ensures Holds() && buffers.Repr == old(buffers.Repr)
      ensures dequeued <==> !old(buffers.emptied) && old(stock) != []
      ensures !dequeued ==> stock == old(stock) && out == old(out) && !buffers.emptied
      ensures dequeued ==> buffer == old(stock)[0] && stock == old(stock)[1..] && out == old(out) + {buffer}
      ensures dequeued ==> buffer.View() == NewBuf(bufferSize) && buffer.pool == this && buffer !in old(out)
    {
      hide Queue.Valid;
      buffer := null;
      var item;
      dequeued, item := buffers.Dequeue();
      if dequeued {
        buffer := item.data;
        out := out + {buffer};
        stock := stock[1..];
      }
    }

    /** AllocateBuffer: never null. What it hands out is as good as new, comes off the front of the
        pool, and is not handed out to anyone else. */
    method Allocate() returns (buffer: Buffer)
      requires Valid()
      modifies this, buffers.Repr
      ensures Valid() && fresh(buffers.Repr - old(buffers.Repr))
      ensures buffer.View() == NewBuf(bufferSize) && buffer.pool == this
      ensures buffer !in old(out) && out == old(out) + {buffer} && buffer !in stock
      ensures if old(buffers.emptied) || old(stock) == []
        then |stock| == |old(stock)| + PoolModel.BATCH_SIZE - 1 && ([buffer] + stock)[..|old(stock)|] == old(stock)
        else [buffer] + stock == old(stock)
      ensures buffer in old(stock) || (fresh(buffer) && fresh(buffer.data))
    {
      hide Queue.Valid, Spare, Own;
      var dequeued, taken := Take();
      if !dequeued {
        Refill();
        ghost var refilled := stock;
        dequeued, taken := Take();
        if !dequeued {
          assert false;
        }
        assert [taken] + stock == refilled;
      }
      buffer := taken;
    }

    /** ReleaseBuffer on a buffer that was handed out by this pool. */
    method Release(buffer: Buffer)
      requires Valid() && buffer in out && buffer.Valid() && buffer.pool == this
      modifies this, buffers.Repr, buffer, buffer.data
      ensures Valid() && fresh(buffers.Repr - old(buffers.Repr))
      ensures out == old(out) - {buffer} && stock == old(stock) + [buffer]
    {
      hide Queue.Valid;
      ResetIsNew(buffer);
      buffer.Reset();
      assert Holds();
      PutBack(buffer);
    }

    lemma ResetIsNew(b: Buffer)
      requires b.Valid()
      ensures BufferModel.Reset(b.View()) == NewBuf(b.size)
    {
      var r := BufferModel.Reset(b.View());
      assert r.data == Zeros(b.size + 2);
    }

    /** The Enqueue of ReleaseBuffer. */
    method PutBack(buffer: Buffer)
      requires Holds() && buffer in out && Spare(buffer)
      modifies `stock, `out, buffers.Repr
      ensures Holds() && fresh(buffers.Repr - old(buffers.Repr))
      ensures out == old(out) - {buffer} && stock == old(stock) + [buffer]
    {
      hide Queue.Valid;
      var ok := buffers.Enqueue(DataItem(buffer));
      out := out - {buffer};
      stock := stock + [buffer];
    }
  }
}
