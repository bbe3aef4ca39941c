/** The bounded byte FIFO that carries one direction of a virtual console
    (`ConsoleQueue<CAPACITY>`). The mutex and the two condition variables only
    serialise the operations below; each operation is modelled as the atomic
    step it is under the lock. */
module Queue {
  import opened Bits

  class ConsoleQueue {
    /** CAPACITY: the most bytes the queue ever holds. */
    const capacity: nat
    /** queue_: the queued bytes, front first. */
    var items: seq<u8>

    ghost predicate Valid()
      reads this
    {
      |items| <= capacity
    }

    constructor (capacity: nat)
      ensures Valid()
      ensures this.capacity == capacity && items == []
    {
      this.capacity := capacity;
      items := [];
    }

    /** available(): the number of bytes waiting to be read. */
    function Available(): (n: nat)
      reads this
      ensures Valid() ==> n <= capacity
    {
      |items|
    }

    /** space(): room left; together with Available() it always makes up the capacity. */
    function Space(): (n: nat)
      reads this
      requires Valid()
      ensures Available() + n == capacity
    {
      capacity - |items|
    }

    /** empty(): nothing to read. */
    function Empty(): (b: bool)
      reads this
      requires Valid()
      ensures b <==> Available() == 0
      ensures b <==> Space() == capacity
    {
      |items| == 0
    }

    /** full(): no room to write. */
    function Full(): (b: bool)
      reads this
      requires Valid()
      ensures b <==> Available() >= capacity
      ensures b <==> Space() == 0
    {
      |items| >= capacity
    }

    /** try_read(): -1 when empty, otherwise the front byte, which is removed. */
    method TryRead() returns (r: int)
      requires Valid()
      modifies this
      ensures Valid()
      ensures old(items) == [] ==> r == -1 && items == old(items)
      ensures old(items) != [] ==> r == old(items)[0] && items == old(items)[1..]
    {
      if items == [] {
        return -1;
      }
      r := items[0];
      items := items[1..];
    }

    /** try_write(ch): false when full, otherwise `ch` joins the back. */
    method TryWrite(ch: u8) returns (ok: bool)
      requires Valid()
      modifies this
      ensures Valid()
      ensures ok <==> |old(items)| < capacity
      ensures items == if ok then old(items) + [ch] else old(items)
    {
      if |items| >= capacity {
        return false;
      }
      items := items + [ch];
      ok := true;
    }

    /** read(timeout_ms) seen from a single thread: with no timeout the wait
        returns only once a byte is there, so the caller must see one; with a
        timeout an empty queue stays empty until the deadline and gives -1. */
    method Read(timeoutMs: nat) returns (r: int)
      requires Valid()
      requires timeoutMs == 0 ==> items != []
      modifies this
      ensures Valid()
      ensures old(items) == [] ==> r == -1 && items == old(items)
      ensures old(items) != [] ==> r == old(items)[0] && items == old(items)[1..]
    {
      if items == [] {
        return -1;
      }
      r := items[0];
      items := items[1..];
    }

    /** write(ch, timeout_ms) seen from a single thread: with no timeout the
        wait returns only once there is room; with a timeout a full queue stays
        full until the deadline and gives false. */
    method Write(ch: u8, timeoutMs: nat) returns (ok: bool)
      requires Valid()
      requires timeoutMs == 0 ==> |items| < capacity
      modifies this
      ensures Valid()
      ensures ok <==> |old(items)| < capacity
      ensures items == if ok then old(items) + [ch] else old(items)
    {
      if |items| >= capacity {
        return false;
      }
      items := items + [ch];
      ok := true;
    }

    /** write_some(data, len): appends as many of the first `len` bytes as fit. */
    method WriteSome(data: seq<u8>, len: nat) returns (count: nat)
      requires Valid()
      requires len <= |data|
      modifies this
      ensures Valid()
      ensures count == if len <= capacity - |old(items)| then len else capacity - |old(items)|
      ensures items == old(items) + data[..count]
    {
      count := 0;
      while count < len && |items| < capacity
        invariant Valid()
        invariant count <= len
        invariant |items| == |old(items)| + count
        invariant items == old(items) + data[..count]
      {
        items := items + [data[count]];
        count := count + 1;
      }
    }

    /** read_some(data, max_len): moves up to `max_len` bytes, in order, into `data[0..count)`. */
    method ReadSome(data: array<u8>, maxLen: nat) returns (count: nat)
      requires Valid()
      requires maxLen <= data.Length
      modifies this, data
      ensures Valid()
      ensures count == if maxLen <= |old(items)| then maxLen else |old(items)|
      ensures data[..count] == old(items)[..count]
      ensures data[count..] == old(data[count..])
      ensures items == old(items)[count..]
    {
      ghost var before := data[..];
      count := 0;
      while count < maxLen && items != []
        invariant Valid()
        invariant count <= maxLen
        invariant count <= |old(items)|
        invariant items == old(items)[count..]
        invariant data[..count] == old(items)[..count]
        invariant forall k :: count <= k < data.Length ==> data[k] == before[k]
      {
        data[count] := items[0];
        items := items[1..];
        count := count + 1;
      }
      assert data[count..] == before[count..];
    }

    /** clear(): pops until nothing is left. */
    method Clear()
      requires Valid()
      modifies this
      ensures Valid()
      ensures items == [] && Available() == 0 && Space() == capacity
    {
      while items != []
        invariant Valid()
        decreases |items|
      {
        items := items[1..];
      }
    }
  }

  /** FIFO order: bytes written one by one into an empty queue with room for
      them all come back out of TryRead in the order they went in. */
  method FifoRoundTrip(capacity: nat, xs: seq<u8>) returns (ys: seq<u8>)
    requires |xs| <= capacity
    ensures ys == xs
  {
    var q := new ConsoleQueue(capacity);
    var i := 0;
    while i < |xs|
      invariant i <= |xs|
      invariant q.Valid() && q.capacity == capacity
      invariant q.items == xs[..i]
    {
      var ok := q.TryWrite(xs[i]);
      i := i + 1;
    }
    ys := [];
    while |ys| < |xs|
      invariant |ys| <= |xs|
      invariant q.Valid()
      invariant q.items == xs[|ys|..]
      invariant ys == xs[..|ys|]
    {
      var r := q.TryRead();
      ys := ys + [r as u8];
    }
  }
}
